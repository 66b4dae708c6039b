/** The money side of an order (internal/payments): the down payment, what the
    ledger says was paid, and the fee the customer pays on top. Rupiah are whole
    numbers. */
module Payments {
  import opened Base

  // ----- Whole-number division, rounding up -----

  function CeilDiv(a: int, b: int): int
    requires b > 0
  {
    (a + b - 1) / b
  }

  /** Rounding up gives the least whole number that is enough. */
  lemma CeilDivIsLeast(a: int, b: int, n: int)
    requires b > 0
    ensures CeilDiv(a, b) <= n <==> a <= n * b
  {
    var x := a + b - 1;
    var q := x / b;
    assert x == q * b + x % b;
    if q <= n {
      MulMonotone(q, n, b);
    } else {
      MulMonotone(n + 1, q, b);
    }
  }

  lemma MulMonotone(a: int, b: int, c: int)
    requires a <= b && 0 <= c
    ensures a * c <= b * c
  {
  }

  lemma CeilDivMonotone(a: int, b: int, d: int)
    requires d > 0 && a <= b
    ensures CeilDiv(a, d) <= CeilDiv(b, d)
  {
    CeilDivIsLeast(b, d, CeilDiv(b, d));
    CeilDivIsLeast(a, d, CeilDiv(b, d));
  }

  // ----- The down payment -----

  const MAX_ORDER_TOTAL := 0x100_0000_0000

  datatype Policy = Policy(dpMinPercent: int, dpCoversCost: bool, dpMinTotal: int)

  /** The down payment locked at checkout; none for an invalid amount. */
  function DPRequired(p: Policy, total: int, cost: int): Option<int> {
    if !(1 <= p.dpMinPercent <= 100) then None
    else if total <= 0 || total > MAX_ORDER_TOTAL then None
    else if cost < 0 || cost > MAX_ORDER_TOTAL then None
    else
      var dp := CeilDiv(total * p.dpMinPercent, 100);
      Some(Min(if p.dpCoversCost then Max(dp, cost) else dp, total))
  }

  /** It is positive, at most the total, and the least such amount that is the
      promised share and covers the ingredients when the total can. */
  lemma DPIsTheLeastEnough(p: Policy, total: int, cost: int)
    requires DPRequired(p, total, cost).Some?
    ensures var dp := DPRequired(p, total, cost).value;
            && 0 < dp <= total
            && total * p.dpMinPercent <= dp * 100
            && (p.dpCoversCost ==> Min(cost, total) <= dp)
            && forall x :: x < dp ==> total * p.dpMinPercent > x * 100 || (p.dpCoversCost && x < cost)
  {
    var share := total * p.dpMinPercent;
    ShareIsPart(total, p.dpMinPercent);
    forall x: int ensures CeilDiv(share, 100) <= x <==> share <= x * 100 {
      CeilDivIsLeast(share, 100, x);
    }
    assert CeilDiv(share, 100) <= total && !(CeilDiv(share, 100) <= 0);
  }

  lemma ShareIsPart(total: int, percent: int)
    requires 0 < total && 1 <= percent <= 100
    ensures 0 < total * percent <= total * 100
  {
    MulMonotone(1, percent, total);
    MulMonotone(percent, 100, total);
  }

  /** A deposit can be locked for totals and costs up to 2^40 and a share of 1 to 100
      per cent. */
  lemma DPExactlyWhen(p: Policy, total: int, cost: int)
    ensures DPRequired(p, total, cost).Some? <==>
              1 <= p.dpMinPercent <= 100 && 0 < total <= 0x100_0000_0000 && 0 <= cost <= 0x100_0000_0000
  {
  }

  // ----- The fee -----

  datatype Method = QRIS | BankTransfer | EWallet | Minimarket

  datatype FeeRule = FeeRule(paidWith: Method, fixed: int, rate: int, vatIncluded: bool)

  const VAT_BPS := 1_100
  const BPS := 10_000
  const MAX_RATE := 5_000
  const MAX_FIXED := 1_000_000

  predicate ValidRule(r: FeeRule) { 0 <= r.fixed <= MAX_FIXED && 0 <= r.rate <= MAX_RATE }

  /** The fixed part always gets VAT; the rate only when it does not hold it. */
  function Fixed(r: FeeRule): int { CeilDiv(r.fixed * (BPS + VAT_BPS), BPS) }

  function Num(r: FeeRule): int { if r.vatIncluded then r.rate else r.rate * (BPS + VAT_BPS) }

  function Den(r: FeeRule): int { if r.vatIncluded then BPS else BPS * BPS }

  /** The provider's share of a gross, rounded up: its worst case. */
  function Cut(r: FeeRule, gross: int): int { CeilDiv(gross * Num(r), Den(r)) }

  /** What the provider leaves the shop of a gross covers the amount. */
  predicate Covers(r: FeeRule, amount: int, gross: int) { gross - Fixed(r) - Cut(r, gross) >= amount }

  /** A whole number just not below a fraction. */
  ghost predicate RoundedUp(n: int, a: int, b: int) { (n - 1) * b < a <= n * b }

  lemma CeilDivIsRoundedUp(a: int, b: int, n: int)
    requires b > 0
    ensures CeilDiv(a, b) == n <==> RoundedUp(n, a, b)
  {
    CeilDivIsLeast(a, b, n);
    CeilDivIsLeast(a, b, n - 1);
  }

  /** What a gross must hold: the amount, the fixed part with 11 % VAT on it, and the
      rate of the gross in hundredths of a per cent, with VAT on it unless it holds
      it already; each part in whole rupiah, rounded up. */
  lemma CoversExactlyWhen(r: FeeRule, amount: int, gross: int, fixed: int, cut: int)
    requires RoundedUp(fixed, r.fixed * 111, 100)
    requires if r.vatIncluded then RoundedUp(cut, gross * r.rate, 10_000)
             else RoundedUp(cut, gross * r.rate * 111, 1_000_000)
    ensures Covers(r, amount, gross) <==> gross >= amount + fixed + cut
  {
    CeilDivIsRoundedUp(r.fixed * (BPS + VAT_BPS), BPS, fixed);
    CeilDivIsRoundedUp(gross * Num(r), Den(r), cut);
    if !r.vatIncluded {
      assert gross * (r.rate * (BPS + VAT_BPS)) == gross * r.rate * 111 * 100;
    }
  }

  lemma RatesStayBelowAll(r: FeeRule)
    requires ValidRule(r)
    ensures 0 <= Num(r) && 0 < Den(r) - Num(r) && Den(r) <= 4 * (Den(r) - Num(r))
    ensures 0 <= Fixed(r) <= 2 * MAX_FIXED
  {
  }

  /** The exact solution, rounded up. */
  function Solution(r: FeeRule, amount: int): int
    requires Den(r) - Num(r) > 0
  {
    CeilDiv((amount + Fixed(r)) * Den(r), Den(r) - Num(r))
  }

  lemma Distribute(g: int, num: int, den: int, k: int)
    ensures g * num <= (g - k) * den <==> k * den <= g * (den - num)
  {
  }

  /** A gross covers the amount just when it reaches the exact solution, so the
      rounded cut never needs a correction. */
  lemma CoversFromTheSolutionOn(r: FeeRule, amount: int, gross: int)
    requires ValidRule(r)
    ensures Den(r) - Num(r) > 0
    ensures Covers(r, amount, gross) <==> Solution(r, amount) <= gross
  {
    RatesStayBelowAll(r);
    var needed := amount + Fixed(r);
    CeilDivIsLeast(gross * Num(r), Den(r), gross - needed);
    Distribute(gross, Num(r), Den(r), needed);
    CeilDivIsLeast(needed * Den(r), Den(r) - Num(r), gross);
  }

  lemma SomeGrossCovers(r: FeeRule, amount: int, from: int) returns (limit: int)
    requires ValidRule(r)
    ensures from <= limit && Covers(r, amount, limit)
  {
    RatesStayBelowAll(r);
    limit := Max(from, Solution(r, amount));
    CoversFromTheSolutionOn(r, amount, limit);
  }

  datatype FeeResult = Fee(fee: int) | InvalidRule | InvalidAmount

  function FeeOf(r: FeeRule, amount: int): FeeResult {
    if r.paidWith == QRIS then Fee(0)
    else if !ValidRule(r) then InvalidRule
    else if amount <= 0 || amount > MAX_ORDER_TOTAL then InvalidAmount
    else
      RatesStayBelowAll(r);
      Fee(Solution(r, amount) - amount)
  }

  /** The fee as the source computes it: from the exact solution, step until the
      rounded cut is covered. It is the least fee that leaves the whole amount. */
  method ComputeFee(r: FeeRule, amount: int) returns (result: FeeResult)
    ensures r.paidWith != QRIS ==>
              && (result == InvalidRule <==> !(0 <= r.fixed <= 1_000_000 && 0 <= r.rate <= 5_000))
              && (result == InvalidAmount <==> result != InvalidRule && !(0 < amount <= 0x100_0000_0000))
    ensures result == FeeOf(r, amount)
    ensures r.paidWith == QRIS ==> result == Fee(0)
    ensures result.Fee? && r.paidWith != QRIS ==>
              Covers(r, amount, amount + result.fee) && forall g :: g < amount + result.fee ==> !Covers(r, amount, g)
  {
    if r.paidWith == QRIS {
      return Fee(0);
    }
    if !ValidRule(r) {
      return InvalidRule;
    }
    if amount <= 0 || amount > MAX_ORDER_TOTAL {
      return InvalidAmount;
    }
    RatesStayBelowAll(r);
    var fixed := CeilDiv(r.fixed * (BPS + VAT_BPS), BPS);
    var num, den := r.rate, BPS;
    if !r.vatIncluded {
      num := num * (BPS + VAT_BPS);
      den := den * BPS;
    }
    var gross := CeilDiv((amount + fixed) * den, den - num);
    forall g | g < gross ensures !Covers(r, amount, g) {
      CoversFromTheSolutionOn(r, amount, g);
    }
    ghost var limit := SomeGrossCovers(r, amount, gross);
    while gross - fixed - CeilDiv(gross * num, den) < amount
      invariant gross <= limit
      invariant forall g :: g < gross ==> !Covers(r, amount, g)
      decreases limit - gross
    {
      gross := gross + 1;
    }
    CoversFromTheSolutionOn(r, amount, gross);
    CoversFromTheSolutionOn(r, amount, Solution(r, amount));
    result := Fee(gross - amount);
  }

  /** The gross stays far below 2^63, whatever rule the owner sets. */
  lemma GrossIsSmall(r: FeeRule, amount: int)
    requires ValidRule(r) && 0 < amount <= MAX_ORDER_TOTAL
    ensures Den(r) - Num(r) > 0 && amount <= Solution(r, amount) <= 4 * (MAX_ORDER_TOTAL + 2 * MAX_FIXED)
  {
    RatesStayBelowAll(r);
    var needed := amount + Fixed(r);
    CeilDivIsLeast(needed * Den(r), Den(r) - Num(r), 4 * needed);
    FourTimes(needed, Den(r), Den(r) - Num(r));
    CoversFromTheSolutionOn(r, amount, amount - 1);
    CeilDivIsLeast((amount - 1) * Num(r), Den(r), -1);
    MulMonotone(0, amount - 1, Num(r));
  }

  lemma FourTimes(needed: int, den: int, rest: int)
    requires 0 <= needed && den <= 4 * rest
    ensures needed * den <= 4 * needed * rest
  {
  }

  /** A larger amount never has a smaller fee. */
  lemma FeeGrowsWithTheAmount(r: FeeRule, less: int, more: int)
    requires ValidRule(r) && 0 < less <= more <= MAX_ORDER_TOTAL
    ensures Den(r) - Num(r) > 0
    ensures Solution(r, less) - less <= Solution(r, more) - more
  {
    RatesStayBelowAll(r);
    var gross, d := Solution(r, more), more - less;
    CoversFromTheSolutionOn(r, more, gross);
    MulMonotone(gross - d, gross, Num(r));
    CeilDivMonotone((gross - d) * Num(r), gross * Num(r), Den(r));
    CoversFromTheSolutionOn(r, less, gross - d);
  }
}
