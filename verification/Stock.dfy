/** What of the stock a batch may count on (internal/inventory/domain.go):
    lots, and which of them still count on a production date. */
module Stock {
  import opened Base
  import opened Clock

  datatype LotStatus = Available | Exhausted | Discarded | Expired

  /** How an ingredient's leftovers are trusted. */
  datatype Policy = Auto | Confirm | Never

  datatype Lot = Lot(
    id: Id, ingredient: Id, receivedAt: Instant, expiresAt: Option<Instant>,
    status: LotStatus, balance: int, lastOK: Option<Instant>)

  /** How long a "still good" check lets a perishable lot count. */
  const CHECK_VALID_FOR := 24 * HOUR

  predicate Countable(l: Lot, policy: Policy, date: Date, now: Instant) {
    && l.status == Available
    && l.balance > 0
    && (l.expiresAt.None? || l.expiresAt.value >= At(date + 1, 0))
    && match policy
       case Auto => true
       case Confirm => l.lastOK.Some? && l.lastOK.value <= now && now - l.lastOK.value <= CHECK_VALID_FOR
       case Never => false
  }

  /** When a lot does not count: it is not available or empty, it spoils before the
      production day is over, its ingredient is always bought fresh, or it perishes
      and nobody found it good in the last 24 hours. */
  lemma DoesNotCountExactlyWhen(l: Lot, policy: Policy, date: Date, now: Instant)
    ensures !Countable(l, policy, date, now) <==>
              || l.status != Available || l.balance <= 0
              || (l.expiresAt.Some? && l.expiresAt.value + JAKARTA < (date + 1) * DAY)
              || policy == Never
              || (policy == Confirm && (l.lastOK.None? || !(now - 24 * HOUR <= l.lastOK.value <= now)))
  {
  }

  /** Whether a lot counts as stock of g: an ingredient without a known policy
      counts nothing. */
  predicate Counts(l: Lot, policies: map<Id, Policy>, g: Id, date: Date, now: Instant) {
    l.ingredient == g && g in policies && Countable(l, policies[g], date, now)
  }

  function Amount(l: Lot, policies: map<Id, Policy>, g: Id, date: Date, now: Instant): (a: nat) {
    if Counts(l, policies, g, date, now) then l.balance else 0
  }

  /** What a lot counts as stock of g: all it holds, when it is of g, g is in the
      catalog and the lot lasts and was looked at as g's policy asks; else nothing. */
  lemma AmountIs(l: Lot, policies: map<Id, Policy>, g: Id, date: Date, now: Instant)
    ensures var seen := l.lastOK.Some? && now - 24 * HOUR <= l.lastOK.value <= now;
            var counts :=
              && l.ingredient == g && g in policies && l.status == Available && l.balance > 0
              && (l.expiresAt.None? || l.expiresAt.value + JAKARTA >= (date + 1) * DAY)
              && (policies[g] == Auto || (policies[g] == Confirm && seen));
            Amount(l, policies, g, date, now) == if counts then l.balance else 0
  {
    if g in policies {
      DoesNotCountExactlyWhen(l, policies[g], date, now);
    }
  }

  function Amounts(lots: seq<Lot>, policies: map<Id, Policy>, g: Id, date: Date, now: Instant): (r: seq<int>)
    ensures |r| == |lots|
  {
    seq(|lots|, i requires 0 <= i < |lots| => Amount(lots[i], policies, g, date, now))
  }

  function UsableOf(lots: seq<Lot>, policies: map<Id, Policy>, g: Id, date: Date, now: Instant): int {
    Sum(Amounts(lots, policies, g, date, now))
  }

  /** One pass over the lots gives every ingredient's usable stock. */
  method Usable(lots: seq<Lot>, policies: map<Id, Policy>, date: Date, now: Instant) returns (out: map<Id, int>)
    ensures forall g: Id :: Get(out, g) == UsableOf(lots, policies, g, date, now)
  {
    out := map[];
    for i := 0 to |lots|
      invariant forall g: Id :: Get(out, g) == UsableOf(lots[..i], policies, g, date, now)
    {
      var l := lots[i];
      ghost var before := out;
      if l.ingredient in policies && Countable(l, policies[l.ingredient], date, now) {
        out := out[l.ingredient := Get(out, l.ingredient) + l.balance];
      }
      forall g: Id ensures Get(out, g) == UsableOf(lots[..i + 1], policies, g, date, now) {
        assert lots[..i + 1] == lots[..i] + [l];
        UsableOfOneMore(lots[..i], l, policies, g, date, now);
        assert Get(before, g) == UsableOf(lots[..i], policies, g, date, now);
      }
    }
    assert lots[..|lots|] == lots;
  }

  lemma UsableOfOneMore(lots: seq<Lot>, l: Lot, policies: map<Id, Policy>, g: Id, date: Date, now: Instant)
    ensures UsableOf(lots + [l], policies, g, date, now)
         == UsableOf(lots, policies, g, date, now) + Amount(l, policies, g, date, now)
  {
    var a, b := Amounts(lots, policies, g, date, now), Amounts([l], policies, g, date, now);
    assert Amounts(lots + [l], policies, g, date, now) == a + b;
    SumConcat(a, b);
    assert b[1..] == [];
  }

  /** A lot that counts on a date counts on every earlier one: only expiry
      depends on the date. */
  lemma CountableOnEarlierDates(l: Lot, policy: Policy, earlier: Date, later: Date, now: Instant)
    requires earlier <= later
    ensures Countable(l, policy, later, now) ==> Countable(l, policy, earlier, now)
  {
  }

  /** So the stock usable on a date never grows with the date. */
  lemma UsableFallsWithTheDate(
      lots: seq<Lot>, policies: map<Id, Policy>, g: Id, earlier: Date, later: Date, now: Instant)
    requires earlier <= later
    ensures UsableOf(lots, policies, g, later, now) <= UsableOf(lots, policies, g, earlier, now)
  {
    forall l: Lot ensures Amount(l, policies, g, later, now) <= Amount(l, policies, g, earlier, now) {
      if g in policies {
        CountableOnEarlierDates(l, policies[g], earlier, later, now);
      }
    }
    SumMonotone(Amounts(lots, policies, g, later, now), Amounts(lots, policies, g, earlier, now));
  }
}
