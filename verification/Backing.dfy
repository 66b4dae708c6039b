/** When several batches count on the same stock: a plan hands grams of lots
    to batches, and no gram serves two. Batches are listed by date, so the lots
    they may use are nested, and a plan exists exactly when the claims from
    every batch on fit in what that batch may use. */
module Backing {
  import opened Base
  import opened Clock
  import opened Dates
  import opened Stock
  import Fifo

  /** plan[i][l] is what batch i gets of lot l. */
  type Plan = seq<seq<int>>

  /** The stock of one ingredient at one moment. */
  datatype Shelf = Shelf(lots: seq<Lot>, policies: map<Id, Policy>, ingredient: Id, now: Instant) {
    predicate CountsOn(l: nat, date: Date)
      requires l < |lots|
    {
      Counts(lots[l], policies, ingredient, date, now)
    }

    function AmountsOn(date: Date): seq<int> { Amounts(lots, policies, ingredient, date, now) }

    function UsableOn(date: Date): int { UsableOf(lots, policies, ingredient, date, now) }
  }

  /** A batch gets its whole claim, only from lots that count on its date. */
  ghost predicate Serves(row: seq<int>, shelf: Shelf, date: Date, claim: int) {
    && |row| == |shelf.lots|
    && Sum(row) == claim
    && forall l :: 0 <= l < |row| ==> 0 <= row[l] && (row[l] > 0 ==> shelf.CountsOn(l, date))
  }

  /** What each lot gives over the whole plan. */
  ghost function Given(plan: Plan, n: nat): (given: seq<int>)
    requires forall i :: 0 <= i < |plan| ==> |plan[i]| == n
    ensures |given| == n
  {
    if plan == [] then seq(n, l => 0)
    else
      var rest := Given(plan[1..], n);
      seq(n, l requires 0 <= l < n => plan[0][l] + rest[l])
  }

  /** The plan serves every batch and gives no gram twice. */
  ghost predicate Backs(plan: Plan, shelf: Shelf, dates: seq<Date>, claims: seq<int>) {
    && |plan| == |dates| == |claims|
    && (forall i :: 0 <= i < |plan| ==> Serves(plan[i], shelf, dates[i], claims[i]))
    && forall l :: 0 <= l < |shelf.lots| ==> Given(plan, |shelf.lots|)[l] <= Max(shelf.lots[l].balance, 0)
  }

  /** From every batch on, the claims fit in what that batch may use. */
  ghost predicate Fits(shelf: Shelf, dates: seq<Date>, claims: seq<int>)
    requires |dates| == |claims|
  {
    forall i :: 0 <= i < |dates| ==> Sum(claims[i..]) <= shelf.UsableOn(dates[i])
  }

  /** Rows that serve dates from `date` on take only from lots that count on
      `date`, and add up to the claims. */
  lemma {:induction false} GivenFromCountable(plan: Plan, shelf: Shelf, dates: seq<Date>, claims: seq<int>, date: Date)
    requires |plan| == |dates| == |claims|
    requires forall i :: 0 <= i < |plan| ==> |plan[i]| == |shelf.lots| && Serves(plan[i], shelf, dates[i], claims[i])
    requires forall i :: 0 <= i < |plan| ==> date <= dates[i]
    ensures var given := Given(plan, |shelf.lots|);
            && Sum(given) == Sum(claims)
            && forall l :: 0 <= l < |given| ==> 0 <= given[l] && (given[l] > 0 ==> shelf.CountsOn(l, date))
  {
    var n := |shelf.lots|;
    if plan == [] {
      ZeroSum(Given(plan, n));
    } else {
      var rest := Given(plan[1..], n);
      GivenFromCountable(plan[1..], shelf, dates[1..], claims[1..], date);
      SumPointwise(plan[0], rest, Given(plan, n));
      forall l | 0 <= l < n && Given(plan, n)[l] > 0 ensures shelf.CountsOn(l, date) {
        if plan[0][l] > 0 {
          CountableOnEarlierDates(shelf.lots[l], shelf.policies[shelf.ingredient], date, dates[0], shelf.now);
        }
      }
    }
  }

  lemma {:induction false} ZeroSum(s: seq<int>)
    requires forall i :: 0 <= i < |s| ==> s[i] == 0
    ensures Sum(s) == 0
  {
    if s != [] {
      ZeroSum(s[1..]);
    }
  }

  /** The later batches are served first, by induction; what their lots still
      hold covers the earliest batch, which takes it first in, first out. */
  lemma {:induction false} FittingClaimsHaveAPlan(shelf: Shelf, dates: seq<Date>, claims: seq<int>) returns (plan: Plan)
    requires |dates| == |claims| && Ascending(dates)
    requires forall i :: 0 <= i < |claims| ==> 0 <= claims[i]
    requires Fits(shelf, dates, claims)
    ensures Backs(plan, shelf, dates, claims)
  {
    if dates == [] {
      return [];
    }
    var n := |shelf.lots|;
    assert claims[0..] == claims;
    forall i | 0 <= i < |dates[1..]| ensures Sum(claims[1..][i..]) <= shelf.UsableOn(dates[1..][i]) {
      assert claims[1..][i..] == claims[i + 1..];
    }
    var rest := FittingClaimsHaveAPlan(shelf, dates[1..], claims[1..]);
    var row := SpareServesTheFirst(shelf, dates, claims, rest);
    plan := [row] + rest;
    assert plan[1..] == rest;
    forall i | 0 <= i < |plan| ensures Serves(plan[i], shelf, dates[i], claims[i]) {
      if i > 0 {
        assert Serves(rest[i - 1], shelf, dates[1..][i - 1], claims[1..][i - 1]);
      }
    }
  }

  /** What the plan of the later batches leaves serves the earliest one. */
  lemma SpareServesTheFirst(shelf: Shelf, dates: seq<Date>, claims: seq<int>, rest: Plan) returns (row: seq<int>)
    requires |dates| == |claims| > 0 && Ascending(dates) && 0 <= claims[0]
    requires Sum(claims) <= shelf.UsableOn(dates[0])
    requires Backs(rest, shelf, dates[1..], claims[1..])
    ensures Serves(row, shelf, dates[0], claims[0])
    ensures forall l :: 0 <= l < |row| ==> row[l] + Given(rest, |row|)[l] <= Max(shelf.lots[l].balance, 0)
  {
    var n := |shelf.lots|;
    var given := Given(rest, n);
    GivenFromCountable(rest, shelf, dates[1..], claims[1..], dates[0]);
    var amounts := shelf.AmountsOn(dates[0]);
    var spare := seq(n, l requires 0 <= l < n => amounts[l] - given[l]);
    SumPointwise(given, spare, amounts);
    assert Fifo.NonNegative(spare);
    Fifo.TakesTotal(spare, claims[0]);
    row := Fifo.Takes(spare, claims[0]);
  }

  lemma {:induction false} PlansNeedFittingClaims(plan: Plan, shelf: Shelf, dates: seq<Date>, claims: seq<int>)
    requires |dates| == |claims| && Ascending(dates)
    requires Backs(plan, shelf, dates, claims)
    ensures Fits(shelf, dates, claims)
  {
    if dates != [] {
      var n := |shelf.lots|;
      GivenFromCountable(plan, shelf, dates, claims, dates[0]);
      SumMonotone(Given(plan, n), shelf.AmountsOn(dates[0]));
      assert claims[0..] == claims;
      assert Backs(plan[1..], shelf, dates[1..], claims[1..]) by {
        assert forall i :: 0 <= i < |plan[1..]| ==> plan[1..][i] == plan[i + 1];
        assert forall l :: 0 <= l < n ==> Given(plan, n)[l] == plan[0][l] + Given(plan[1..], n)[l];
      }
      PlansNeedFittingClaims(plan[1..], shelf, dates[1..], claims[1..]);
      forall i | 0 <= i < |dates| ensures Sum(claims[i..]) <= shelf.UsableOn(dates[i]) {
        if i > 0 {
          assert claims[i..] == claims[1..][i - 1..];
          assert dates[i] == dates[1..][i - 1];
        }
      }
    }
  }

  /** Claims can be backed exactly when they fit. */
  lemma BackedExactlyWhenFitting(shelf: Shelf, dates: seq<Date>, claims: seq<int>)
    requires |dates| == |claims| && Ascending(dates)
    requires forall i :: 0 <= i < |claims| ==> 0 <= claims[i]
    ensures (exists plan :: Backs(plan, shelf, dates, claims)) <==> Fits(shelf, dates, claims)
  {
    if plan :| Backs(plan, shelf, dates, claims) {
      PlansNeedFittingClaims(plan, shelf, dates, claims);
    }
    if Fits(shelf, dates, claims) {
      var plan := FittingClaimsHaveAPlan(shelf, dates, claims);
    }
  }
}
