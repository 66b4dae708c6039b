/** Runs of computations that overlap, as two workers' do, and runs that leave
    the past as it is. */
module AllocationRuns {
  import opened Base
  import opened Clock
  import opened Dates
  import opened Stock
  import opened ShoppingList
  import opened Backing
  import opened BatchNeeds
  import opened Allocation
  import opened AllocationLaws

  // ----- Where a date comes last -----

  ghost predicate ComesAgain(ds: seq<Date>, i: nat)
    requires i < |ds|
  {
    ds[i] in ds[i + 1..]
  }

  ghost predicate OnlyLaterFollow(ds: seq<Date>, i: nat)
    requires i < |ds|
  {
    forall j :: i < j < |ds| ==> ds[i] < ds[j]
  }

  /** After a date's last computation only later dates are computed. */
  ghost predicate LastsAscend(ds: seq<Date>) {
    forall i :: 0 <= i < |ds| ==> ComesAgain(ds, i) || OnlyLaterFollow(ds, i)
  }

  lemma {:induction false} SettledWhereLast(b: Batches, inp: Inputs, ds: seq<Date>, i: nat)
    requires i < |ds| && OnlyLaterFollow(ds, i)
    ensures Settled(RecomputedAll(b, inp, ds), inp, ds[i])
  {
    var front, last := ds[..|ds| - 1], ds[|ds| - 1];
    var mid := RecomputedAll(b, inp, front);
    if i == |front| {
      ComputingSettles(mid, inp, last);
    } else {
      SettledWhereLast(b, inp, front, i);
      LaterComputationsDoNotUnsettle(mid, inp, ds[i], last);
    }
  }

  lemma {:induction false} LastPlace(ds: seq<Date>, d: Date) returns (i: nat)
    requires d in ds
    ensures i < |ds| && ds[i] == d && d !in ds[i + 1..]
  {
    i := |ds| - 1;
    if ds[i] != d {
      i := LastPlace(ds[..i], d);
      assert ds[i + 1..] == ds[..|ds| - 1][i + 1..] + [ds[|ds| - 1]];
    }
  }

  lemma EveryDateSettles(b: Batches, inp: Inputs, ds: seq<Date>, d: Date)
    requires LastsAscend(ds) && d in ds
    ensures Settled(RecomputedAll(b, inp, ds), inp, d)
  {
    var i := LastPlace(ds, d);
    assert !ComesAgain(ds, i);
    SettledWhereLast(b, inp, ds, i);
  }

  // ----- What a run leaves is decided by what settles it -----

  /** Any stock makes the same list of two. */
  ghost predicate Alike(x: Lines, y: Lines, needs: map<Id, int>, packs: map<Id, Pack>) {
    && Touched(x) == Touched(y)
    && forall stock :: Rebuilt(x, needs, stock, packs) == Rebuilt(y, needs, stock, packs)
  }

  /** What computations leave of a date's batch, but for the stock it counts on. */
  ghost predicate ComputedFrom(b: Batches, c: Batches, inp: Inputs, d: Date) {
    && d in c
    && match inp.NeedsOf(d)
       case Known(needs) =>
         && c[d].status == BatchOf(b, d).status && !c[d].failed
         && Alike(LinesOf(b, d), c[d].lines, needs, inp.packs)
       case Broken => c[d] == BatchOf(b, d).(failed := true)
  }

  ghost predicate RunOf(b: Batches, c: Batches, inp: Inputs, ds: set<Date>) {
    && (forall d {:trigger ComputedFrom(b, c, inp, d)} :: d in ds ==> ComputedFrom(b, c, inp, d))
    && (forall d :: d !in ds ==> (d in c <==> d in b) && BatchOf(c, d) == BatchOf(b, d))
  }

  lemma RebuiltIsAlike(stored: Lines, needs: map<Id, int>, stock: map<Id, int>, packs: map<Id, Pack>)
    ensures Alike(stored, Rebuilt(stored, needs, stock, packs), needs, packs)
  {
    ComputingKeepsProcurement(stored, needs, stock, packs);
    forall later
      ensures Rebuilt(stored, needs, later, packs) == Rebuilt(Rebuilt(stored, needs, stock, packs), needs, later, packs)
    {
      LastComputationCounts(stored, needs, stock, later, packs);
    }
  }

  lemma FirstComputation(b: Batches, inp: Inputs, d: Date)
    ensures ComputedFrom(b, Recomputed(b, inp, d), inp, d)
  {
    match inp.NeedsOf(d)
    case Broken =>
    case Known(needs) =>
      RebuiltIsAlike(LinesOf(b, d), needs, FreeOf(b, inp, d, needs.Keys + Touched(LinesOf(b, d))), inp.packs);
  }

  lemma ComputedAgain(b: Batches, c: Batches, inp: Inputs, d: Date)
    requires ComputedFrom(b, c, inp, d)
    ensures ComputedFrom(b, Recomputed(c, inp, d), inp, d)
  {
    FirstComputation(c, inp, d);
  }

  lemma {:induction false} RunsCompute(b: Batches, inp: Inputs, ds: seq<Date>)
    ensures RunOf(b, RecomputedAll(b, inp, ds), inp, DatesIn(ds))
  {
    if ds != [] {
      var front, last := ds[..|ds| - 1], ds[|ds| - 1];
      var mid := RecomputedAll(b, inp, front);
      RunsCompute(b, inp, front);
      assert DatesIn(ds) == DatesIn(front) + {last} by {
        assert ds == front + [last];
      }
      OneMoreComputation(b, mid, inp, DatesIn(front), last);
    }
  }

  function DatesIn(ds: seq<Date>): set<Date> { set d | d in ds }

  lemma OneMoreComputation(b: Batches, c: Batches, inp: Inputs, ds: set<Date>, d: Date)
    requires RunOf(b, c, inp, ds)
    ensures RunOf(b, Recomputed(c, inp, d), inp, ds + {d})
  {
    var after := Recomputed(c, inp, d);
    if d in ds {
      assert ComputedFrom(b, c, inp, d);
      ComputedAgain(b, c, inp, d);
    } else {
      FirstComputation(c, inp, d);
      assert BatchOf(c, d) == BatchOf(b, d) && LinesOf(c, d) == LinesOf(b, d);
    }
    assert ComputedFrom(b, after, inp, d);
    forall e | e in ds + {d} ensures ComputedFrom(b, after, inp, e) {
      if e != d {
        assert ComputedFrom(b, c, inp, e);
      }
    }
  }

  /** Settled batches computed from the same ones, among the same earlier batches. */
  lemma SettledOnlyOneWay(b: Batches, c: Batches, e: Batches, inp: Inputs, d: Date)
    requires ComputedFrom(b, c, inp, d) && ComputedFrom(b, e, inp, d) && Settled(c, inp, d) && Settled(e, inp, d)
    requires forall x :: x < d ==> (x in c <==> x in e) && (x in c ==> c[x] == e[x])
    ensures c[d] == e[d]
  {
    assert c[d] == Recomputed(c, inp, d)[d] && e[d] == Recomputed(e, inp, d)[d];
    match inp.NeedsOf(d)
    case Broken =>
    case Known(needs) =>
      var ids := needs.Keys + Touched(LinesOf(b, d));
      EarlierBatchesDecide(c, e, inp, d, ids);
      assert LinesAfter(c, inp, d, needs) == LinesAfter(e, inp, d, needs);
  }

  ghost predicate SameUpTo(c: Batches, e: Batches, ds: seq<Date>, i: nat)
    requires i <= |ds|
  {
    forall k :: 0 <= k < i ==> ds[k] in c && ds[k] in e && c[ds[k]] == e[ds[k]]
  }

  ghost predicate AllSettled(b: Batches, inp: Inputs, dates: set<Date>) {
    forall d {:trigger Settled(b, inp, d)} :: d in dates ==> Settled(b, inp, d)
  }

  lemma {:induction false} SettledRunsAgree(
      b: Batches, c: Batches, e: Batches, inp: Inputs, dates: set<Date>, i: nat)
    requires RunOf(b, c, inp, dates) && RunOf(b, e, inp, dates) && i <= |Sorted(dates)|
    requires AllSettled(c, inp, dates) && AllSettled(e, inp, dates)
    ensures SameUpTo(c, e, Sorted(dates), i)
  {
    if i > 0 {
      SettledRunsAgree(b, c, e, inp, dates, i - 1);
      SameNext(b, c, e, inp, dates, i - 1);
    }
  }

  lemma SameNext(b: Batches, c: Batches, e: Batches, inp: Inputs, dates: set<Date>, i: nat)
    requires RunOf(b, c, inp, dates) && RunOf(b, e, inp, dates) && i < |Sorted(dates)|
    requires AllSettled(c, inp, dates) && AllSettled(e, inp, dates) && SameUpTo(c, e, Sorted(dates), i)
    ensures SameUpTo(c, e, Sorted(dates), i + 1)
  {
    var d := Sorted(dates)[i];
    assert d in dates by {
      SortedLists(dates);
      assert d in Sorted(dates);
    }
    forall x | x < d ensures (x in c <==> x in e) && (x in c ==> c[x] == e[x]) {
      SameBefore(b, c, e, inp, dates, i, x);
    }
    assert ComputedFrom(b, c, inp, d) && ComputedFrom(b, e, inp, d);
    assert Settled(c, inp, d) && Settled(e, inp, d);
    SettledOnlyOneWay(b, c, e, inp, d);
  }

  lemma SameBefore(b: Batches, c: Batches, e: Batches, inp: Inputs, dates: set<Date>, i: nat, x: Date)
    requires RunOf(b, c, inp, dates) && RunOf(b, e, inp, dates)
    requires i < |Sorted(dates)| && SameUpTo(c, e, Sorted(dates), i) && x < Sorted(dates)[i]
    ensures (x in c <==> x in e) && (x in c ==> c[x] == e[x])
  {
    SortedLists(dates);
    var ds := Sorted(dates);
    if x in dates {
      assert x in ds;
      var k :| 0 <= k < |ds| && ds[k] == x;
      assert k < i;
    } else {
      assert BatchOf(c, x) == BatchOf(b, x) && BatchOf(e, x) == BatchOf(b, x);
    }
  }

  /** Settling leaves no choice. */
  lemma SettledRunsAreOne(b: Batches, c: Batches, e: Batches, inp: Inputs, dates: set<Date>)
    requires RunOf(b, c, inp, dates) && RunOf(b, e, inp, dates)
    requires AllSettled(c, inp, dates) && AllSettled(e, inp, dates)
    ensures c == e
  {
    var ds := Sorted(dates);
    SettledRunsAgree(b, c, e, inp, dates, |ds|);
    SortedLists(dates);
    forall x ensures (x in c <==> x in e) && (x in c ==> c[x] == e[x]) {
      if x in dates {
        assert x in ds;
        var k :| 0 <= k < |ds| && ds[k] == x;
      } else {
        assert BatchOf(c, x) == BatchOf(b, x) && BatchOf(e, x) == BatchOf(b, x);
      }
    }
  }

  lemma RunsSettle(b: Batches, inp: Inputs, ds: seq<Date>)
    requires LastsAscend(ds)
    ensures AllSettled(RecomputedAll(b, inp, ds), inp, DatesIn(ds))
  {
    forall d | d in ds ensures Settled(RecomputedAll(b, inp, ds), inp, d) {
      EveryDateSettles(b, inp, ds, d);
    }
  }

  lemma AscendingLastsAscend(ds: seq<Date>)
    requires Ascending(ds)
    ensures LastsAscend(ds)
  {
    forall i | 0 <= i < |ds| ensures OnlyLaterFollow(ds, i) {
    }
  }

  /** Whatever the order, when only later dates come after each date's last
      computation, the batches end as one run over the dates leaves them. */
  lemma RunsAtOnce(b: Batches, inp: Inputs, ds: seq<Date>)
    requires LastsAscend(ds)
    ensures RecomputedAll(b, inp, ds) == RecomputedAll(b, inp, Sorted(DatesIn(ds)))
    ensures AllSettled(RecomputedAll(b, inp, ds), inp, DatesIn(ds))
  {
    var dates := DatesIn(ds);
    var one := Sorted(dates);
    SortedLists(dates);
    forall d ensures d in DatesIn(one) <==> d in dates {
      assert d in one <==> d in dates;
    }
    AscendingLastsAscend(one);
    RunsSettle(b, inp, ds);
    RunsSettle(b, inp, one);
    RunsCompute(b, inp, ds);
    RunsCompute(b, inp, one);
    SettledRunsAreOne(b, RecomputedAll(b, inp, ds), RecomputedAll(b, inp, one), inp, dates);
  }

  // ----- Two runs at once -----

  /** One computation at a time, from either run. */
  ghost predicate Interleaves(ds: seq<Date>, xs: seq<Date>, ys: seq<Date>) {
    if ds == [] then xs == [] && ys == []
    else
      || (xs != [] && xs[0] == ds[0] && Interleaves(ds[1..], xs[1..], ys))
      || (ys != [] && ys[0] == ds[0] && Interleaves(ds[1..], xs, ys[1..]))
  }

  lemma {:induction false} InterleavedDates(ds: seq<Date>, xs: seq<Date>, ys: seq<Date>)
    requires Interleaves(ds, xs, ys)
    ensures forall d :: d in ds <==> d in xs || d in ys
  {
    if ds != [] {
      assert ds == [ds[0]] + ds[1..];
      if xs != [] && xs[0] == ds[0] && Interleaves(ds[1..], xs[1..], ys) {
        InterleavedDates(ds[1..], xs[1..], ys);
        assert xs == [xs[0]] + xs[1..];
      } else {
        InterleavedDates(ds[1..], xs, ys[1..]);
        assert ys == [ys[0]] + ys[1..];
      }
    }
  }

  lemma DatesOfBoth(ds: seq<Date>, xs: seq<Date>, ys: seq<Date>)
    requires forall d :: d in ds <==> d in xs || d in ys
    ensures DatesIn(ds) == DatesIn(xs) + DatesIn(ys)
  {
    forall d ensures d in DatesIn(ds) <==> d in DatesIn(xs) + DatesIn(ys) {
      assert d in ds <==> d in xs || d in ys;
    }
  }

  lemma AscendingIsSorted(xs: seq<Date>)
    requires Ascending(xs)
    ensures Sorted(DatesIn(xs)) == xs
  {
    SortedLists(DatesIn(xs));
    forall d ensures d in xs <==> d in DatesIn(xs) {
    }
    SortedOnlyOneWay(Sorted(DatesIn(xs)), xs, DatesIn(xs));
  }

  lemma OneDateComputed(b: Batches, inp: Inputs, ds: seq<Date>)
    requires ds != []
    ensures RecomputedAll(b, inp, ds) == RecomputedAll(Recomputed(b, inp, ds[0]), inp, ds[1..])
  {
    RunInTwoParts(b, inp, [ds[0]], ds[1..]);
    assert ds == [ds[0]] + ds[1..];
    assert [ds[0]][..0] == [];
    assert RecomputedAll(b, inp, [ds[0]]) == Recomputed(RecomputedAll(b, inp, []), inp, ds[0]);
  }

  lemma ComputingKeepsSettled(b: Batches, inp: Inputs, done: set<Date>, d: Date)
    requires AllSettled(b, inp, done) && (d in done || forall e :: e in done ==> e < d)
    ensures AllSettled(Recomputed(b, inp, d), inp, done)
  {
    if d in done {
      assert Settled(b, inp, d);
    } else {
      forall e | e in done ensures Settled(Recomputed(b, inp, d), inp, e) {
        assert Settled(b, inp, e);
        LaterComputationsDoNotUnsettle(b, inp, e, d);
      }
    }
  }

  lemma NextOfTheRun(b: Batches, inp: Inputs, done: set<Date>, d: Date)
    requires AllSettled(b, inp, done) && d !in done && forall e :: e in done ==> e < d
    ensures AllSettled(Recomputed(b, inp, d), inp, done + {d})
  {
    ComputingKeepsSettled(b, inp, done, d);
    ComputingSettles(b, inp, d);
    forall e | e in done + {d} ensures Settled(Recomputed(b, inp, d), inp, e) {
    }
  }

  /** What a run in date order has settled stays so, while anyone else computes any
      of its dates. */
  lemma {:induction false} RestSettles(
      b: Batches, inp: Inputs, ds: seq<Date>, done: set<Date>, xs: seq<Date>, ys: seq<Date>)
    requires Interleaves(ds, xs, ys) && Ascending(xs) && AllSettled(b, inp, done)
    requires forall d, i :: d in done && 0 <= i < |xs| ==> d < xs[i]
    requires forall i :: 0 <= i < |ys| ==> ys[i] in done || ys[i] in xs
    ensures AllSettled(RecomputedAll(b, inp, ds), inp, done + DatesIn(xs))
    decreases |ds|
  {
    if ds == [] {
      assert done + DatesIn(xs) == done;
    } else {
      OneDateComputed(b, inp, ds);
      var mid := Recomputed(b, inp, ds[0]);
      if xs != [] && xs[0] == ds[0] && Interleaves(ds[1..], xs[1..], ys) {
        FirstAndRest(xs);
        NextOfTheRun(b, inp, done, xs[0]);
        RestSettles(mid, inp, ds[1..], done + {xs[0]}, xs[1..], ys);
        assert done + {xs[0]} + DatesIn(xs[1..]) == done + DatesIn(xs);
      } else {
        ComputingKeepsSettled(b, inp, done, ys[0]);
        RestSettles(mid, inp, ds[1..], done, xs, ys[1..]);
      }
    }
  }

  lemma FirstAndRest(xs: seq<Date>)
    requires xs != []
    ensures DatesIn(xs) == {xs[0]} + DatesIn(xs[1..])
    ensures forall d :: d in xs <==> d == xs[0] || d in xs[1..]
  {
    assert xs == [xs[0]] + xs[1..];
    forall d ensures d in DatesIn(xs) <==> d in {xs[0]} + DatesIn(xs[1..]) {
      assert d in xs <==> d == xs[0] || d in xs[1..];
    }
  }

  /** A run in date order leaves what it leaves alone, whoever computes its dates
      meanwhile, and however often. */
  lemma OthersOnItsDatesDoNotMatter(b: Batches, inp: Inputs, ds: seq<Date>, xs: seq<Date>, ys: seq<Date>)
    requires Interleaves(ds, xs, ys) && Ascending(xs) && DatesIn(ys) <= DatesIn(xs)
    ensures RecomputedAll(b, inp, ds) == RecomputedAll(b, inp, xs)
  {
    forall i | 0 <= i < |ys| ensures ys[i] in xs {
      assert ys[i] in DatesIn(ys);
    }
    RestSettles(b, inp, ds, {}, xs, ys);
    assert {} + DatesIn(xs) == DatesIn(xs);
    InterleavedDates(ds, xs, ys);
    DatesOfBoth(ds, xs, ys);
    RunsCompute(b, inp, ds);
    RunsCompute(b, inp, xs);
    AscendingLastsAscend(xs);
    RunsSettle(b, inp, xs);
    SettledRunsAreOne(b, RecomputedAll(b, inp, ds), RecomputedAll(b, inp, xs), inp, DatesIn(xs));
  }

  // ----- Runs that leave the past alone -----

  /** Claims from a date on, after those before it. */
  lemma LateClaimsByDate(b: Batches, from: Date, g: Id, i: nat)
    requires i < |Sorted(Upcoming(b, from))|
    ensures var ds := Sorted(Upcoming(b, from));
            ClaimedBefore(b, ds[i], g) == ClaimedBefore(b, from, g) + Sum(Claims(b, ds, g)[..i])
  {
    var ds := Sorted(Upcoming(b, from));
    var d := ds[i];
    var between := set e | e in Upcoming(b, from) && e < d;
    assert d in Upcoming(b, from) by {
      SortedLists(Upcoming(b, from));
      assert d in ds;
    }
    SortedPrefix(Upcoming(b, from), i);
    BeforeInTwoParts(b, from, d);
    SortedSplit(Before(b, from), between);
    ClaimsTogether(b, Sorted(Before(b, from)), Sorted(between), g);
    assert Claims(b, ds[..i], g) == Claims(b, ds, g)[..i];
  }

  lemma BeforeInTwoParts(b: Batches, from: Date, d: Date)
    requires from <= d
    ensures Before(b, d) == Before(b, from) + set e | e in Upcoming(b, from) && e < d
  {
  }

  ghost predicate UpToDateFrom(b: Batches, inp: Inputs, from: Date) {
    forall d {:trigger UpToDate(b, inp, d)} :: d in Upcoming(b, from) ==> UpToDate(b, inp, d)
  }

  /** What is usable less what earlier batches claim, right or wrong. */
  ghost function LeftBy(inp: Inputs, claimed: int, ds: seq<Date>, g: Id): (u: seq<int>)
    ensures |u| == |ds|
  {
    seq(|ds|, i requires 0 <= i < |ds| => inp.UsableOn(ds[i], g) - claimed)
  }

  lemma LateClaimIsFree(b: Batches, inp: Inputs, from: Date, g: Id, i: nat)
    requires UpToDateFrom(b, inp, from) && i < |Sorted(Upcoming(b, from))|
    ensures ClaimsWhatIsFree(b, inp, Sorted(Upcoming(b, from))[i], g)
  {
    var d := Sorted(Upcoming(b, from))[i];
    assert d in Upcoming(b, from) by {
      SortedLists(Upcoming(b, from));
      assert d in Sorted(Upcoming(b, from));
    }
    assert UpToDate(b, inp, d);
    ClaimWhenUpToDate(b, inp, d, g);
  }

  lemma LateClaimIsGreedy(b: Batches, inp: Inputs, from: Date, g: Id, i: nat)
    requires i < |Sorted(Upcoming(b, from))| && ClaimsWhatIsFree(b, inp, Sorted(Upcoming(b, from))[i], g)
    ensures var ds := Sorted(Upcoming(b, from));
            Claim(b, ds[i], g)
              == Min(Max(inp.UsableOn(ds[i], g) - ClaimedBefore(b, from, g) - Sum(Claims(b, ds, g)[..i]), 0),
                     inp.NeedOf(ds[i], g))
  {
    LateClaimsByDate(b, from, g, i);
  }

  lemma LateClaimsAreGreedy(b: Batches, inp: Inputs, from: Date, g: Id)
    requires UpToDateFrom(b, inp, from)
    ensures var ds := Sorted(Upcoming(b, from));
            Greedy(LeftBy(inp, ClaimedBefore(b, from, g), ds, g), NeededBy(inp, ds, g), Claims(b, ds, g))
  {
    var ds := Sorted(Upcoming(b, from));
    var left, needs := LeftBy(inp, ClaimedBefore(b, from, g), ds, g), NeededBy(inp, ds, g);
    var claims := Claims(b, ds, g);
    forall i | 0 <= i < |ds| ensures claims[i] == Min(Max(left[i] - Sum(claims[..i]), 0), needs[i]) {
      LateClaimIsFree(b, inp, from, g, i);
      LateClaimIsGreedy(b, inp, from, g, i);
    }
  }

  /** The claims from a date on can be backed by distinct grams, each from lots
      that count on its own date. */
  ghost predicate BackedFrom(b: Batches, inp: Inputs, from: Date, g: Id) {
    var ds := Sorted(Upcoming(b, from));
    exists plan :: Backs(plan, Shelf(inp.lots, inp.policies, g, inp.now), ds, Claims(b, ds, g))
  }

  lemma LateClaimsFit(b: Batches, inp: Inputs, from: Date, g: Id)
    requires UpToDateFrom(b, inp, from)
    ensures var ds := Sorted(Upcoming(b, from));
            Fits(Shelf(inp.lots, inp.policies, g, inp.now), ds, Claims(b, ds, g))
  {
    var shelf := Shelf(inp.lots, inp.policies, g, inp.now);
    var ds, claimed := Sorted(Upcoming(b, from)), ClaimedBefore(b, from, g);
    var left, needs, claims := LeftBy(inp, claimed, ds, g), NeededBy(inp, ds, g), Claims(b, ds, g);
    SortedLists(Upcoming(b, from));
    LateClaimsAreGreedy(b, inp, from, g);
    SumNonNegative(Claims(b, Sorted(Before(b, from)), g));
    forall i, j | 0 <= i < j < |ds| ensures left[j] <= left[i] {
      UsableFallsWithTheDate(inp.lots, inp.policies, g, ds[i], ds[j], inp.now);
    }
    forall i | 0 <= i < |ds| ensures Sum(claims[i..]) <= shelf.UsableOn(ds[i]) {
      GreedyClaimsFit(left, needs, claims, i);
      SumNonNegative(claims[..i]);
      SumNonNegative(shelf.AmountsOn(ds[i]));
    }
  }

  lemma LateClaimsCanBeBacked(b: Batches, inp: Inputs, from: Date, g: Id)
    requires UpToDateFrom(b, inp, from)
    ensures BackedFrom(b, inp, from, g)
  {
    var ds := Sorted(Upcoming(b, from));
    SortedLists(Upcoming(b, from));
    LateClaimsFit(b, inp, from, g);
    BackedExactlyWhenFitting(Shelf(inp.lots, inp.policies, g, inp.now), ds, Claims(b, ds, g));
  }

  /** A run over the upcoming batches leaves claims that can be backed, whatever
      the batches of the past still claim. */
  lemma UpcomingRunCanBeBacked(b: Batches, inp: Inputs, from: Date, g: Id)
    requires forall d :: d in Upcoming(b, from) ==> inp.NeedsOf(d).Known?
    ensures var after := RecomputedAll(b, inp, Sorted(Upcoming(b, from)));
            && Upcoming(after, from) == Upcoming(b, from) && UpToDateFrom(after, inp, from)
            && BackedFrom(after, inp, from, g)
  {
    var ds := Sorted(Upcoming(b, from));
    var after := RecomputedAll(b, inp, ds);
    SortedLists(Upcoming(b, from));
    UpcomingStay(b, inp, from);
    RunSettlesItsDates(b, inp, ds);
    forall d | d in Upcoming(after, from) ensures UpToDate(after, inp, d) {
      assert d in ds;
    }
    LateClaimsCanBeBacked(after, inp, from, g);
  }

  lemma UpcomingStay(b: Batches, inp: Inputs, from: Date)
    ensures Upcoming(RecomputedAll(b, inp, Sorted(Upcoming(b, from))), from) == Upcoming(b, from)
  {
    var ds := Sorted(Upcoming(b, from));
    SortedLists(Upcoming(b, from));
    forall d | d in ds ensures d in b {
      assert d in Upcoming(b, from);
    }
    RunsKeepStatuses(b, inp, ds);
    SameStatuses(b, RecomputedAll(b, inp, ds));
  }
}
