/** What allocation by date promises: the claims of all batches can be backed
    by distinct grams, computing from a changed date on is as good as computing
    everything, and a larger need never takes from an earlier batch. */
module AllocationLaws {
  import opened Base
  import opened Clock
  import opened Dates
  import opened Stock
  import opened ShoppingList
  import opened Backing
  import opened BatchNeeds
  import opened Allocation

  /** Computing the batch again would change nothing. */
  ghost predicate Settled(b: Batches, inp: Inputs, d: Date) {
    d in b && Recomputed(b, inp, d) == b
  }

  /** Settled, and by a computation that succeeded. */
  ghost predicate UpToDate(b: Batches, inp: Inputs, d: Date) {
    Settled(b, inp, d) && inp.NeedsOf(d).Known?
  }

  ghost predicate AllUpToDate(b: Batches, inp: Inputs) {
    forall d {:trigger UpToDate(b, inp, d)} :: d in NotDone(b) ==> UpToDate(b, inp, d)
  }

  lemma ComputingSettles(b: Batches, inp: Inputs, d: Date)
    ensures Settled(Recomputed(b, inp, d), inp, d)
  {
    var c := Recomputed(b, inp, d);
    match inp.NeedsOf(d)
    case Broken =>
    case Known(needs) =>
      var stored := LinesOf(b, d);
      var ids := needs.Keys + Touched(stored);
      EarlierBatchesDecide(b, c, inp, d, ids);
      var free := FreeOf(b, inp, d, ids);
      ComputingTwiceIsComputingOnce(stored, needs, free, inp.packs);
      ComputingKeepsProcurement(stored, needs, free, inp.packs);
      assert LinesAfter(c, inp, d, needs) == c[d].lines;
  }

  /** The stock left to a batch for its whole list. */
  ghost predicate SameStockFor(b: Batches, c: Batches, inp: Inputs, d: Date, needs: map<Id, int>) {
    var ids := needs.Keys + Touched(LinesOf(b, d));
    FreeOf(c, inp, d, ids) == FreeOf(b, inp, d, ids)
  }

  lemma SameListAmongOthers(b: Batches, c: Batches, inp: Inputs, d: Date, needs: map<Id, int>)
    requires d in b && d in c && c[d] == b[d] && SameStockFor(b, c, inp, d, needs)
    requires WithList(b, inp, d, needs) == b
    ensures WithList(c, inp, d, needs) == c
  {
    assert LinesAfter(c, inp, d, needs) == LinesAfter(b, inp, d, needs);
    assert WithList(b, inp, d, needs)[d] == b[d];
    assert c[d := c[d]] == c;
  }

  /** A batch stays settled among other batches that leave it the same stock. */
  lemma SettledAmongOthers(b: Batches, c: Batches, inp: Inputs, d: Date)
    requires Settled(b, inp, d) && d in c && c[d] == b[d]
    requires inp.NeedsOf(d).Known? ==> SameStockFor(b, c, inp, d, inp.NeedsOf(d).qty)
    ensures Settled(c, inp, d)
  {
    match inp.NeedsOf(d)
    case Known(needs) => SameListAmongOthers(b, c, inp, d, needs);
    case Broken =>
      assert Recomputed(b, inp, d)[d] == b[d];
      assert c[d := c[d]] == c;
  }

  lemma LaterComputationsDoNotUnsettle(b: Batches, inp: Inputs, e: Date, d: Date)
    requires Settled(b, inp, e) && e < d
    ensures Settled(Recomputed(b, inp, d), inp, e)
  {
    var c := Recomputed(b, inp, d);
    assert e in c && c[e] == b[e];
    if inp.NeedsOf(e).Known? {
      EarlierBatchesDecide(b, c, inp, e, inp.NeedsOf(e).qty.Keys + Touched(LinesOf(b, e)));
    }
    SettledAmongOthers(b, c, inp, e);
  }

  /** A run in date order settles every date of the run, whether or not some
      of the computations fail. */
  lemma {:induction false} RunSettlesItsDates(b: Batches, inp: Inputs, ds: seq<Date>)
    requires Ascending(ds)
    ensures forall d {:trigger Settled(RecomputedAll(b, inp, ds), inp, d)} ::
              d in ds ==> Settled(RecomputedAll(b, inp, ds), inp, d)
  {
    if ds != [] {
      var front, last := ds[..|ds| - 1], ds[|ds| - 1];
      RunSettlesItsDates(b, inp, front);
      var mid := RecomputedAll(b, inp, front);
      ComputingSettles(mid, inp, last);
      forall d | d in ds ensures Settled(Recomputed(mid, inp, last), inp, d) {
        if d != last {
          assert d in front;
          LaterComputationsDoNotUnsettle(mid, inp, d, last);
        }
      }
    }
  }

  lemma {:induction false} OtherDatesAreKept(b: Batches, inp: Inputs, ds: seq<Date>, d: Date)
    requires d !in ds
    ensures var after := RecomputedAll(b, inp, ds); BatchOf(after, d) == BatchOf(b, d) && (d in after <==> d in b)
  {
    if ds != [] {
      OtherDatesAreKept(b, inp, ds[..|ds| - 1], d);
    }
  }

  lemma {:induction false} LaterRunsDoNotUnsettle(b: Batches, inp: Inputs, ds: seq<Date>, d: Date)
    requires Settled(b, inp, d) && forall i :: 0 <= i < |ds| ==> d < ds[i]
    ensures Settled(RecomputedAll(b, inp, ds), inp, d)
  {
    if ds != [] {
      LaterRunsDoNotUnsettle(b, inp, ds[..|ds| - 1], d);
      LaterComputationsDoNotUnsettle(RecomputedAll(b, inp, ds[..|ds| - 1]), inp, d, ds[|ds| - 1]);
    }
  }

  lemma {:induction false} SettledDatesStayAsTheyAre(b: Batches, inp: Inputs, ds: seq<Date>)
    requires forall d :: d in ds ==> Settled(b, inp, d)
    ensures RecomputedAll(b, inp, ds) == b
  {
    if ds != [] {
      assert ds[|ds| - 1] in ds;
      SettledDatesStayAsTheyAre(b, inp, ds[..|ds| - 1]);
    }
  }

  /** A second run over the same dates changes nothing. */
  lemma SecondRunChangesNothing(b: Batches, inp: Inputs, ds: seq<Date>)
    requires Ascending(ds)
    ensures var once := RecomputedAll(b, inp, ds); RecomputedAll(once, inp, ds) == once
  {
    RunSettlesItsDates(b, inp, ds);
    SettledDatesStayAsTheyAre(RecomputedAll(b, inp, ds), inp, ds);
  }

  lemma {:induction false} RunInTwoParts(b: Batches, inp: Inputs, ds: seq<Date>, es: seq<Date>)
    ensures RecomputedAll(b, inp, ds + es) == RecomputedAll(RecomputedAll(b, inp, ds), inp, es)
  {
    if es == [] {
      assert ds + es == ds;
    } else {
      var front := es[..|es| - 1];
      assert (ds + es)[..|ds + es| - 1] == ds + front;
      RunInTwoParts(b, inp, ds, front);
    }
  }

  /** The inputs differ at most in the orders of one date. */
  ghost predicate OnlyOrdersOf(date: Date, inp: Inputs, now: Inputs) {
    && now == inp.(items := now.items)
    && forall d :: d != date ==> inp.ItemsOn(d) == now.ItemsOn(d)
  }

  lemma SameItemsSettle(b: Batches, inp: Inputs, now: Inputs, d: Date)
    requires now == inp.(items := now.items) && inp.ItemsOn(d) == now.ItemsOn(d) && Settled(b, inp, d)
    ensures Settled(b, now, d)
  {
    match inp.NeedsOf(d)
    case Broken =>
    case Known(needs) =>
      FreeWithOtherOrders(b, inp, now, d, needs.Keys + Touched(b[d].lines));
      assert LinesAfter(b, inp, d, needs) == LinesAfter(b, now, d, needs);
      assert Recomputed(b, inp, d) == Recomputed(b, now, d);
  }

  /** What is free for a batch does not depend on what is ordered now. */
  lemma FreeWithOtherOrders(b: Batches, inp: Inputs, now: Inputs, d: Date, ids: set<Id>)
    requires now == inp.(items := now.items)
    ensures FreeOf(b, inp, d, ids) == FreeOf(b, now, d, ids)
  {
  }

  /** When only the orders of one date changed, computing from that date on
      leaves every batch exactly as computing all of them would. */
  lemma FromTheChangedDateIsEnough(b: Batches, inp: Inputs, now: Inputs, date: Date)
    requires OnlyOrdersOf(date, inp, now)
    requires forall d :: d in NotDone(b) && d < date ==> Settled(b, inp, d)
    ensures RecomputedAll(b, now, Sorted(Upcoming(b, date) + {date}))
         == RecomputedAll(b, now, Sorted(NotDone(b) + {date}))
  {
    var early, late := Before(b, date), Upcoming(b, date) + {date};
    assert early + late == NotDone(b) + {date};
    SortedSplit(early, late);
    RunInTwoParts(b, now, Sorted(early), Sorted(late));
    SortedLists(early);
    forall d | d in Sorted(early) ensures Settled(b, now, d) {
      SameItemsSettle(b, inp, now, d);
    }
    SettledDatesStayAsTheyAre(b, now, Sorted(early));
  }

  /** What an up-to-date batch claims: what is free for it, as far as it needs. */
  lemma ClaimWhenUpToDate(b: Batches, inp: Inputs, d: Date, g: Id)
    requires d in NotDone(b) && UpToDate(b, inp, d)
    ensures Claim(b, d, g) == Min(FreeFor(b, inp, d, g), inp.NeedOf(d, g))
  {
    var needs, stored := inp.NeedsOf(d).qty, b[d].lines;
    var free := FreeOf(b, inp, d, needs.Keys + Touched(stored));
    assert stored == Recomputed(b, inp, d)[d].lines;
    RebuiltRow(stored, needs, free, inp.packs, g);
  }

  lemma UpToDateOnceComputed(b: Batches, inp: Inputs, d: Date)
    requires BatchOf(b, d).status != Done && inp.NeedsOf(d).Known?
    ensures d in NotDone(Recomputed(b, inp, d)) && UpToDate(Recomputed(b, inp, d), inp, d)
  {
    ComputingSettles(b, inp, d);
  }

  lemma FreeOnceComputed(b: Batches, inp: Inputs, d: Date, g: Id)
    ensures FreeFor(Recomputed(b, inp, d), inp, d, g) == FreeFor(b, inp, d, g)
  {
    EarlierClaimsDecide(Recomputed(b, inp, d), b, d, g);
  }

  /** And so does a batch once it is computed. */
  lemma ClaimOnceComputed(b: Batches, inp: Inputs, d: Date, g: Id)
    requires BatchOf(b, d).status != Done && inp.NeedsOf(d).Known?
    ensures Claim(Recomputed(b, inp, d), d, g) == Min(FreeFor(b, inp, d, g), inp.NeedOf(d, g))
  {
    UpToDateOnceComputed(b, inp, d);
    FreeOnceComputed(b, inp, d, g);
    ClaimOf(Recomputed(b, inp, d), inp, d, g, FreeFor(b, inp, d, g));
  }

  lemma ClaimOf(c: Batches, inp: Inputs, d: Date, g: Id, free: int)
    requires d in NotDone(c) && UpToDate(c, inp, d) && FreeFor(c, inp, d, g) == free
    ensures Claim(c, d, g) == Min(free, inp.NeedOf(d, g))
  {
    ClaimWhenUpToDate(c, inp, d, g);
  }

  /** Stated over the batches that are not done, by date. */
  lemma ClaimsByDate(b: Batches, g: Id, i: nat)
    requires i < |Sorted(NotDone(b))|
    ensures var ds := Sorted(NotDone(b));
            ClaimedBefore(b, ds[i], g) == Sum(Claims(b, ds, g)[..i])
  {
    var ds := Sorted(NotDone(b));
    SortedPrefix(NotDone(b), i);
    assert Before(b, ds[i]) == set d | d in NotDone(b) && d < ds[i];
    assert Claims(b, ds[..i], g) == Claims(b, ds, g)[..i];
  }

  /** Each claim is what the earlier ones left of its own stock, as far as it
      is needed. */
  ghost predicate Greedy(usable: seq<int>, needs: seq<int>, claims: seq<int>) {
    && |usable| == |needs| == |claims|
    && forall i :: 0 <= i < |claims| ==> claims[i] == Min(Max(usable[i] - Sum(claims[..i]), 0), needs[i])
  }

  ghost function UsableBy(inp: Inputs, ds: seq<Date>, g: Id): (u: seq<int>) {
    seq(|ds|, i requires 0 <= i < |ds| => inp.UsableOn(ds[i], g))
  }

  ghost function NeededBy(inp: Inputs, ds: seq<Date>, g: Id): (n: seq<int>) {
    seq(|ds|, i requires 0 <= i < |ds| => inp.NeedOf(ds[i], g))
  }

  lemma UsableFalls(inp: Inputs, dates: set<Date>, g: Id)
    ensures var usable := UsableBy(inp, Sorted(dates), g);
            |usable| == |Sorted(dates)| && forall i, j :: 0 <= i < j < |usable| ==> usable[j] <= usable[i]
  {
    var ds := Sorted(dates);
    SortedLists(dates);
    forall i, j | 0 <= i < j < |ds| ensures inp.UsableOn(ds[j], g) <= inp.UsableOn(ds[i], g) {
      UsableFallsWithTheDate(inp.lots, inp.policies, g, ds[i], ds[j], inp.now);
    }
  }

  ghost predicate ClaimsGreedily(b: Batches, inp: Inputs, g: Id) {
    var ds := Sorted(NotDone(b));
    Greedy(UsableBy(inp, ds, g), NeededBy(inp, ds, g), Claims(b, ds, g))
  }

  ghost predicate ClaimsWhatIsFree(b: Batches, inp: Inputs, d: Date, g: Id) {
    Claim(b, d, g) == Min(FreeFor(b, inp, d, g), inp.NeedOf(d, g))
  }

  lemma GreedyAt(b: Batches, inp: Inputs, g: Id, i: nat)
    requires i < |Sorted(NotDone(b))| && ClaimsWhatIsFree(b, inp, Sorted(NotDone(b))[i], g)
    ensures var ds := Sorted(NotDone(b));
            Claims(b, ds, g)[i]
              == Min(Max(UsableBy(inp, ds, g)[i] - Sum(Claims(b, ds, g)[..i]), 0), NeededBy(inp, ds, g)[i])
  {
    ClaimsByDate(b, g, i);
  }

  /** Up-to-date batches claim greedily in date order. */
  lemma UpToDateClaimsAreGreedy(b: Batches, inp: Inputs, g: Id)
    requires AllUpToDate(b, inp)
    ensures ClaimsGreedily(b, inp, g)
  {
    var ds := Sorted(NotDone(b));
    forall i | 0 <= i < |ds| ensures ClaimsWhatIsFree(b, inp, ds[i], g) {
      SortedLists(NotDone(b));
      assert ds[i] in ds;
      assert UpToDate(b, inp, ds[i]);
      ClaimWhenUpToDate(b, inp, ds[i], g);
    }
    var usable, needs, claims := UsableBy(inp, ds, g), NeededBy(inp, ds, g), Claims(b, ds, g);
    forall i | 0 <= i < |ds| ensures claims[i] == Min(Max(usable[i] - Sum(claims[..i]), 0), needs[i]) {
      GreedyAt(b, inp, g, i);
    }
  }

  /** Greedy claims on a stock that falls with the date fit together, from
      every batch on. */
  lemma {:induction false} GreedyClaimsFit(usable: seq<int>, needs: seq<int>, claims: seq<int>, i: nat)
    requires Greedy(usable, needs, claims) && i <= |usable|
    requires forall j, k :: 0 <= j < k < |usable| ==> usable[k] <= usable[j]
    requires forall j :: 0 <= j < |claims| ==> 0 <= claims[j]
    ensures Sum(claims[i..]) == 0 || (i < |usable| && Sum(claims[..i]) + Sum(claims[i..]) <= usable[i])
    decreases |claims| - i
  {
    if i < |claims| {
      GreedyClaimsFit(usable, needs, claims, i + 1);
      assert claims[i..] == [claims[i]] + claims[i + 1..];
      SumOneMore(claims, i);
      SumNonNegative(claims[i + 1..]);
    }
  }

  /** Some assignment of distinct grams gives each batch that is not done all it
      counts on, only from lots that still count on its own date. */
  ghost predicate Backed(b: Batches, inp: Inputs, g: Id) {
    var ds := Sorted(NotDone(b));
    exists plan :: Backs(plan, Shelf(inp.lots, inp.policies, g, inp.now), ds, Claims(b, ds, g))
  }

  /** No gram counts twice: once every batch that is not done is up to date,
      distinct grams back all their claims. */
  lemma ClaimsCanBeBacked(b: Batches, inp: Inputs, g: Id)
    requires AllUpToDate(b, inp)
    ensures Backed(b, inp, g)
  {
    var ds := Sorted(NotDone(b));
    SortedLists(NotDone(b));
    ClaimsFit(b, inp, g);
    BackedExactlyWhenFitting(Shelf(inp.lots, inp.policies, g, inp.now), ds, Claims(b, ds, g));
  }

  lemma ClaimsFit(b: Batches, inp: Inputs, g: Id)
    requires AllUpToDate(b, inp)
    ensures var ds := Sorted(NotDone(b));
            Fits(Shelf(inp.lots, inp.policies, g, inp.now), ds, Claims(b, ds, g))
  {
    var shelf := Shelf(inp.lots, inp.policies, g, inp.now);
    var ds := Sorted(NotDone(b));
    var usable, needs, claims := UsableBy(inp, ds, g), NeededBy(inp, ds, g), Claims(b, ds, g);
    SortedLists(NotDone(b));
    UpToDateClaimsAreGreedy(b, inp, g);
    UsableFalls(inp, NotDone(b), g);
    forall i | 0 <= i < |ds| ensures Sum(claims[i..]) <= shelf.UsableOn(ds[i]) {
      GreedyClaimsFit(usable, needs, claims, i);
      SumNonNegative(claims[..i]);
      SumNonNegative(shelf.AmountsOn(ds[i]));
    }
  }

  ghost predicate AllKnown(b: Batches, inp: Inputs) { forall d :: d in NotDone(b) ==> inp.NeedsOf(d).Known? }

  /** So a full run that succeeds leaves claims that can be backed. */
  lemma FullRunCanBeBacked(b: Batches, inp: Inputs, g: Id)
    requires AllKnown(b, inp)
    ensures var after := RecomputedAll(b, inp, Sorted(NotDone(b)));
            NotDone(after) == NotDone(b) && AllUpToDate(after, inp) && Backed(after, inp, g)
  {
    FullRunBringsUpToDate(b, inp);
    ClaimsCanBeBacked(RecomputedAll(b, inp, Sorted(NotDone(b))), inp, g);
  }

  lemma FullRunBringsUpToDate(b: Batches, inp: Inputs)
    requires AllKnown(b, inp)
    ensures var after := RecomputedAll(b, inp, Sorted(NotDone(b)));
            NotDone(after) == NotDone(b) && AllUpToDate(after, inp)
  {
    var ds := Sorted(NotDone(b));
    var after := RecomputedAll(b, inp, ds);
    SortedLists(NotDone(b));
    RunSettlesItsDates(b, inp, ds);
    FullRunKeepsStatuses(b, inp);
    forall d | d in NotDone(after) ensures UpToDate(after, inp, d) {
      assert d in ds;
    }
  }

  lemma FullRunKeepsStatuses(b: Batches, inp: Inputs)
    ensures NotDone(RecomputedAll(b, inp, Sorted(NotDone(b)))) == NotDone(b)
  {
    var ds := Sorted(NotDone(b));
    SortedLists(NotDone(b));
    forall d | d in ds ensures d in b {
      assert d in NotDone(b);
    }
    RunsKeepStatuses(b, inp, ds);
    SameStatuses(b, RecomputedAll(b, inp, ds));
  }

  lemma SameStatuses(b: Batches, c: Batches)
    requires b.Keys == c.Keys && forall d :: d in b ==> c[d].status == b[d].status
    ensures NotDone(b) == NotDone(c)
  {
    forall d ensures d in NotDone(b) <==> d in NotDone(c) {
      if d in b {
        assert c[d].status == b[d].status;
      }
    }
  }

  lemma {:induction false} RunsKeepStatuses(b: Batches, inp: Inputs, ds: seq<Date>)
    requires forall d :: d in ds ==> d in b
    ensures var after := RecomputedAll(b, inp, ds);
            after.Keys == b.Keys && forall d :: d in b ==> after[d].status == b[d].status
  {
    if ds != [] {
      RunsKeepStatuses(b, inp, ds[..|ds| - 1]);
    }
  }

  /** The part of some amounts, by lot, that lies in lots counting on a date. */
  ghost function OnDate(shelf: Shelf, amounts: seq<int>, d: Date): seq<int>
    requires |amounts| == |shelf.lots|
  {
    seq(|amounts|, l requires 0 <= l < |amounts| => if shelf.CountsOn(l, d) then amounts[l] else 0)
  }

  /** Subtracting earlier claims whole only makes a batch buy more: however
      the earlier claims are backed, what is free for the batch is at most what
      its own lots would still hold. */
  lemma WholeClaimsLeaveNoMoreThanThereIs(b: Batches, inp: Inputs, d: Date, g: Id, plan: Plan)
    requires var early := Sorted(Before(b, d));
             Backs(plan, Shelf(inp.lots, inp.policies, g, inp.now), early, Claims(b, early, g))
    ensures var shelf := Shelf(inp.lots, inp.policies, g, inp.now);
            var given := Given(plan, |inp.lots|);
            FreeFor(b, inp, d, g) <= Max(inp.UsableOn(d, g) - Sum(OnDate(shelf, given, d)), 0)
  {
    var shelf := Shelf(inp.lots, inp.policies, g, inp.now);
    var early := Sorted(Before(b, d));
    var n := |inp.lots|;
    var given := Given(plan, n);
    SortedLists(Before(b, d));
    if early != [] {
      forall i | 0 <= i < |early| ensures early[0] <= early[i] {
      }
      GivenFromCountable(plan, shelf, early, Claims(b, early, g), early[0]);
    } else {
      ZeroSum(given);
    }
    SumMonotone(OnDate(shelf, given, d), given);
  }

  ghost predicate GrowsOn(d: Date, inp: Inputs, now: Inputs, raised: Date, g: Id) {
    && inp.UsableOn(d, g) == now.UsableOn(d, g)
    && inp.NeedOf(d, g) <= now.NeedOf(d, g)
    && (d != raised ==> inp.NeedOf(d, g) == now.NeedOf(d, g))
  }

  /** The second inputs have the same stock, need at least as much of g on every
      one of some dates, and exactly as much on all of them but `raised`. */
  ghost predicate NeedsGrow(dates: set<Date>, inp: Inputs, now: Inputs, raised: Date, g: Id) {
    forall d {:trigger GrowsOn(d, inp, now, raised, g)} :: d in dates ==> GrowsOn(d, inp, now, raised, g)
  }

  /** Greedy claims on the same stock, when one of the needs grows. */
  lemma {:induction false} GreedyWhenOneNeedGrows(
      usable: seq<int>, needs: seq<int>, more: seq<int>, x: seq<int>, y: seq<int>, i: nat)
    requires Greedy(usable, needs, x) && Greedy(usable, more, y) && i <= |x|
    requires forall j :: 0 <= j < |x| ==> 0 <= needs[j] <= more[j]
    ensures Sum(x[..i]) <= Sum(y[..i])
    ensures i < |x| && more[i] == needs[i] ==> y[i] <= x[i]
  {
    if i > 0 {
      GreedyWhenOneNeedGrows(usable, needs, more, x, y, i - 1);
      SumOneMore(x, i - 1);
      SumOneMore(y, i - 1);
    }
  }

  lemma {:induction false} GreedyBeforeTheChange(
      usable: seq<int>, needs: seq<int>, more: seq<int>, x: seq<int>, y: seq<int>, i: nat)
    requires Greedy(usable, needs, x) && Greedy(usable, more, y) && i <= |x|
    requires needs[..i] == more[..i]
    ensures x[..i] == y[..i]
  {
    if i > 0 {
      assert needs[..i][..i - 1] == needs[..i - 1] && more[..i][..i - 1] == more[..i - 1];
      GreedyBeforeTheChange(usable, needs, more, x, y, i - 1);
      assert needs[i - 1] == needs[..i][i - 1] == more[i - 1];
      assert x[..i] == x[..i - 1] + [x[i - 1]] && y[..i] == y[..i - 1] + [y[i - 1]];
    }
  }

  lemma GreedyCompared(usable: seq<int>, needs: seq<int>, more: seq<int>, x: seq<int>, y: seq<int>)
    requires Greedy(usable, needs, x) && Greedy(usable, more, y)
    requires forall j :: 0 <= j < |x| ==> 0 <= needs[j] <= more[j]
    ensures forall i :: 0 <= i <= |x| ==> Sum(x[..i]) <= Sum(y[..i])
    ensures forall i :: 0 <= i < |x| && more[i] == needs[i] ==> y[i] <= x[i]
    ensures forall i :: 0 <= i < |x| && needs[..i + 1] == more[..i + 1] ==> y[i] == x[i]
  {
    forall i | 0 <= i <= |x|
      ensures Sum(x[..i]) <= Sum(y[..i]) && (i < |x| && more[i] == needs[i] ==> y[i] <= x[i])
    {
      GreedyWhenOneNeedGrows(usable, needs, more, x, y, i);
    }
    forall i | 0 <= i < |x| && needs[..i + 1] == more[..i + 1] ensures y[i] == x[i] {
      GreedyBeforeTheChange(usable, needs, more, x, y, i + 1);
      assert x[..i + 1][i] == y[..i + 1][i];
    }
  }

  lemma NeedsCompared(dates: set<Date>, inp: Inputs, now: Inputs, raised: Date, g: Id)
    requires NeedsGrow(dates, inp, now, raised, g)
    ensures var ds := Sorted(dates);
            var needs, more := NeededBy(inp, ds, g), NeededBy(now, ds, g);
            && UsableBy(inp, ds, g) == UsableBy(now, ds, g)
            && (forall i :: 0 <= i < |ds| ==> 0 <= needs[i] <= more[i])
            && (forall i :: 0 <= i < |ds| && ds[i] != raised ==> needs[i] == more[i])
            && (forall i :: 0 <= i < |ds| && ds[i] < raised ==> needs[..i + 1] == more[..i + 1])
  {
    var ds := Sorted(dates);
    SortedLists(dates);
    var needs, more := NeededBy(inp, ds, g), NeededBy(now, ds, g);
    var usable, again := UsableBy(inp, ds, g), UsableBy(now, ds, g);
    forall i | 0 <= i < |ds|
      ensures usable[i] == again[i] && 0 <= needs[i] <= more[i] && (ds[i] != raised ==> needs[i] == more[i])
    {
      assert ds[i] in ds;
      assert GrowsOn(ds[i], inp, now, raised, g);
    }
    forall i | 0 <= i < |ds| && ds[i] < raised ensures needs[..i + 1] == more[..i + 1] {
      AgreeUpTo(ds, needs, more, raised, i);
    }
  }

  lemma AgreeUpTo(ds: seq<Date>, needs: seq<int>, more: seq<int>, raised: Date, i: nat)
    requires i < |ds| == |needs| == |more| && Ascending(ds) && ds[i] < raised
    requires forall j :: 0 <= j < |ds| && ds[j] != raised ==> needs[j] == more[j]
    ensures needs[..i + 1] == more[..i + 1]
  {
  }

  /** The second claims together are never less, and each is no more, but for
      the batch that needs more. */
  ghost predicate TakenBack(b: Batches, c: Batches, raised: Date, g: Id) {
    var ds := Sorted(NotDone(b));
    && (forall i :: 0 <= i <= |ds| ==> Sum(Claims(b, ds, g)[..i]) <= Sum(Claims(c, ds, g)[..i]))
    && (forall i :: 0 <= i < |ds| && ds[i] != raised ==> Claims(c, ds, g)[i] <= Claims(b, ds, g)[i])
    && (forall i :: 0 <= i < |ds| && ds[i] < raised ==> Claims(c, ds, g)[i] == Claims(b, ds, g)[i])
  }

  lemma GreedyBatchesCompared(b: Batches, inp: Inputs, c: Batches, now: Inputs, raised: Date, g: Id)
    requires NotDone(b) == NotDone(c) && NeedsGrow(NotDone(b), inp, now, raised, g)
    requires ClaimsGreedily(b, inp, g) && ClaimsGreedily(c, now, g)
    ensures TakenBack(b, c, raised, g)
  {
    var ds := Sorted(NotDone(b));
    NeedsCompared(NotDone(b), inp, now, raised, g);
    GreedyCompared(
      UsableBy(inp, ds, g), NeededBy(inp, ds, g), NeededBy(now, ds, g), Claims(b, ds, g), Claims(c, ds, g));
  }

  /** Raising one batch's need never lowers what the batches up to any date
      claim together, never raises what another batch claims, and leaves the
      earlier batches alone: stock is only taken back from the later ones. */
  lemma MoreNeedTakesFromLaterBatches(b: Batches, inp: Inputs, c: Batches, now: Inputs, raised: Date, g: Id)
    requires NotDone(b) == NotDone(c) && NeedsGrow(NotDone(b), inp, now, raised, g)
    requires AllUpToDate(b, inp) && AllUpToDate(c, now)
    ensures TakenBack(b, c, raised, g)
  {
    UpToDateClaimsAreGreedy(b, inp, g);
    UpToDateClaimsAreGreedy(c, now, g);
    GreedyBatchesCompared(b, inp, c, now, raised, g);
  }
}
