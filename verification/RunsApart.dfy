/** When two overlapping runs are not one: each has a date the other has not, as
    when a run listed its dates before the other's batch was there. Then the
    earlier of the two dates may be computed after the later one for good, and
    both claim the same gram. */
module RunsApart {
  import opened Base
  import opened Clock
  import opened Dates
  import opened Stock
  import opened BatchNeeds
  import opened AllocationRuns
  import opened AllocationLaws
  import opened Allocation
  import Recipe
  import Totals
  import Sums

  /** One unit of g is usable every day, and just two days need it. */
  ghost predicate OneForTwo(inp: Inputs, d: Date, e: Date, g: Id) {
    forall x {:trigger inp.NeedsOf(x)} {:trigger inp.UsableOn(x, g)} ::
      inp.NeedsOf(x).Known? && inp.UsableOn(x, g) == 1 && inp.NeedOf(x, g) == if x == d || x == e then 1 else 0
  }

  // ----- Both days claim it -----

  lemma ClaimedOfNone(b: Batches, d: Date, g: Id)
    requires forall x :: x < d ==> Claim(b, x, g) == 0
    ensures ClaimedBefore(b, d, g) == 0
  {
    SortedLists(Before(b, d));
    var ds := Sorted(Before(b, d));
    forall i | 0 <= i < |ds| ensures Claims(b, ds, g)[i] == 0 {
      assert ds[i] in ds;
    }
    NothingAddsUp(Claims(b, ds, g));
  }

  lemma {:induction false} NothingAddsUp(s: seq<int>)
    requires forall i :: 0 <= i < |s| ==> s[i] == 0
    ensures Sum(s) == 0
  {
    if s != [] {
      NothingAddsUp(s[1..]);
    }
  }

  lemma ClaimedOfOne(b: Batches, e: Date, d: Date, g: Id)
    requires e in NotDone(b) && e < d
    ensures ClaimedBefore(b, d, g) >= Claim(b, e, g)
  {
    SortedLists(Before(b, d));
    var ds := Sorted(Before(b, d));
    assert e in ds;
    var i :| 0 <= i < |ds| && ds[i] == e;
    OneOfTheSum(Claims(b, ds, g), i);
  }

  /** Every batch is open, and on the two days alone something is claimed. */
  ghost predicate OnlyTheTwoClaim(b: Batches, d: Date, e: Date, g: Id) {
    && (forall x :: x in b ==> b[x].status == BatchStatus.Open)
    && forall x :: x != d && x != e ==> Claim(b, x, g) == 0
  }

  lemma ClaimForTheTwo(b: Batches, inp: Inputs, d: Date, e: Date, g: Id, x: Date)
    requires OneForTwo(inp, d, e, g) && BatchOf(b, x).status != Done
    ensures Claim(Recomputed(b, inp, x), x, g)
         == (if x == d || x == e then Max(1 - ClaimedBefore(b, x, g), 0) else 0)
  {
    assert inp.NeedsOf(x).Known? && inp.UsableOn(x, g) == 1;
    ClaimOnceComputed(b, inp, x, g);
    SumNonNegative(Claims(b, Sorted(Before(b, x)), g));
  }

  lemma ComputingForTheTwo(b: Batches, inp: Inputs, d: Date, e: Date, g: Id, x: Date)
    requires OnlyTheTwoClaim(b, d, e, g) && OneForTwo(inp, d, e, g)
    ensures OnlyTheTwoClaim(Recomputed(b, inp, x), d, e, g)
    ensures Claim(Recomputed(b, inp, x), x, g)
         == (if x == d || x == e then Max(1 - ClaimedBefore(b, x, g), 0) else 0)
    ensures forall y :: y != x ==> Claim(Recomputed(b, inp, x), y, g) == Claim(b, y, g)
  {
    ClaimForTheTwo(b, inp, d, e, g, x);
    OthersAsTheyWere(b, inp, x, g);
  }

  lemma OthersAsTheyWere(b: Batches, inp: Inputs, x: Date, g: Id)
    ensures var c := Recomputed(b, inp, x);
            && (forall y :: y != x ==> Claim(c, y, g) == Claim(b, y, g))
            && (forall y :: y in c ==> c[y].status == BatchOf(b, y).status)
  {
  }

  /** Computing other dates than the earlier one, the later one gets the gram. */
  lemma {:induction false} RunWithoutTheEarlier(inp: Inputs, ds: seq<Date>, d: Date, e: Date, g: Id)
    requires OneForTwo(inp, d, e, g) && e !in ds && e < d
    ensures var b := RecomputedAll(map[], inp, ds);
            OnlyTheTwoClaim(b, d, e, g) && Claim(b, e, g) == 0 && (d in ds ==> Claim(b, d, g) == 1)
  {
    if ds != [] {
      var front, x := ds[..|ds| - 1], ds[|ds| - 1];
      assert ds == front + [x];
      RunWithoutTheEarlier(inp, front, d, e, g);
      var b := RecomputedAll(map[], inp, front);
      ComputingForTheTwo(b, inp, d, e, g, x);
      if x == d {
        ClaimedOfNone(b, d, g);
      }
    }
  }

  /** Computing other dates than the later one afterwards, the earlier one gets the
      gram too. */
  lemma {:induction false} RunWithoutTheLater(b: Batches, inp: Inputs, ds: seq<Date>, d: Date, e: Date, g: Id)
    requires OneForTwo(inp, d, e, g) && d !in ds && e < d && OnlyTheTwoClaim(b, d, e, g) && Claim(b, d, g) == 1
    ensures var c := RecomputedAll(b, inp, ds);
            OnlyTheTwoClaim(c, d, e, g) && Claim(c, d, g) == 1 && (e in ds ==> Claim(c, e, g) == 1)
  {
    if ds != [] {
      var front, x := ds[..|ds| - 1], ds[|ds| - 1];
      assert ds == front + [x];
      RunWithoutTheLater(b, inp, front, d, e, g);
      var c := RecomputedAll(b, inp, front);
      ComputingForTheTwo(c, inp, d, e, g, x);
      if x == e {
        ClaimedOfNone(c, e, g);
      }
    }
  }

  /** So the gram is claimed twice, and the later date is not as a computation would
      leave it. */
  lemma BothClaimTheGram(inp: Inputs, xs: seq<Date>, ys: seq<Date>, d: Date, e: Date, g: Id)
    requires OneForTwo(inp, d, e, g) && d in xs && d !in ys && e in ys && e !in xs && e < d
    ensures var after := RecomputedAll(map[], inp, xs + ys);
            Claim(after, d, g) == 1 && Claim(after, e, g) == 1 && !Settled(after, inp, d)
  {
    var after := RecomputedAll(map[], inp, xs + ys);
    RunInTwoParts(map[], inp, xs, ys);
    RunWithoutTheEarlier(inp, xs, d, e, g);
    RunWithoutTheLater(RecomputedAll(map[], inp, xs), inp, ys, d, e, g);
    if Settled(after, inp, d) {
      ComputingForTheTwo(after, inp, d, e, g, d);
      assert e in NotDone(after);
      ClaimedOfOne(after, e, d, g);
      assert false;
    }
  }

  // ----- A shop like that -----

  /** An order of one item, of one unit that takes one gram; and a lot of a gram. */
  const ONE_ORDER := [Totals.Item(0, 1)]

  function OneGram(): Totals.Line { Totals.RecipeLine(0, 0, Recipe.AffineModel(1.0, 0.0), 1.0, Recipe.RoundNearest) }

  function OneGramFor(d: Date, e: Date): Inputs {
    Inputs(map[d := ONE_ORDER, e := ONE_ORDER], Catalog([Totals.Use(0, 0, 1.0)], [OneGram()], {}),
           [Lot(0, 0, 0, None, LotStatus.Available, 1, None)], map[0 := Auto], map[], 0)
  }

  lemma OneIsOrdered(items: seq<Totals.Item>)
    requires items == ONE_ORDER
    ensures Totals.Ordered(items, 0) == 1
  {
    Sums.OneMore(items, 0, Totals.QtyOf(0));
    assert items[..1] == items;
  }

  lemma OneUnitIsMade(items: seq<Totals.Item>, uses: seq<Totals.Use>)
    requires items == ONE_ORDER && uses == [Totals.Use(0, 0, 1.0)]
    ensures Totals.Made(items, uses, 0) && Totals.UnitsOf(items, uses, 0) == 1.0
  {
    OneIsOrdered(items);
    assert Totals.Counts(items, uses[0], 0);
    Sums.RealOneMore(uses, 0, Totals.UnitsFor(items, 0));
    assert uses[..1] == uses;
  }

  lemma OneGramIsNeeded(items: seq<Totals.Item>, uses: seq<Totals.Use>, lines: seq<Totals.Line>)
    requires items == ONE_ORDER && uses == [Totals.Use(0, 0, 1.0)] && lines == [OneGram()]
    ensures !SomeFails(items, uses, lines) && Totals.NeedOf(items, uses, lines, 0) == 1
  {
    OneUnitIsMade(items, uses);
    assert Totals.QuantityOf(items, uses, lines[0]) == Recipe.Qty(1);
    Sums.OneMore(lines, 0, Totals.NeedFor(items, uses, 0));
    assert lines[..1] == lines;
  }

  lemma KnownNeeds(items: seq<Totals.Item>, cat: Catalog, g: Id)
    requires cat.broken == {} && !SomeFails(items, cat.uses, cat.lines)
    ensures NeedsFrom(items, cat).Known?
    ensures Get(NeedsFrom(items, cat).qty, g) == Max(Totals.NeedOf(items, cat.uses, cat.lines, g), 0)
  {
    NeededIsNeedOf(items, cat.uses, cat.lines, g);
  }

  lemma OneOrderNeedsOne(items: seq<Totals.Item>, cat: Catalog)
    requires items == ONE_ORDER && cat == Catalog([Totals.Use(0, 0, 1.0)], [OneGram()], {})
    ensures NeedsFrom(items, cat).Known? && Get(NeedsFrom(items, cat).qty, 0) == 1
  {
    OneGramIsNeeded(items, cat.uses, cat.lines);
    KnownNeeds(items, cat, 0);
  }

  lemma OneGramIsUsable(lots: seq<Lot>, policies: map<Id, Policy>, x: Date)
    requires lots == [Lot(0, 0, 0, None, LotStatus.Available, 1, None)] && policies == map[0 := Auto]
    ensures UsableOf(lots, policies, 0, x, 0) == 1
  {
    assert Counts(lots[0], policies, 0, x, 0);
    assert Amounts(lots, policies, 0, x, 0) == [1];
    assert Sum([1]) == 1;
  }

  lemma OneGramForTwo(d: Date, e: Date)
    ensures OneForTwo(OneGramFor(d, e), d, e, 0)
  {
    var inp := OneGramFor(d, e);
    forall x
      ensures inp.NeedsOf(x).Known? && inp.UsableOn(x, 0) == 1
      ensures inp.NeedOf(x, 0) == if x == d || x == e then 1 else 0
    {
      OneGramIsUsable(inp.lots, inp.policies, x);
      if x == d || x == e {
        OneOrderNeedsOne(inp.ItemsOn(x), inp.catalog);
      } else {
        NothingIsMade(inp.ItemsOn(x), inp.catalog.uses, inp.catalog.lines);
      }
    }
  }

  // ----- When overlapping runs are one -----

  /** Whatever they find, and however they are interleaved. */
  ghost predicate AlwaysOneRun(xs: seq<Date>, ys: seq<Date>) {
    forall b: Batches, inp: Inputs, ds: seq<Date> {:trigger RecomputedAll(b, inp, ds), Interleaves(ds, xs, ys)} ::
      Interleaves(ds, xs, ys) ==> RecomputedAll(b, inp, ds) == RecomputedAll(b, inp, Sorted(DatesIn(xs) + DatesIn(ys)))
  }

  lemma {:induction false} OneAfterTheOther(xs: seq<Date>, ys: seq<Date>)
    ensures Interleaves(xs + ys, xs, ys)
    decreases |xs| + |ys|
  {
    if xs != [] {
      OneAfterTheOther(xs[1..], ys);
      assert (xs + ys)[1..] == xs[1..] + ys;
    } else if ys != [] {
      OneAfterTheOther(xs, ys[1..]);
      assert xs + ys == ys && xs + ys[1..] == ys[1..];
    }
  }

  lemma {:induction false} EitherFirst(ds: seq<Date>, xs: seq<Date>, ys: seq<Date>)
    requires Interleaves(ds, xs, ys)
    ensures Interleaves(ds, ys, xs)
    decreases |ds|
  {
    if ds != [] {
      if xs != [] && xs[0] == ds[0] && Interleaves(ds[1..], xs[1..], ys) {
        EitherFirst(ds[1..], xs[1..], ys);
      } else {
        EitherFirst(ds[1..], xs, ys[1..]);
      }
    }
  }

  /** With a date each that the other has not, the run with the later one may be
      first, and the gram is claimed twice. */
  lemma ApartIsNotOne(xs: seq<Date>, ys: seq<Date>, d: Date, e: Date)
    requires d in xs && d !in ys && e in ys && e !in xs && e < d
    ensures exists inp ::
              RecomputedAll(map[], inp, xs + ys) != RecomputedAll(map[], inp, Sorted(DatesIn(xs) + DatesIn(ys)))
  {
    var inp := OneGramFor(d, e);
    var dates := DatesIn(xs) + DatesIn(ys);
    OneGramForTwo(d, e);
    BothClaimTheGram(inp, xs, ys, d, e, 0);
    SortedLists(dates);
    assert d in Sorted(dates);
    RunSettlesItsDates(map[], inp, Sorted(dates));
    assert Settled(RecomputedAll(map[], inp, Sorted(dates)), inp, d);
  }

  /** Two runs that overlap always leave what one run over all their dates leaves if
      and only if the dates of one are all dates of the other. */
  lemma OverlappingRunsAreOneExactlyWhen(xs: seq<Date>, ys: seq<Date>)
    requires Ascending(xs) && Ascending(ys)
    ensures AlwaysOneRun(xs, ys) <==> DatesIn(xs) <= DatesIn(ys) || DatesIn(ys) <= DatesIn(xs)
  {
    if DatesIn(xs) <= DatesIn(ys) || DatesIn(ys) <= DatesIn(xs) {
      NestedRunsAreOne(xs, ys);
    } else {
      var d :| d in DatesIn(xs) && d !in DatesIn(ys);
      var e :| e in DatesIn(ys) && e !in DatesIn(xs);
      OneAfterTheOther(xs, ys);
      OneAfterTheOther(ys, xs);
      EitherFirst(ys + xs, ys, xs);
      assert DatesIn(xs) + DatesIn(ys) == DatesIn(ys) + DatesIn(xs);
      if e < d {
        ApartIsNotOne(xs, ys, d, e);
      } else {
        ApartIsNotOne(ys, xs, e, d);
      }
    }
  }

  lemma NestedRunsAreOne(xs: seq<Date>, ys: seq<Date>)
    requires Ascending(xs) && Ascending(ys) && (DatesIn(xs) <= DatesIn(ys) || DatesIn(ys) <= DatesIn(xs))
    ensures AlwaysOneRun(xs, ys)
  {
    var dates := DatesIn(xs) + DatesIn(ys);
    forall b, inp, ds | Interleaves(ds, xs, ys)
      ensures RecomputedAll(b, inp, ds) == RecomputedAll(b, inp, Sorted(dates))
    {
      if DatesIn(ys) <= DatesIn(xs) {
        assert dates == DatesIn(xs);
        OthersOnItsDatesDoNotMatter(b, inp, ds, xs, ys);
        AscendingIsSorted(xs);
      } else {
        assert dates == DatesIn(ys);
        EitherFirst(ds, xs, ys);
        OthersOnItsDatesDoNotMatter(b, inp, ds, ys, xs);
        AscendingIsSorted(ys);
      }
    }
  }
}
