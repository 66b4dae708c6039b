/** What new orders for one date do to the batches, from the order to the claim
    on the stock: the recipes need no less, so computing from that date on only
    takes stock back from later batches. */
module NewOrders {
  import opened Base
  import opened Clock
  import opened Dates
  import opened Stock
  import opened ShoppingList
  import opened Backing
  import opened TotalsLaws
  import opened BatchNeeds
  import opened Allocation
  import opened AllocationLaws
  import Totals

  function WithOrders(inp: Inputs, date: Date, added: seq<Totals.Item>): Inputs {
    inp.(items := inp.items[date := inp.ItemsOn(date) + added])
  }

  /** Measured recipes, and variants that take units: more of either needs more. */
  ghost predicate Grows(cat: Catalog) { TakeUnits(cat.uses) && AllMeasured(cat.lines) }

  lemma MoreOrdersNeedNoLess(inp: Inputs, date: Date, added: seq<Totals.Item>, g: Id)
    requires Grows(inp.catalog) && AddOnly(added) && WithOrders(inp, date, added).NeedsOf(date).Known?
    ensures inp.NeedsOf(date).Known?
    ensures inp.NeedOf(date, g) <= WithOrders(inp, date, added).NeedOf(date, g)
  {
    var items, cat := inp.ItemsOn(date), inp.catalog;
    var more := items + added;
    assert WithOrders(inp, date, added).ItemsOn(date) == more;
    forall v: Id | Asked(items, v) ensures Asked(more, v) {
      var i :| 0 <= i < |items| && items[i].variant == v;
      assert more[i].variant == v;
    }
    forall l | l in cat.lines ensures !Totals.Fails(more, cat.uses, l) {
      var i :| 0 <= i < |cat.lines| && cat.lines[i] == l;
      assert !Totals.Fails(more, cat.uses, cat.lines[i]);
    }
    NeedOfGrows(items, added, cat.uses, cat.lines, g);
    NeededIsNeedOf(items, cat.uses, cat.lines, g);
    NeededIsNeedOf(more, cat.uses, cat.lines, g);
  }

  lemma OrdersGrowOneNeed(b: Batches, inp: Inputs, date: Date, added: seq<Totals.Item>, g: Id)
    requires Grows(inp.catalog) && AddOnly(added) && WithOrders(inp, date, added).NeedsOf(date).Known?
    ensures OnlyOrdersOf(date, inp, WithOrders(inp, date, added))
    ensures NeedsGrow(NotDone(b), inp, WithOrders(inp, date, added), date, g)
  {
    MoreOrdersNeedNoLess(inp, date, added, g);
  }

  lemma AllStayKnown(b: Batches, inp: Inputs, date: Date, added: seq<Totals.Item>)
    requires AllUpToDate(b, inp) && WithOrders(inp, date, added).NeedsOf(date).Known?
    ensures AllKnown(b, WithOrders(inp, date, added))
  {
    var now := WithOrders(inp, date, added);
    forall d | d in NotDone(b) ensures now.NeedsOf(d).Known? {
      assert UpToDate(b, inp, d);
      assert d != date ==> now.ItemsOn(d) == inp.ItemsOn(d);
    }
  }

  /** Computing from the date on brings every batch up to date again. */
  lemma AllUpToDateAgain(b: Batches, inp: Inputs, date: Date, added: seq<Totals.Item>)
    requires date in NotDone(b) && AllUpToDate(b, inp)
    requires WithOrders(inp, date, added).NeedsOf(date).Known?
    ensures var now := WithOrders(inp, date, added);
            var after := AfterOrders(b, now, date);
            NotDone(after) == NotDone(b) && AllUpToDate(after, now)
  {
    var now := WithOrders(inp, date, added);
    forall d | d in NotDone(b) && d < date ensures Settled(b, inp, d) {
      assert UpToDate(b, inp, d);
    }
    FromTheChangedDateIsEnough(b, inp, now, date);
    assert NotDone(b) + {date} == NotDone(b);
    AllStayKnown(b, inp, date, added);
    FullRunBringsUpToDate(b, now);
  }

  /** After new orders for a date: earlier batches are as they were, the date's
      batch claims no less, later ones claim no more. */
  ghost predicate TakenFromLater(b: Batches, after: Batches, date: Date, g: Id) {
    && (forall d :: d < date ==> BatchOf(after, d) == BatchOf(b, d))
    && Claim(b, date, g) <= Claim(after, date, g)
    && (forall d :: d > date ==> Claim(after, d, g) <= Claim(b, d, g))
    && (forall d :: d in NotDone(after) ==> ClaimedBefore(b, d, g) <= ClaimedBefore(after, d, g))
  }

  /** The batches after new orders for a date, computed from that date on. */
  function AfterOrders(b: Batches, now: Inputs, date: Date): Batches {
    RecomputedAll(b, now, Sorted(Upcoming(b, date) + {date}))
  }

  lemma TakenBackAt(b: Batches, c: Batches, date: Date, g: Id, d: Date)
    requires NotDone(b) == NotDone(c) && TakenBack(b, c, date, g) && d in NotDone(b)
    ensures d != date ==> Claim(c, d, g) <= Claim(b, d, g)
    ensures d == date ==> Claim(b, d, g) <= Claim(c, d, g)
    ensures ClaimedBefore(b, d, g) <= ClaimedBefore(c, d, g)
  {
    var ds := Sorted(NotDone(b));
    var was, are := Claims(b, ds, g), Claims(c, ds, g);
    SortedLists(NotDone(b));
    assert d in ds;
    var i :| 0 <= i < |ds| && ds[i] == d;
    ClaimsByDate(b, g, i);
    ClaimsByDate(c, g, i);
    assert was[i] == Claim(b, d, g) && are[i] == Claim(c, d, g);
    if d == date {
      SameBefore(ds, was, are, i);
      SumOneMore(was, i);
      SumOneMore(are, i);
    }
  }

  /** Claims that agree on every date before one agree up to it. */
  lemma SameBefore(ds: seq<Date>, was: seq<int>, are: seq<int>, i: nat)
    requires |ds| == |was| == |are| && i < |ds| && Ascending(ds)
    requires forall k :: 0 <= k < |ds| && ds[k] < ds[i] ==> are[k] == was[k]
    ensures was[..i] == are[..i]
  {
  }

  lemma EarlierBatchesAreKept(b: Batches, now: Inputs, date: Date)
    ensures forall d :: d < date ==> BatchOf(AfterOrders(b, now, date), d) == BatchOf(b, d)
  {
    var late := Upcoming(b, date) + {date};
    SortedLists(late);
    forall d | d < date ensures BatchOf(AfterOrders(b, now, date), d) == BatchOf(b, d) {
      OtherDatesAreKept(b, now, Sorted(late), d);
    }
  }

  lemma OrdersForABatch(b: Batches, inp: Inputs, date: Date, added: seq<Totals.Item>, g: Id)
    requires date in NotDone(b) && AllUpToDate(b, inp)
    requires Grows(inp.catalog) && AddOnly(added) && WithOrders(inp, date, added).NeedsOf(date).Known?
    ensures TakenFromLater(b, AfterOrders(b, WithOrders(inp, date, added), date), date, g)
  {
    var now := WithOrders(inp, date, added);
    var after := AfterOrders(b, now, date);
    AllUpToDateAgain(b, inp, date, added);
    OrdersGrowOneNeed(b, inp, date, added, g);
    MoreNeedTakesFromLaterBatches(b, inp, after, now, date, g);
    EarlierBatchesAreKept(b, now, date);
    InDates(b, after, date, g);
  }

  lemma InDates(b: Batches, after: Batches, date: Date, g: Id)
    requires NotDone(b) == NotDone(after) && date in NotDone(b) && TakenBack(b, after, date, g)
    ensures Claim(b, date, g) <= Claim(after, date, g)
    ensures forall d :: d > date ==> Claim(after, d, g) <= Claim(b, d, g)
    ensures forall d :: d in NotDone(after) ==> ClaimedBefore(b, d, g) <= ClaimedBefore(after, d, g)
  {
    forall d | d in NotDone(b)
      ensures d != date ==> Claim(after, d, g) <= Claim(b, d, g)
      ensures d == date ==> Claim(b, d, g) <= Claim(after, d, g)
      ensures ClaimedBefore(b, d, g) <= ClaimedBefore(after, d, g)
    {
      TakenBackAt(b, after, date, g, d);
    }
  }

  // ----- The first orders of a date -----

  lemma NewBatchIsOneMore(b: Batches, date: Date)
    requires date !in b
    ensures NotDone(Ensured(b, date)) == NotDone(b) + {date}
    ensures forall d, g :: Claim(Ensured(b, date), d, g) == Claim(b, d, g)
  {
  }

  /** A batch without lines claims nothing. */
  lemma NewBatchClaimsNothing(b: Batches, date: Date, d: Date, g: Id)
    requires date !in b
    ensures ClaimedBefore(Ensured(b, date), d, g) == ClaimedBefore(b, d, g)
  {
    var c := Ensured(b, date);
    NewBatchIsOneMore(b, date);
    if d <= date {
      EarlierClaimsDecide(b, c, d, g);
    } else {
      var early, late := Before(b, date), set e | e in Before(b, d) && date < e;
      assert Before(b, d) == early + late;
      assert Before(c, d) == early + ({date} + late);
      ListedBetween(early, date, late);
      ZeroClaimBetween(b, c, Sorted(early), date, Sorted(late), g);
    }
  }

  lemma ZeroClaimBetween(b: Batches, c: Batches, early: seq<Date>, date: Date, late: seq<Date>, g: Id)
    requires Claim(c, date, g) == 0 && forall d :: Claim(c, d, g) == Claim(b, d, g)
    ensures Sum(Claims(c, early + ([date] + late), g)) == Sum(Claims(b, early + late, g))
  {
    ClaimsTogether(b, early, late, g);
    ClaimsTogether(c, early, [date] + late, g);
    ClaimsTogether(c, [date], late, g);
    assert Claims(c, early, g) == Claims(b, early, g);
    assert Claims(c, late, g) == Claims(b, late, g);
    assert Claims(c, [date], g) == [0];
  }

  lemma FreeWithANewBatch(b: Batches, inp: Inputs, date: Date, d: Date, ids: set<Id>)
    requires date !in b
    ensures FreeOf(Ensured(b, date), inp, d, ids) == FreeOf(b, inp, d, ids)
  {
    forall g | g in ids ensures ClaimedBefore(Ensured(b, date), d, g) == ClaimedBefore(b, d, g) {
      NewBatchClaimsNothing(b, date, d, g);
    }
  }

  lemma NewBatchLeavesOthersUpToDate(b: Batches, inp: Inputs, date: Date, d: Date)
    requires date !in b && d != date && UpToDate(b, inp, d)
    ensures UpToDate(Ensured(b, date), inp, d)
  {
    var c := Ensured(b, date);
    FreeWithANewBatch(b, inp, date, d, inp.NeedsOf(d).qty.Keys + Touched(LinesOf(b, d)));
    SettledAmongOthers(b, c, inp, d);
  }

  lemma NewBatchIsUpToDate(b: Batches, inp: Inputs, date: Date)
    requires date !in b && inp.ItemsOn(date) == []
    ensures UpToDate(Ensured(b, date), inp, date)
  {
    NothingIsMade([], inp.catalog.uses, inp.catalog.lines);
    assert inp.NeedsOf(date) == Known(map[]);
    var c := Ensured(b, date);
    assert LinesAfter(c, inp, date, map[]) == map[];
  }

  lemma ComputingMakesTheBatch(b: Batches, now: Inputs, date: Date)
    requires date !in b
    ensures AfterOrders(b, now, date) == AfterOrders(Ensured(b, date), now, date)
  {
    var c := Ensured(b, date);
    assert Recomputed(b, now, date) == Recomputed(c, now, date) by {
      match now.NeedsOf(date)
      case Known(needs) => ComputedOverTheStoredList(b, now, date, needs);
      case Broken =>
    }
    assert Upcoming(c, date) + {date} == Upcoming(b, date) + {date};
    var rest := Sorted(Upcoming(b, date));
    SortedLists(Upcoming(b, date));
    DateFirst(b, date);
    assert date !in rest;
    RunInTwoParts(b, now, [date], rest);
    RunInTwoParts(c, now, [date], rest);
    assert RecomputedAll(b, now, [date]) == Recomputed(b, now, date) by {
      assert [date][..0] == [];
    }
    assert RecomputedAll(c, now, [date]) == Recomputed(c, now, date) by {
      assert [date][..0] == [];
    }
  }

  /** Without a batch, the date's orders are none as far as batches go. */
  function WithoutOrders(inp: Inputs, date: Date): Inputs { inp.(items := inp.items[date := []]) }

  lemma OrdersFromNothing(inp: Inputs, date: Date, added: seq<Totals.Item>)
    ensures WithOrders(WithoutOrders(inp, date), date, inp.ItemsOn(date) + added) == WithOrders(inp, date, added)
    ensures OnlyOrdersOf(date, inp, WithoutOrders(inp, date))
  {
    assert [] + (inp.ItemsOn(date) + added) == inp.ItemsOn(date) + added;
  }

  lemma NewBatchKeepsAllUpToDate(b: Batches, inp: Inputs, date: Date)
    requires date !in b && AllUpToDate(b, inp)
    ensures AllUpToDate(Ensured(b, date), WithoutOrders(inp, date))
  {
    var none := WithoutOrders(inp, date);
    OrdersFromNothing(inp, date, []);
    NewBatchIsOneMore(b, date);
    NewBatchIsUpToDate(b, none, date);
    forall d | d in NotDone(b) ensures UpToDate(Ensured(b, date), none, d) {
      assert UpToDate(b, inp, d);
      SameItemsSettle(b, inp, none, d);
      assert none.ItemsOn(d) == inp.ItemsOn(d);
      NewBatchLeavesOthersUpToDate(b, none, date, d);
    }
  }

  /** As seen from the batches before there was one for the date. */
  lemma TakenAsSeenBefore(b: Batches, after: Batches, date: Date, g: Id)
    requires date !in b && TakenFromLater(Ensured(b, date), after, date, g)
    ensures TakenFromLater(b, after, date, g)
  {
    NewBatchIsOneMore(b, date);
    forall d ensures ClaimedBefore(Ensured(b, date), d, g) == ClaimedBefore(b, d, g) {
      NewBatchClaimsNothing(b, date, d, g);
    }
  }

  lemma FirstOrders(b: Batches, inp: Inputs, date: Date, added: seq<Totals.Item>, g: Id)
    requires date !in b && AllUpToDate(b, inp)
    requires Grows(inp.catalog) && AddOnly(inp.ItemsOn(date)) && AddOnly(added)
    requires WithOrders(inp, date, added).NeedsOf(date).Known?
    ensures var now := WithOrders(inp, date, added);
            var after := AfterOrders(b, now, date);
            && NotDone(after) == NotDone(b) + {date} && AllUpToDate(after, now)
            && TakenFromLater(b, after, date, g)
  {
    var now := WithOrders(inp, date, added);
    var c, none, all := Ensured(b, date), WithoutOrders(inp, date), inp.ItemsOn(date) + added;
    OrdersFromNothing(inp, date, added);
    NewBatchIsOneMore(b, date);
    NewBatchKeepsAllUpToDate(b, inp, date);
    ComputingMakesTheBatch(b, now, date);
    OrdersForABatch(c, none, date, all, g);
    AllUpToDateAgain(c, none, date, all);
    TakenAsSeenBefore(b, AfterOrders(b, now, date), date, g);
  }

  lemma MoreOrdersForABatch(b: Batches, inp: Inputs, date: Date, added: seq<Totals.Item>, g: Id)
    requires date in NotDone(b) && AllUpToDate(b, inp)
    requires Grows(inp.catalog) && AddOnly(added) && WithOrders(inp, date, added).NeedsOf(date).Known?
    ensures var now := WithOrders(inp, date, added);
            var after := AfterOrders(b, now, date);
            && NotDone(after) == NotDone(b) + {date} && AllUpToDate(after, now)
            && TakenFromLater(b, after, date, g)
  {
    OrdersForABatch(b, inp, date, added, g);
    AllUpToDateAgain(b, inp, date, added);
    assert NotDone(b) + {date} == NotDone(b);
  }

  /** From orders to grams: when every batch is up to date and orders for a date
      come in, its first ones included, computing from that date on brings every
      batch up to date again; earlier batches stay exactly as they are, the
      date's batch claims no less, later batches claim no more, and distinct
      grams back all of them. */
  lemma NewOrdersTakeFromLaterBatches(b: Batches, inp: Inputs, date: Date, added: seq<Totals.Item>, g: Id)
    requires (date in b ==> b[date].status != Done) && AllUpToDate(b, inp)
    requires Grows(inp.catalog) && AddOnly(inp.ItemsOn(date)) && AddOnly(added)
    requires WithOrders(inp, date, added).NeedsOf(date).Known?
    ensures var now := WithOrders(inp, date, added);
            var after := AfterOrders(b, now, date);
            && NotDone(after) == NotDone(b) + {date} && AllUpToDate(after, now)
            && TakenFromLater(b, after, date, g) && Backed(after, now, g)
  {
    if date in b {
      MoreOrdersForABatch(b, inp, date, added, g);
    } else {
      FirstOrders(b, inp, date, added, g);
    }
    var now := WithOrders(inp, date, added);
    ClaimsCanBeBacked(AfterOrders(b, now, date), now, g);
  }
}
