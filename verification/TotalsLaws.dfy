/** What the totals of a batch do not depend on, and how they grow. */
module TotalsLaws {
  import opened Base
  import opened Sums
  import opened Totals
  import Recipe

  // ----- The order of the inputs -----

  lemma OrderedInAnyOrder(items: seq<Item>, again: seq<Item>, v: Id)
    requires multiset(items) == multiset(again)
    ensures Ordered(items, v) == Ordered(again, v)
  {
    AnyOrder(items, again, QtyOf(v));
  }

  ghost predicate SameOrdered(items: seq<Item>, again: seq<Item>) {
    forall v: Id :: Ordered(items, v) == Ordered(again, v)
  }

  lemma UseGivesTheSame(items: seq<Item>, again: seq<Item>, use: Use, c: Id)
    requires SameOrdered(items, again)
    ensures UnitsFor(items, c)(use) == UnitsFor(again, c)(use)
  {
    assert Ordered(items, use.variant) == Ordered(again, use.variant);
  }

  lemma SameUnits(items: seq<Item>, again: seq<Item>, uses: seq<Use>, reused: seq<Use>, c: Id)
    requires SameOrdered(items, again) && multiset(uses) == multiset(reused)
    ensures UnitsOf(items, uses, c) == UnitsOf(again, reused, c)
  {
    var f, h := UnitsFor(items, c), UnitsFor(again, c);
    RealAnyOrder(uses, reused, f);
    forall i | 0 <= i < |reused| ensures f(reused[i]) == h(reused[i]) {
      UseGivesTheSame(items, again, reused[i], c);
    }
    RealPointwise(reused, f, h);
    RealPointwise(reused, h, f);
  }

  lemma UnitsInAnyOrder(items: seq<Item>, again: seq<Item>, uses: seq<Use>, reused: seq<Use>, c: Id)
    requires SameOrdered(items, again) && multiset(uses) == multiset(reused)
    ensures UnitsOf(items, uses, c) == UnitsOf(again, reused, c)
    ensures Made(items, uses, c) <==> Made(again, reused, c)
  {
    SameUnits(items, again, uses, reused, c);
    MadeInAnyOrder(items, again, uses, reused, c);
    MadeInAnyOrder(again, items, reused, uses, c);
  }

  lemma MadeInAnyOrder(items: seq<Item>, again: seq<Item>, uses: seq<Use>, reused: seq<Use>, c: Id)
    requires SameOrdered(items, again) && multiset(uses) == multiset(reused)
    ensures Made(items, uses, c) ==> Made(again, reused, c)
  {
    if Made(items, uses, c) {
      var i :| 0 <= i < |uses| && Counts(items, uses[i], c);
      assert uses[i] in multiset(reused);
      var k :| 0 <= k < |reused| && reused[k] == uses[i];
      assert Counts(again, reused[k], c);
    }
  }

  lemma LinesInAnyOrder(items: seq<Item>, again: seq<Item>, uses: seq<Use>, reused: seq<Use>, l: Line)
    requires SameOrdered(items, again) && multiset(uses) == multiset(reused)
    ensures Fails(items, uses, l) <==> Fails(again, reused, l)
    ensures forall g: Id :: NeedOfLine(items, uses, l, g) == NeedOfLine(again, reused, l, g)
  {
    UnitsInAnyOrder(items, again, uses, reused, l.component);
  }

  lemma NeedsInAnyOrder(items: seq<Item>, again: seq<Item>, uses: seq<Use>, reused: seq<Use>,
                        lines: seq<Line>, relisted: seq<Line>, g: Id)
    requires SameOrdered(items, again) && multiset(uses) == multiset(reused) && multiset(lines) == multiset(relisted)
    ensures NeedOf(items, uses, lines, g) == NeedOf(again, reused, relisted, g)
  {
    AnyOrder(lines, relisted, NeedFor(items, uses, g));
    forall i | 0 <= i < |relisted|
      ensures NeedFor(items, uses, g)(relisted[i]) == NeedFor(again, reused, g)(relisted[i])
    {
      LinesInAnyOrder(items, again, uses, reused, relisted[i]);
    }
    Pointwise(relisted, NeedFor(items, uses, g), NeedFor(again, reused, g));
    Pointwise(relisted, NeedFor(again, reused, g), NeedFor(items, uses, g));
  }

  /** Items, uses and recipe lines may come in any order: the result is the same,
      a failure included. */
  lemma TotalsInAnyOrder(items: seq<Item>, again: seq<Item>, uses: seq<Use>, reused: seq<Use>,
                         lines: seq<Line>, relisted: seq<Line>, r: Result, s: Result)
    requires multiset(items) == multiset(again) && multiset(uses) == multiset(reused)
    requires multiset(lines) == multiset(relisted)
    requires IsTotals(items, uses, lines, r) && IsTotals(again, reused, relisted, s)
    ensures r == s
  {
    forall v: Id ensures Ordered(items, v) == Ordered(again, v) { OrderedInAnyOrder(items, again, v); }
    forall l ensures Fails(items, uses, l) <==> Fails(again, reused, l) {
      LinesInAnyOrder(items, again, uses, reused, l);
    }
    forall l ensures l in lines <==> l in relisted { SameMembers(lines, relisted, l); }
    if r.Computed? && s.Computed? {
      forall c: Id ensures (c in r.units <==> c in s.units) && (c in r.units ==> r.units[c] == s.units[c]) {
        UnitsInAnyOrder(items, again, uses, reused, c);
      }
      forall g: Id ensures (g in r.needs <==> g in s.needs) && (g in r.needs ==> r.needs[g] == s.needs[g]) {
        NeedsInAnyOrder(items, again, uses, reused, lines, relisted, g);
      }
      assert r.units == s.units && r.needs == s.needs;
    }
  }

  // ----- More items -----

  ghost predicate TakeUnits(uses: seq<Use>) { forall i :: 0 <= i < |uses| ==> uses[i].unitsPerItem >= 0.0 }

  ghost predicate OrderNoLess(items: seq<Item>, more: seq<Item>) {
    forall v: Id :: Ordered(items, v) <= Ordered(more, v)
  }

  lemma AddedItemsOrderNoLess(items: seq<Item>, added: seq<Item>)
    requires forall i :: 0 <= i < |added| ==> added[i].quantity >= 0
    ensures OrderNoLess(items, items + added)
  {
    forall v: Id ensures Ordered(items, v) <= Ordered(items + added, v) {
      Together(items, added, QtyOf(v));
      NothingIsOrdered(added, v);
    }
  }

  lemma {:induction false} NothingIsOrdered(items: seq<Item>, v: Id)
    requires forall i :: 0 <= i < |items| ==> items[i].quantity >= 0
    ensures SumBy(items, QtyOf(v)) >= 0
  {
    if items != [] {
      NothingIsOrdered(items[..|items| - 1], v);
    }
  }

  lemma UnitsOfUseGrow(items: seq<Item>, more: seq<Item>, use: Use, c: Id)
    requires OrderNoLess(items, more) && use.unitsPerItem >= 0.0
    ensures 0.0 <= UnitsOfUse(items, use, c) <= UnitsOfUse(more, use, c)
  {
  }

  lemma {:induction false} SumsAreNotNegative(items: seq<Item>, uses: seq<Use>, c: Id)
    requires TakeUnits(uses)
    ensures RealSumBy(uses, UnitsFor(items, c)) >= 0.0
  {
    if uses != [] {
      SumsAreNotNegative(items, uses[..|uses| - 1], c);
      UnitsOfUseGrow(items, items, uses[|uses| - 1], c);
    }
  }

  lemma UnitsGrow(items: seq<Item>, more: seq<Item>, uses: seq<Use>, c: Id)
    requires OrderNoLess(items, more) && TakeUnits(uses)
    ensures 0.0 <= UnitsOf(items, uses, c) <= UnitsOf(more, uses, c)
    ensures Made(items, uses, c) ==> Made(more, uses, c)
  {
    SumsAreNotNegative(items, uses, c);
    forall i | 0 <= i < |uses| ensures UnitsFor(items, c)(uses[i]) <= UnitsFor(more, c)(uses[i]) {
      UnitsOfUseGrow(items, more, uses[i], c);
    }
    RealPointwise(uses, UnitsFor(items, c), UnitsFor(more, c));
    if Made(items, uses, c) {
      var i :| 0 <= i < |uses| && Counts(items, uses[i], c);
      assert Ordered(items, uses[i].variant) <= Ordered(more, uses[i].variant);
      assert Counts(more, uses[i], c);
    }
  }

  lemma NeedOfLineGrows(items: seq<Item>, more: seq<Item>, uses: seq<Use>, l: Line, g: Id)
    requires OrderNoLess(items, more) && TakeUnits(uses) && Recipe.Measured(l.model) && !Fails(more, uses, l)
    ensures !Fails(items, uses, l)
    ensures NeedOfLine(items, uses, l, g) <= NeedOfLine(more, uses, l, g)
  {
    UnitsGrow(items, more, uses, l.component);
    var u, v := UnitsOf(items, uses, l.component), UnitsOf(more, uses, l.component);
    Recipe.QuantityRises(l.model, u, v, l.waste, l.rounding);
    QuantitiesAreNotNegative(l, v);
  }

  lemma QuantitiesAreNotNegative(l: Line, u: real)
    requires u >= 0.0
    ensures var q := Recipe.Quantity(l.model, u, l.waste, l.rounding); q.Qty? ==> q.qty >= 0
  {
    Recipe.QuantitiesAreNotNegative(l.model, u, l.waste, l.rounding);
  }

  ghost predicate AllMeasured(lines: seq<Line>) { forall l :: l in lines ==> Recipe.Measured(l.model) }

  ghost predicate AddOnly(added: seq<Item>) { forall i :: 0 <= i < |added| ==> added[i].quantity >= 0 }

  lemma NeedOfGrows(items: seq<Item>, added: seq<Item>, uses: seq<Use>, lines: seq<Line>, g: Id)
    requires TakeUnits(uses) && AllMeasured(lines) && AddOnly(added)
    requires forall l :: l in lines ==> !Fails(items + added, uses, l)
    ensures forall l :: l in lines ==> !Fails(items, uses, l)
    ensures NeedOf(items, uses, lines, g) <= NeedOf(items + added, uses, lines, g)
  {
    var more := items + added;
    AddedItemsOrderNoLess(items, added);
    forall l | l in lines ensures !Fails(items, uses, l) {
      NeedOfLineGrows(items, more, uses, l, g);
    }
    forall i | 0 <= i < |lines| ensures NeedFor(items, uses, g)(lines[i]) <= NeedFor(more, uses, g)(lines[i]) {
      assert lines[i] in lines;
      NeedOfLineGrows(items, more, uses, lines[i], g);
    }
    Pointwise(lines, NeedFor(items, uses, g), NeedFor(more, uses, g));
  }

  /** With affine and piecewise recipes, adding items never lowers what an
      ingredient needs, and a batch that could be computed with them could be
      computed without them. */
  lemma MoreItemsNeedNoLess(
      items: seq<Item>, added: seq<Item>, uses: seq<Use>, lines: seq<Line>, r: Result, s: Result, g: Id)
    requires TakeUnits(uses) && AllMeasured(lines) && AddOnly(added)
    requires IsTotals(items, uses, lines, r) && IsTotals(items + added, uses, lines, s) && s.Computed?
    ensures r.Computed? && Get(r.needs, g) <= Get(s.needs, g)
  {
    NeedOfGrows(items, added, uses, lines, g);
  }
}
