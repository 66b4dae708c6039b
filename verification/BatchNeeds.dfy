/** What a batch needs, read from its orders and the catalog
    (internal/aggregation/engine.go, totals). Only what the orders touch is
    read; that changes nothing. */
module BatchNeeds {
  import opened Base
  import opened Sums
  import opened Totals

  /** The uses and the recipe lines; a component in `broken` has a stored line no
      model can be built from. */
  datatype Catalog = Catalog(uses: seq<Use>, lines: seq<Line>, broken: set<Id>)

  /** What levels 1 and 2 make of a batch's orders, or a recipe that cannot be
      evaluated. */
  datatype Needs = Known(qty: map<Id, int>) | Broken

  // ----- What the needs are, over the whole catalog -----

  predicate Asked(items: seq<Item>, variant: Id) { exists i :: 0 <= i < |items| && items[i].variant == variant }

  /** A variant somebody ordered is made of a component that cannot be built. */
  predicate Unbuildable(items: seq<Item>, cat: Catalog) {
    exists i :: 0 <= i < |cat.uses| && Asked(items, cat.uses[i].variant) && cat.uses[i].component in cat.broken
  }

  predicate SomeFails(items: seq<Item>, uses: seq<Use>, lines: seq<Line>) {
    exists i :: 0 <= i < |lines| && Fails(items, uses, lines[i])
  }

  function Ingredients(lines: seq<Line>): set<Id> { set i | 0 <= i < |lines| :: lines[i].ingredient }

  function NeededOf(items: seq<Item>, uses: seq<Use>, lines: seq<Line>): map<Id, int> {
    map g | g in Ingredients(lines) && NeedOf(items, uses, lines, g) > 0 :: NeedOf(items, uses, lines, g)
  }

  function NeedsFrom(items: seq<Item>, cat: Catalog): Needs {
    if Unbuildable(items, cat) || SomeFails(items, cat.uses, cat.lines) then Broken
    else Known(NeededOf(items, cat.uses, cat.lines))
  }

  /** Needs cannot be told just when a variant somebody ordered takes a component that
      cannot be built, or the recipe of a component that is made fails. */
  lemma BrokenExactlyWhen(items: seq<Item>, cat: Catalog)
    ensures NeedsFrom(items, cat).Broken? <==>
              || (exists i, j :: 0 <= i < |cat.uses| && 0 <= j < |items| && items[j].variant == cat.uses[i].variant
                                 && cat.uses[i].component in cat.broken)
              || (exists l :: l in cat.lines && Fails(items, cat.uses, l))
  {
    if Unbuildable(items, cat) {
      var i :| 0 <= i < |cat.uses| && Asked(items, cat.uses[i].variant) && cat.uses[i].component in cat.broken;
      var j :| 0 <= j < |items| && items[j].variant == cat.uses[i].variant;
    } else if i, j :| 0 <= i < |cat.uses| && 0 <= j < |items| && items[j].variant == cat.uses[i].variant
                      && cat.uses[i].component in cat.broken {
      assert Asked(items, cat.uses[i].variant);
    }
    if SomeFails(items, cat.uses, cat.lines) {
      var i :| 0 <= i < |cat.lines| && Fails(items, cat.uses, cat.lines[i]);
      assert cat.lines[i] in cat.lines;
    }
  }

  /** An ingredient no line names is not needed. */
  lemma OnlyListedAreNeeded(items: seq<Item>, uses: seq<Use>, lines: seq<Line>, g: Id)
    requires g !in Ingredients(lines)
    ensures NeedOf(items, uses, lines, g) == 0
  {
    forall i | 0 <= i < |lines| ensures lines[i].ingredient != g {
      assert lines[i].ingredient in Ingredients(lines);
    }
    ZeroSumBy(lines, NeedFor(items, uses, g));
  }

  lemma NeededIsNeedOf(items: seq<Item>, uses: seq<Use>, lines: seq<Line>, g: Id)
    ensures Get(NeededOf(items, uses, lines), g) == Max(NeedOf(items, uses, lines, g), 0)
  {
    if g !in Ingredients(lines) {
      OnlyListedAreNeeded(items, uses, lines, g);
    }
  }

  /** The totals say just that. */
  lemma TotalsAreNeeds(items: seq<Item>, uses: seq<Use>, lines: seq<Line>, r: Result)
    requires IsTotals(items, uses, lines, r)
    ensures r.RecipeError? <==> SomeFails(items, uses, lines)
    ensures r.Computed? ==> r.needs == NeededOf(items, uses, lines)
  {
    if r.Computed? {
      forall i | 0 <= i < |lines| ensures !Fails(items, uses, lines[i]) {
        assert lines[i] in lines;
      }
      forall g: Id ensures g in r.needs <==> g in NeededOf(items, uses, lines) {
        NeededIsNeedOf(items, uses, lines, g);
      }
    }
  }

  // ----- Reading only what matters -----

  /** The uses of the variants ordered. */
  function UsesRead(items: seq<Item>, cat: Catalog): seq<Use> { Kept(cat.uses, (u: Use) => Asked(items, u.variant)) }

  predicate IsUsed(uses: seq<Use>, component: Id) { exists i :: 0 <= i < |uses| && uses[i].component == component }

  /** The recipe lines of the components used. */
  function LinesRead(uses: seq<Use>, cat: Catalog): seq<Line> {
    Kept(cat.lines, (l: Line) => IsUsed(uses, l.component))
  }

  /** Levels 1 and 2 of a batch, over what its orders touch. */
  method ReadNeeds(items: seq<Item>, cat: Catalog) returns (needs: Needs)
    ensures needs == NeedsFrom(items, cat)
  {
    var uses := UsesRead(items, cat);
    UnbuildableIsRead(items, cat);
    LinesReadDecide(items, cat);
    if |items| == 0 || |uses| == 0 {
      NothingIsMade(items, uses, LinesRead(uses, cat));
      return Known(map[]);
    }
    if exists i :: 0 <= i < |uses| && uses[i].component in cat.broken {
      return Broken;
    }
    var lines := LinesRead(uses, cat);
    var totals := ComputeTotals(items, uses, lines);
    TotalsAreNeeds(items, uses, lines, totals);
    match totals {
      case RecipeError(_, _) => needs := Broken;
      case Computed(_, qty) => needs := Known(qty);
    }
  }

  /** Nothing is made of a variant nobody ordered. */
  lemma UnaskedCountsNothing(items: seq<Item>, use: Use, c: Id)
    requires !Asked(items, use.variant)
    ensures !Counts(items, use, c)
  {
    ZeroSumBy(items, QtyOf(use.variant));
  }

  lemma MadeByKept(items: seq<Item>, kept: seq<Use>, uses: seq<Use>, c: Id)
    requires forall u :: u in kept ==> u in uses
    ensures Made(items, kept, c) ==> Made(items, uses, c)
  {
    if Made(items, kept, c) {
      var i :| 0 <= i < |kept| && Counts(items, kept[i], c);
      assert kept[i] in uses;
      var k :| 0 <= k < |uses| && uses[k] == kept[i];
      assert Counts(items, uses[k], c);
    }
  }

  lemma WhatIsMadeIsRead(items: seq<Item>, cat: Catalog, c: Id)
    requires Made(items, cat.uses, c)
    ensures Made(items, UsesRead(items, cat), c)
  {
    var uses := UsesRead(items, cat);
    var i :| 0 <= i < |cat.uses| && Counts(items, cat.uses[i], c);
    if !Asked(items, cat.uses[i].variant) {
      UnaskedCountsNothing(items, cat.uses[i], c);
    }
    assert cat.uses[i] in uses;
    var k :| 0 <= k < |uses| && uses[k] == cat.uses[i];
    assert Counts(items, uses[k], c);
  }

  lemma UsesReadDecide(items: seq<Item>, cat: Catalog, c: Id)
    ensures UnitsOf(items, UsesRead(items, cat), c) == UnitsOf(items, cat.uses, c)
    ensures Made(items, UsesRead(items, cat), c) <==> Made(items, cat.uses, c)
  {
    forall i | 0 <= i < |cat.uses| && !Asked(items, cat.uses[i].variant)
      ensures UnitsFor(items, c)(cat.uses[i]) == 0.0
    {
      UnaskedCountsNothing(items, cat.uses[i], c);
    }
    RealSumOfKept(cat.uses, (u: Use) => Asked(items, u.variant), UnitsFor(items, c));
    MadeByKept(items, UsesRead(items, cat), cat.uses, c);
    if Made(items, cat.uses, c) {
      WhatIsMadeIsRead(items, cat, c);
    }
  }

  /** So every recipe line gives the same. */
  lemma LineReadIsSame(items: seq<Item>, cat: Catalog, l: Line, g: Id)
    ensures Fails(items, UsesRead(items, cat), l) <==> Fails(items, cat.uses, l)
    ensures NeedOfLine(items, UsesRead(items, cat), l, g) == NeedOfLine(items, cat.uses, l, g)
  {
    UsesReadDecide(items, cat, l.component);
  }

  /** The lines of components nobody uses need nothing and cannot fail. */
  lemma LinesReadDecide(items: seq<Item>, cat: Catalog)
    ensures var uses := UsesRead(items, cat);
            && (SomeFails(items, uses, LinesRead(uses, cat)) <==> SomeFails(items, cat.uses, cat.lines))
            && NeededOf(items, uses, LinesRead(uses, cat)) == NeededOf(items, cat.uses, cat.lines)
  {
    var uses := UsesRead(items, cat);
    FailuresAreRead(items, cat);
    forall g: Id ensures NeedOf(items, uses, LinesRead(uses, cat), g) == NeedOf(items, cat.uses, cat.lines, g) {
      NeedReadIsSame(items, cat, g);
    }
    SameNeeds(items, uses, LinesRead(uses, cat), cat.uses, cat.lines);
  }

  lemma NeedReadIsSame(items: seq<Item>, cat: Catalog, g: Id)
    ensures var uses := UsesRead(items, cat);
            NeedOf(items, uses, LinesRead(uses, cat), g) == NeedOf(items, cat.uses, cat.lines, g)
  {
    var uses := UsesRead(items, cat);
    SumOfKept(cat.lines, (l: Line) => IsUsed(uses, l.component), NeedFor(items, uses, g));
    forall i | 0 <= i < |cat.lines|
      ensures NeedFor(items, uses, g)(cat.lines[i]) == NeedFor(items, cat.uses, g)(cat.lines[i])
    {
      LineReadIsSame(items, cat, cat.lines[i], g);
    }
    SameSum(cat.lines, NeedFor(items, uses, g), NeedFor(items, cat.uses, g));
  }

  lemma SameNeeds(items: seq<Item>, uses: seq<Use>, lines: seq<Line>, reused: seq<Use>, relisted: seq<Line>)
    requires forall g: Id :: NeedOf(items, uses, lines, g) == NeedOf(items, reused, relisted, g)
    ensures NeededOf(items, uses, lines) == NeededOf(items, reused, relisted)
  {
    forall g: Id ensures g in NeededOf(items, uses, lines) <==> g in NeededOf(items, reused, relisted) {
      NeededIsNeedOf(items, uses, lines, g);
      NeededIsNeedOf(items, reused, relisted, g);
    }
  }

  lemma FailuresAreRead(items: seq<Item>, cat: Catalog)
    ensures var uses := UsesRead(items, cat);
            SomeFails(items, uses, LinesRead(uses, cat)) <==> SomeFails(items, cat.uses, cat.lines)
  {
    var uses := UsesRead(items, cat);
    var lines := LinesRead(uses, cat);
    if SomeFails(items, uses, lines) {
      var i :| 0 <= i < |lines| && Fails(items, uses, lines[i]);
      assert lines[i] in cat.lines;
      var k :| 0 <= k < |cat.lines| && cat.lines[k] == lines[i];
      LineReadIsSame(items, cat, cat.lines[k], 0);
    }
    if SomeFails(items, cat.uses, cat.lines) {
      var i :| 0 <= i < |cat.lines| && Fails(items, cat.uses, cat.lines[i]);
      LineReadIsSame(items, cat, cat.lines[i], 0);
      assert cat.lines[i] in lines;
      var k :| 0 <= k < |lines| && lines[k] == cat.lines[i];
      assert Fails(items, uses, lines[k]);
    }
  }

  lemma UnbuildableIsRead(items: seq<Item>, cat: Catalog)
    ensures var uses := UsesRead(items, cat);
            Unbuildable(items, cat) <==> exists i :: 0 <= i < |uses| && uses[i].component in cat.broken
  {
    var uses := UsesRead(items, cat);
    if Unbuildable(items, cat) {
      var i :| 0 <= i < |cat.uses| && Asked(items, cat.uses[i].variant) && cat.uses[i].component in cat.broken;
      assert cat.uses[i] in uses;
    }
    if i :| 0 <= i < |uses| && uses[i].component in cat.broken {
      assert uses[i] in uses;
      assert uses[i] in cat.uses;
    }
  }

  lemma NothingIsMade(items: seq<Item>, uses: seq<Use>, lines: seq<Line>)
    requires items == [] || uses == []
    ensures !SomeFails(items, uses, lines) && NeededOf(items, uses, lines) == map[]
  {
    forall g: Id ensures NeedOf(items, uses, lines, g) == 0 {
      ZeroSumBy(lines, NeedFor(items, uses, g));
    }
  }
}
