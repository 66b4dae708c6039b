/** What a batch uses (internal/aggregation/compute.go): the components' total
    units, and the ingredients those need through the recipes. */
module Totals {
  import opened Base
  import opened Sums
  import Recipe

  datatype Item = Item(variant: Id, quantity: int)

  /** How many units of a component one item of a variant takes. */
  datatype Use = Use(component: Id, variant: Id, unitsPerItem: real)

  datatype RecipeLine = RecipeLine(
    component: Id, ingredient: Id, model: Recipe.Model, waste: real, rounding: Recipe.Rounding)

  /** A stored line: its model was checked when it was built. */
  type Line = l: RecipeLine | Recipe.WellFormed(l.model)
    witness RecipeLine(0, 0, Recipe.AffineModel(0.0, 0.0), 1.0, Recipe.RoundUp)

  datatype Result = Computed(units: map<Id, real>, needs: map<Id, int>) | RecipeError(component: Id, ingredient: Id)

  // ----- The sums the totals are -----

  function QtyOf(variant: Id): Item -> int { (it: Item) => if it.variant == variant then it.quantity else 0 }

  function Ordered(items: seq<Item>, variant: Id): int { SumBy(items, QtyOf(variant)) }

  predicate Counts(items: seq<Item>, use: Use, component: Id) {
    use.component == component && Ordered(items, use.variant) > 0
  }

  function UnitsOfUse(items: seq<Item>, use: Use, component: Id): real {
    if Counts(items, use, component) then Ordered(items, use.variant) as real * use.unitsPerItem else 0.0
  }

  function UnitsFor(items: seq<Item>, component: Id): Use -> real { (use: Use) => UnitsOfUse(items, use, component) }

  /** Level 1: a component's units over the whole batch. */
  function UnitsOf(items: seq<Item>, uses: seq<Use>, component: Id): real {
    RealSumBy(uses, UnitsFor(items, component))
  }

  predicate Made(items: seq<Item>, uses: seq<Use>, component: Id) {
    exists i :: 0 <= i < |uses| && Counts(items, uses[i], component)
  }

  /** One recipe line, once, on its component's total units. */
  function QuantityOf(items: seq<Item>, uses: seq<Use>, l: Line): Recipe.Quantified {
    Recipe.Quantity(l.model, UnitsOf(items, uses, l.component), l.waste, l.rounding)
  }

  predicate Fails(items: seq<Item>, uses: seq<Use>, l: Line) {
    Made(items, uses, l.component) && QuantityOf(items, uses, l).NoQty?
  }

  function NeedOfLine(items: seq<Item>, uses: seq<Use>, l: Line, ingredient: Id): int {
    if l.ingredient != ingredient || !Made(items, uses, l.component) then 0
    else
      match QuantityOf(items, uses, l)
      case Qty(q) => q
      case NoQty(_) => 0
  }

  function NeedFor(items: seq<Item>, uses: seq<Use>, ingredient: Id): Line -> int {
    (l: Line) => NeedOfLine(items, uses, l, ingredient)
  }

  /** Level 2: the double sum, an ingredient over the components that use it. */
  function NeedOf(items: seq<Item>, uses: seq<Use>, lines: seq<Line>, ingredient: Id): int {
    SumBy(lines, NeedFor(items, uses, ingredient))
  }

  /** Each item ordered counts for its variant, as often as it is listed. */
  lemma OrderedOneMore(items: seq<Item>, it: Item, v: Id)
    ensures Ordered([], v) == 0
    ensures Ordered(items + [it], v) == Ordered(items, v) + if it.variant == v then it.quantity else 0
  {
    OneMore(items + [it], |items|, QtyOf(v));
    assert (items + [it])[..|items|] == items && (items + [it])[..|items| + 1] == items + [it];
  }

  /** A component is made, and gets its units, for each variant that is ordered and
      takes some of it. */
  lemma UnitsOneMore(items: seq<Item>, uses: seq<Use>, use: Use, c: Id)
    ensures UnitsOf(items, [], c) == 0.0 && !Made(items, [], c)
    ensures var counts := use.component == c && Ordered(items, use.variant) > 0;
            && (Made(items, uses + [use], c) <==> Made(items, uses, c) || counts)
            && UnitsOf(items, uses + [use], c)
                 == UnitsOf(items, uses, c)
                    + if counts then Ordered(items, use.variant) as real * use.unitsPerItem else 0.0
  {
    var more := uses + [use];
    assert more[..|uses|] == uses && more[..|uses| + 1] == more;
    RealOneMore(more, |uses|, UnitsFor(items, c));
    MadeByOneMore(items, more, |uses|, c);
  }

  /** A line fails, or adds its whole quantity to its ingredient's need, by its recipe on
      all the units of its component, and neither when that is not made. */
  lemma NeedOneMore(items: seq<Item>, uses: seq<Use>, lines: seq<Line>, l: Line, g: Id)
    ensures NeedOf(items, uses, [], g) == 0
    ensures var made := exists i ::
                0 <= i < |uses| && uses[i].component == l.component && Ordered(items, uses[i].variant) > 0;
            var q := Recipe.Quantity(l.model, UnitsOf(items, uses, l.component), l.waste, l.rounding);
            && (Fails(items, uses, l) <==> made && q.NoQty?)
            && NeedOf(items, uses, lines + [l], g)
                 == NeedOf(items, uses, lines, g) + if made && l.ingredient == g && q.Qty? then q.qty else 0
  {
    var more := lines + [l];
    assert more[..|lines|] == lines && more[..|lines| + 1] == more;
    OneMore(more, |lines|, NeedFor(items, uses, g));
    var made := exists i ::
      0 <= i < |uses| && uses[i].component == l.component && Ordered(items, uses[i].variant) > 0;
    if made {
      var i :| 0 <= i < |uses| && uses[i].component == l.component && Ordered(items, uses[i].variant) > 0;
      assert Counts(items, uses[i], l.component);
    }
  }

  /** A line before another, by component and then by ingredient. */
  predicate Before(l: Line, m: Line) {
    l.component < m.component || (l.component == m.component && l.ingredient <= m.ingredient)
  }

  ghost predicate InOrder(lines: seq<Line>) { forall i, j :: 0 <= i < j < |lines| ==> Before(lines[i], lines[j]) }

  /** What the totals are of a batch: the sums, or the first line that fails. */
  ghost predicate IsTotals(items: seq<Item>, uses: seq<Use>, lines: seq<Line>, r: Result) {
    match r
    case Computed(units, needs) =>
      && (forall l :: l in lines ==> !Fails(items, uses, l))
      && (forall c: Id :: c in units <==> Made(items, uses, c))
      && (forall c: Id :: c in units ==> units[c] == UnitsOf(items, uses, c))
      && (forall g: Id :: g in needs <==> NeedOf(items, uses, lines, g) > 0)
      && (forall g: Id :: g in needs ==> needs[g] == NeedOf(items, uses, lines, g))
    case RecipeError(c, g) =>
      exists l :: l in lines && l.component == c && l.ingredient == g && Fails(items, uses, l)
               && forall m :: m in lines && Fails(items, uses, m) ==> Before(l, m)
  }

  /** An error names the least component that fails, and of that the least ingredient. */
  lemma ErrorsNameTheLeast(items: seq<Item>, uses: seq<Use>, lines: seq<Line>, r: Result, l: Line)
    requires IsTotals(items, uses, lines, r) && l in lines && Fails(items, uses, l)
    ensures r.RecipeError? && r.component <= l.component
    ensures r.component == l.component ==> r.ingredient <= l.ingredient
  {
  }

  // ----- The loops -----

  method Quantities(items: seq<Item>) returns (quantity: map<Id, int>)
    ensures forall v: Id :: Get(quantity, v) == Ordered(items, v)
  {
    quantity := map[];
    for i := 0 to |items|
      invariant forall v: Id :: Get(quantity, v) == SumBy(items[..i], QtyOf(v))
    {
      forall v: Id ensures SumBy(items[..i + 1], QtyOf(v)) == SumBy(items[..i], QtyOf(v)) + QtyOf(v)(items[i]) {
        OneMore(items, i, QtyOf(v));
      }
      var it := items[i];
      quantity := quantity[it.variant := Get(quantity, it.variant) + it.quantity];
    }
    assert items[..|items|] == items;
  }

  function GetReal(m: map<Id, real>, k: Id): real { if k in m then m[k] else 0.0 }

  ghost predicate UnitsSoFar(items: seq<Item>, uses: seq<Use>, units: map<Id, real>) {
    && (forall c: Id :: c in units <==> Made(items, uses, c))
    && forall c: Id :: GetReal(units, c) == UnitsOf(items, uses, c)
  }

  method Level1(items: seq<Item>, uses: seq<Use>) returns (units: map<Id, real>)
    ensures UnitsSoFar(items, uses, units)
  {
    var quantity := Quantities(items);
    units := map[];
    NoUsesYet(items, uses, units);
    for i := 0 to |uses|
      invariant UnitsSoFar(items, uses[..i], units)
    {
      units := AddUse(items, uses, i, quantity, units);
    }
    assert uses[..|uses|] == uses;
  }

  lemma NoUsesYet(items: seq<Item>, uses: seq<Use>, units: map<Id, real>)
    requires units == map[]
    ensures UnitsSoFar(items, uses[..0], units)
  {
  }

  /** A variant nobody ordered adds no units. */
  function WithUse(units: map<Id, real>, use: Use, q: int): map<Id, real> {
    if q <= 0 then units
    else units[use.component := GetReal(units, use.component) + q as real * use.unitsPerItem]
  }

  method AddUse(ghost items: seq<Item>, uses: seq<Use>, i: nat, quantity: map<Id, int>, units: map<Id, real>)
    returns (more: map<Id, real>)
    requires i < |uses| && UnitsSoFar(items, uses[..i], units)
    requires forall v: Id :: Get(quantity, v) == Ordered(items, v)
    ensures UnitsSoFar(items, uses[..i + 1], more)
  {
    var use := uses[i];
    var q := Get(quantity, use.variant);
    assert q == Ordered(items, use.variant);
    OneMoreUse(items, uses, i, units);
    more := WithUse(units, use, q);
  }

  lemma OneMoreUse(items: seq<Item>, uses: seq<Use>, i: nat, units: map<Id, real>)
    requires i < |uses| && UnitsSoFar(items, uses[..i], units)
    ensures UnitsSoFar(items, uses[..i + 1], WithUse(units, uses[i], Ordered(items, uses[i].variant)))
  {
    var more := WithUse(units, uses[i], Ordered(items, uses[i].variant));
    forall c: Id
      ensures c in more <==> Made(items, uses[..i + 1], c)
      ensures GetReal(more, c) == UnitsOf(items, uses[..i + 1], c)
    {
      MadeByOneMore(items, uses, i, c);
      RealOneMore(uses, i, UnitsFor(items, c));
      UseAdds(items, uses[i], units, c);
    }
  }

  lemma UseAdds(items: seq<Item>, use: Use, units: map<Id, real>, c: Id)
    ensures var more := WithUse(units, use, Ordered(items, use.variant));
            && (c in more <==> c in units || Counts(items, use, c))
            && GetReal(more, c) == GetReal(units, c) + UnitsOfUse(items, use, c)
  {
  }

  lemma MadeByOneMore(items: seq<Item>, uses: seq<Use>, i: nat, c: Id)
    requires i < |uses|
    ensures Made(items, uses[..i + 1], c) <==> Made(items, uses[..i], c) || Counts(items, uses[i], c)
  {
  }

  function Inserted(lines: seq<Line>, l: Line): seq<Line> {
    if lines == [] || Before(lines[|lines| - 1], l) then lines + [l]
    else Inserted(lines[..|lines| - 1], l) + [lines[|lines| - 1]]
  }

  lemma {:induction false} InsertedStaysBefore(lines: seq<Line>, l: Line, m: Line)
    requires Before(l, m) && forall i :: 0 <= i < |lines| ==> Before(lines[i], m)
    ensures forall i :: 0 <= i < |Inserted(lines, l)| ==> Before(Inserted(lines, l)[i], m)
  {
    if lines != [] && !Before(lines[|lines| - 1], l) {
      InsertedStaysBefore(lines[..|lines| - 1], l, m);
    }
  }

  lemma {:induction false} InsertedIsInOrder(lines: seq<Line>, l: Line)
    requires InOrder(lines)
    ensures InOrder(Inserted(lines, l))
  {
    if lines != [] {
      var front, last := lines[..|lines| - 1], lines[|lines| - 1];
      if Before(last, l) {
        forall i | 0 <= i < |lines| ensures Before(lines[i], l) {
          assert Before(lines[i], last);
        }
      } else {
        InsertedIsInOrder(front, l);
        InsertedStaysBefore(front, l, last);
      }
    }
  }

  lemma {:induction false} InsertedIsThere(lines: seq<Line>, l: Line)
    ensures multiset(Inserted(lines, l)) == multiset(lines) + multiset{l}
  {
    if lines != [] && !Before(lines[|lines| - 1], l) {
      InsertedIsThere(lines[..|lines| - 1], l);
      assert lines == lines[..|lines| - 1] + [lines[|lines| - 1]];
    }
  }

  method SortLines(lines: seq<Line>) returns (sorted: seq<Line>)
    ensures InOrder(sorted) && multiset(sorted) == multiset(lines)
  {
    sorted := [];
    for i := 0 to |lines|
      invariant InOrder(sorted) && multiset(sorted) == multiset(lines[..i])
    {
      InsertedIsInOrder(sorted, lines[i]);
      InsertedIsThere(sorted, lines[i]);
      assert lines[..i + 1] == lines[..i] + [lines[i]];
      sorted := Inserted(sorted, lines[i]);
    }
    assert lines[..|lines|] == lines;
  }

  datatype Needed = Needed(needed: map<Id, int>) | Failed(line: Line)

  /** Level 2 over the sorted lines: the first that fails ends it. */
  method Level2(ghost items: seq<Item>, ghost uses: seq<Use>, units: map<Id, real>, sorted: seq<Line>)
    returns (r: Needed)
    requires UnitsSoFar(items, uses, units)
    ensures r.Needed? ==> (forall i :: 0 <= i < |sorted| ==> !Fails(items, uses, sorted[i]))
                          && forall g: Id :: Get(r.needed, g) == NeedOf(items, uses, sorted, g)
    ensures r.Failed? ==> exists i :: 0 <= i < |sorted| && sorted[i] == r.line && Fails(items, uses, sorted[i])
                            && forall k :: 0 <= k < i ==> !Fails(items, uses, sorted[k])
  {
    var needed: map<Id, int> := map[];
    for i := 0 to |sorted|
      invariant forall k :: 0 <= k < i ==> !Fails(items, uses, sorted[k])
      invariant forall g: Id :: Get(needed, g) == SumBy(sorted[..i], NeedFor(items, uses, g))
    {
      var l := sorted[i];
      forall g: Id
        ensures SumBy(sorted[..i + 1], NeedFor(items, uses, g))
             == SumBy(sorted[..i], NeedFor(items, uses, g)) + NeedOfLine(items, uses, l, g)
      {
        OneMore(sorted, i, NeedFor(items, uses, g));
      }
      if l.component !in units {
        continue;
      }
      var q := Recipe.Quantity(l.model, units[l.component], l.waste, l.rounding);
      if q.NoQty? {
        return Failed(l);
      }
      needed := needed[l.ingredient := Get(needed, l.ingredient) + q.qty];
    }
    assert sorted[..|sorted|] == sorted;
    r := Needed(needed);
  }

  /** The needs that are more than nothing. */
  function Positive(needed: map<Id, int>): map<Id, int> { map g | g in needed && needed[g] > 0 :: needed[g] }

  /** Both levels. */
  method ComputeTotals(items: seq<Item>, uses: seq<Use>, lines: seq<Line>) returns (r: Result)
    ensures IsTotals(items, uses, lines, r)
  {
    var units := Level1(items, uses);
    var sorted := SortLines(lines);
    forall l ensures l in lines <==> l in sorted { SameMembers(lines, sorted, l); }
    var level2 := Level2(items, uses, units, sorted);
    match level2 {
      case Failed(l) =>
        r := RecipeError(l.component, l.ingredient);
        FirstOfSorted(items, uses, lines, sorted, l);
      case Needed(needed) =>
        r := Computed(units, Positive(needed));
        forall g: Id ensures NeedOf(items, uses, sorted, g) == NeedOf(items, uses, lines, g) {
          AnyOrder(sorted, lines, NeedFor(items, uses, g));
        }
    }
  }

  lemma SameMembers(a: seq<Line>, b: seq<Line>, l: Line)
    requires multiset(a) == multiset(b)
    ensures l in a <==> l in b
  {
    assert l in a <==> l in multiset(a);
    assert l in b <==> l in multiset(b);
  }

  lemma FirstOfSorted(items: seq<Item>, uses: seq<Use>, lines: seq<Line>, sorted: seq<Line>, l: Line)
    requires InOrder(sorted) && forall m :: m in lines <==> m in sorted
    requires exists i :: 0 <= i < |sorted| && sorted[i] == l && Fails(items, uses, sorted[i])
               && forall k :: 0 <= k < i ==> !Fails(items, uses, sorted[k])
    ensures IsTotals(items, uses, lines, RecipeError(l.component, l.ingredient))
  {
  }
}
