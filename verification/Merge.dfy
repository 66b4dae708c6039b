/** Merging repeated measurements of the same units (internal/recipe/fit.go):
    sorted by units, with the amounts of equal units averaged. */
module Merge {
  import opened Recipe

  // ----- What was measured at some units -----

  function CountAt(ps: seq<Point>, u: real): nat {
    if ps == [] then 0 else CountAt(ps[..|ps| - 1], u) + if ps[|ps| - 1].u == u then 1 else 0
  }

  function SumAt(ps: seq<Point>, u: real): real {
    if ps == [] then 0.0 else SumAt(ps[..|ps| - 1], u) + if ps[|ps| - 1].u == u then ps[|ps| - 1].amount else 0.0
  }

  function Total(ps: seq<Point>): real {
    if ps == [] then 0.0 else Total(ps[..|ps| - 1]) + ps[|ps| - 1].amount
  }

  predicate HasUnits(ms: seq<Point>, u: real) { exists k :: 0 <= k < |ms| && ms[k].u == u }

  ghost predicate Increasing(ms: seq<Point>) { forall i, j :: 0 <= i < j < |ms| ==> ms[i].u < ms[j].u }

  function Average(ps: seq<Point>, u: real): real
    requires CountAt(ps, u) > 0
  {
    SumAt(ps, u) / CountAt(ps, u) as real
  }

  ghost predicate Averages(m: Point, ps: seq<Point>) { CountAt(ps, m.u) > 0 && m.amount == Average(ps, m.u) }

  /** One point for each units measured, in order, with the average amount. */
  ghost predicate Merged(ms: seq<Point>, ps: seq<Point>) {
    && Increasing(ms)
    && (forall k :: 0 <= k < |ms| ==> Averages(ms[k], ps))
    && forall u :: CountAt(ps, u) > 0 ==> HasUnits(ms, u)
  }

  lemma OneMorePoint(ps: seq<Point>, p: Point, u: real)
    ensures CountAt(ps + [p], u) == CountAt(ps, u) + if p.u == u then 1 else 0
    ensures SumAt(ps + [p], u) == SumAt(ps, u) + if p.u == u then p.amount else 0.0
    ensures Total(ps + [p]) == Total(ps) + p.amount
  {
  }

  lemma {:induction false} PointsTogether(ps: seq<Point>, qs: seq<Point>, u: real)
    ensures CountAt(ps + qs, u) == CountAt(ps, u) + CountAt(qs, u)
    ensures SumAt(ps + qs, u) == SumAt(ps, u) + SumAt(qs, u)
  {
    if qs == [] {
      assert ps + qs == ps;
    } else {
      var front, last := qs[..|qs| - 1], qs[|qs| - 1];
      PointsTogether(ps, front, u);
      assert ps + qs == (ps + front) + [last];
      OneMorePoint(ps + front, last, u);
    }
  }

  lemma WithoutOne(qs: seq<Point>, i: nat, u: real)
    requires i < |qs|
    ensures var rest := qs[..i] + qs[i + 1..];
            && CountAt(qs, u) == CountAt(rest, u) + (if qs[i].u == u then 1 else 0)
            && SumAt(qs, u) == SumAt(rest, u) + (if qs[i].u == u then qs[i].amount else 0.0)
            && multiset(qs) == multiset(rest) + multiset{qs[i]}
  {
    assert qs == (qs[..i] + [qs[i]]) + qs[i + 1..];
    PointsTogether(qs[..i] + [qs[i]], qs[i + 1..], u);
    OneMorePoint(qs[..i], qs[i], u);
    PointsTogether(qs[..i], qs[i + 1..], u);
  }

  /** The order of the measurements does not matter. */
  lemma {:induction false} OrderDoesNotMatter(ps: seq<Point>, qs: seq<Point>, u: real)
    requires multiset(ps) == multiset(qs)
    ensures CountAt(ps, u) == CountAt(qs, u) && SumAt(ps, u) == SumAt(qs, u)
  {
    if ps == [] {
      assert |multiset(qs)| == |qs|;
    } else {
      var front, last := ps[..|ps| - 1], ps[|ps| - 1];
      assert ps == front + [last];
      assert last in multiset(ps);
      var i :| 0 <= i < |qs| && qs[i] == last;
      WithoutOne(qs, i, u);
      assert multiset(ps) == multiset(front) + multiset{last};
      var rest := qs[..i] + qs[i + 1..];
      assert multiset(front) == multiset(ps) - multiset{last};
      assert multiset(rest) == multiset(qs) - multiset{last};
      OrderDoesNotMatter(front, rest, u);
    }
  }

  /** Units that strictly grow list a set of units in one way. */
  lemma {:induction false} IncreasingOnlyOneWay(ms: seq<Point>, ns: seq<Point>)
    requires Increasing(ms) && Increasing(ns)
    requires forall u :: HasUnits(ms, u) <==> HasUnits(ns, u)
    ensures |ms| == |ns| && forall k :: 0 <= k < |ms| ==> ms[k].u == ns[k].u
    decreases |ms|
  {
    if ms == [] {
      assert ns != [] ==> HasUnits(ns, ns[0].u);
    } else {
      var m := ms[|ms| - 1];
      assert HasUnits(ms, m.u);
      var n := ns[|ns| - 1];
      assert HasUnits(ns, n.u);
      var front, prior := ms[..|ms| - 1], ns[..|ns| - 1];
      forall u ensures HasUnits(front, u) <==> HasUnits(ms, u) && u != m.u { OneFewer(ms, u); }
      forall u ensures HasUnits(prior, u) <==> HasUnits(ns, u) && u != n.u { OneFewer(ns, u); }
      IncreasingOnlyOneWay(front, prior);
    }
  }

  lemma OneFewer(ms: seq<Point>, u: real)
    requires ms != [] && Increasing(ms)
    ensures HasUnits(ms[..|ms| - 1], u) <==> HasUnits(ms, u) && u != ms[|ms| - 1].u
  {
  }

  /** Measurements in any order merge to the same points. */
  lemma MergedOnlyOneWay(ms: seq<Point>, ps: seq<Point>, ns: seq<Point>, qs: seq<Point>)
    requires Merged(ms, ps) && Merged(ns, qs) && multiset(ps) == multiset(qs)
    ensures ms == ns
  {
    forall u ensures HasUnits(ms, u) <==> HasUnits(ns, u) {
      OrderDoesNotMatter(ps, qs, u);
      assert HasUnits(ms, u) ==> CountAt(ps, u) > 0;
      assert HasUnits(ns, u) ==> CountAt(qs, u) > 0;
    }
    IncreasingOnlyOneWay(ms, ns);
    forall k | 0 <= k < |ms| ensures ms[k] == ns[k] {
      OrderDoesNotMatter(ps, qs, ms[k].u);
      assert Averages(ms[k], ps) && Averages(ns[k], qs);
    }
  }

  // ----- What merging preserves -----

  /** The amounts at some units, added up. */
  function SumOver(ms: seq<Point>, ps: seq<Point>): real {
    if ms == [] then 0.0 else SumOver(ms[..|ms| - 1], ps) + SumAt(ps, ms[|ms| - 1].u)
  }

  lemma {:induction false} OneMoreMeasured(ms: seq<Point>, ps: seq<Point>, p: Point)
    requires Increasing(ms)
    ensures SumOver(ms, ps + [p]) == SumOver(ms, ps) + if HasUnits(ms, p.u) then p.amount else 0.0
  {
    if ms != [] {
      var front, last := ms[..|ms| - 1], ms[|ms| - 1];
      OneMoreMeasured(front, ps, p);
      OneMorePoint(ps, p, last.u);
      OneFewer(ms, p.u);
      assert HasUnits(ms, last.u);
    }
  }

  lemma {:induction false} NothingMeasured(ms: seq<Point>)
    ensures SumOver(ms, []) == 0.0
  {
    if ms != [] {
      NothingMeasured(ms[..|ms| - 1]);
    }
  }

  lemma {:induction false} EveryPointCountsOnce(ms: seq<Point>, ps: seq<Point>)
    requires Increasing(ms) && forall i :: 0 <= i < |ps| ==> HasUnits(ms, ps[i].u)
    ensures SumOver(ms, ps) == Total(ps)
  {
    if ps == [] {
      NothingMeasured(ms);
    } else {
      var front, last := ps[..|ps| - 1], ps[|ps| - 1];
      EveryPointCountsOnce(ms, front);
      OneMoreMeasured(ms, front, last);
      assert front + [last] == ps;
    }
  }

  /** The merged amounts, each as often as it was measured. */
  function Weighted(ms: seq<Point>, ps: seq<Point>): real {
    if ms == [] then 0.0
    else Weighted(ms[..|ms| - 1], ps) + CountAt(ps, ms[|ms| - 1].u) as real * ms[|ms| - 1].amount
  }

  lemma CountTimesAverage(ps: seq<Point>, u: real)
    requires CountAt(ps, u) > 0
    ensures CountAt(ps, u) as real * Average(ps, u) == SumAt(ps, u)
  {
  }

  lemma {:induction false} AveragesWeighBack(ms: seq<Point>, ps: seq<Point>)
    requires forall k :: 0 <= k < |ms| ==> Averages(ms[k], ps)
    ensures Weighted(ms, ps) == SumOver(ms, ps)
  {
    if ms != [] {
      AveragesWeighBack(ms[..|ms| - 1], ps);
      assert Averages(ms[|ms| - 1], ps);
      CountTimesAverage(ps, ms[|ms| - 1].u);
    }
  }

  lemma {:induction false} MeasuredIsCounted(ps: seq<Point>, i: nat)
    requires i < |ps|
    ensures CountAt(ps, ps[i].u) > 0
  {
    if i < |ps| - 1 {
      MeasuredIsCounted(ps[..|ps| - 1], i);
    }
  }

  /** Merging preserves the sum of the amounts, weighted by how often each units
      was measured. */
  lemma MergingPreservesTheTotal(ms: seq<Point>, ps: seq<Point>)
    requires Merged(ms, ps)
    ensures Weighted(ms, ps) == Total(ps)
  {
    forall i | 0 <= i < |ps| ensures HasUnits(ms, ps[i].u) {
      MeasuredIsCounted(ps, i);
    }
    EveryPointCountsOnce(ms, ps);
    AveragesWeighBack(ms, ps);
  }

  // ----- Sorting and merging -----

  ghost predicate Sorted(ps: seq<Point>) { forall i, j :: 0 <= i < j < |ps| ==> ps[i].u <= ps[j].u }

  /** Before the first point with more units, so equal units keep their order. */
  function Inserted(ps: seq<Point>, p: Point): seq<Point> {
    if ps == [] || ps[|ps| - 1].u <= p.u then ps + [p]
    else Inserted(ps[..|ps| - 1], p) + [ps[|ps| - 1]]
  }

  lemma {:induction false} InsertedStaysBelow(ps: seq<Point>, p: Point, u: real)
    requires p.u <= u && forall i :: 0 <= i < |ps| ==> ps[i].u <= u
    ensures forall i :: 0 <= i < |Inserted(ps, p)| ==> Inserted(ps, p)[i].u <= u
  {
    if ps != [] && ps[|ps| - 1].u > p.u {
      InsertedStaysBelow(ps[..|ps| - 1], p, u);
    }
  }

  lemma {:induction false} InsertedIsSorted(ps: seq<Point>, p: Point)
    requires Sorted(ps)
    ensures Sorted(Inserted(ps, p))
  {
    if ps != [] && ps[|ps| - 1].u > p.u {
      InsertedIsSorted(ps[..|ps| - 1], p);
      InsertedStaysBelow(ps[..|ps| - 1], p, ps[|ps| - 1].u);
    }
  }

  lemma {:induction false} InsertedIsThere(ps: seq<Point>, p: Point)
    ensures multiset(Inserted(ps, p)) == multiset(ps) + multiset{p}
  {
    if ps != [] && ps[|ps| - 1].u > p.u {
      InsertedIsThere(ps[..|ps| - 1], p);
      assert ps == ps[..|ps| - 1] + [ps[|ps| - 1]];
    }
  }

  /** The library's stable sort, by insertion. */
  method SortByUnits(ps: seq<Point>) returns (sorted: seq<Point>)
    ensures Sorted(sorted) && multiset(sorted) == multiset(ps)
  {
    sorted := [];
    for i := 0 to |ps|
      invariant Sorted(sorted) && multiset(sorted) == multiset(ps[..i])
    {
      InsertedIsSorted(sorted, ps[i]);
      InsertedIsThere(sorted, ps[i]);
      assert ps[..i + 1] == ps[..i] + [ps[i]];
      sorted := Inserted(sorted, ps[i]);
    }
    assert ps[..|ps|] == ps;
  }

  /** Where a run of equal units ends. */
  ghost predicate Boundary(ps: seq<Point>, i: nat) { 0 < i < |ps| ==> ps[i - 1].u < ps[i].u }

  lemma {:induction false} CountedWasMeasured(ps: seq<Point>, u: real)
    requires CountAt(ps, u) > 0
    ensures HasUnits(ps, u)
  {
    var last := ps[|ps| - 1];
    if last.u != u {
      CountedWasMeasured(ps[..|ps| - 1], u);
      var k :| 0 <= k < |ps| - 1 && ps[..|ps| - 1][k].u == u;
      assert ps[k].u == u;
    }
  }

  /** Units that were not measured add up to nothing. */
  lemma {:induction false} NotMeasured(ps: seq<Point>, u: real)
    requires !HasUnits(ps, u)
    ensures CountAt(ps, u) == 0 && SumAt(ps, u) == 0.0
  {
    if ps != [] {
      assert ps[|ps| - 1].u != u;
      var front := ps[..|ps| - 1];
      forall k | 0 <= k < |front| ensures front[k].u != u {
        assert ps[k].u != u;
      }
      NotMeasured(front, u);
    }
  }

  /** Nothing more was measured at other units. */
  ghost predicate SameElsewhere(after: seq<Point>, before: seq<Point>, u: real) {
    forall v :: v != u ==> CountAt(after, v) == CountAt(before, v) && SumAt(after, v) == SumAt(before, v)
  }

  lemma OneMoreInRun(ps: seq<Point>, i: nat, j: nat)
    requires i <= j < |ps| && SameElsewhere(ps[..j], ps[..i], ps[j].u)
    ensures SameElsewhere(ps[..j + 1], ps[..i], ps[j].u)
    ensures CountAt(ps[..j + 1], ps[j].u) == CountAt(ps[..j], ps[j].u) + 1
    ensures SumAt(ps[..j + 1], ps[j].u) == SumAt(ps[..j], ps[j].u) + ps[j].amount
  {
    assert ps[..j + 1] == ps[..j] + [ps[j]];
    OneMorePoint(ps[..j], ps[j], ps[j].u);
    forall v | v != ps[j].u
      ensures CountAt(ps[..j + 1], v) == CountAt(ps[..i], v) && SumAt(ps[..j + 1], v) == SumAt(ps[..i], v)
    {
      OneMorePoint(ps[..j], ps[j], v);
    }
  }

  /** A finished run adds one merged point. */
  lemma RunMerged(ms: seq<Point>, before: seq<Point>, after: seq<Point>, m: Point)
    requires Merged(ms, before) && Averages(m, after)
    requires forall i :: 0 <= i < |before| ==> before[i].u < m.u
    requires SameElsewhere(after, before, m.u)
    ensures Merged(ms + [m], after)
  {
    var longer := ms + [m];
    forall k | 0 <= k < |ms| ensures ms[k].u < m.u && Averages(ms[k], after) {
      assert Averages(ms[k], before);
      CountedWasMeasured(before, ms[k].u);
    }
    forall u | CountAt(after, u) > 0 ensures HasUnits(longer, u) {
      if u == m.u {
        assert longer[|ms|].u == u;
      } else {
        var k :| 0 <= k < |ms| && ms[k].u == u;
        assert longer[k].u == u;
      }
    }
  }

  /** Averages the run of equal units that starts at i. */
  method TakeRun(ps: seq<Point>, i: nat) returns (m: Point, j: nat)
    requires Sorted(ps) && i < |ps| && Boundary(ps, i)
    ensures i < j <= |ps| && Boundary(ps, j)
    ensures m.u == ps[i].u && Averages(m, ps[..j])
    ensures SameElsewhere(ps[..j], ps[..i], m.u)
  {
    var u := ps[i].u;
    var sum := 0.0;
    j := i;
    forall k | 0 <= k < |ps[..i]| ensures ps[..i][k].u != u {
      assert ps[k].u <= ps[i - 1].u;
    }
    NotMeasured(ps[..i], u);
    while j < |ps| && ps[j].u == u
      invariant i <= j <= |ps| && (j > i ==> ps[j - 1].u == u)
      invariant CountAt(ps[..j], u) == j - i && SumAt(ps[..j], u) == sum
      invariant SameElsewhere(ps[..j], ps[..i], u)
    {
      OneMoreInRun(ps, i, j);
      sum := sum + ps[j].amount;
      j := j + 1;
    }
    m := Point(u, sum / (j - i) as real);
  }

  method MergeByUnits(ps: seq<Point>) returns (ms: seq<Point>)
    ensures Merged(ms, ps) && |ms| <= |ps|
  {
    var sorted := SortByUnits(ps);
    ms := [];
    var i := 0;
    while i < |sorted|
      invariant |ms| <= i <= |sorted| && Boundary(sorted, i) && Merged(ms, sorted[..i])
    {
      var m, j := TakeRun(sorted, i);
      forall k | 0 <= k < |sorted[..i]| ensures sorted[..i][k].u < m.u {
        assert sorted[k].u <= sorted[i - 1].u;
      }
      RunMerged(ms, sorted[..i], sorted[..j], m);
      ms := ms + [m];
      i := j;
    }
    assert sorted[..i] == sorted;
    assert |multiset(sorted)| == |sorted| && |multiset(ps)| == |ps|;
    MergedOfPermutation(ms, sorted, ps);
  }

  lemma MergedOfPermutation(ms: seq<Point>, ps: seq<Point>, qs: seq<Point>)
    requires Merged(ms, ps) && multiset(ps) == multiset(qs)
    ensures Merged(ms, qs)
  {
    forall u ensures CountAt(ps, u) == CountAt(qs, u) && SumAt(ps, u) == SumAt(qs, u) {
      OrderDoesNotMatter(ps, qs, u);
    }
    forall k | 0 <= k < |ms| ensures Averages(ms[k], qs) {
      assert Averages(ms[k], ps);
    }
  }

  lemma {:induction false} SumsAreNotNegative(ps: seq<Point>, u: real)
    requires forall i :: 0 <= i < |ps| ==> ps[i].amount >= 0.0
    ensures SumAt(ps, u) >= 0.0
  {
    if ps != [] {
      SumsAreNotNegative(ps[..|ps| - 1], u);
    }
  }

  lemma AveragesAreNotNegative(ps: seq<Point>, u: real)
    requires CountAt(ps, u) > 0 && SumAt(ps, u) >= 0.0
    ensures Average(ps, u) >= 0.0
  {
  }
}
