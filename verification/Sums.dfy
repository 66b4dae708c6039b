/** Sums over listed things, and why their order does not matter. */
module Sums {

  function SumBy<T>(xs: seq<T>, f: T -> int): int {
    if xs == [] then 0 else SumBy(xs[..|xs| - 1], f) + f(xs[|xs| - 1])
  }

  function RealSumBy<T>(xs: seq<T>, f: T -> real): real {
    if xs == [] then 0.0 else RealSumBy(xs[..|xs| - 1], f) + f(xs[|xs| - 1])
  }

  lemma OneMore<T>(xs: seq<T>, i: nat, f: T -> int)
    requires i < |xs|
    ensures SumBy(xs[..i + 1], f) == SumBy(xs[..i], f) + f(xs[i])
  {
    assert xs[..i + 1][..i] == xs[..i];
  }

  lemma RealOneMore<T>(xs: seq<T>, i: nat, f: T -> real)
    requires i < |xs|
    ensures RealSumBy(xs[..i + 1], f) == RealSumBy(xs[..i], f) + f(xs[i])
  {
    assert xs[..i + 1][..i] == xs[..i];
  }

  lemma {:induction false} Together<T>(xs: seq<T>, ys: seq<T>, f: T -> int)
    ensures SumBy(xs + ys, f) == SumBy(xs, f) + SumBy(ys, f)
  {
    if ys == [] {
      assert xs + ys == xs;
    } else {
      Together(xs, ys[..|ys| - 1], f);
      assert (xs + ys)[..|xs + ys| - 1] == xs + ys[..|ys| - 1];
    }
  }

  lemma {:induction false} RealTogether<T>(xs: seq<T>, ys: seq<T>, f: T -> real)
    ensures RealSumBy(xs + ys, f) == RealSumBy(xs, f) + RealSumBy(ys, f)
  {
    if ys == [] {
      assert xs + ys == xs;
    } else {
      RealTogether(xs, ys[..|ys| - 1], f);
      assert (xs + ys)[..|xs + ys| - 1] == xs + ys[..|ys| - 1];
    }
  }

  /** The rest of a list after taking an element out. */
  function Without<T>(xs: seq<T>, i: nat): seq<T>
    requires i < |xs|
  {
    xs[..i] + xs[i + 1..]
  }

  lemma WithoutOne<T>(xs: seq<T>, i: nat)
    requires i < |xs|
    ensures multiset(Without(xs, i)) == multiset(xs) - multiset{xs[i]}
    ensures xs == xs[..i] + [xs[i]] + xs[i + 1..]
  {
    assert xs == xs[..i] + [xs[i]] + xs[i + 1..];
  }

  lemma SumWithout<T>(xs: seq<T>, i: nat, f: T -> int)
    requires i < |xs|
    ensures SumBy(xs, f) == SumBy(Without(xs, i), f) + f(xs[i])
  {
    WithoutOne(xs, i);
    Together(xs[..i] + [xs[i]], xs[i + 1..], f);
    Together(xs[..i], [xs[i]], f);
    Together(xs[..i], xs[i + 1..], f);
    assert [xs[i]][..0] == [];
  }

  lemma RealSumWithout<T>(xs: seq<T>, i: nat, f: T -> real)
    requires i < |xs|
    ensures RealSumBy(xs, f) == RealSumBy(Without(xs, i), f) + f(xs[i])
  {
    WithoutOne(xs, i);
    RealTogether(xs[..i] + [xs[i]], xs[i + 1..], f);
    RealTogether(xs[..i], [xs[i]], f);
    RealTogether(xs[..i], xs[i + 1..], f);
    assert [xs[i]][..0] == [];
  }

  /** Where the last of one order is in another. */
  lemma FindLast<T>(xs: seq<T>, ys: seq<T>) returns (i: nat)
    requires xs != [] && multiset(xs) == multiset(ys)
    ensures i < |ys| && ys[i] == xs[|xs| - 1]
    ensures multiset(xs[..|xs| - 1]) == multiset(Without(ys, i))
  {
    var front, last := xs[..|xs| - 1], xs[|xs| - 1];
    assert xs == front + [last];
    assert last in multiset(ys);
    i :| 0 <= i < |ys| && ys[i] == last;
    WithoutOne(ys, i);
    assert multiset(front) == multiset(xs) - multiset{last};
  }

  lemma {:induction false} AnyOrder<T>(xs: seq<T>, ys: seq<T>, f: T -> int)
    requires multiset(xs) == multiset(ys)
    ensures SumBy(xs, f) == SumBy(ys, f)
  {
    if xs == [] {
      assert |multiset(ys)| == |ys|;
    } else {
      var i := FindLast(xs, ys);
      AnyOrder(xs[..|xs| - 1], Without(ys, i), f);
      SumWithout(ys, i, f);
    }
  }

  lemma {:induction false} RealAnyOrder<T>(xs: seq<T>, ys: seq<T>, f: T -> real)
    requires multiset(xs) == multiset(ys)
    ensures RealSumBy(xs, f) == RealSumBy(ys, f)
  {
    if xs == [] {
      assert |multiset(ys)| == |ys|;
    } else {
      var i := FindLast(xs, ys);
      RealAnyOrder(xs[..|xs| - 1], Without(ys, i), f);
      RealSumWithout(ys, i, f);
    }
  }

  lemma {:induction false} Pointwise<T>(xs: seq<T>, f: T -> int, g: T -> int)
    requires forall i :: 0 <= i < |xs| ==> f(xs[i]) <= g(xs[i])
    ensures SumBy(xs, f) <= SumBy(xs, g)
  {
    if xs != [] {
      Pointwise(xs[..|xs| - 1], f, g);
    }
  }

  lemma {:induction false} RealPointwise<T>(xs: seq<T>, f: T -> real, g: T -> real)
    requires forall i :: 0 <= i < |xs| ==> f(xs[i]) <= g(xs[i])
    ensures RealSumBy(xs, f) <= RealSumBy(xs, g)
  {
    if xs != [] {
      RealPointwise(xs[..|xs| - 1], f, g);
    }
  }

  lemma {:induction false} ZeroSumBy<T>(xs: seq<T>, f: T -> int)
    requires forall i :: 0 <= i < |xs| ==> f(xs[i]) == 0
    ensures SumBy(xs, f) == 0
  {
    if xs != [] {
      ZeroSumBy(xs[..|xs| - 1], f);
    }
  }

  /** The elements a condition keeps, in order. */
  function Kept<T(!new)>(xs: seq<T>, keep: T -> bool): (kept: seq<T>)
    ensures forall x :: x in kept <==> x in xs && keep(x)
  {
    if xs == [] then []
    else
      var front, last := xs[..|xs| - 1], xs[|xs| - 1];
      assert xs == front + [last];
      Kept(front, keep) + if keep(last) then [last] else []
  }

  /** Leaving out what adds nothing leaves the sum. */
  lemma {:induction false} SumOfKept<T(!new)>(xs: seq<T>, keep: T -> bool, f: T -> int)
    requires forall i :: 0 <= i < |xs| && !keep(xs[i]) ==> f(xs[i]) == 0
    ensures SumBy(Kept(xs, keep), f) == SumBy(xs, f)
  {
    if xs != [] {
      var front, last := xs[..|xs| - 1], xs[|xs| - 1];
      SumOfKept(front, keep, f);
      if keep(last) {
        assert (Kept(front, keep) + [last])[..|Kept(front, keep)|] == Kept(front, keep);
      } else {
        assert Kept(front, keep) + [] == Kept(front, keep);
      }
    }
  }

  lemma {:induction false} RealSumOfKept<T(!new)>(xs: seq<T>, keep: T -> bool, f: T -> real)
    requires forall i :: 0 <= i < |xs| && !keep(xs[i]) ==> f(xs[i]) == 0.0
    ensures RealSumBy(Kept(xs, keep), f) == RealSumBy(xs, f)
  {
    if xs != [] {
      var front, last := xs[..|xs| - 1], xs[|xs| - 1];
      RealSumOfKept(front, keep, f);
      if keep(last) {
        assert (Kept(front, keep) + [last])[..|Kept(front, keep)|] == Kept(front, keep);
      } else {
        assert Kept(front, keep) + [] == Kept(front, keep);
      }
    }
  }

  lemma SameSum<T>(xs: seq<T>, f: T -> int, g: T -> int)
    requires forall i :: 0 <= i < |xs| ==> f(xs[i]) == g(xs[i])
    ensures SumBy(xs, f) == SumBy(xs, g)
  {
    Pointwise(xs, f, g);
    Pointwise(xs, g, f);
  }
}
