/** Columns of measurements, and the products least squares is made of. */
module Vectors {

  type Vector = seq<real>

  /** The product, by name: facts about it are stated of the name. */
  function Mul(x: real, y: real): real { x * y }

  function Dot(xs: Vector, ys: Vector): real
    requires |xs| == |ys|
  {
    if xs == [] then 0.0 else Dot(xs[..|xs| - 1], ys[..|ys| - 1]) + Mul(xs[|xs| - 1], ys[|ys| - 1])
  }

  function Plus(xs: Vector, ys: Vector): (zs: Vector)
    requires |xs| == |ys|
    ensures |zs| == |xs|
  {
    seq(|xs|, i requires 0 <= i < |xs| => xs[i] + ys[i])
  }

  function Times(c: real, xs: Vector): (zs: Vector)
    ensures |zs| == |xs|
  {
    seq(|xs|, i requires 0 <= i < |xs| => Mul(c, xs[i]))
  }

  function Ones(n: nat): (zs: Vector)
    ensures |zs| == n
  {
    seq(n, i => 1.0)
  }

  lemma MulCommutes(x: real, y: real)
    ensures Mul(x, y) == Mul(y, x)
  {
  }

  lemma MulPlus(x: real, y: real, z: real)
    ensures Mul(x + y, z) == Mul(x, z) + Mul(y, z)
  {
  }

  lemma MulMul(c: real, x: real, z: real)
    ensures Mul(Mul(c, x), z) == Mul(c, Mul(x, z))
  {
  }

  lemma SquareIsPositive(x: real)
    ensures Mul(x, x) >= 0.0
    ensures x != 0.0 ==> Mul(x, x) > 0.0
  {
    if x > 0.0 {
      MulPositive(x, x);
    } else if x < 0.0 {
      MulPositive(-x, -x);
      MulNegated(x, x);
    }
  }

  lemma MulPositive(x: real, y: real)
    requires x > 0.0 && y > 0.0
    ensures Mul(x, y) > 0.0
  {
  }

  lemma MulNegated(x: real, y: real)
    ensures Mul(-x, -y) == Mul(x, y)
  {
  }

  lemma {:induction false} DotIsSymmetric(xs: Vector, ys: Vector)
    requires |xs| == |ys|
    ensures Dot(xs, ys) == Dot(ys, xs)
  {
    if xs != [] {
      DotIsSymmetric(xs[..|xs| - 1], ys[..|ys| - 1]);
      MulCommutes(xs[|xs| - 1], ys[|ys| - 1]);
    }
  }

  lemma {:induction false} DotPlus(xs: Vector, ys: Vector, zs: Vector)
    requires |xs| == |ys| == |zs|
    ensures Dot(Plus(xs, ys), zs) == Dot(xs, zs) + Dot(ys, zs)
  {
    if xs != [] {
      var n := |xs| - 1;
      DotPlus(xs[..n], ys[..n], zs[..n]);
      assert Plus(xs, ys)[..n] == Plus(xs[..n], ys[..n]);
      MulPlus(xs[n], ys[n], zs[n]);
    }
  }

  lemma TimesOfPrefix(c: real, xs: Vector, n: nat)
    requires n <= |xs|
    ensures Times(c, xs)[..n] == Times(c, xs[..n])
  {
  }

  lemma {:induction false} DotTimes(c: real, xs: Vector, zs: Vector)
    requires |xs| == |zs|
    ensures Dot(Times(c, xs), zs) == Mul(c, Dot(xs, zs))
  {
    if xs != [] {
      var n := |xs| - 1;
      DotTimes(c, xs[..n], zs[..n]);
      TimesOfPrefix(c, xs, n);
      MulMul(c, xs[n], zs[n]);
      MulPlus(Dot(xs[..n], zs[..n]), Mul(xs[n], zs[n]), c);
      MulCommutes(c, Dot(xs[..n], zs[..n]));
      MulCommutes(c, Mul(xs[n], zs[n]));
      MulCommutes(c, Dot(xs, zs));
    }
  }

  /** A column with itself: never negative, and zero just when it is all zeros. */
  lemma {:induction false} DotWithItself(xs: Vector)
    ensures Dot(xs, xs) >= 0.0
    ensures Dot(xs, xs) == 0.0 <==> forall i :: 0 <= i < |xs| ==> xs[i] == 0.0
  {
    if xs != [] {
      var n := |xs| - 1;
      DotWithItself(xs[..n]);
      SquareIsPositive(xs[n]);
      if Dot(xs, xs) == 0.0 {
        forall i | 0 <= i < |xs| ensures xs[i] == 0.0 {
          assert i < n ==> xs[..n][i] == xs[i];
        }
      }
    }
  }

  lemma DotOneMore(xs: Vector, ys: Vector, i: nat)
    requires |xs| == |ys| && i < |xs|
    ensures Dot(xs[..i + 1], ys[..i + 1]) == Dot(xs[..i], ys[..i]) + Mul(xs[i], ys[i])
  {
    assert xs[..i + 1][..i] == xs[..i] && ys[..i + 1][..i] == ys[..i];
  }

  /** The square of a sum of columns. */
  lemma DotOfSum(xs: Vector, ys: Vector)
    requires |xs| == |ys|
    ensures Dot(Plus(xs, ys), Plus(xs, ys)) == Dot(xs, xs) + 2.0 * Dot(ys, xs) + Dot(ys, ys)
  {
    DotPlus(xs, ys, Plus(xs, ys));
    DotIsSymmetric(xs, Plus(xs, ys));
    DotIsSymmetric(ys, Plus(xs, ys));
    DotPlus(xs, ys, xs);
    DotPlus(xs, ys, ys);
    DotIsSymmetric(xs, ys);
  }
}
