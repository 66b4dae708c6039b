/** Fitting models to what a kitchen measured, over the reals
    (internal/recipe/fit.go). */
module Fit {
  import opened Base
  import opened Recipe
  import opened Merge
  import opened Vectors

  function Units(ps: seq<Point>): (us: Vector)
    ensures |us| == |ps|
  {
    seq(|ps|, i requires 0 <= i < |ps| => ps[i].u)
  }

  function Amounts(ps: seq<Point>): (ys: Vector)
    ensures |ys| == |ps|
  {
    seq(|ps|, i requires 0 <= i < |ps| => ps[i].amount)
  }

  /** The values of a line at the points. */
  function OnLine(ps: seq<Point>, a: real, b: real): (v: Vector)
    ensures |v| == |ps|
  {
    Plus(Times(a, Ones(|ps|)), Times(b, Units(ps)))
  }

  /** Fitted minus measured amounts. */
  function Residuals(ps: seq<Point>, a: real, b: real): (v: Vector)
    ensures |v| == |ps|
  {
    Plus(OnLine(ps, a, b), Times(-1.0, Amounts(ps)))
  }

  /** The sum of squared errors of a line. */
  function SSE(ps: seq<Point>, a: real, b: real): real {
    Dot(Residuals(ps, a, b), Residuals(ps, a, b))
  }

  /** No line with a fixed part that is not negative fits better. */
  ghost predicate BestFit(ps: seq<Point>, a: real, b: real) {
    forall c, d :: c >= 0.0 ==> SSE(ps, a, b) <= SSE(ps, c, d)
  }

  /** The sums the normal equations are made of. */
  function N(ps: seq<Point>): real { Dot(Ones(|ps|), Ones(|ps|)) }

  function SumU(ps: seq<Point>): real { Dot(Units(ps), Ones(|ps|)) }

  function SumY(ps: seq<Point>): real { Dot(Amounts(ps), Ones(|ps|)) }

  function SumUU(ps: seq<Point>): real { Dot(Units(ps), Units(ps)) }

  function SumUY(ps: seq<Point>): real { Dot(Amounts(ps), Units(ps)) }

  /** How the error changes with the fixed part, and with the part per unit. */
  function SlopeA(ps: seq<Point>, a: real, b: real): real { Dot(Residuals(ps, a, b), Ones(|ps|)) }

  function SlopeB(ps: seq<Point>, a: real, b: real): real { Dot(Residuals(ps, a, b), Units(ps)) }

  // ----- When a line is the best -----

  lemma DotOnLine(ps: seq<Point>, a: real, b: real, zs: Vector)
    requires |zs| == |ps|
    ensures Dot(OnLine(ps, a, b), zs) == Mul(a, Dot(Ones(|ps|), zs)) + Mul(b, Dot(Units(ps), zs))
  {
    DotPlus(Times(a, Ones(|ps|)), Times(b, Units(ps)), zs);
    DotTimes(a, Ones(|ps|), zs);
    DotTimes(b, Units(ps), zs);
  }

  lemma DotResiduals(ps: seq<Point>, a: real, b: real, zs: Vector)
    requires |zs| == |ps|
    ensures Dot(Residuals(ps, a, b), zs)
         == Mul(a, Dot(Ones(|ps|), zs)) + Mul(b, Dot(Units(ps), zs)) - Dot(Amounts(ps), zs)
  {
    DotPlus(OnLine(ps, a, b), Times(-1.0, Amounts(ps)), zs);
    DotOnLine(ps, a, b, zs);
    DotTimes(-1.0, Amounts(ps), zs);
  }

  lemma SlopesAreTheNormalEquations(ps: seq<Point>, a: real, b: real)
    ensures SlopeA(ps, a, b) == Mul(a, N(ps)) + Mul(b, SumU(ps)) - SumY(ps)
    ensures SlopeB(ps, a, b) == Mul(a, SumU(ps)) + Mul(b, SumUU(ps)) - SumUY(ps)
  {
    DotResiduals(ps, a, b, Ones(|ps|));
    DotResiduals(ps, a, b, Units(ps));
    DotIsSymmetric(Ones(|ps|), Units(ps));
  }

  lemma MovedResiduals(ps: seq<Point>, a: real, b: real, da: real, db: real)
    ensures Residuals(ps, a + da, b + db) == Plus(Residuals(ps, a, b), OnLine(ps, da, db))
  {
  }

  /** The error of a moved line: its slopes, and the cost of the move. */
  lemma MovedError(ps: seq<Point>, a: real, b: real, da: real, db: real)
    ensures SSE(ps, a + da, b + db) >= SSE(ps, a, b) + 2.0 * (Mul(da, SlopeA(ps, a, b)) + Mul(db, SlopeB(ps, a, b)))
  {
    var r, d := Residuals(ps, a, b), OnLine(ps, da, db);
    MovedResiduals(ps, a, b, da, db);
    DotOfSum(r, d);
    DotOnLine(ps, da, db, r);
    DotIsSymmetric(Ones(|ps|), r);
    DotIsSymmetric(Units(ps), r);
    DotWithItself(d);
  }

  /** A line is the best when the error is level in both directions, or when its
      fixed part is zero and raising it would not help. */
  lemma LevelLineIsBest(ps: seq<Point>, a: real, b: real)
    requires SlopeB(ps, a, b) == 0.0
    requires SlopeA(ps, a, b) == 0.0 || (a == 0.0 && SlopeA(ps, a, b) >= 0.0)
    ensures BestFit(ps, a, b)
  {
    forall c, d | c >= 0.0 ensures SSE(ps, a, b) <= SSE(ps, c, d) {
      MovedError(ps, a, b, c - a, d - b);
      MulZero(d - b);
      MulZero(c - a);
      if a == 0.0 {
        MulNotNegative(c, SlopeA(ps, a, b));
      }
    }
  }

  lemma MulZero(x: real)
    ensures Mul(x, 0.0) == 0.0
  {
  }

  lemma MulNotNegative(x: real, y: real)
    ensures x >= 0.0 && y >= 0.0 ==> Mul(x, y) >= 0.0
  {
  }

  // ----- Least squares -----

  function Mean(sum: real, n: nat): real
    requires n > 0
  {
    sum / n as real
  }

  function Centred(xs: Vector, mean: real): (v: Vector)
    ensures |v| == |xs|
  {
    seq(|xs|, i requires 0 <= i < |xs| => xs[i] - mean)
  }

  function CentredUnits(ps: seq<Point>): (v: Vector)
    requires ps != []
    ensures |v| == |ps|
  {
    Centred(Units(ps), Mean(SumU(ps), |ps|))
  }

  function CentredAmounts(ps: seq<Point>): (v: Vector)
    requires ps != []
    ensures |v| == |ps|
  {
    Centred(Amounts(ps), Mean(SumY(ps), |ps|))
  }

  /** How far the units are spread, and how the amounts go with them. */
  function Sxx(ps: seq<Point>): real
    requires ps != []
  {
    Dot(CentredUnits(ps), CentredUnits(ps))
  }

  function Sxy(ps: seq<Point>): real
    requires ps != []
  {
    Dot(CentredUnits(ps), CentredAmounts(ps))
  }

  lemma {:induction false} OnesCount(n: nat)
    ensures Dot(Ones(n), Ones(n)) == n as real
  {
    if n > 0 {
      OnesCount(n - 1);
      assert Ones(n)[..n - 1] == Ones(n - 1);
    }
  }

  lemma DotCentred(xs: Vector, mean: real, zs: Vector)
    requires |xs| == |zs|
    ensures Dot(Centred(xs, mean), zs) == Dot(xs, zs) + Mul(-mean, Dot(Ones(|xs|), zs))
  {
    var shift := Times(-mean, Ones(|xs|));
    assert Centred(xs, mean) == Plus(xs, shift);
    DotPlus(xs, shift, zs);
    DotTimes(-mean, Ones(|xs|), zs);
  }

  /** Centred columns add up to nothing. */
  lemma CentredAddUpToNothing(xs: Vector)
    requires xs != []
    ensures Dot(Centred(xs, Mean(Dot(xs, Ones(|xs|)), |xs|)), Ones(|xs|)) == 0.0
  {
    var sum := Dot(xs, Ones(|xs|));
    MeanTimes(sum, |xs| as real);
    CentredAround(xs, Mean(sum, |xs|));
  }

  lemma CentredAround(xs: Vector, mean: real)
    requires Mul(-mean, |xs| as real) == -Dot(xs, Ones(|xs|))
    ensures Dot(Centred(xs, mean), Ones(|xs|)) == 0.0
  {
    DotCentred(xs, mean, Ones(|xs|));
    OnesCount(|xs|);
  }

  lemma MeanTimes(sum: real, n: real)
    requires n > 0.0
    ensures Mul(-(sum / n), n) == -sum && Mul(sum / n, n) == sum
  {
  }

  /** The centred sums in terms of the plain ones. */
  lemma CentredSums(ps: seq<Point>)
    requires ps != []
    ensures Sxx(ps) == SumUU(ps) + Mul(-Mean(SumU(ps), |ps|), SumU(ps))
    ensures Sxy(ps) == SumUY(ps) + Mul(-Mean(SumY(ps), |ps|), SumU(ps))
  {
    var us, ys, ones := Units(ps), Amounts(ps), Ones(|ps|);
    var cu, cy := CentredUnits(ps), CentredAmounts(ps);
    var mx, my := Mean(SumU(ps), |ps|), Mean(SumY(ps), |ps|);
    CentredAddUpToNothing(us);
    CentredAddUpToNothing(ys);
    DotIsSymmetric(ones, cu);
    DotIsSymmetric(ones, cy);
    MulZero(-mx);
    DotCentred(us, mx, cu);
    DotIsSymmetric(us, cu);
    DotCentred(us, mx, us);
    DotCentred(us, mx, cy);
    DotIsSymmetric(us, cy);
    DotCentred(ys, my, us);
    DotIsSymmetric(ones, us);
  }

  lemma MulDistributes(x: real, y: real, z: real)
    ensures Mul(x - y, z) == Mul(x, z) - Mul(y, z)
    ensures Mul(x, y - z) == Mul(x, y) - Mul(x, z)
  {
  }

  lemma Quotient(x: real, y: real)
    requires y != 0.0
    ensures Mul(x / y, y) == x
  {
  }

  lemma MulOpposite(x: real, y: real)
    ensures Mul(-x, y) == -Mul(x, y)
  {
  }

  /** The centred solution meets both normal equations. */
  lemma CentredSolution(n: real, su: real, sy: real, suu: real, suy: real, sxx: real, sxy: real, a: real, b: real)
    requires n > 0.0 && sxx != 0.0
    requires sxx == suu + Mul(-(su / n), su) && sxy == suy + Mul(-(sy / n), su)
    requires b == sxy / sxx && a == sy / n - Mul(b, su / n)
    ensures Mul(a, n) + Mul(b, su) - sy == 0.0
    ensures Mul(a, su) + Mul(b, suu) - suy == 0.0
  {
  }

  lemma LeastSquaresSolves(ps: seq<Point>, a: real, b: real)
    requires ps != [] && Sxx(ps) != 0.0
    requires b == Sxy(ps) / Sxx(ps)
    requires a == Mean(SumY(ps), |ps|) - Mul(b, Mean(SumU(ps), |ps|))
    ensures SlopeA(ps, a, b) == 0.0 && SlopeB(ps, a, b) == 0.0
  {
    CentredSums(ps);
    OnesCount(|ps|);
    SlopesAreTheNormalEquations(ps, a, b);
    CentredSolution(|ps| as real, SumU(ps), SumY(ps), SumUU(ps), SumUY(ps), Sxx(ps), Sxy(ps), a, b);
  }

  /** Least squares of amounts on units; it needs two distinct units. */
  method LeastSquares(ps: seq<Point>) returns (intercept: real, slope: real)
    requires ps != [] && Sxx(ps) != 0.0
    ensures slope == Sxy(ps) / Sxx(ps)
    ensures SlopeA(ps, intercept, slope) == 0.0 && SlopeB(ps, intercept, slope) == 0.0
  {
    var meanX, meanY := Means(ps);
    var sxx, sxy := CentredSumsAround(ps, meanX, meanY);
    slope := sxy / sxx;
    intercept := meanY - Mul(slope, meanX);
    LeastSquaresSolves(ps, intercept, slope);
  }

  method Means(ps: seq<Point>) returns (meanX: real, meanY: real)
    requires ps != []
    ensures meanX == Mean(SumU(ps), |ps|) && meanY == Mean(SumY(ps), |ps|)
  {
    ghost var us, ys, ones := Units(ps), Amounts(ps), Ones(|ps|);
    meanX, meanY := 0.0, 0.0;
    for i := 0 to |ps|
      invariant meanX == Dot(us[..i], ones[..i]) && meanY == Dot(ys[..i], ones[..i])
    {
      DotOneMore(us, ones, i);
      DotOneMore(ys, ones, i);
      meanX, meanY := meanX + ps[i].u, meanY + ps[i].amount;
    }
    WholeColumns(us, ones);
    WholeColumns(ys, ones);
    meanX, meanY := meanX / |ps| as real, meanY / |ps| as real;
  }

  method CentredSumsAround(ps: seq<Point>, meanX: real, meanY: real) returns (sxx: real, sxy: real)
    ensures sxx == Dot(Centred(Units(ps), meanX), Centred(Units(ps), meanX))
    ensures sxy == Dot(Centred(Units(ps), meanX), Centred(Amounts(ps), meanY))
  {
    ghost var cu, cy := Centred(Units(ps), meanX), Centred(Amounts(ps), meanY);
    sxx, sxy := 0.0, 0.0;
    for i := 0 to |ps|
      invariant sxx == Dot(cu[..i], cu[..i]) && sxy == Dot(cu[..i], cy[..i])
    {
      DotOneMore(cu, cu, i);
      DotOneMore(cu, cy, i);
      var x, y := ps[i].u - meanX, ps[i].amount - meanY;
      sxx, sxy := sxx + Mul(x, x), sxy + Mul(x, y);
    }
    WholeColumns(cu, cu);
    WholeColumns(cu, cy);
  }

  lemma WholeColumns(xs: Vector, ys: Vector)
    requires |xs| == |ys|
    ensures Dot(xs[..|xs|], ys[..|ys|]) == Dot(xs, ys)
  {
    assert xs[..|xs|] == xs && ys[..|ys|] == ys;
  }

  // ----- Through the origin -----

  predicate ValidPoints(ps: seq<Point>) {
    1 <= |ps| <= MAX_POINTS && forall i :: 0 <= i < |ps| ==> ps[i].u > 0.0 && ps[i].amount >= 0.0
  }

  /** Points are refused when there are none or more than a hundred, or one of them is
      of no units or of a negative amount. */
  lemma PointsRefusedExactlyWhen(ps: seq<Point>)
    ensures !ValidPoints(ps) <==>
              |ps| == 0 || |ps| > 100 || exists i :: 0 <= i < |ps| && (ps[i].u <= 0.0 || ps[i].amount < 0.0)
  {
  }

  lemma UnitsHaveSquares(ps: seq<Point>)
    requires ValidPoints(ps)
    ensures SumUU(ps) > 0.0
  {
    DotWithItself(Units(ps));
    assert Units(ps)[0] != 0.0;
  }

  lemma {:induction false} PositiveColumns(xs: Vector, ys: Vector)
    requires |xs| == |ys| && forall i :: 0 <= i < |xs| ==> xs[i] >= 0.0 && ys[i] >= 0.0
    ensures Dot(xs, ys) >= 0.0
  {
    if xs != [] {
      PositiveColumns(xs[..|xs| - 1], ys[..|ys| - 1]);
      MulNotNegative(xs[|xs| - 1], ys[|ys| - 1]);
    }
  }

  lemma QuotientNotNegative(x: real, y: real)
    requires x >= 0.0 && y > 0.0
    ensures x / y >= 0.0
  {
  }

  /** The least-squares b of amount = b*u. */
  method ThroughOrigin(ps: seq<Point>) returns (b: real)
    requires ValidPoints(ps)
    ensures b >= 0.0 && Mul(b, SumUU(ps)) == SumUY(ps)
  {
    ghost var us, ys := Units(ps), Amounts(ps);
    var suy, suu := 0.0, 0.0;
    for i := 0 to |ps|
      invariant suy == Dot(ys[..i], us[..i]) && suu == Dot(us[..i], us[..i])
    {
      DotOneMore(ys, us, i);
      DotOneMore(us, us, i);
      MulCommutes(ps[i].u, ps[i].amount);
      suy, suu := suy + Mul(ps[i].u, ps[i].amount), suu + Mul(ps[i].u, ps[i].u);
    }
    WholeColumns(ys, us);
    WholeColumns(us, us);
    UnitsHaveSquares(ps);
    PositiveColumns(ys, us);
    b := suy / suu;
    Quotient(suy, suu);
    QuotientNotNegative(suy, suu);
  }

  lemma SlopesThroughOrigin(ps: seq<Point>, b: real)
    requires Mul(b, SumUU(ps)) == SumUY(ps)
    ensures SlopeB(ps, 0.0, b) == 0.0
    ensures SlopeA(ps, 0.0, b) == Mul(b, SumU(ps)) - SumY(ps)
  {
    SlopesAreTheNormalEquations(ps, 0.0, b);
    MulZero(N(ps));
    MulZero(SumU(ps));
    MulCommutes(0.0, N(ps));
    MulCommutes(0.0, SumU(ps));
  }

  /** When all units are equal, the line through the origin meets their mean. */
  lemma OneUnitsThroughOrigin(ps: seq<Point>, b: real)
    requires ValidPoints(ps) && Mul(b, SumUU(ps)) == SumUY(ps)
    requires forall i :: 0 <= i < |ps| ==> ps[i].u == ps[0].u
    ensures BestFit(ps, 0.0, b)
  {
    var u := ps[0].u;
    var flat := Times(u, Ones(|ps|));
    assert Units(ps) == flat;
    DotIsSymmetric(Units(ps), flat);
    DotTimes(u, Ones(|ps|), Units(ps));
    DotIsSymmetric(Ones(|ps|), Units(ps));
    DotIsSymmetric(Amounts(ps), flat);
    DotTimes(u, Ones(|ps|), Amounts(ps));
    DotIsSymmetric(Ones(|ps|), Amounts(ps));
    assert SumUU(ps) == Mul(u, SumU(ps)) && SumUY(ps) == Mul(u, SumY(ps));
    CancelFactor(u, b, SumU(ps), SumY(ps));
    SlopesThroughOrigin(ps, b);
    LevelLineIsBest(ps, 0.0, b);
  }

  lemma CancelFactor(u: real, b: real, x: real, y: real)
    requires u != 0.0 && Mul(b, Mul(u, x)) == Mul(u, y)
    ensures Mul(b, x) == y
  {
  }

  /** When the free optimum has a negative fixed part, raising the fixed part of
      the line through the origin only makes it worse. */
  lemma FallbackRises(n: real, su: real, sy: real, suu: real, suy: real, a: real, b: real, b0: real)
    requires suu > 0.0 && a < 0.0 && Mul(n, suu) >= Mul(su, su)
    requires Mul(a, n) + Mul(b, su) == sy && Mul(a, su) + Mul(b, suu) == suy && Mul(b0, suu) == suy
    ensures Mul(b0, su) - sy >= 0.0
  {
  }

  lemma SpreadTimesCount(n: real, su: real, suu: real, sxx: real)
    requires n > 0.0 && sxx == suu + Mul(-(su / n), su) && sxx >= 0.0
    ensures Mul(n, suu) >= Mul(su, su)
  {
    MulNotNegative(n, sxx);
    MulOpposite(su / n, su);
    MulDistributes(n, suu, Mul(su / n, su));
    MulCommutes(su / n, su);
    MulMul(su, su / n, n);
    MulCommutes(n, Mul(su, su / n));
    MulCommutes(su / n, n);
    MeanTimes(su, n);
    MulMulLast(su, su / n, n);
  }

  lemma MulMulLast(x: real, y: real, n: real)
    ensures Mul(Mul(x, y), n) == Mul(x, Mul(y, n))
  {
  }

  lemma FallbackIsBest(ps: seq<Point>, a: real, b: real, b0: real)
    requires ValidPoints(ps) && a < 0.0 && SlopeA(ps, a, b) == 0.0 && SlopeB(ps, a, b) == 0.0
    requires Mul(b0, SumUU(ps)) == SumUY(ps)
    ensures BestFit(ps, 0.0, b0)
  {
    CentredSums(ps);
    OnesCount(|ps|);
    DotWithItself(CentredUnits(ps));
    UnitsHaveSquares(ps);
    SpreadTimesCount(|ps| as real, SumU(ps), SumUU(ps), Sxx(ps));
    SlopesAreTheNormalEquations(ps, a, b);
    FallbackRises(|ps| as real, SumU(ps), SumY(ps), SumUU(ps), SumUY(ps), a, b, b0);
    SlopesThroughOrigin(ps, b0);
    LevelLineIsBest(ps, 0.0, b0);
  }

  // ----- Fitting -----

  datatype FitResult = Fitted(model: Model) | NoFit

  lemma MergedOnce(ms: seq<Point>, ps: seq<Point>)
    requires Merged(ms, ps) && ps != []
    ensures |ms| >= 1
    ensures |ms| == 1 ==> forall i :: 0 <= i < |ps| ==> ps[i].u == ps[0].u
    ensures |ms| >= 2 ==> Sxx(ps) > 0.0
  {
    forall i | 0 <= i < |ps| ensures HasUnits(ms, ps[i].u) {
      MeasuredIsCounted(ps, i);
    }
    if |ms| >= 2 {
      DotWithItself(CentredUnits(ps));
      assert Averages(ms[0], ps) && Averages(ms[1], ps);
      CountedWasMeasured(ps, ms[0].u);
      CountedWasMeasured(ps, ms[1].u);
      var i :| 0 <= i < |ps| && ps[i].u == ms[0].u;
      var j :| 0 <= j < |ps| && ps[j].u == ms[1].u;
      assert CentredUnits(ps)[i] != CentredUnits(ps)[j];
    }
  }

  /** Equal units vary with nothing. */
  lemma EqualUnitsDoNotVary(ps: seq<Point>)
    requires ps != [] && forall i :: 0 <= i < |ps| ==> ps[i].u == ps[0].u
    ensures Sxy(ps) == 0.0
  {
    var flat := Times(ps[0].u, Ones(|ps|));
    assert Units(ps) == flat;
    DotTimes(ps[0].u, Ones(|ps|), CentredAmounts(ps));
    CentredAddUpToNothing(Amounts(ps));
    DotIsSymmetric(Ones(|ps|), CentredAmounts(ps));
    MulZero(ps[0].u);
    var mx := Mean(SumU(ps), |ps|);
    DotCentred(Units(ps), mx, CentredAmounts(ps));
    MulZero(-mx);
  }

  lemma QuotientSign(x: real, y: real)
    requires y > 0.0
    ensures x / y < 0.0 <==> x < 0.0
  {
  }

  /** The affine fit. Valid points are refused just when their amounts fall as
      their units grow; otherwise no line with a fixed part that is not negative
      fits better, the fallbacks through the origin included. */
  method FitAffine(ps: seq<Point>) returns (r: FitResult)
    ensures r.NoFit? <==> !ValidPoints(ps) || Sxy(ps) < 0.0
    ensures r.Fitted? ==> r.model.AffineModel? && WellFormed(r.model) && BestFit(ps, r.model.a, r.model.b)
  {
    if !ValidPoints(ps) {
      return NoFit;
    }
    var merged := MergeByUnits(ps);
    MergedOnce(merged, ps);
    var a, b := 0.0, 0.0;
    b := ThroughOrigin(ps);
    if |merged| >= 2 {
      var origin := b;
      a, b := LeastSquares(ps);
      QuotientSign(Sxy(ps), Sxx(ps));
      if b < 0.0 {
        return NoFit;
      }
      if a < 0.0 {
        FallbackIsBest(ps, a, b, origin);
        a, b := 0.0, origin;
      } else {
        LevelLineIsBest(ps, a, b);
      }
    } else {
      EqualUnitsDoNotVary(ps);
      OneUnitsThroughOrigin(ps, b);
    }
    r := Usable(NewAffine(a, b));
  }

  /** A fit hands over no model that could not be saved; every measured one can. */
  method Usable(built: Built) returns (r: FitResult)
    requires built.Built? ==> WellFormed(built.model) && Measured(built.model)
    ensures r == if built.Built? then Fitted(built.model) else NoFit
  {
    if built.Rejected? {
      return NoFit;
    }
    forall i | i > 0 { MeasuredModelsRise(built.model, i); }
    var ok := Validate(built.model);
    r := if ok then Fitted(built.model) else NoFit;
  }

  ghost predicate NeverFalls(ms: seq<Point>) {
    forall i :: 0 < i < |ms| ==> ms[i - 1].amount <= ms[i].amount
  }

  lemma {:induction false} AmountsGrow(ms: seq<Point>, i: nat, j: nat)
    requires NeverFalls(ms) && i <= j < |ms|
    ensures ms[i].amount <= ms[j].amount
  {
    if i < j {
      AmountsGrow(ms, i, j - 1);
    }
  }

  /** Merged points of valid measurements grow from the origin when no amount falls. */
  lemma MergedPointsGrow(ms: seq<Point>, ps: seq<Point>)
    requires ValidPoints(ps) && Merged(ms, ps) && NeverFalls(ms)
    ensures Grow([ORIGIN] + ms)
  {
    var all := [ORIGIN] + ms;
    forall k | 0 <= k < |ms| ensures ms[k].u > 0.0 && ms[k].amount >= 0.0 {
      assert Averages(ms[k], ps);
      CountedWasMeasured(ps, ms[k].u);
      SumsAreNotNegative(ps, ms[k].u);
      AveragesAreNotNegative(ps, ms[k].u);
    }
    forall i, j | 0 <= i < j < |all| ensures all[i].u < all[j].u && all[i].amount <= all[j].amount {
      if i > 0 {
        AmountsGrow(ms, i - 1, j - 1);
      }
    }
  }

  /** The piecewise fit: refused just when a merged amount falls, and otherwise
      through every merged point. */
  method FitPiecewise(ps: seq<Point>) returns (r: FitResult, merged: seq<Point>)
    ensures ValidPoints(ps) ==> Merged(merged, ps)
    ensures r.NoFit? <==> !ValidPoints(ps) || !NeverFalls(merged)
    ensures r.Fitted? ==> r.model == PiecewiseModel([ORIGIN] + merged) && WellFormed(r.model)
    ensures r.Fitted? ==> forall k :: 0 <= k < |merged| ==> Resolved(r.model, merged[k].u) == Amount(merged[k].amount)
  {
    if !ValidPoints(ps) {
      return NoFit, [];
    }
    merged := MergeByUnits(ps);
    MergedOnce(merged, ps);
    var falls := FallsSomewhere(merged);
    if falls {
      return NoFit, merged;
    }
    MergedPointsGrow(merged, ps);
    var built := NewPiecewise(merged);
    r := Usable(built);
    PassesThroughAll(merged);
  }

  method FallsSomewhere(ms: seq<Point>) returns (falls: bool)
    requires ms != []
    ensures falls <==> !NeverFalls(ms)
  {
    for i := 1 to |ms|
      invariant forall k :: 0 < k < i ==> ms[k - 1].amount <= ms[k].amount
    {
      if ms[i].amount < ms[i - 1].amount {
        return true;
      }
    }
    return false;
  }

  lemma PassesThroughAll(ms: seq<Point>)
    requires ms != [] && Grow([ORIGIN] + ms)
    ensures WellFormed(PiecewiseModel([ORIGIN] + ms))
    ensures forall k :: 0 <= k < |ms| ==> Resolved(PiecewiseModel([ORIGIN] + ms), ms[k].u) == Amount(ms[k].amount)
  {
    forall k | 0 <= k < |ms| ensures Resolved(PiecewiseModel([ORIGIN] + ms), ms[k].u) == Amount(ms[k].amount) {
      PassesThroughEveryPoint([ORIGIN] + ms, k + 1);
    }
  }
}
