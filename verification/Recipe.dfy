/** The recipe engine over the reals (internal/recipe): how much of an
    ingredient some units of a component need, and its whole units. */
module Recipe {
  import opened Base

  datatype Point = Point(u: real, amount: real)

  /** a + b*u; or straight lines between measured points, the implicit (0, 0)
      first; or any formula of u, which may fail, fall, or go below zero. A power
      a * u^b is a formula here. */
  datatype Model =
    | AffineModel(a: real, b: real)
    | PiecewiseModel(points: seq<Point>)
    | FormulaModel(formula: real -> Amount)

  datatype Error = InvalidParams | InvalidUnits | InvalidResult | InvalidWasteFactor | TooLarge

  datatype Built = Built(model: Model) | Rejected(why: Error)

  datatype Amount = Amount(value: real) | NoAmount(error: Error)

  datatype Quantified = Qty(qty: int) | NoQty(reason: Error)

  const ORIGIN := Point(0.0, 0.0)
  const MAX_POINTS := 100

  /** Units strictly grow and amounts never fall. */
  ghost predicate Grow(ps: seq<Point>) {
    forall i, j :: 0 <= i < j < |ps| ==> ps[i].u < ps[j].u && ps[i].amount <= ps[j].amount
  }

  ghost predicate WellFormed(m: Model) {
    match m
    case AffineModel(a, b) => a >= 0.0 && b >= 0.0
    case PiecewiseModel(ps) => |ps| >= 2 && ps[0] == ORIGIN && Grow(ps)
    case FormulaModel(_) => true
  }

  /** Models that never need less for more units, by construction. */
  predicate Measured(m: Model) { !m.FormulaModel? }

  function NewAffine(a: real, b: real): (r: Built)
    ensures r.Built? <==> 0.0 <= a && 0.0 <= b
    ensures r.Built? ==> r.model == AffineModel(a, b) && WellFormed(r.model)
    ensures r.Rejected? ==> r.why == InvalidParams
  {
    if a < 0.0 || b < 0.0 then Rejected(InvalidParams) else Built(AffineModel(a, b))
  }

  /** Accepts just the points that grow from (0, 0): neighbours are compared. */
  method NewPiecewise(points: seq<Point>) returns (r: Built)
    ensures r.Built? <==> 1 <= |points| <= 100 && Grow([Point(0.0, 0.0)] + points)
    ensures r.Built? ==> r.model == PiecewiseModel([ORIGIN] + points) && WellFormed(r.model)
    ensures r.Rejected? ==> r.why == InvalidParams
  {
    if |points| == 0 || |points| > MAX_POINTS {
      return Rejected(InvalidParams);
    }
    var prev := ORIGIN;
    ghost var all := [ORIGIN] + points;
    for i := 0 to |points|
      invariant prev == all[i] && Grow(all[..i + 1])
    {
      var p := points[i];
      assert p == all[i + 1];
      if p.u <= prev.u || p.amount < prev.amount {
        return Rejected(InvalidParams);
      }
      GrowOneMore(all, i);
      prev := p;
    }
    assert all[..|points| + 1] == all;
    r := Built(PiecewiseModel([ORIGIN] + points));
  }

  lemma GrowOneMore(all: seq<Point>, i: nat)
    requires i + 1 < |all| && Grow(all[..i + 1])
    requires all[i].u < all[i + 1].u && all[i].amount <= all[i + 1].amount
    ensures Grow(all[..i + 2])
  {
  }

  // ----- Interpolation -----

  /** The straight line through two points. */
  function Line(lo: Point, hi: Point, u: real): real
    requires lo.u < hi.u
  {
    lo.amount + (hi.amount - lo.amount) / (hi.u - lo.u) * (u - lo.u)
  }

  lemma QuotientTimes(x: real, y: real)
    requires y != 0.0
    ensures x / y * y == x
  {
  }

  lemma QuotientIsNotNegative(x: real, y: real)
    requires x >= 0.0 && y > 0.0
    ensures x / y >= 0.0
  {
  }

  lemma ScaleKeepsOrder(k: real, x: real, y: real)
    requires k >= 0.0 && x <= y
    ensures k * x <= k * y
  {
  }

  /** A line whose amounts do not fall rises, and meets both its points. */
  lemma LineRises(lo: Point, hi: Point, u: real, v: real)
    requires lo.u < hi.u && lo.amount <= hi.amount && u <= v
    ensures Line(lo, hi, u) <= Line(lo, hi, v)
    ensures Line(lo, hi, lo.u) == lo.amount && Line(lo, hi, hi.u) == hi.amount
  {
    var slope := (hi.amount - lo.amount) / (hi.u - lo.u);
    QuotientTimes(hi.amount - lo.amount, hi.u - lo.u);
    QuotientIsNotNegative(hi.amount - lo.amount, hi.u - lo.u);
    ScaleKeepsOrder(slope, u - lo.u, v - lo.u);
  }

  /** Looking for the segment one after another: the first that reaches u, and
      the last segment past the end. */
  function Scan(points: seq<Point>, u: real): real
    requires |points| >= 2 && forall i, j :: 0 <= i < j < |points| ==> points[i].u < points[j].u
  {
    if |points| == 2 || u <= points[1].u then Line(points[0], points[1], u) else Scan(points[1..], u)
  }

  /** Any segment that is not passed and whose earlier ones are gives the scan. */
  lemma {:induction false} SegmentIsScan(points: seq<Point>, u: real, i: nat)
    requires |points| >= 2 && Grow(points) && 1 <= i < |points|
    requires forall j :: 1 <= j < i ==> points[j].u < u
    requires i == |points| - 1 || u <= points[i].u
    ensures Scan(points, u) == Line(points[i - 1], points[i], u)
  {
    if i > 1 {
      assert points[1].u < u;
      SegmentIsScan(points[1..], u, i - 1);
    }
  }

  /** The first index whose point reaches u, halving the range each time. */
  method Search(points: seq<Point>, u: real) returns (i: nat)
    requires Grow(points)
    ensures i <= |points|
    ensures forall j :: 0 <= j < i ==> points[j].u < u
    ensures forall j :: i <= j < |points| ==> points[j].u >= u
  {
    var high := |points|;
    i := 0;
    while i < high
      invariant 0 <= i <= high <= |points|
      invariant forall j :: 0 <= j < i ==> points[j].u < u
      invariant forall j :: high <= j < |points| ==> points[j].u >= u
    {
      var h := (i + high) / 2;
      if points[h].u < u {
        i := h + 1;
      } else {
        high := h;
      }
    }
  }

  /** The contract all models share: no units need nothing, a failure stays one,
      and no amount is negative. */
  function Evaluated(u: real, v: Amount): Amount {
    if u < 0.0 then NoAmount(InvalidUnits)
    else if u == 0.0 then Amount(0.0)
    else if v.NoAmount? then v
    else if v.value < 0.0 then NoAmount(InvalidResult)
    else v
  }

  /** What a model gives before the shared contract. */
  function Raw(m: Model, u: real): Amount
    requires WellFormed(m)
  {
    match m
    case AffineModel(a, b) => Amount(a + b * u)
    case PiecewiseModel(points) => Amount(Scan(points, u))
    case FormulaModel(formula) => formula(u)
  }

  function Resolved(m: Model, u: real): Amount
    requires WellFormed(m)
  {
    Evaluated(u, Raw(m, u))
  }

  /** The binary search, clamped to a segment, gives what looking one after
      another gives. */
  method Interpolate(points: seq<Point>, u: real) returns (v: real)
    requires WellFormed(PiecewiseModel(points)) && u > 0.0
    ensures v == Scan(points, u)
  {
    var found := Search(points, u);
    var i := Min(Max(found, 1), |points| - 1);
    v := OnSegment(points[i - 1], points[i], u);
    SegmentIsScan(points, u, i);
  }

  method OnSegment(lo: Point, hi: Point, u: real) returns (v: real)
    requires lo.u < hi.u
    ensures v == Line(lo, hi, u)
  {
    var slope := (hi.amount - lo.amount) / (hi.u - lo.u);
    v := lo.amount + slope * (u - lo.u);
  }

  method Resolve(m: Model, u: real) returns (r: Amount)
    requires WellFormed(m)
    ensures r == Resolved(m, u)
  {
    if u < 0.0 {
      return NoAmount(InvalidUnits);
    }
    if u == 0.0 {
      return Amount(0.0);
    }
    match m {
      case AffineModel(a, b) =>
        r := Amount(a + b * u);
      case PiecewiseModel(points) =>
        var v := Interpolate(points, u);
        r := Amount(v);
      case FormulaModel(formula) =>
        r := formula(u);
    }
    if r.Amount? && r.value < 0.0 {
      r := NoAmount(InvalidResult);
    }
  }

  lemma {:induction false} ScanRises(points: seq<Point>, u: real, v: real)
    requires |points| >= 2 && Grow(points) && points[0].u <= u <= v
    ensures points[0].amount <= Scan(points, u) <= Scan(points, v)
  {
    LineRises(points[0], points[1], points[0].u, u);
    LineRises(points[0], points[1], u, v);
    if |points| > 2 && v > points[1].u {
      assert Grow(points[1..]);
      if u > points[1].u {
        ScanRises(points[1..], u, v);
      } else {
        LineRises(points[0], points[1], u, points[1].u);
        ScanRises(points[1..], points[1].u, v);
      }
    }
  }

  lemma {:induction false} ScanPassesThrough(points: seq<Point>, i: nat)
    requires |points| >= 2 && Grow(points) && i < |points|
    ensures Scan(points, points[i].u) == points[i].amount
  {
    if i == 0 {
      assert points[0].u < points[1].u;
    } else if i == 1 {
      LineRises(points[0], points[1], points[0].u, points[1].u);
    } else {
      assert points[1].u < points[i].u;
      ScanPassesThrough(points[1..], i - 1);
    }
  }

  lemma RawRises(m: Model, u: real, v: real)
    requires WellFormed(m) && Measured(m) && 0.0 <= u <= v
    ensures Raw(m, u).Amount? && Raw(m, v).Amount?
    ensures 0.0 <= Raw(m, u).value <= Raw(m, v).value
  {
    match m {
      case AffineModel(a, b) =>
        ScaleKeepsOrder(b, 0.0, u);
        ScaleKeepsOrder(b, u, v);
      case PiecewiseModel(points) => ScanRises(points, u, v);
    }
  }

  /** Every affine and piecewise model resolves all units from 0 on, to amounts
      that are never negative and never fall, past the last measured point too. */
  lemma MoreUnitsNeverNeedLess(m: Model, u: real, v: real)
    requires WellFormed(m) && Measured(m) && 0.0 <= u <= v
    ensures Resolved(m, u).Amount? && Resolved(m, v).Amount?
    ensures 0.0 <= Resolved(m, u).value <= Resolved(m, v).value
  {
    RawRises(m, u, v);
    RawRises(m, 0.0, v);
  }

  /** Whatever the model, an amount it resolves is not negative. */
  lemma ResolvedIsNotNegative(m: Model, u: real)
    requires WellFormed(m)
    ensures Resolved(m, u).Amount? ==> u >= 0.0 && Resolved(m, u).value >= 0.0
  {
  }

  /** A piecewise model gives each measured point its amount. */
  lemma PassesThroughEveryPoint(points: seq<Point>, i: nat)
    requires WellFormed(PiecewiseModel(points)) && i < |points|
    ensures Resolved(PiecewiseModel(points), points[i].u) == Amount(points[i].amount)
  {
    ScanPassesThrough(points, i);
    assert i > 0 ==> points[0].u < points[i].u && points[0].amount <= points[i].amount;
  }

  /** v is on the straight line through two points at u. */
  ghost predicate OnTheLine(lo: Point, hi: Point, u: real, v: real) {
    (v - lo.amount) * (hi.u - lo.u) == (hi.amount - lo.amount) * (u - lo.u)
  }

  lemma LineIsStraight(lo: Point, hi: Point, u: real)
    requires lo.u < hi.u
    ensures OnTheLine(lo, hi, u, Line(lo, hi, u))
  {
    QuotientTimes(hi.amount - lo.amount, hi.u - lo.u);
    var slope := (hi.amount - lo.amount) / (hi.u - lo.u);
    assert slope * (u - lo.u) * (hi.u - lo.u) == slope * (hi.u - lo.u) * (u - lo.u);
  }

  /** What each kind of model resolves for some units: the fixed part and the part of
      each unit; a straight line between neighbouring points, and past the end the
      last one drawn on; what the formula says, unless that is negative. */
  lemma ResolvedIs(m: Model, u: real)
    requires WellFormed(m) && u > 0.0
    ensures match m
            case AffineModel(a, b) => Resolved(m, u) == Amount(a + b * u)
            case PiecewiseModel(ps) =>
              && Resolved(m, u).Amount?
              && forall i :: 1 <= i < |ps| && ps[i - 1].u <= u && (u <= ps[i].u || i == |ps| - 1) ==>
                   OnTheLine(ps[i - 1], ps[i], u, Resolved(m, u).value)
            case FormulaModel(f) =>
              Resolved(m, u) == if f(u).Amount? && f(u).value < 0.0 then NoAmount(InvalidResult) else f(u)
  {
    if m.AffineModel? {
      ScaleKeepsOrder(m.b, 0.0, u);
    } else if m.PiecewiseModel? {
      MoreUnitsNeverNeedLess(m, u, u);
      var ps := m.points;
      forall i | 1 <= i < |ps| && ps[i - 1].u <= u && (u <= ps[i].u || i == |ps| - 1)
        ensures OnTheLine(ps[i - 1], ps[i], u, Scan(ps, u))
      {
        OnItsSegment(ps, u, i);
      }
    }
  }

  /** A point between two segments is on both lines. */
  lemma OnItsSegment(ps: seq<Point>, u: real, i: nat)
    requires |ps| >= 2 && Grow(ps) && 1 <= i < |ps| && ps[i - 1].u <= u && (u <= ps[i].u || i == |ps| - 1)
    ensures OnTheLine(ps[i - 1], ps[i], u, Scan(ps, u))
  {
    assert ps[i - 1].u < ps[i].u;
    if ps[i - 1].u < u {
      SegmentIsScan(ps, u, i);
      LineIsStraight(ps[i - 1], ps[i], u);
    } else {
      ScanPassesThrough(ps, i - 1);
    }
  }

  /** No units need nothing, and fewer than none are refused. */
  lemma NoUnitsNeedNothing(m: Model, u: real)
    requires WellFormed(m)
    ensures u == 0.0 ==> Resolved(m, u) == Amount(0.0)
    ensures u < 0.0 ==> Resolved(m, u) == NoAmount(InvalidUnits)
  {
  }

  // ----- Whole units -----

  datatype Rounding = RoundNearest | RoundUp

  const MAX_EXACT := 0x20_0000_0000_0000

  /** The noise a resolved amount is allowed to carry. */
  function FloatNoise(x: real): real {
    0.000000000001 * (if x < 1.0 && -x < 1.0 then 1.0 else if x < 0.0 then -x else x)
  }

  /** Half away from zero. */
  function RoundHalfAway(x: real): int {
    if x >= 0.0 then (x + 0.5).Floor else -((-x + 0.5).Floor)
  }

  function Rounded(x: real, rounding: Rounding): int {
    match rounding
    case RoundNearest => RoundHalfAway(x)
    case RoundUp => Ceil(x - FloatNoise(x))
  }

  /** What a model resolves, with its waste. */
  function WithWaste(m: Model, u: real, wasteFactor: real): Amount
    requires WellFormed(m)
  {
    var resolved := Resolved(m, u);
    if wasteFactor < 1.0 then NoAmount(InvalidWasteFactor)
    else if resolved.NoAmount? then resolved
    else Amount(resolved.value * wasteFactor)
  }

  function Whole(x: real, rounding: Rounding): Quantified {
    var q := Rounded(x, rounding);
    if q > MAX_EXACT then NoQty(TooLarge) else Qty(q)
  }

  function Quantity(m: Model, u: real, wasteFactor: real, rounding: Rounding): Quantified
    requires WellFormed(m)
  {
    match WithWaste(m, u, wasteFactor)
    case NoAmount(e) => NoQty(e)
    case Amount(x) => Whole(x, rounding)
  }

  /** The nearest whole number, with a half going up; or the least that is not below,
      but for a millionth of a millionth. */
  ghost predicate IsRounded(q: int, x: real, rounding: Rounding) {
    match rounding
    case RoundNearest => q as real - 0.5 <= x < q as real + 0.5
    case RoundUp =>
      var least := x - 0.000000000001 * if x > 1.0 then x else 1.0;
      q as real - 1.0 < least <= q as real
  }

  /** A whole quantity that is rounded, or refused because it is above 2^53. */
  ghost predicate IsWhole(r: Quantified, x: real, rounding: Rounding) {
    exists q :: IsRounded(q, x, rounding) && r == if q > 9_007_199_254_740_992 then NoQty(TooLarge) else Qty(q)
  }

  lemma WholeIs(x: real, rounding: Rounding)
    requires x >= 0.0
    ensures IsWhole(Whole(x, rounding), x, rounding)
  {
    RoundedIs(x, rounding);
    assert IsRounded(Rounded(x, rounding), x, rounding);
  }

  lemma RoundedIs(x: real, rounding: Rounding)
    requires x >= 0.0
    ensures IsRounded(Rounded(x, rounding), x, rounding)
  {
  }

  /** A quantity is what the model resolves, times the waste, rounded. */
  lemma QuantityIs(m: Model, u: real, wasteFactor: real, rounding: Rounding)
    requires WellFormed(m) && wasteFactor >= 1.0 && Resolved(m, u).Amount?
    ensures IsWhole(Quantity(m, u, wasteFactor, rounding), Resolved(m, u).value * wasteFactor, rounding)
  {
    ResolvedIsNotNegative(m, u);
    var x := Resolved(m, u).value;
    Scaled(0.0, x, wasteFactor);
    assert WithWaste(m, u, wasteFactor) == Amount(x * wasteFactor);
    WholeIs(x * wasteFactor, rounding);
  }

  /** A waste factor below one is refused before the model is asked; then what the
      model refuses is refused. */
  lemma QuantityIsRefused(m: Model, u: real, wasteFactor: real, rounding: Rounding)
    requires WellFormed(m)
    ensures wasteFactor < 1.0 ==> Quantity(m, u, wasteFactor, rounding) == NoQty(InvalidWasteFactor)
    ensures wasteFactor >= 1.0 && Resolved(m, u).NoAmount? ==>
              Quantity(m, u, wasteFactor, rounding) == NoQty(Resolved(m, u).error)
  {
  }

  /** When the larger quantity is accepted, so is the smaller, and it is no more. */
  ghost predicate NoMoreThan(q: Quantified, r: Quantified) {
    r.Qty? ==> q.Qty? && 0 <= q.qty <= r.qty
  }

  lemma Scaled(x: real, y: real, factor: real)
    requires 0.0 <= x <= y && 0.0 <= factor
    ensures 0.0 <= x * factor <= y * factor
  {
  }

  lemma WasteKeepsOrder(m: Model, u: real, v: real, wasteFactor: real)
    requires WellFormed(m) && Measured(m) && 0.0 <= u <= v && wasteFactor >= 1.0
    ensures var a, b := WithWaste(m, u, wasteFactor), WithWaste(m, v, wasteFactor);
            a.Amount? && b.Amount? && 0.0 <= a.value <= b.value
  {
    MoreUnitsNeverNeedLess(m, u, v);
    Scaled(Resolved(m, u).value, Resolved(m, v).value, wasteFactor);
  }

  lemma WholeRises(x: real, y: real, rounding: Rounding)
    requires 0.0 <= x <= y
    ensures NoMoreThan(Whole(x, rounding), Whole(y, rounding))
  {
  }

  /** Whole units keep the order: more units of a component never need fewer,
      under both roundings. */
  lemma QuantityRises(m: Model, u: real, v: real, wasteFactor: real, rounding: Rounding)
    requires WellFormed(m) && Measured(m) && 0.0 <= u <= v
    ensures NoMoreThan(Quantity(m, u, wasteFactor, rounding), Quantity(m, v, wasteFactor, rounding))
  {
    if wasteFactor >= 1.0 {
      WasteKeepsOrder(m, u, v, wasteFactor);
      WholeRises(WithWaste(m, u, wasteFactor).value, WithWaste(m, v, wasteFactor).value, rounding);
    }
  }

  /** No quantity is negative, whatever the model. */
  lemma QuantitiesAreNotNegative(m: Model, u: real, wasteFactor: real, rounding: Rounding)
    requires WellFormed(m)
    ensures var q := Quantity(m, u, wasteFactor, rounding); q.Qty? ==> q.qty >= 0
  {
    ResolvedIsNotNegative(m, u);
    if WithWaste(m, u, wasteFactor).Amount? {
      Scaled(0.0, Resolved(m, u).value, wasteFactor);
      RoundedIsNotNegative(WithWaste(m, u, wasteFactor).value, rounding);
    }
  }

  lemma RoundedIsNotNegative(x: real, rounding: Rounding)
    requires x >= 0.0
    ensures Rounded(x, rounding) >= 0
  {
  }

  // ----- How far the noise allowance goes -----

  const TRILLION := 1_000_000_000_000

  /** The allowance is meant to stay below one unit at every amount accepted, up
      to 2^53. It does just below a million million: a whole amount is kept as it
      is exactly there, and loses a unit or more from there on. */
  lemma WholeAmountsAreKeptBelow(n: nat)
    ensures Rounded(n as real, RoundUp) == n <==> n < TRILLION
    ensures Rounded(n as real, RoundNearest) == n
  {
  }

  /** At 2^53 it takes off nine thousand units: a recipe of one a unit needs that
      many fewer than its units. */
  lemma TheLargestAmountLosesThousands()
    ensures Quantity(AffineModel(0.0, 1.0), MAX_EXACT as real, 1.0, RoundUp) == Qty(MAX_EXACT - 9007)
  {
    assert Rounded(MAX_EXACT as real, RoundUp) == MAX_EXACT - 9007;
  }

  /** Rounding up gives less than the amount just when its part over a whole unit
      is within the allowance, or the allowance is a whole unit. */
  lemma RoundUpFallsShortExactlyWhen(x: real)
    requires 0.0 <= x
    ensures Rounded(x, RoundUp) as real < x <==>
            x >= TRILLION as real || 0.0 < x - x.Floor as real <= FloatNoise(x)
  {
    var noise := FloatNoise(x);
    var c := Ceil(x - noise);
    if x < TRILLION as real {
      assert 0.0 < noise < 1.0;
      if x - x.Floor as real <= noise {
        assert c <= x.Floor;
        assert c >= x.Floor;
      } else {
        assert c == x.Floor + 1;
      }
    } else {
      assert noise >= 1.0;
    }
  }

  // ----- The check before a recipe is saved -----

  const STEPS := 200

  function Slack(x: real): real { 0.000000001 * (if -1.0 < x < 1.0 then 1.0 else if x < 0.0 then -x else x) }

  /** u = 0.5, 1, ..., 100. */
  function At(i: nat): real { i as real * 0.5 }

  ghost predicate StepRises(m: Model, i: nat)
    requires WellFormed(m) && i > 0
  {
    var before, now := Resolved(m, At(i - 1)), Resolved(m, At(i));
    before.Amount? && now.Amount? && now.value >= before.value - Slack(before.value)
  }

  /** A step rises when half a unit more needs no less, but for a thousand-millionth. */
  lemma StepRisesExactlyWhen(m: Model, i: nat)
    requires WellFormed(m) && i > 0
    ensures var before, now := Resolved(m, (i as real - 1.0) / 2.0), Resolved(m, i as real / 2.0);
            StepRises(m, i) <==>
              && before.Amount? && now.Amount?
              && now.value >= before.value - 0.000000001 * if before.value > 1.0 then before.value else 1.0
  {
    ResolvedIsNotNegative(m, (i as real - 1.0) / 2.0);
    assert At(i - 1) == (i as real - 1.0) / 2.0 && At(i) == i as real / 2.0;
  }

  /** Affine and piecewise models pass by construction. */
  lemma MeasuredModelsRise(m: Model, i: nat)
    requires WellFormed(m) && Measured(m) && i > 0
    ensures StepRises(m, i)
  {
    MoreUnitsNeverNeedLess(m, At(i - 1), At(i));
  }

  /** Any model: a formula passes just when it resolves and rises at every step. */
  method Validate(m: Model) returns (ok: bool)
    requires WellFormed(m)
    ensures ok <==> forall i :: 1 <= i <= 200 ==> StepRises(m, i)
  {
    var prev := 0.0;
    for i := 1 to STEPS + 1
      invariant Resolved(m, At(i - 1)) == Amount(prev)
      invariant forall k :: 1 <= k < i ==> StepRises(m, k)
    {
      var r := Resolve(m, At(i));
      if r.NoAmount? || r.value < prev - Slack(prev) {
        assert !StepRises(m, i);
        return false;
      }
      prev := r.value;
    }
    return true;
  }

  /** A formula may dip between two steps: it passes, and still more units need
      less. */
  lemma DipsBetweenStepsPass()
    ensures var m := FormulaModel(u => if u == 0.75 then Amount(0.0) else Amount(1.0));
            && (forall i :: 1 <= i <= 200 ==> StepRises(m, i))
            && Resolved(m, 0.5) == Amount(1.0) && Resolved(m, 0.75) == Amount(0.0)
  {
    forall i: nat | i > 0 ensures At(i) != 0.75 && At(i) > 0.0 {
      assert 2.0 * At(i) == i as real;
    }
  }
}
