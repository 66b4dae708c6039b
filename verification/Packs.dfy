/** Rounding what to buy up to whole packs, over the reals
    (internal/aggregation/compute.go, internal/procurement/service.go). */
module Packs {
  import opened Base

  /** The allowance for float noise in both roundings. */
  const EPSILON := 0.000000001

  lemma CeilReaches(x: real, n: int)
    ensures Ceil(x) >= n <==> x > n as real - 1.0
  {
  }

  /** qty rounded up to whole packs of size. */
  function PacksFor(qty: int, size: real): int
    requires size > 0.0
  {
    if qty <= 0 then 0 else Ceil(qty as real / size - EPSILON)
  }

  /** What an order item asks of the supplier: its packs, in the base unit. */
  function PackQty(packs: int, size: real): int { Ceil(packs as real * size - EPSILON) }

  /** What is left over of qty after filling whole packs. */
  function Remainder(qty: int, size: real): real
    requires size > 0.0
  {
    qty as real - (qty as real / size).Floor as real * size
  }

  lemma QuotientTimes(q: real, size: real)
    requires size > 0.0
    ensures q / size * size == q
  {
  }

  lemma Scale(a: real, b: real, size: real)
    requires size > 0.0
    ensures a < b ==> a * size < b * size
    ensures a <= b ==> a * size <= b * size
  {
  }

  lemma Difference(a: real, b: real, size: real)
    ensures (a - b) * size == a * size - b * size
  {
  }

  lemma QuotientIsMore(x: real, y: real, size: real)
    requires size > 0.0 && y * size < x * size
    ensures y < x
  {
    Scale(x, y, size);
  }

  /** The packs ordered cover what is to buy, and one pack fewer would not. */
  lemma PacksAreEnoughAndNoneTooMany(qty: int, size: real)
    requires 1 <= qty && 0.0 < size < 1_000_000_000.0 - 1.0
    ensures var packs := PacksFor(qty, size);
            && packs >= 1
            && (packs - 1) as real * size < qty as real
            && PackQty(packs, size) >= qty
  {
    var packs := PacksFor(qty, size);
    var x := qty as real / size;
    QuotientTimes(qty as real, size);
    Scale(size, 999_999_999.0, EPSILON);
    QuotientIsMore(x, EPSILON, size);
    Scale((packs - 1) as real, x, size);
    EnoughPacks(x, EPSILON, packs as real, size, qty as real);
  }

  lemma EnoughPacks(x: real, noise: real, packs: real, size: real, q: real)
    requires size > 0.0 && x * size == q && noise * size < 1.0 - noise && x - noise <= packs
    ensures packs * size - noise > q - 1.0
  {
    var lower := x - noise;
    Scale(lower, packs, size);
    Difference(x, noise, size);
  }

  /** An order item asks for what its packs hold, as the least whole number but
      for the noise. */
  lemma PackQtyIsWhole(packs: int, size: real)
    ensures PackQty(packs, size) as real - 1.0 < packs as real * size - 0.000000001 <= PackQty(packs, size) as real
  {
  }

  /** Whole packs cover a quantity for every size but one family: when what is
      left over after whole packs is almost a whole unit or more, and yet within
      the noise allowance of a pack. */
  lemma PacksCoverExactlyWhen(qty: int, size: real)
    requires 1 <= qty && 0.0 < size
    ensures PackQty(PacksFor(qty, size), size) >= qty
       <==> !(1.0 - EPSILON <= Remainder(qty, size) <= EPSILON * size)
  {
    var x := qty as real / size;
    QuotientTimes(qty as real, size);
    CoverGiven(qty, size, x);
    assert PacksFor(qty, size) == Ceil(x - EPSILON);
    assert Remainder(qty, size) == qty as real - x.Floor as real * size;
  }

  /** The same for a quotient known only by what it multiplies back to. */
  lemma CoverGiven(qty: int, size: real, x: real)
    requires 1 <= qty && 0.0 < size && x * size == qty as real
    ensures var left := qty as real - x.Floor as real * size;
            PackQty(Ceil(x - EPSILON), size) >= qty <==> !(1.0 - EPSILON <= left <= EPSILON * size)
  {
    LeftVersusAllowance(x, x.Floor as real, size, qty as real, EPSILON);
    if x - x.Floor as real <= EPSILON {
      NoiseIsDropped(qty, size, x);
    } else {
      AnythingMoreTakesAPack(qty, size, x);
    }
  }

  lemma LeftVersusAllowance(x: real, whole: real, size: real, q: real, allowance: real)
    requires 0.0 < size && x * size == q
    ensures x - whole <= allowance <==> q - whole * size <= allowance * size
  {
  }

  lemma NoiseIsDropped(qty: int, size: real, x: real)
    requires 0.0 < size && x - x.Floor as real <= EPSILON
    ensures PackQty(Ceil(x - EPSILON), size) >= qty <==> x.Floor as real * size - EPSILON > qty as real - 1.0
  {
    assert Ceil(x - EPSILON) == x.Floor;
    CeilReaches(x.Floor as real * size - EPSILON, qty);
  }

  lemma AnythingMoreTakesAPack(qty: int, size: real, x: real)
    requires 0.0 < size && x * size == qty as real && x - x.Floor as real > EPSILON
    ensures PackQty(Ceil(x - EPSILON), size) >= qty
  {
    var packs := Ceil(x - EPSILON);
    assert packs >= x.Floor + 1;
    Scale(x, packs as real, size);
    CeilReaches(packs as real * size - EPSILON, qty);
  }

  /** Sizes of a billion and more are in that family: 2 000 000 001 in packs of
      two billion orders one pack, a unit short. */
  lemma HugePacksFallShort()
    ensures PacksFor(2_000_000_001, 2_000_000_000.0) == 1
    ensures PackQty(1, 2_000_000_000.0) == 2_000_000_000
  {
  }
}
