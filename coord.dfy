/** `fixCoord` (eddnlistener/eddnlistener.go:1811-1816, eddnlistener.go:1335-1340): a star
 *  position component is snapped to the nearest multiple of 1/32 light year, halves
 *  rounding away from zero, so that a system's coordinates compare equal however the
 *  sender rounded them. Modelled over the reals. */
module Coord {
  /** `math.Ceil` over the reals. */
  function Ceil(x: real): int
  {
    -((-x).Floor)
  }

  function FixCoord(a: real): real
  {
    if a < 0.0 then (Ceil(a * 32.0 - 0.5) as real) / 32.0
    else ((a * 32.0 + 0.5).Floor as real) / 32.0
  }

  /** A multiple of 1/32. */
  predicate OnGrid(r: real)
  {
    (r * 32.0).Floor as real == r * 32.0
  }

  /** The snapped value lies on the 1/32 grid. */
  lemma FixCoordOnGrid(a: real)
    ensures OnGrid(FixCoord(a))
  {
    var n := if a < 0.0 then Ceil(a * 32.0 - 0.5) else (a * 32.0 + 0.5).Floor;
    assert FixCoord(a) * 32.0 == n as real;
  }

  /** The snapped value is within half a grid step of the input. */
  lemma FixCoordNearest(a: real)
    ensures -1.0 / 64.0 <= FixCoord(a) - a <= 1.0 / 64.0
  {
  }

  /** Snapping is odd: negating the input negates the result. */
  lemma FixCoordOdd(a: real)
    ensures FixCoord(-a) == -FixCoord(a)
  {
    if a > 0.0 {
      assert -a * 32.0 - 0.5 == -(a * 32.0 + 0.5);
    } else if a < 0.0 {
      assert -a * 32.0 + 0.5 == -(a * 32.0 - 0.5);
    }
  }

  /** Points of the grid are left where they are. */
  lemma FixCoordFixesGrid(k: int)
    ensures FixCoord(k as real / 32.0) == k as real / 32.0
  {
    var a := k as real / 32.0;
    assert a * 32.0 == k as real;
    if a < 0.0 {
      assert Ceil(a * 32.0 - 0.5) == k;
    } else {
      assert (a * 32.0 + 0.5).Floor == k;
    }
  }

  /** Snapping twice is snapping once. */
  lemma FixCoordIdempotent(a: real)
    ensures FixCoord(FixCoord(a)) == FixCoord(a)
  {
    FixCoordOnGrid(a);
    var k := (FixCoord(a) * 32.0).Floor;
    assert FixCoord(a) == k as real / 32.0;
    FixCoordFixesGrid(k);
  }

  /** A point half-way between two grid points goes to the one farther from zero. */
  lemma FixCoordHalfAwayFromZero(k: int)
    ensures k >= 0 ==> FixCoord((2 * k + 1) as real / 64.0) == (k + 1) as real / 32.0
    ensures k < 0 ==> FixCoord((2 * k + 1) as real / 64.0) == k as real / 32.0
  {
    var a := (2 * k + 1) as real / 64.0;
    assert a * 32.0 == (2 * k + 1) as real / 2.0;
    if k >= 0 {
      assert a > 0.0;
      assert a * 32.0 + 0.5 == (k + 1) as real;
      assert ((k + 1) as real).Floor == k + 1;
    } else {
      assert a < 0.0;
      assert a * 32.0 - 0.5 == k as real;
      assert Ceil(k as real) == k;
    }
  }
}
