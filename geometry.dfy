/** Positions on the map and the integer view of Euclidean distance.

    The bot measures distances with a floating-point square root. Every
    comparison it makes is between a distance and another distance or an
    integer constant, and the square root is monotone, so the model compares
    squared distances instead. Where the bot truncates a distance to an
    integer, the model takes the integer square root of the squared distance,
    which is the same number at the magnitudes of the map. */
module Geometry {

  datatype Position = Position(x: int, y: int)

  /** Squared Euclidean distance between two positions. */
  function SqDist(a: Position, b: Position): (d: nat)
  {
    var dx := a.x - b.x;
    var dy := a.y - b.y;
    SquareNonNegative(dx);
    SquareNonNegative(dy);
    dx * dx + dy * dy
  }

  lemma SquareNonNegative(v: int)
    ensures v * v >= 0
  {
  }

  lemma SquareMonotone(a: nat, b: nat)
    requires a <= b
    ensures a * a <= b * b
  {
    assert a * a <= a * b;
    assert a * b <= b * b;
  }

  /** The integer part of the square root of n: what `int(math.Sqrt(...))`
      yields for the whole numbers that occur on the map. */
  function FloorSqrt(n: nat): (r: nat)
    ensures r * r <= n < (r + 1) * (r + 1)
  {
    if n == 0 then 0
    else
      var s := FloorSqrt(n - 1);
      assert (s + 2) * (s + 2) == (s + 1) * (s + 1) + 2 * s + 3;
      if (s + 1) * (s + 1) <= n then s + 1 else s
  }

  /** Truncated distances keep the order of the exact ones. */
  lemma FloorSqrtMonotone(a: nat, b: nat)
    requires a <= b
    ensures FloorSqrt(a) <= FloorSqrt(b)
  {
    var ra, rb := FloorSqrt(a), FloorSqrt(b);
    if ra > rb {
      SquareMonotone(rb + 1, ra);
      assert false;
    }
  }

  /** "The distance is below r" for a whole radius r: the squared distance is
      below r * r exactly when the truncated distance is below r. */
  lemma WithinRadiusIffFloorDistance(d: nat, r: nat)
    ensures d < r * r <==> FloorSqrt(d) < r
  {
    var s := FloorSqrt(d);
    if d < r * r && s >= r {
      SquareMonotone(r, s);
      assert false;
    }
    if s < r {
      SquareMonotone(s + 1, r);
    }
  }
}
