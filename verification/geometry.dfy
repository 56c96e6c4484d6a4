/** Integer form of the rounded Euclidean distance `round(hypot(i, j))` used by
    the village neighbourhood and destination queries.

    For integers i and j the value hypot(i, j) = sqrt(n) with n = i*i + j*j is
    never exactly k + 1/2 (that would make 4n an odd square), so rounding is
    unambiguous and round(sqrt(n)) = d exactly when (2d-1)^2 < 4n < (2d+1)^2. */
module Geometry {

  type Coord = (int, int)

  function Sq(x: int): nat { x * x }

  /** Squared Euclidean distance between two cells. */
  function Norm2(c: Coord, p: Coord): nat
  {
    Sq(p.0 - c.0) + Sq(p.1 - c.1)
  }

  /** The unique d with (2d-1)^2 < 4n < (2d+1)^2 (for d = 0 only the right bound). */
  predicate IsRounded(n: nat, d: nat)
  {
    4 * n < Sq(2 * d + 1) && (d == 0 || Sq(2 * d - 1) < 4 * n)
  }

  lemma OddSquareNotEven(d: int, n: int)
    ensures Sq(2 * d + 1) != 4 * n
  {
    assert Sq(2 * d + 1) == 4 * (d * d + d) + 1;
  }

  function RoundFrom(n: nat, d: nat): (r: nat)
    requires d == 0 || Sq(2 * d - 1) < 4 * n
    ensures IsRounded(n, r)
    decreases 4 * n - d
  {
    if Sq(2 * d + 1) <= 4 * n then
      assert Sq(2 * d + 1) >= 2 * d + 1;
      OddSquareNotEven(d, n);
      RoundFrom(n, d + 1)
    else
      d
  }

  /** round(sqrt(n)), computed in integers by an upward search. */
  function RoundSqrt(n: nat): (r: nat)
    ensures IsRounded(n, r)
  {
    RoundFrom(n, 0)
  }

  /** `round(hypot(p - c))`, the distance of village.py's get_distance. */
  function Distance(c: Coord, p: Coord): nat
  {
    RoundSqrt(Norm2(c, p))
  }

  lemma SqMono(a: nat, b: nat)
    requires a <= b
    ensures Sq(a) <= Sq(b)
  {
    assert a * a <= a * b <= b * b;
  }

  lemma SqStrictMono(a: nat, b: nat)
    requires a < b
    ensures Sq(a) < Sq(b)
  {
    assert a * a <= a * b < b * b;
  }

  /** Rounded distance at most r is the integer test 4n < (2r+1)^2. */
  lemma RoundedAtMost(n: nat, r: nat)
    ensures RoundSqrt(n) <= r <==> 4 * n < Sq(2 * r + 1)
  {
    var d := RoundSqrt(n);
    if d <= r {
      SqMono(2 * d + 1, 2 * r + 1);
    } else {
      SqMono(2 * r + 1, 2 * d - 1);
    }
  }

  /** Rounded distance exactly d, as integer bounds. */
  lemma RoundedExactly(n: nat, d: nat)
    ensures RoundSqrt(n) == d <==> IsRounded(n, d)
  {
    var e := RoundSqrt(n);
    if e < d {
      SqMono(2 * e + 1, 2 * d - 1);
    } else if e > d {
      SqMono(2 * d + 1, 2 * e - 1);
    }
  }

  /** One coordinate of a point inside the disk 4n < (2r+1)^2 is at most r in size. */
  lemma CoordinateBound(i: int, n: nat, r: nat)
    requires Sq(i) <= n && 4 * n < Sq(2 * r + 1)
    ensures -(r as int) <= i <= r
  {
    if i > r || -i > r {
      var a: nat := if i > 0 then i else -i;
      assert 4 * Sq(r + 1) == Sq(2 * r + 1) + 4 * r + 3;
      assert Sq(a) == Sq(i);
      SqMono(r + 1, a);
    }
  }

  /** A cell within rounded distance r lies in the square [-r, r]^2 around the
      centre, so the source's square scan of offsets misses nothing. */
  lemma WithinSquare(i: int, j: int, r: nat)
    requires RoundSqrt(Sq(i) + Sq(j)) <= r
    ensures -(r as int) <= i <= r && -(r as int) <= j <= r
  {
    RoundedAtMost(Sq(i) + Sq(j), r);
    CoordinateBound(i, Sq(i) + Sq(j), r);
    CoordinateBound(j, Sq(i) + Sq(j), r);
  }

  /** Offsets of the neighbourhood mask of radius r (village.py:57-60):
      the square [-r, r]^2 filtered by rounded distance at most r. */
  function NeighborMask(r: nat): set<Coord>
  {
    set i, j | -(r as int) <= i <= r && -(r as int) <= j <= r && RoundSqrt(Sq(i) + Sq(j)) <= r :: (i, j)
  }

  /** Offsets of the destination ring at distance d (village.py:87-90). */
  function DistanceMask(d: nat): set<Coord>
  {
    set i, j | -(d as int) <= i <= d && -(d as int) <= j <= d && RoundSqrt(Sq(i) + Sq(j)) == d :: (i, j)
  }

  function Offset(c: Coord, p: Coord): Coord
  {
    (p.0 - c.0, p.1 - c.1)
  }

  /** A mask offset lies in the square the mask scans; a cell of the square
      is in the mask exactly when its rounded distance passes the filter. */
  lemma NeighborMaskMember(o: Coord, r: nat)
    ensures o in NeighborMask(r) <==> RoundSqrt(Sq(o.0) + Sq(o.1)) <= r
  {
    var (i, j) := o;
    var near := RoundSqrt(Sq(i) + Sq(j)) <= r;
    if near {
      WithinSquare(i, j, r);
    }
    assert (i, j) in NeighborMask(r) <==> -(r as int) <= i <= r && -(r as int) <= j <= r && near;
  }

  lemma DistanceMaskMember(o: Coord, d: nat)
    ensures o in DistanceMask(d) <==> RoundSqrt(Sq(o.0) + Sq(o.1)) == d
  {
    var (i, j) := o;
    var on := RoundSqrt(Sq(i) + Sq(j)) == d;
    if on {
      WithinSquare(i, j, d);
    }
    assert (i, j) in DistanceMask(d) <==> -(d as int) <= i <= d && -(d as int) <= j <= d && on;
  }

  /** Membership in the neighbourhood mask is exactly the integer disk test. */
  lemma NeighborMaskIff(c: Coord, p: Coord, r: nat)
    ensures Offset(c, p) in NeighborMask(r) <==> 4 * Norm2(c, p) < Sq(2 * r + 1)
  {
    var o := Offset(c, p);
    assert Norm2(c, p) == Sq(o.0) + Sq(o.1);
    NeighborMaskMember(o, r);
    RoundedAtMost(Norm2(c, p), r);
  }

  /** Membership in the ring mask is exactly the integer annulus test. */
  lemma DistanceMaskIff(c: Coord, p: Coord, d: nat)
    ensures Offset(c, p) in DistanceMask(d) <==> IsRounded(Norm2(c, p), d)
  {
    var o := Offset(c, p);
    assert Norm2(c, p) == Sq(o.0) + Sq(o.1);
    DistanceMaskMember(o, d);
    RoundedExactly(Norm2(c, p), d);
  }
}
