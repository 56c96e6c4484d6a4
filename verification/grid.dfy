/** The shared occupancy grid of village.py: a map from cell coordinates to a
    cell record, and the read-only queries villages make on it. */
module Grids {
  import opened Geometry

  /** One grid cell. `owner` is a village id, 0 for unowned or -1 for no-data;
      `arrivalTime` is 0 until first dated; `agent` marks the village sitting on
      the cell (0 for none). Python tests these three for truthiness, so
      "unset" is exactly the value 0. */
  datatype Cell = Cell(owner: int, env: real, arrivalTime: int, agent: int)

  type Grid = map<Coord, Cell>

  /** p lies within rounded distance r of c: its offset is in the memoised
      neighbourhood mask of radius r. */
  predicate InDisk(c: Coord, p: Coord, r: nat)
  {
    Offset(c, p) in NeighborMask(r)
  }

  /** p lies at rounded distance exactly d from c. */
  predicate OnRing(c: Coord, p: Coord, d: nat)
  {
    Offset(c, p) in DistanceMask(d)
  }

  /** Cells within rounded distance r of c that lie on the grid
      (get_neighborhood, village.py:52-68); cells off the grid are dropped. */
  function Neighborhood(g: Grid, c: Coord, r: nat): set<Coord>
  {
    set p | p in g && InDisk(c, p, r)
  }

  /** Cells at rounded distance exactly d from c that lie on the grid
      (get_destinations, village.py:82-98). */
  function Destinations(g: Grid, c: Coord, d: nat): set<Coord>
  {
    set p | p in g && OnRing(c, p, d)
  }

  /** The neighbourhood is exactly the on-grid cells p with
      round(hypot(p - c)) <= r, i.e. 4|p - c|^2 < (2r+1)^2. */
  lemma NeighborhoodExact(g: Grid, c: Coord, r: nat)
    ensures forall p :: p in Neighborhood(g, c, r) <==> p in g && 4 * Norm2(c, p) < Sq(2 * r + 1)
  {
    forall p {
      NeighborMaskIff(c, p, r);
    }
  }

  /** The ring is exactly the on-grid cells p with round(hypot(p - c)) == d. */
  lemma DestinationsExact(g: Grid, c: Coord, d: nat)
    ensures forall p :: p in Destinations(g, c, d) <==> p in g && RoundSqrt(Norm2(c, p)) == d
  {
    forall p
      ensures p in Destinations(g, c, d) <==> p in g && RoundSqrt(Norm2(c, p)) == d
    {
      DistanceMaskIff(c, p, d);
      RoundedExactly(Norm2(c, p), d);
    }
  }

  /** Moving a grid moves its cells. */
  lemma ShiftKeys(g: Grid, t: Coord, p: Coord)
    ensures p in g <==> (p.0 + t.0, p.1 + t.1) in Shift(g, t)
  {
    if p in g {
      assert Unshift((p.0 + t.0, p.1 + t.1), t) == p;
    }
  }

  lemma NeighborhoodShiftAt(g: Grid, c: Coord, r: nat, t: Coord, p: Coord)
    ensures p in Neighborhood(g, c, r) <==>
      p in g && (p.0 + t.0, p.1 + t.1) in Neighborhood(Shift(g, t), (c.0 + t.0, c.1 + t.1), r)
  {
    var c', p' := (c.0 + t.0, c.1 + t.1), (p.0 + t.0, p.1 + t.1);
    ShiftKeys(g, t, p);
    assert Offset(c', p') == Offset(c, p);
    assert InDisk(c', p', r) == InDisk(c, p, r);
    assert p in Neighborhood(g, c, r) <==> p in g && InDisk(c, p, r);
    assert p' in Neighborhood(Shift(g, t), c', r) <==> p' in Shift(g, t) && InDisk(c', p', r);
  }

  /** Translation invariance: the queries depend on the centre only through
      offsets, so moving the centre and the grid together moves the answer. */
  lemma NeighborhoodShift(g: Grid, c: Coord, r: nat, t: Coord)
    ensures forall p :: p in Neighborhood(g, c, r) <==>
      p in g && (p.0 + t.0, p.1 + t.1) in Neighborhood(Shift(g, t), (c.0 + t.0, c.1 + t.1), r)
  {
    forall p
      ensures p in Neighborhood(g, c, r) <==>
        p in g && (p.0 + t.0, p.1 + t.1) in Neighborhood(Shift(g, t), (c.0 + t.0, c.1 + t.1), r)
    {
      NeighborhoodShiftAt(g, c, r, t, p);
    }
  }

  function Unshift(p: Coord, t: Coord): Coord
  {
    (p.0 - t.0, p.1 - t.1)
  }

  /** The grid moved by t. */
  function Shift(g: Grid, t: Coord): Grid
  {
    map q | q in g :: (q.0 + t.0, q.1 + t.1) := g[q]
  }

  /** Settleable cells among `cells`: on the grid, not owned (owner is neither
      an id nor -1), suitability at least the tolerance and, in pioneer mode,
      never dated (get_empty_destinations, village.py:100-119, and the
      free_land filter of update_land). */
  function Available(g: Grid, cells: set<Coord>, tolerance: real, pioneer: bool): set<Coord>
  {
    set p | p in cells && p in g && g[p].owner == 0 && g[p].env >= tolerance
      && (!pioneer || g[p].arrivalTime == 0)
  }

  /** Unowned cells at distance d with suitability >= tolerance. */
  function EmptyDestinations(g: Grid, c: Coord, d: nat, tolerance: real, pioneer: bool): set<Coord>
  {
    Available(g, Destinations(g, c, d), tolerance, pioneer)
  }

  /** Every result is unowned (neither 0-excluded id nor -1), tolerable and on
      the ring; pioneer results are also undated and form a subset. */
  lemma EmptyDestinationsSpec(g: Grid, c: Coord, d: nat, tolerance: real)
    ensures EmptyDestinations(g, c, d, tolerance, true) <= EmptyDestinations(g, c, d, tolerance, false)
    ensures forall p :: p in EmptyDestinations(g, c, d, tolerance, false) <==>
      p in g && RoundSqrt(Norm2(c, p)) == d && g[p].owner == 0 && g[p].env >= tolerance
    ensures forall p :: p in EmptyDestinations(g, c, d, tolerance, true) <==>
      p in EmptyDestinations(g, c, d, tolerance, false) && g[p].arrivalTime == 0
  {
    DestinationsExact(g, c, d);
  }

  /** Cells near c marked by some other village (the list of get_neighbors,
      village.py:70-80, whose length the fission gate compares with 6). */
  function NeighborCells(g: Grid, c: Coord, r: nat, self: int): set<Coord>
  {
    set p | p in Neighborhood(g, c, r) && g[p].agent != 0 && g[p].agent != self
  }

  /** The ids get_neighbors reports: never 0 and never the asking village. */
  function NeighborIds(g: Grid, c: Coord, r: nat, self: int): (ids: set<int>)
    ensures 0 !in ids && self !in ids
    ensures forall p :: p in NeighborCells(g, c, r, self) ==> g[p].agent in ids
    ensures forall n :: n in ids ==> exists p :: p in NeighborCells(g, c, r, self) && g[p].agent == n
  {
    set p | p in NeighborCells(g, c, r, self) :: g[p].agent
  }

  // ---------------------------------------------------------------------
  // Choosing a cell. Python's max over a dict returns the first maximal key
  // in iteration order; the query dicts are built by scanning offsets with
  // x outer and y inner, so ties go to the lexicographically least cell.

  predicate LexLe(p: Coord, q: Coord)
  {
    p.0 < q.0 || (p.0 == q.0 && p.1 <= q.1)
  }

  predicate IsBest(g: Grid, s: set<Coord>, p: Coord)
    requires s <= g.Keys
  {
    p in s && forall q :: q in s ==> g[q].env < g[p].env || (g[q].env == g[p].env && LexLe(p, q))
  }

  lemma {:induction false} BestExists(g: Grid, s: set<Coord>)
    requires s != {} && s <= g.Keys
    ensures exists p :: IsBest(g, s, p)
    decreases |s|
  {
    var x :| x in s;
    var rest := s - {x};
    assert forall q :: q in s ==> q == x || q in rest;
    if rest == {} {
      assert IsBest(g, s, x);
    } else {
      BestExists(g, rest);
      var b :| IsBest(g, rest, b);
      if g[x].env > g[b].env || (g[x].env == g[b].env && LexLe(x, b)) {
        assert IsBest(g, s, x);
      } else {
        assert IsBest(g, s, b);
      }
    }
  }

  lemma BestUnique(g: Grid, s: set<Coord>, p: Coord, q: Coord)
    requires s <= g.Keys && IsBest(g, s, p) && IsBest(g, s, q)
    ensures p == q
  {
  }

  /** `max(cells, key=cells.get)` over a query result mapping cells to their
      suitability: the most suitable cell, lexicographically first among
      equals. */
  function Best(g: Grid, s: set<Coord>): (p: Coord)
    requires s != {} && s <= g.Keys
    ensures p in s
    ensures forall q :: q in s ==> g[q].env <= g[p].env
    ensures forall q :: q in s && g[q].env == g[p].env ==> LexLe(p, q)
  {
    BestExists(g, s);
    assert forall p, q :: IsBest(g, s, p) && IsBest(g, s, q) ==> p == q by {
      forall p, q | IsBest(g, s, p) && IsBest(g, s, q) {
        BestUnique(g, s, p, q);
      }
    }
    var p :| p in s && IsBest(g, s, p);
    p
  }

  /** `max(cells.values())`: the highest suitability among the cells. */
  function MaxEnv(g: Grid, s: set<Coord>): (e: real)
    requires s != {} && s <= g.Keys
    ensures exists p :: p in s && g[p].env == e
    ensures forall q :: q in s ==> g[q].env <= e
  {
    g[Best(g, s)].env
  }

  /** The choice depends only on suitability, so grids that agree on it agree
      on the choice. */
  lemma BestSameEnv(g: Grid, h: Grid, s: set<Coord>)
    requires s != {} && s <= g.Keys && s <= h.Keys
    requires forall p :: p in s ==> h[p].env == g[p].env
    ensures Best(h, s) == Best(g, s)
  {
    var a := Best(g, s);
    var b := Best(h, s);
    assert IsBest(g, s, a) && IsBest(g, s, b);
    BestUnique(g, s, a, b);
  }
}
