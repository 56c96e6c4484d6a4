/** The village agent of village.py: growth, land claiming, arrival dating,
    fission, relocation and the per-step lifecycle, as pure functions from a
    village and the grid to their successors. */
module Villages {
  import opened Geometry
  import opened Grids
  import opened Wrappers

  datatype Village = Village(
    id: nat,
    active: bool,
    coords: Coord,
    k: int,
    totalK: int,
    population: int,
    catchment: nat,
    fissionThreshold: int,
    leapDistance: nat,
    land: seq<Coord>,
    permanence: int,
    timeHere: int,
    tolerance: real)

  /** A village together with the grid after it acted. */
  datatype Placed = Placed(v: Village, g: Grid)

  /** The result of a step that may split off one child village; `lastId` is
      the id allocator after any allocation. */
  datatype Stepped = Stepped(parent: Village, g: Grid, child: Option<Village>, lastId: nat)

  /** A fresh village (village.py:17-50): active, no land, K* = 0, starting at
      its fission threshold, no time spent here. */
  function NewVillage(id: nat, coords: Coord, k: int, fissionThreshold: int, catchment: nat,
                      leapDistance: nat, permanence: int, tolerance: real): Village
  {
    Village(id, true, coords, k, 0, fissionThreshold, catchment, fissionThreshold,
            leapDistance, [], permanence, 0, tolerance)
  }

  // ---------------------------------------------------------------------
  // Relations between before and after states.

  /** The parameters a village never changes. */
  predicate SameTraits(v: Village, w: Village)
  {
    && w.id == v.id && w.k == v.k && w.catchment == v.catchment
    && w.fissionThreshold == v.fissionThreshold && w.leapDistance == v.leapDistance
    && w.permanence == v.permanence && w.tolerance == v.tolerance
  }

  /** Only the owner field of cells may differ. */
  predicate OnlyOwnersChange(g: Grid, h: Grid)
  {
    h.Keys == g.Keys
    && forall p :: p in g ==>
         h[p].env == g[p].env && h[p].arrivalTime == g[p].arrivalTime && h[p].agent == g[p].agent
  }

  /** Grid evolution every operation respects: same cells, fixed suitability,
      and a dated cell keeps its date (arrival times are write-once). */
  predicate Evolves(g: Grid, h: Grid)
  {
    h.Keys == g.Keys
    && forall p :: p in g ==>
         h[p].env == g[p].env && (g[p].arrivalTime != 0 ==> h[p].arrivalTime == g[p].arrivalTime)
  }

  lemma OnlyOwnersTrans(g: Grid, h: Grid, i: Grid)
    requires OnlyOwnersChange(g, h) && OnlyOwnersChange(h, i)
    ensures OnlyOwnersChange(g, i)
  {
  }

  lemma EvolvesTrans(g: Grid, h: Grid, i: Grid)
    requires Evolves(g, h) && Evolves(h, i)
    ensures Evolves(g, i)
  {
  }

  /** The village's land and location lie on the grid. */
  predicate OnGrid(v: Village, g: Grid)
  {
    v.coords in g && forall p :: p in v.land ==> p in g
  }

  // ---------------------------------------------------------------------
  // Land.

  /** Unowned cells within the catchment meeting the tolerance (the free_land
      of update_land, village.py:146-149). */
  function FreeLand(v: Village, g: Grid): set<Coord>
  {
    Available(g, Neighborhood(g, v.coords, v.catchment), v.tolerance, false)
  }

  /** claim_land (village.py:160-166). */
  function ClaimLand(v: Village, g: Grid, p: Coord): (r: Placed)
    requires p in g
    ensures r.g.Keys == g.Keys && r.g[p] == g[p].(owner := v.id)
    ensures forall q :: q in g && q != p ==> r.g[q] == g[q]
    ensures r.v == v.(land := v.land + [p], totalK := v.k * (|v.land| + 1))
    ensures r.v.totalK == r.v.k * |r.v.land|
  {
    Placed(v.(land := v.land + [p], totalK := v.k * (|v.land| + 1)),
           g[p := g[p].(owner := v.id)])
  }

  lemma ClaimOwnersOnly(v: Village, g: Grid, p: Coord)
    requires p in g
    ensures OnlyOwnersChange(g, ClaimLand(v, g, p).g)
  {
  }

  /** Claiming a free cell removes exactly that cell from the free land. */
  lemma ClaimShrinksFree(v: Village, g: Grid, p: Coord)
    requires v.id != 0 && p in FreeLand(v, g)
    ensures FreeLand(ClaimLand(v, g, p).v, ClaimLand(v, g, p).g) == FreeLand(v, g) - {p}
  {
    var c := ClaimLand(v, g, p);
    assert Neighborhood(c.g, c.v.coords, c.v.catchment) == Neighborhood(g, v.coords, v.catchment);
  }

  /** One iteration of update_land: claim the most suitable free cell. */
  function ClaimBest(v: Village, g: Grid): (c: Placed)
    requires v.id != 0 && FreeLand(v, g) != {}
    ensures c == ClaimLand(v, g, Best(g, FreeLand(v, g)))
    ensures |FreeLand(c.v, c.g)| < |FreeLand(v, g)|
  {
    var p := Best(g, FreeLand(v, g));
    ClaimShrinksFree(v, g, p);
    ClaimLand(v, g, p)
  }

  /** update_land (village.py:137-158): while the population exceeds K*, claim
      the most suitable free cell of the catchment; if there is none, clamp the
      population to K* and deactivate. On exit the population fits in K*. */
  function UpdateLand(v: Village, g: Grid): (r: Placed)
    requires v.id != 0
    ensures r.v.population <= r.v.totalK
    ensures r.g.Keys == g.Keys
    decreases |FreeLand(v, g)|
  {
    if v.population <= v.totalK then
      Placed(v, g)
    else if FreeLand(v, g) == {} then
      Placed(v.(population := v.totalK, active := false), g)
    else
      UpdateLand(ClaimBest(v, g).v, ClaimBest(v, g).g)
  }

  /** update_land changes only the owner field of cells. */
  lemma {:induction false} UpdateLandOwnersOnly(v: Village, g: Grid)
    requires v.id != 0
    ensures OnlyOwnersChange(g, UpdateLand(v, g).g)
    decreases |FreeLand(v, g)|
  {
    if v.population > v.totalK && FreeLand(v, g) != {} {
      var c := ClaimBest(v, g);
      ClaimOwnersOnly(v, g, Best(g, FreeLand(v, g)));
      UpdateLandOwnersOnly(c.v, c.g);
      OnlyOwnersTrans(g, c.g, UpdateLand(c.v, c.g).g);
    }
  }

  /** update_land changes only the village's land, K*, population and active
      flag; the land list only grows, and K* stays k times its length. */
  lemma {:induction false} UpdateLandFrame(v: Village, g: Grid)
    requires v.id != 0
    ensures var r := UpdateLand(v, g);
      && SameTraits(v, r.v) && r.v.coords == v.coords && r.v.timeHere == v.timeHere
      && |v.land| <= |r.v.land| && (forall i :: 0 <= i < |v.land| ==> r.v.land[i] == v.land[i])
      && (v.totalK == v.k * |v.land| ==> r.v.totalK == r.v.k * |r.v.land|)
      && (v.population <= v.totalK ==> r == Placed(v, g))
    decreases |FreeLand(v, g)|
  {
    if v.population > v.totalK && FreeLand(v, g) != {} {
      var c := ClaimBest(v, g);
      UpdateLandFrame(c.v, c.g);
    }
  }

  /** update_land keeps a village's land on the grid: every cell it adds is
      free land, and free land lies on the grid. */
  lemma UpdateLandOnGrid(v: Village, g: Grid)
    requires v.id != 0 && OnGrid(v, g)
    ensures OnGrid(UpdateLand(v, g).v, UpdateLand(v, g).g)
  {
    var r := UpdateLand(v, g);
    UpdateLandOwnersOnly(v, g);
    UpdateLandFrame(v, g);
    UpdateLandClaims(v, g);
    forall q | q in r.v.land ensures q in r.g {
      var i :| 0 <= i < |r.v.land| && r.v.land[i] == q;
      if i >= |v.land| {
        assert q in FreeLand(v, g);
      } else {
        assert q in v.land;
      }
    }
  }

  /** update_land takes only unowned cells: a cell held by a village, or
      marked -1 for lack of data, keeps its owner. */
  lemma {:induction false} UpdateLandTakesOnlyFree(v: Village, g: Grid)
    requires v.id != 0
    ensures forall q :: q in g && g[q].owner != 0 ==> UpdateLand(v, g).g[q].owner == g[q].owner
    decreases |FreeLand(v, g)|
  {
    if v.population > v.totalK && FreeLand(v, g) != {} {
      var c := ClaimBest(v, g);
      UpdateLandTakesOnlyFree(c.v, c.g);
    }
  }

  /** The population changes only by the clamp to K*, which deactivates the
      village and happens only when no free land is left. */
  lemma {:induction false} UpdateLandClamp(v: Village, g: Grid)
    requires v.id != 0
    ensures var r := UpdateLand(v, g);
      && (r.v.population == v.population || (r.v.population == r.v.totalK && !r.v.active))
      && (r.v.active ==> v.active)
      && (v.active && !r.v.active ==> FreeLand(r.v, r.g) == {})
    decreases |FreeLand(v, g)|
  {
    if v.population > v.totalK && FreeLand(v, g) != {} {
      var c := ClaimBest(v, g);
      UpdateLandClamp(c.v, c.g);
    }
  }

  /** Every cell update_land claims was free when it started; a cell whose
      owner changed is in the land list and owned by the village; free land
      only shrinks. */
  lemma {:induction false} UpdateLandClaims(v: Village, g: Grid)
    requires v.id != 0
    ensures var r := UpdateLand(v, g);
      && |v.land| <= |r.v.land|
      && (forall i :: |v.land| <= i < |r.v.land| ==> r.v.land[i] in FreeLand(v, g))
      && (forall q :: q in g && r.g[q].owner != g[q].owner ==> q in r.v.land && r.g[q].owner == v.id)
      && FreeLand(r.v, r.g) <= FreeLand(v, g)
    decreases |FreeLand(v, g)|
  {
    UpdateLandFrame(v, g);
    if v.population > v.totalK && FreeLand(v, g) != {} {
      var p := Best(g, FreeLand(v, g));
      var c := ClaimBest(v, g);
      var r := UpdateLand(c.v, c.g);
      ClaimShrinksFree(v, g, p);
      UpdateLandClaims(c.v, c.g);
      UpdateLandFrame(c.v, c.g);
      assert r.v.land[|v.land|] == p;
      forall q | q in g && r.g[q].owner != g[q].owner
        ensures q in r.v.land && r.g[q].owner == v.id
      {
        if q == p {
          assert p !in FreeLand(r.v, r.g);
          assert r.g[q].owner == c.g[q].owner;
        }
      }
    }
  }

  /** While the population exceeds K* and free land is left, the first cell
      update_land claims is the most suitable free cell. */
  lemma UpdateLandFirst(v: Village, g: Grid)
    requires v.id != 0
    requires v.population > v.totalK && FreeLand(v, g) != {}
    ensures var r := UpdateLand(v, g);
      |r.v.land| > |v.land| && r.v.land[|v.land|] == Best(g, FreeLand(v, g))
  {
    var c := ClaimBest(v, g);
    UpdateLandFrame(c.v, c.g);
    assert c.v.land[|v.land|] == Best(g, FreeLand(v, g));
  }

  /** Greedy choice: every cell update_land claims is at least as suitable as
      every cell still free when it stops. */
  lemma {:induction false} UpdateLandGreedy(v: Village, g: Grid)
    requires v.id != 0
    ensures var r := UpdateLand(v, g);
      forall i, q :: |v.land| <= i < |r.v.land| && q in FreeLand(r.v, r.g) ==>
        r.v.land[i] in g && g[q].env <= g[r.v.land[i]].env
    decreases |FreeLand(v, g)|
  {
    var r := UpdateLand(v, g);
    if v.population > v.totalK && FreeLand(v, g) != {} {
      var p := Best(g, FreeLand(v, g));
      var c := ClaimBest(v, g);
      UpdateLandClaims(v, g);
      UpdateLandFirst(v, g);
      UpdateLandGreedy(c.v, c.g);
      UpdateLandClaims(c.v, c.g);
      ClaimShrinksFree(v, g, p);
      forall i, q | |v.land| <= i < |r.v.land| && q in FreeLand(r.v, r.g)
        ensures g[q].env <= g[r.v.land[i]].env
      {
        if i > |v.land| {
          assert c.g[q].env == g[q].env && c.g[r.v.land[i]].env == g[r.v.land[i]].env;
        }
      }
    }
  }

  /** abandon_land (village.py:232-238): release every cell of the land list
      and empty the list (K* is left as it was). */
  function AbandonLand(v: Village, g: Grid): (r: Placed)
    ensures OnlyOwnersChange(g, r.g)
    ensures forall q :: q in g ==> r.g[q].owner == if q in v.land then 0 else g[q].owner
    ensures r.v == v.(land := [])
  {
    Placed(v.(land := []), map q | q in g :: if q in v.land then g[q].(owner := 0) else g[q])
  }

  /** Claiming a cell and then abandoning the land frees that cell and leaves
      every cell outside the land list as it was. */
  lemma ClaimThenAbandon(v: Village, g: Grid, p: Coord)
    requires p in g
    ensures var c := ClaimLand(v, g, p);
      var a := AbandonLand(c.v, c.g);
      a.g[p].owner == 0 && a.v.land == []
      && forall q :: q in g && q !in v.land && q != p ==> a.g[q] == g[q]
  {
  }

  // ---------------------------------------------------------------------
  // Dating.

  /** record_date (village.py:168-175): every undated cell of the catchment
      around c gets the current clock value. */
  function RecordDate(g: Grid, c: Coord, r: nat, bp: int): (h: Grid)
    ensures h.Keys == g.Keys
    ensures forall p :: p in g ==>
      h[p] == g[p].(arrivalTime := if g[p].arrivalTime == 0 && InDisk(c, p, r)
                                   then bp else g[p].arrivalTime)
  {
    var nb := Neighborhood(g, c, r);
    map p | p in g :: if p in nb && g[p].arrivalTime == 0 then g[p].(arrivalTime := bp) else g[p]
  }

  /** Dating twice at the same clock is dating once, and dates are never
      overwritten. */
  lemma RecordDateIdempotent(g: Grid, c: Coord, r: nat, bp: int)
    ensures RecordDate(RecordDate(g, c, r, bp), c, r, bp) == RecordDate(g, c, r, bp)
    ensures Evolves(g, RecordDate(g, c, r, bp))
  {
    var h := RecordDate(g, c, r, bp);
    var h2 := RecordDate(h, c, r, bp);
    assert forall p :: p in h2 ==> h2[p] == h[p];
  }

  // ---------------------------------------------------------------------
  // Fission and movement.

  /** fission (village.py:204-215): the parent keeps `population // 2` and a
      child with a fresh id, the parent's location and parameters, and the
      same halved population is created. */
  function Fission(v: Village, newId: nat): (r: (Village, Village))
    ensures r.0 == v.(population := r.0.population)
    ensures r.0.population + r.1.population == v.population
         || r.0.population + r.1.population == v.population - 1
    ensures r.1.population == r.0.population
    ensures r.1.id == newId && r.1.coords == v.coords && r.1.active
    ensures r.1.k == v.k && r.1.fissionThreshold == v.fissionThreshold
      && r.1.catchment == v.catchment && r.1.leapDistance == v.leapDistance
      && r.1.permanence == v.permanence && r.1.tolerance == v.tolerance
    ensures r.1.land == [] && r.1.totalK == 0 && r.1.timeHere == 0
  {
    var half := v.population / 2;
    var child := NewVillage(newId, v.coords, v.k, v.fissionThreshold, v.catchment,
                            v.leapDistance, v.permanence, v.tolerance);
    (v.(population := half), child.(population := half))
  }

  /** The marker update of move: clear the old marker if it is ours, then mark
      the new location. */
  function Remark(g: Grid, from: Coord, home: Coord, id: int): (h: Grid)
    requires from in g && home in g
    ensures h.Keys == g.Keys
    ensures forall p :: p in g ==> h[p] == g[p].(agent := h[p].agent)
    ensures forall p :: p in g ==>
      h[p].agent == (if p == home then id else if p == from && g[p].agent == id then 0 else g[p].agent)
  {
    var g1 := if g[from].agent == id then g[from := g[from].(agent := 0)] else g;
    g1[home := g1[home].(agent := id)]
  }

  // ---------------------------------------------------------------------
  // The step as functions. Each function below composes the source's steps
  // in the source's order; the method of the same section proves its
  // properties and that it computes exactly this function.

  /** The first half of move (village.py:223-229) as a function. */
  function Settled(v: Village, g: Grid, bp: int, home: Coord): (r: Placed)
    requires v.coords in g && home in g
    ensures r.g.Keys == g.Keys && r.v.id == v.id && r.v.coords == home
  {
    var dated := RecordDate(Remark(g, v.coords, home, v.id), home, v.catchment, bp);
    ClaimLand(v.(coords := home), dated, home)
  }

  /** move (village.py:217-230) as a function: settle on the best candidate,
      then update the land there. */
  function Moved(v: Village, g: Grid, bp: int, cands: set<Coord>): (r: Placed)
    requires v.id != 0 && v.coords in g && cands != {} && cands <= g.Keys
    ensures r.g.Keys == g.Keys && r.v.id == v.id && r.v.coords == Best(g, cands)
  {
    var c := Settled(v, g, bp, Best(g, cands));
    UpdateLandFrame(c.v, c.g);
    UpdateLand(c.v, c.g)
  }

  /** The split of check_fission (village.py:188-190 and 200-202) as a
      function: fission with the next id, then the child moves. */
  function SplitOff(v: Village, g: Grid, bp: int, lastId: nat, cands: set<Coord>): (r: Stepped)
    requires v.coords in g && cands != {} && cands <= g.Keys
    ensures r.g.Keys == g.Keys && r.parent == v.(population := v.population / 2)
  {
    var (parent, child) := Fission(v, lastId + 1);
    var m := Moved(child, g, bp, cands);
    Stepped(parent, m.g, Some(m.v), lastId + 1)
  }

  /** check_fission (village.py:177-202) as a function. */
  function FissionChecked(v: Village, g: Grid, bp: int, lastId: nat): (r: Stepped)
    requires v.coords in g
    ensures r.g.Keys == g.Keys && r.parent.id == v.id && r.parent.coords == v.coords
  {
    var empty := EmptyDestinations(g, v.coords, 2 * v.catchment, v.tolerance, false);
    var distant := EmptyDestinations(g, v.coords, v.leapDistance, v.tolerance, true);
    EmptyDestinationsSpec(g, v.coords, 2 * v.catchment, v.tolerance);
    EmptyDestinationsSpec(g, v.coords, v.leapDistance, v.tolerance);
    if v.population < v.fissionThreshold then Stepped(v, g, None, lastId)
    else if empty != {} && |NeighborCells(g, v.coords, 2 * v.catchment, v.id)| < 6 then
      SplitOff(v, g, bp, lastId, empty)
    else if v.leapDistance != 0 && distant != {} && MaxEnv(g, distant) > g[v.coords].env then
      SplitOff(v, g, bp, lastId, distant)
    else Stepped(v, g, None, lastId)
  }

  /** check_move (village.py:240-260) as a function. */
  function MoveChecked(v: Village, g: Grid, bp: int): (r: Placed)
    requires v.id != 0 && v.coords in g
    ensures r.g.Keys == g.Keys && r.v.id == v.id
  {
    var empty := EmptyDestinations(g, v.coords, 2 * v.catchment, v.tolerance, false);
    EmptyDestinationsSpec(g, v.coords, 2 * v.catchment, v.tolerance);
    if v.timeHere >= v.permanence && empty != {} then
      var a := AbandonLand(v, g);
      var m := Moved(a.v, a.g, bp, empty);
      Placed(m.v.(timeHere := 0), m.g)
    else
      Placed(v.(timeHere := v.timeHere + 1), g)
  }

  /** The second half of step (village.py:264-266) as a function: check
      fission, then check moving. */
  function Continued(u: Placed, bp: int, lastId: nat): (r: Stepped)
    requires u.v.id != 0 && u.v.coords in u.g
    ensures r.g.Keys == u.g.Keys && r.parent.id == u.v.id
  {
    var f := FissionChecked(u.v, u.g, bp, lastId);
    var m := MoveChecked(f.parent, f.g, bp);
    Stepped(m.v, m.g, f.child, f.lastId)
  }

  /** step (village.py:262-266) as a function: an active village grows by the
      given increment, updates its land, checks fission, then checks moving;
      an inactive one does nothing. */
  function Advance(v: Village, g: Grid, bp: int, growth: int -> nat, lastId: nat): (r: Stepped)
    requires v.id != 0 && v.coords in g
    ensures r.g.Keys == g.Keys && r.parent.id == v.id
  {
    if !v.active then Stepped(v, g, None, lastId)
    else
      var w := v.(population := v.population + growth(v.population));
      UpdateLandFrame(w, g);
      Continued(UpdateLand(w, g), bp, lastId)
  }

  /** Unfolds Advance for an active village, with the grown village named. */
  lemma AdvanceActive(v: Village, g: Grid, bp: int, growth: int -> nat, lastId: nat, w: Village)
    requires v.id != 0 && v.coords in g && v.active
    requires w == v.(population := v.population + growth(v.population))
    ensures w.id != 0 && w.coords in g
    ensures UpdateLand(w, g).v.id != 0 && UpdateLand(w, g).v.coords in UpdateLand(w, g).g
    ensures Advance(v, g, bp, growth, lastId) == Continued(UpdateLand(w, g), bp, lastId)
  {
    UpdateLandFrame(w, g);
  }

  /** The first half of move (village.py:220-227): take the new location,
      move the marker, date the new catchment and claim the new cell. */
  method Settle(v: Village, g: Grid, bp: int, home: Coord) returns (r: Placed)
    requires v.coords in g && home in g
    ensures r == Settled(v, g, bp, home)
    ensures r.v == v.(coords := home, land := v.land + [home], totalK := v.k * (|v.land| + 1))
    ensures r.g.Keys == g.Keys
    ensures forall p :: p in g ==> r.g[p].env == g[p].env
    ensures forall p :: p in g ==> r.g[p].owner == if p == home then v.id else g[p].owner
    ensures forall p :: p in g ==>
      r.g[p].agent == (if p == home then v.id else if p == v.coords && g[p].agent == v.id then 0 else g[p].agent)
    ensures forall p :: p in g ==>
      r.g[p].arrivalTime == (if g[p].arrivalTime == 0 && InDisk(home, p, v.catchment) then bp else g[p].arrivalTime)
  {
    var marked := Remark(g, v.coords, home, v.id);
    var dated := RecordDate(marked, home, v.catchment, bp);
    r := ClaimLand(v.(coords := home), dated, home);
  }

  /** move (village.py:217-230): go to the most suitable candidate, clear the
      old marker if it is ours, mark and date the new location, claim it and
      update the land there. */
  method Move(v: Village, g: Grid, bp: int, cands: set<Coord>) returns (r: Placed)
    requires v.id != 0 && v.coords in g
    requires cands != {} && cands <= g.Keys
    ensures r == Moved(v, g, bp, cands)
    ensures r.v.coords == Best(g, cands) && SameTraits(v, r.v) && r.v.timeHere == v.timeHere
    ensures Evolves(g, r.g)
    ensures |r.v.land| > |v.land| && r.v.land[|v.land|] == Best(g, cands)
    ensures forall i :: 0 <= i < |v.land| ==> r.v.land[i] == v.land[i]
    ensures r.v.population <= r.v.totalK
    ensures OnGrid(v, g) ==> OnGrid(r.v, r.g)
    ensures r.g[Best(g, cands)].owner == v.id
    ensures forall q :: q in g && r.g[q].owner != g[q].owner ==> q in r.v.land && r.g[q].owner == v.id
    ensures forall p :: p in g ==>
      r.g[p].agent == (if p == Best(g, cands) then v.id
                       else if p == v.coords && g[p].agent == v.id then 0
                       else g[p].agent)
    ensures forall p :: p in g ==>
      r.g[p].arrivalTime == (if g[p].arrivalTime == 0 && InDisk(Best(g, cands), p, v.catchment) then bp
                             else g[p].arrivalTime)
  {
    var home := Best(g, cands);
    var c := Settle(v, g, bp, home);
    UpdateLandOwnersOnly(c.v, c.g);
    UpdateLandFrame(c.v, c.g);
    UpdateLandClaims(c.v, c.g);
    assert home !in FreeLand(c.v, c.g);
    r := UpdateLand(c.v, c.g);
    if OnGrid(v, g) {
      assert OnGrid(c.v, c.g);
      UpdateLandOnGrid(c.v, c.g);
    }
  }

  // ---------------------------------------------------------------------
  // Gates.

  /** Near fission is possible: free land on the ring at twice the catchment
      and fewer than six cells around marked by other villages. */
  predicate NearFissionOpen(v: Village, g: Grid)
  {
    EmptyDestinations(g, v.coords, 2 * v.catchment, v.tolerance, false) != {}
    && |NeighborCells(g, v.coords, 2 * v.catchment, v.id)| < 6
  }

  /** A leap is possible: leapfrogging enabled and some never-dated free cell at
      the leap distance strictly more suitable than the current cell. */
  predicate LeapOpen(v: Village, g: Grid)
    requires v.coords in g
  {
    var distant := EmptyDestinations(g, v.coords, v.leapDistance, v.tolerance, true);
    v.leapDistance != 0 && distant != {} && MaxEnv(g, distant) > g[v.coords].env
  }

  /** Split off a child with the next id and move it to the best candidate. */
  method Split(v: Village, g: Grid, bp: int, lastId: nat, cands: set<Coord>) returns (r: Stepped)
    requires v.coords in g && cands != {} && cands <= g.Keys
    ensures r == SplitOff(v, g, bp, lastId, cands)
    ensures r.child.Some? && r.lastId == lastId + 1
    ensures r.parent == v.(population := v.population / 2)
    ensures var c := r.child.value;
      && c.id == lastId + 1 && c.coords == Best(g, cands) && |c.land| > 0 && c.land[0] == Best(g, cands)
      && SameTraits(v.(id := lastId + 1), c) && c.timeHere == 0
      && c.population <= c.totalK && OnGrid(c, r.g)
    ensures Evolves(g, r.g)
  {
    var (parent, child) := Fission(v, lastId + 1);
    var m := Move(child, g, bp, cands);
    r := Stepped(parent, m.g, Some(m.v), lastId + 1);
  }

  /** check_fission (village.py:177-202): at or above the fission threshold,
      split towards free land at twice the catchment if fewer than six other
      villages are marked nearby; otherwise, if leapfrogging is enabled, split
      towards a never-dated cell at the leap distance that beats the current
      cell. At most one child is created. */
  method CheckFission(v: Village, g: Grid, bp: int, lastId: nat) returns (r: Stepped)
    requires v.coords in g
    ensures r == FissionChecked(v, g, bp, lastId)
    ensures r.child.Some? <==>
      v.population >= v.fissionThreshold && (NearFissionOpen(v, g) || LeapOpen(v, g))
    ensures r.child.None? ==> r == Stepped(v, g, None, lastId)
    ensures r.child.Some? ==>
      && r.lastId == lastId + 1 && r.parent == v.(population := v.population / 2)
      && var c := r.child.value;
         && c.id == lastId + 1 && SameTraits(v.(id := lastId + 1), c) && OnGrid(c, r.g)
         && c.coords == Best(g, if NearFissionOpen(v, g)
                                then EmptyDestinations(g, v.coords, 2 * v.catchment, v.tolerance, false)
                                else EmptyDestinations(g, v.coords, v.leapDistance, v.tolerance, true))
    ensures Evolves(g, r.g)
  {
    r := Stepped(v, g, None, lastId);
    if v.population >= v.fissionThreshold {
      var empty := EmptyDestinations(g, v.coords, 2 * v.catchment, v.tolerance, false);
      if empty != {} && |NeighborCells(g, v.coords, 2 * v.catchment, v.id)| < 6 {
        r := Split(v, g, bp, lastId, empty);
      } else if v.leapDistance != 0 {
        var distant := EmptyDestinations(g, v.coords, v.leapDistance, v.tolerance, true);
        if distant != {} && MaxEnv(g, distant) > g[v.coords].env {
          r := Split(v, g, bp, lastId, distant);
        }
      }
    }
  }

  /** check_move (village.py:240-260): after `permanence` steps in one place,
      abandon the land and move to the best free cell at twice the catchment if
      there is one; otherwise just count the step. */
  method CheckMove(v: Village, g: Grid, bp: int) returns (r: Placed)
    requires v.id != 0 && OnGrid(v, g)
    ensures r == MoveChecked(v, g, bp)
    ensures var empty := EmptyDestinations(g, v.coords, 2 * v.catchment, v.tolerance, false);
      if v.timeHere < v.permanence || empty == {} then
        r == Placed(v.(timeHere := v.timeHere + 1), g)
      else
        && r.v.timeHere == 0 && r.v.coords == Best(g, empty)
        && |r.v.land| > 0 && r.v.land[0] == Best(g, empty)
        && forall q :: q in v.land && q !in r.v.land ==> q in r.g && r.g[q].owner == 0
    ensures Evolves(g, r.g) && OnGrid(r.v, r.g) && SameTraits(v, r.v)
  {
    r := Placed(v.(timeHere := v.timeHere + 1), g);
    if v.timeHere >= v.permanence {
      var empty := EmptyDestinations(g, v.coords, 2 * v.catchment, v.tolerance, false);
      if empty != {} {
        var a := AbandonLand(v, g);
        BestSameEnv(g, a.g, empty);
        var m := Move(a.v, a.g, bp, empty);
        r := Placed(m.v.(timeHere := 0), m.g);
      }
    }
  }

  /** step (village.py:262-266): an active village grows by the given increment
      (the source's `round(0.025 * population)`), updates its land, may split
      and may move; an inactive village does nothing. */
  method Step(v: Village, g: Grid, bp: int, growth: int -> nat, lastId: nat) returns (r: Stepped)
    requires v.id != 0 && OnGrid(v, g)
    ensures r == Advance(v, g, bp, growth, lastId)
    ensures !v.active ==> r == Stepped(v, g, None, lastId)
    ensures Evolves(g, r.g) && OnGrid(r.parent, r.g) && SameTraits(v, r.parent)
    ensures r.child.None? ==> r.lastId == lastId
    ensures r.child.Some? ==>
      r.lastId == lastId + 1 && r.child.value.id == lastId + 1 && OnGrid(r.child.value, r.g)
  {
    if !v.active {
      return Stepped(v, g, None, lastId);
    }
    var w := v.(population := v.population + growth(v.population));
    UpdateLandOwnersOnly(w, g);
    UpdateLandFrame(w, g);
    UpdateLandClaims(w, g);
    var grown := UpdateLand(w, g);
    var f := CheckFission(grown.v, grown.g, bp, lastId);
    var m := CheckMove(f.parent, f.g, bp);
    r := Stepped(m.v, m.g, f.child, f.lastId);
    assert r == Continued(grown, bp, lastId);
    AdvanceActive(v, g, bp, growth, lastId, w);
  }
}
