/** The model drivers of model.py and model_un.py: the world state, the id
    allocator, the grid built from raster layers with its no-data rule,
    founding villages when the clock reaches a start date, and the tick that
    steps a snapshot of the villages and winds the clock back one year. */
module Settlement {
  import opened Geometry
  import opened Grids
  import opened Wrappers
  import opened Villages
  import opened Scoring

  /** Raster size of both drivers (model.py:9-10, model_un.py:11-12). */
  const Width: nat := 638
  const Height: nat := 825

  /** The clock value model.py starts at, in years BP (model.py:18). */
  const FirstBp: int := 4600

  /** The raster value of cells without data. */
  const NoData: real := -9999.0

  /** A raster indexed by row y, then column x. */
  type Layer = seq<seq<real>>

  predicate Shaped(l: Layer)
  {
    |l| == Height && forall y :: 0 <= y < Height ==> |l[y]| == Width
  }

  predicate AllShaped(layers: seq<Layer>)
  {
    forall i :: 0 <= i < |layers| ==> Shaped(layers[i])
  }

  /** The cells of the raster window. */
  function Window(): set<Coord>
  {
    set x, y | 0 <= x < Width && 0 <= y < Height :: (x, y)
  }

  // ---------------------------------------------------------------------
  // Grid initialisation.

  /** The owner model.py gives a cell: starting from `owner`, every layer in
      turn forces -1 where it holds the no-data value (model.py:35-43). */
  function MaskOwner(owner: int, layers: seq<Layer>, x: nat, y: nat): (o: int)
    requires AllShaped(layers) && x < Width && y < Height
    ensures o == -1 <==> owner == -1 || exists i :: 0 <= i < |layers| && layers[i][y][x] == NoData
    ensures o == owner || o == -1
    decreases |layers|
  {
    if layers == [] then owner
    else
      assert forall i :: 1 <= i < |layers| ==> layers[1..][i - 1] == layers[i];
      MaskOwner(if layers[0][y][x] == NoData then -1 else owner, layers[1..], x, y)
  }

  /** A cell of model.py's initial grid (model.py:26-43): undated, unmarked,
      owned by nobody unless some culture's layer has no data there; its
      suitability is read from the given layer. */
  function InitCell(layers: seq<Layer>, suit: Layer, x: nat, y: nat): Cell
    requires AllShaped(layers) && Shaped(suit) && x < Width && y < Height
  {
    Cell(MaskOwner(0, layers, x, y), suit[y][x], 0, 0)
  }

  function InitGrid(layers: seq<Layer>, suit: Layer): (g: Grid)
    requires AllShaped(layers) && Shaped(suit)
    ensures g.Keys == Window()
  {
    map x: nat, y: nat | x < Width && y < Height :: (x, y) := InitCell(layers, suit, x, y)
  }

  /** In model.py's grid a cell is owned by -1 exactly when some layer has no
      data there, and by nobody otherwise; nothing is dated or marked. */
  lemma InitGridNoData(layers: seq<Layer>, suit: Layer, x: nat, y: nat)
    requires AllShaped(layers) && Shaped(suit) && x < Width && y < Height
    ensures var c := InitGrid(layers, suit)[(x, y)];
      && (c.owner == -1 <==> exists i :: 0 <= i < |layers| && layers[i][y][x] == NoData)
      && (c.owner == 0 || c.owner == -1)
      && c.arrivalTime == 0 && c.agent == 0 && c.env == suit[y][x]
  {
    assert (x, y) in InitGrid(layers, suit);
  }

  /** A cell of model_un.py's initial grid (model_un.py:50-53, 78-117): usable
      only when all five layers hold a value above the no-data value; then its
      suitability is the given one, otherwise it is owned by -1 with
      suitability 0. */
  function InitCellSingle(layers: seq<Layer>, suit: Layer, x: nat, y: nat): (c: Cell)
    requires |layers| == 5 && AllShaped(layers) && Shaped(suit) && x < Width && y < Height
    ensures c.arrivalTime == 0 && c.agent == 0
    ensures c.owner == -1 <==> exists i :: 0 <= i < 5 && layers[i][y][x] <= NoData
    ensures c.owner == 0 <==> c.owner != -1
    ensures c.owner == 0 ==> c.env == suit[y][x]
    ensures c.owner == -1 ==> c.env == 0.0
  {
    if layers[0][y][x] > NoData && layers[1][y][x] > NoData && layers[2][y][x] > NoData
       && layers[3][y][x] > NoData && layers[4][y][x] > NoData
    then Cell(0, suit[y][x], 0, 0)
    else Cell(-1, 0.0, 0, 0)
  }

  function InitGridSingle(layers: seq<Layer>, suit: Layer): (g: Grid)
    requires |layers| == 5 && AllShaped(layers) && Shaped(suit)
    ensures g.Keys == Window()
  {
    map x: nat, y: nat | x < Width && y < Height :: (x, y) := InitCellSingle(layers, suit, x, y)
  }

  // ---------------------------------------------------------------------
  // World state and the id allocator.

  /** The model: grid, villages by id, clock (years BP) and the last id handed
      out. */
  datatype World = World(grid: Grid, agents: map<nat, Village>, bp: int, lastId: nat)

  /** Every village is filed under its own id, which the allocator has
      already handed out, and lies on the grid. */
  predicate WellFormed(w: World)
  {
    forall id :: id in w.agents ==>
      w.agents[id].id == id && 1 <= id <= w.lastId && OnGrid(w.agents[id], w.grid)
  }

  /** next_id (model.py:47-53, model_un.py:121-127): ids 1, 2, 3, ... */
  function NextId(w: World): (r: (World, nat))
    ensures r.1 > w.lastId && r.1 >= 1 && r.0 == w.(lastId := r.1)
    ensures w.lastId == 0 ==> r.1 == 1
    ensures WellFormed(w) ==> r.1 !in w.agents && WellFormed(r.0)
  {
    (w.(lastId := w.lastId + 1), w.lastId + 1)
  }

  // ---------------------------------------------------------------------
  // Founding villages.

  /** One row of the parameter file (params.py): location, culture, start
      date and the village parameters. */
  datatype Founder = Founder(
    coords: Coord,
    breed: string,
    start: int,
    k: int,
    fissionThreshold: int,
    catchment: nat,
    leapDistance: nat,
    permanence: int,
    tolerance: real)

  function Settler(f: Founder, id: nat): Village
  {
    NewVillage(id, f.coords, f.k, f.fissionThreshold, f.catchment, f.leapDistance, f.permanence, f.tolerance)
  }

  /** Two cells of the list carry the same marker: the second removal of that
      id fails. */
  predicate MarkedTwice(g: Grid, cells: set<Coord>)
    requires cells <= g.Keys
  {
    exists p, q :: p in cells && q in cells && p != q && g[p].agent == g[q].agent
  }

  /** The land of the given villages. */
  function LandOf(agents: map<nat, Village>, ids: set<int>): set<Coord>
  {
    set n, q | n in ids && n in agents && q in agents[n].land :: q
  }

  /** Release every cell of the given land. */
  function Release(g: Grid, land: set<Coord>): (h: Grid)
    ensures OnlyOwnersChange(g, h)
    ensures forall q :: q in g ==> h[q].owner == if q in land then 0 else g[q].owner
  {
    map q | q in g :: if q in land then g[q].(owner := 0) else g[q]
  }

  /** Why a founding fails (model.py:66-72): an id marked nearby that is not a
      village, a second removal of the same id, or a founder cell off the grid,
      each a missing key. */
  predicate Blocked(w: World, f: Founder)
  {
    var id := w.lastId + 1;
    || (exists n :: n in NeighborIds(w.grid, f.coords, f.catchment, id) && n !in w.agents)
    || MarkedTwice(w.grid, NeighborCells(w.grid, f.coords, f.catchment, id))
    || f.coords !in w.grid
  }

  /** The villages other than those in `gone`, with the land of those in
      `gone` released. */
  function Evict(w: World, gone: set<int>): (r: World)
    ensures r.bp == w.bp && r.lastId == w.lastId
    ensures r.agents.Keys == w.agents.Keys - gone
    ensures forall n :: n in r.agents ==> r.agents[n] == w.agents[n]
    ensures OnlyOwnersChange(w.grid, r.grid)
    ensures forall q :: q in w.grid ==>
      r.grid[q].owner == if q in LandOf(w.agents, gone) then 0 else w.grid[q].owner
  {
    var kept := map n | n in w.agents && n !in gone :: w.agents[n];
    World(Release(w.grid, LandOf(w.agents, gone)), kept, w.bp, w.lastId)
  }

  /** The world after a founding; the other blocking conditions abort the
      founding before it changes anything, so only the founder's cell must
      be on the grid for the result to be defined. */
  function Founded(w: World, f: Founder): (r: World)
    requires f.coords in w.grid
    ensures r.lastId == w.lastId + 1 && r.bp == w.bp
  {
    var (w1, id) := NextId(w);
    var e := Evict(w1, NeighborIds(w.grid, f.coords, f.catchment, id));
    var c := ClaimLand(Settler(f, id), e.grid, f.coords);
    World(c.g, e.agents[id := c.v], w.bp, id)
  }

  /** One founding of setup_agents (model.py:61-72): a village with the next
      id is created at the founder's cell, every other village marked within
      its catchment releases its land and is removed, and the founder claims
      its own cell. */
  function Found(w: World, f: Founder): (r: Result<World>)
    ensures r.Failure? <==> Blocked(w, f)
    ensures r.Success? ==> r.value == Founded(w, f)
  {
    if Blocked(w, f) then Failure("KeyError") else Success(Founded(w, f))
  }

  /** A successful founding files one new village under the next id, owning
      just its own cell, and removes the neighbours. */
  lemma FoundAgents(w: World, f: Founder)
    requires WellFormed(w) && f.coords in w.grid
    ensures var r := Founded(w, f);
      var id := w.lastId + 1;
      && id in r.agents && r.agents[id] == Settler(f, id).(land := [f.coords], totalK := f.k)
      && (forall n :: n in NeighborIds(w.grid, f.coords, f.catchment, id) ==> n !in r.agents)
  {
    var id := w.lastId + 1;
    var gone := NeighborIds(w.grid, f.coords, f.catchment, id);
    var e := Evict(w.(lastId := id), gone);
    var c := ClaimLand(Settler(f, id), e.grid, f.coords);
    assert Founded(w, f) == World(c.g, e.agents[id := c.v], w.bp, id);
  }

  /** A successful founding leaves every village that is not a neighbour
      untouched and adds no village but the founder. */
  lemma FoundKeeps(w: World, f: Founder)
    requires WellFormed(w) && f.coords in w.grid
    ensures var r := Founded(w, f);
      var id := w.lastId + 1;
      var gone := NeighborIds(w.grid, f.coords, f.catchment, id);
      && (forall n :: n in w.agents && n !in gone ==> n in r.agents && r.agents[n] == w.agents[n])
      && (forall n :: n in r.agents ==> n == id || n in w.agents)
  {
    assert w.lastId + 1 !in w.agents;
    FoundKeepsFresh(w, f);
  }

  lemma FoundKeepsFresh(w: World, f: Founder)
    requires f.coords in w.grid && w.lastId + 1 !in w.agents
    ensures var r := Founded(w, f);
      var id := w.lastId + 1;
      var gone := NeighborIds(w.grid, f.coords, f.catchment, id);
      && (forall n :: n in w.agents && n !in gone ==> n in r.agents && r.agents[n] == w.agents[n])
      && (forall n :: n in r.agents ==> n == id || n in w.agents)
  {
    var id := w.lastId + 1;
    var gone := NeighborIds(w.grid, f.coords, f.catchment, id);
    var e := Evict(w.(lastId := id), gone);
    var c := ClaimLand(Settler(f, id), e.grid, f.coords);
    var agents := e.agents[id := c.v];
    assert Founded(w, f).agents == agents;
    forall n | n in w.agents && n !in gone ensures n in agents && agents[n] == w.agents[n] {
      assert n in e.agents && n != id;
    }
    forall n | n in agents ensures n == id || n in w.agents {
      if n != id {
        assert n in e.agents;
      }
    }
  }

  /** What a successful founding does to the grid: only owners change, the
      founder's cell is the founder's, the neighbours' land is released and
      every other owner is kept. */
  lemma FoundGrid(w: World, f: Founder)
    requires f.coords in w.grid
    ensures var r := Founded(w, f);
      var id := w.lastId + 1;
      var gone := NeighborIds(w.grid, f.coords, f.catchment, id);
      && OnlyOwnersChange(w.grid, r.grid)
      && r.grid[f.coords].owner == id
      && (forall q :: q in w.grid && q != f.coords ==>
            r.grid[q].owner == if q in LandOf(w.agents, gone) then 0 else w.grid[q].owner)
  {
    var id := w.lastId + 1;
    var e := Evict(w.(lastId := id), NeighborIds(w.grid, f.coords, f.catchment, id));
    ClaimOwnersOnly(Settler(f, id), e.grid, f.coords);
    OnlyOwnersTrans(w.grid, e.grid, ClaimLand(Settler(f, id), e.grid, f.coords).g);
  }

  /** A founding keeps the world well formed. */
  lemma FoundWellFormed(w: World, f: Founder)
    requires WellFormed(w) && f.coords in w.grid
    ensures WellFormed(Founded(w, f))
  {
    FoundAgents(w, f);
    FoundKeeps(w, f);
    FoundGrid(w, f);
    var r := Founded(w, f);
    forall n | n in r.agents
      ensures r.agents[n].id == n && 1 <= n <= r.lastId && OnGrid(r.agents[n], r.grid)
    {
      if n != w.lastId + 1 {
        OnGridKeys(w.agents[n], w.grid, r.grid);
      }
    }
  }

  /** setup_agents of model.py (model.py:55-72): found, in parameter order,
      every culture whose start date is the current clock. */
  function Setup(w: World, founders: seq<Founder>): (r: Result<World>)
    decreases |founders|
  {
    if founders == [] then Success(w)
    else if founders[0].start == w.bp then
      match Found(w, founders[0])
      case Failure(e) => Failure(e)
      case Success(w1) => Setup(w1, founders[1..])
    else Setup(w, founders[1..])
  }

  /** The number of founders due at clock value bp. */
  function Due(founders: seq<Founder>, bp: int): nat
  {
    if founders == [] then 0
    else (if founders[0].start == bp then 1 else 0) + Due(founders[1..], bp)
  }

  /** A successful setup allocates one id per due founder, keeps the clock,
      the well-formedness and every cell's fields but the owner. */
  lemma {:induction false} SetupSpec(w: World, founders: seq<Founder>)
    requires WellFormed(w) && Setup(w, founders).Success?
    ensures var r := Setup(w, founders).value;
      && WellFormed(r) && r.bp == w.bp
      && r.lastId == w.lastId + Due(founders, w.bp)
      && OnlyOwnersChange(w.grid, r.grid)
    decreases |founders|
  {
    if founders != [] {
      if founders[0].start == w.bp {
        var w1 := Found(w, founders[0]).value;
        FoundGrid(w, founders[0]);
        FoundWellFormed(w, founders[0]);
        SetupSpec(w1, founders[1..]);
        OnlyOwnersTrans(w.grid, w1.grid, Setup(w1, founders[1..]).value.grid);
      } else {
        SetupSpec(w, founders[1..]);
      }
    }
  }

  /** With no founder due, setup changes nothing. */
  lemma {:induction false} SetupIdle(w: World, founders: seq<Founder>)
    requires forall i :: 0 <= i < |founders| ==> founders[i].start != w.bp
    ensures Setup(w, founders) == Success(w)
    ensures Due(founders, w.bp) == 0
    decreases |founders|
  {
    if founders != [] {
      assert forall i :: 0 <= i < |founders[1..]| ==> founders[1..][i] == founders[i + 1];
      SetupIdle(w, founders[1..]);
    }
  }

  /** model.py's initial state: the masked grid, no villages, the clock at
      4600 BP, then setup (model.py:7-45). */
  function Init(layers: seq<Layer>, suit: Layer, founders: seq<Founder>): (r: Result<World>)
    requires AllShaped(layers) && Shaped(suit)
    ensures r.Success? ==> r.value.bp == FirstBp && r.value.grid.Keys == Window()
    ensures r.Success? ==> WellFormed(r.value) && r.value.lastId == Due(founders, FirstBp)
  {
    var w := World(InitGrid(layers, suit), map[], FirstBp, 0);
    var r := Setup(w, founders);
    if r.Success? then SetupSpec(w, founders); r else r
  }

  /** model_un.py's setup (model_un.py:129-136): one village with the next id
      at the founder's cell, claiming it; a cell off the grid is a missing
      key. */
  function FoundSingle(w: World, f: Founder): (r: Result<World>)
    ensures r.Failure? <==> f.coords !in w.grid
    ensures r.Success? ==>
      && r.value.lastId == w.lastId + 1 && r.value.bp == w.bp
      && w.lastId + 1 in r.value.agents
      && r.value.agents == w.agents[w.lastId + 1 := r.value.agents[w.lastId + 1]]
      && r.value.agents[w.lastId + 1] == Settler(f, w.lastId + 1).(land := [f.coords], totalK := f.k)
      && f.coords in r.value.grid && r.value.grid[f.coords].owner == w.lastId + 1
      && OnlyOwnersChange(w.grid, r.value.grid)
  {
    var (w1, id) := NextId(w);
    if f.coords !in w.grid then Failure("KeyError: founder off the grid")
    else
      var c := ClaimLand(Settler(f, id), w.grid, f.coords);
      ClaimOwnersOnly(Settler(f, id), w.grid, f.coords);
      Success(World(c.g, w.agents[id := c.v], w.bp, id))
  }

  /** model_un.py's initial state (model_un.py:9-53, 119): the clock at the
      founder's start date and one village, with id 1. */
  function InitSingle(layers: seq<Layer>, suit: Layer, f: Founder): (r: Result<World>)
    requires |layers| == 5 && AllShaped(layers) && Shaped(suit)
    ensures r.Success? ==>
      && r.value.bp == f.start && r.value.agents.Keys == {1} && r.value.lastId == 1
      && r.value.agents[1].coords == f.coords
      && f.coords in r.value.grid && r.value.grid[f.coords].owner == 1
      && WellFormed(r.value)
    ensures r.Failure? <==> f.coords !in Window()
  {
    FoundSingle(World(InitGridSingle(layers, suit), map[], f.start, 0), f)
  }

  /** The arrival layer model_un.py's eval reads from the grid
      (model_un.py:150): a cell's arrival date, 0 while nobody reached it. */
  function ArrivalsOf(g: Grid): (a: Arrivals)
    ensures a.Keys == g.Keys
    ensures forall p :: p in g ==> a[p] == g[p].arrivalTime
  {
    map p | p in g :: g[p].arrivalTime
  }

  /** Every cell of model_un.py's fresh grid is undated. */
  lemma InitGridSingleUndated(layers: seq<Layer>, suit: Layer, p: Coord)
    requires |layers| == 5 && AllShaped(layers) && Shaped(suit) && p in Window()
    ensures p in InitGridSingle(layers, suit) && InitGridSingle(layers, suit)[p].arrivalTime == 0
  {
    var (x, y) := p;
    assert x < Width && y < Height;
    assert InitGridSingle(layers, suit)[(x, y)] == InitCellSingle(layers, suit, x, y);
  }

  /** Scored before any village moved, model_un.py's fresh grid scores 0 for
      any table of sites on the raster. */
  lemma FreshGridScoresZero(layers: seq<Layer>, suit: Layer, sites: seq<Site>)
    requires |layers| == 5 && AllShaped(layers) && Shaped(suit)
    requires Distinct(sites) && sites != []
    requires forall i :: 0 <= i < |sites| ==> sites[i].coords in Window()
    ensures EvalSingle(ArrivalsOf(InitGridSingle(layers, suit)), sites) == Success(0.0)
  {
    var g := InitGridSingle(layers, suit);
    var a := ArrivalsOf(g);
    forall i | 0 <= i < |sites|
      ensures sites[i].coords in a && a[sites[i].coords] == 0
    {
      InitGridSingleUndated(layers, suit, sites[i].coords);
    }
    UnreachedEvalZero(a, sites);
  }

  // ---------------------------------------------------------------------
  // The tick.

  /** The ids of `s` below `n` in ascending order. Ids are allocated
      increasingly, so this is also the order the villages were inserted in,
      which is the order a snapshot of the village table lists them. */
  function IdsBelow(s: set<nat>, n: nat): (r: seq<nat>)
    ensures forall i :: 0 <= i < |r| ==> r[i] in s && r[i] < n
    ensures forall k :: k in s && k < n ==> k in r
    ensures forall i, j :: 0 <= i < j < |r| ==> r[i] < r[j]
  {
    if n == 0 then [] else IdsBelow(s, n - 1) + (if n - 1 in s then [n - 1] else [])
  }

  lemma OnGridKeys(v: Village, g: Grid, h: Grid)
    requires OnGrid(v, g) && h.Keys == g.Keys
    ensures OnGrid(v, h)
  {
  }

  /** What stepping villages keeps between a world and a later one: well
      formed, same clock, the allocator only advances, suitability fixed and
      dates write-once, no village lost, new villages with fresh ids, every
      village's parameters kept, and inactive villages untouched. */
  predicate Follows(w: World, r: World)
  {
    && WellFormed(r) && r.bp == w.bp && r.lastId >= w.lastId
    && Evolves(w.grid, r.grid)
    && w.agents.Keys <= r.agents.Keys
    && (forall id :: id in r.agents && id !in w.agents ==> w.lastId < id <= r.lastId)
    && (forall id :: id in w.agents ==> SameTraits(w.agents[id], r.agents[id]))
    && (forall id :: id in w.agents && !w.agents[id].active ==> r.agents[id] == w.agents[id])
  }

  lemma FollowsRefl(w: World)
    requires WellFormed(w)
    ensures Follows(w, w)
  {
  }

  lemma FollowsTrans(a: World, b: World, c: World)
    requires Follows(a, b) && Follows(b, c)
    ensures Follows(a, c)
  {
    EvolvesTrans(a.grid, b.grid, c.grid);
  }

  /** The world after village `id` took its turn with outcome `s`: the
      village replaced by its successor, a child filed under its own id. */
  function Install(w: World, id: nat, s: Stepped): World
  {
    var agents := w.agents[id := s.parent];
    World(s.g, if s.child.Some? then agents[s.child.value.id := s.child.value] else agents, w.bp, s.lastId)
  }

  /** What Step promises about its outcome for village `id` of `w`. */
  predicate StepOutcome(w: World, id: nat, s: Stepped)
    requires id in w.agents
  {
    && Evolves(w.grid, s.g) && OnGrid(s.parent, s.g) && SameTraits(w.agents[id], s.parent)
    && (s.child.None? ==> s.lastId == w.lastId)
    && (s.child.Some? ==>
          s.lastId == w.lastId + 1 && s.child.value.id == w.lastId + 1 && OnGrid(s.child.value, s.g))
  }

  lemma InstallWellFormed(w: World, id: nat, s: Stepped)
    requires WellFormed(w) && id in w.agents && StepOutcome(w, id, s)
    ensures WellFormed(Install(w, id, s))
  {
    forall n | n in w.agents ensures OnGrid(w.agents[n], s.g) {
      OnGridKeys(w.agents[n], w.grid, s.g);
    }
  }

  lemma InstallFollows(w: World, id: nat, s: Stepped)
    requires WellFormed(w) && id in w.agents && StepOutcome(w, id, s)
    requires !w.agents[id].active ==> s == Stepped(w.agents[id], w.grid, None, w.lastId)
    ensures Follows(w, Install(w, id, s))
    ensures forall n :: n in w.agents && n != id ==> Install(w, id, s).agents[n] == w.agents[n]
  {
    InstallWellFormed(w, id, s);
  }

  /** One village's turn in the loop of step: the village is replaced by its
      successor, a child it splits off is filed under its fresh id, and no
      other village changes. */
  method StepOne(w: World, id: nat, growth: int -> nat) returns (r: World)
    requires WellFormed(w) && id in w.agents
    ensures r == Install(w, id, Advance(w.agents[id], w.grid, w.bp, growth, w.lastId))
    ensures Follows(w, r)
    ensures forall n :: n in w.agents && n != id ==> r.agents[n] == w.agents[n]
    ensures !w.agents[id].active ==> r == w
  {
    var s := Villages.Step(w.agents[id], w.grid, w.bp, growth, w.lastId);
    InstallFollows(w, id, s);
    r := Install(w, id, s);
    if !w.agents[id].active {
      assert w.agents[id := w.agents[id]] == w.agents;
    }
  }

  /** The snapshot the loop of step iterates over (model.py:100,
      model_un.py:175): the ids present, in insertion order. */
  function Snapshot(w: World): seq<nat>
  {
    IdsBelow(w.agents.Keys, w.lastId + 1)
  }

  /** In a well-formed world the snapshot lists exactly the villages present,
      each once, and none of the ids the loop will hand out. */
  lemma SnapshotIsAgents(w: World)
    requires WellFormed(w)
    ensures forall n :: n in w.agents <==> n in Snapshot(w)
    ensures forall i :: 0 <= i < |Snapshot(w)| ==> Snapshot(w)[i] <= w.lastId
    ensures forall i, j :: 0 <= i < j < |Snapshot(w)| ==> Snapshot(w)[i] != Snapshot(w)[j]
  {
  }

  /** The loop of step as a left fold: the first `n` ids of `ids` take their
      turn, each on the world its predecessors left. An id whose village is
      gone or malformed is skipped; in a well-formed world that never
      happens (see StepAll). */
  function Turns(w: World, ids: seq<nat>, growth: int -> nat, n: nat): World
    requires n <= |ids|
  {
    if n == 0 then w
    else
      var prev := Turns(w, ids, growth, n - 1);
      var id := ids[n - 1];
      if id in prev.agents && prev.agents[id].id != 0 && prev.agents[id].coords in prev.grid then
        Install(prev, id, Advance(prev.agents[id], prev.grid, prev.bp, growth, prev.lastId))
      else prev
  }

  /** One more turn of the fold, when the next village is present. */
  lemma TurnsNext(w: World, ids: seq<nat>, growth: int -> nat, n: nat, prev: World)
    requires n < |ids| && prev == Turns(w, ids, growth, n)
    requires ids[n] in prev.agents && prev.agents[ids[n]].id != 0
    requires prev.agents[ids[n]].coords in prev.grid
    ensures Turns(w, ids, growth, n + 1)
      == Install(prev, ids[n], Advance(prev.agents[ids[n]], prev.grid, prev.bp, growth, prev.lastId))
  {
  }

  /** One iteration of the loop of StepAll keeps its invariant. */
  lemma TurnsKeep(w: World, ids: seq<nat>, growth: int -> nat, n: nat, prev: World, r: World)
    requires n < |ids| && prev == Turns(w, ids, growth, n) && Follows(w, prev)
    requires ids[n] in prev.agents
    requires r == Install(prev, ids[n], Advance(prev.agents[ids[n]], prev.grid, prev.bp, growth, prev.lastId))
    requires Follows(prev, r)
    ensures r == Turns(w, ids, growth, n + 1) && Follows(w, r)
  {
    TurnsNext(w, ids, growth, n, prev);
    FollowsTrans(w, prev, r);
  }

  /** One full pass of the loop of step over the snapshot. */
  function Round(w: World, growth: int -> nat): World
  {
    Turns(w, Snapshot(w), growth, |Snapshot(w)|)
  }

  /** A pass over villages that are all inactive changes nothing. */
  lemma {:induction false} TurnsIdle(w: World, ids: seq<nat>, growth: int -> nat, n: nat)
    requires n <= |ids|
    requires forall id :: id in w.agents ==> !w.agents[id].active
    ensures Turns(w, ids, growth, n) == w
  {
    if n > 0 {
      TurnsIdle(w, ids, growth, n - 1);
      var id := ids[n - 1];
      if id in w.agents && w.agents[id].id != 0 && w.agents[id].coords in w.grid {
        assert w.agents[id := w.agents[id]] == w.agents;
      }
    }
  }

  /** A world in which every village has stopped (no free land was left
      for it) is a fixed point of the loop of step. */
  lemma RoundIdle(w: World, growth: int -> nat)
    requires forall id :: id in w.agents ==> !w.agents[id].active
    ensures Round(w, growth) == w
  {
    TurnsIdle(w, Snapshot(w), growth, |Snapshot(w)|);
  }

  /** The body of the loop of step: the next village of the snapshot takes
      its turn on the world its predecessors left. */
  method TakeTurn(w: World, ids: seq<nat>, growth: int -> nat, n: nat, prev: World) returns (r: World)
    requires n < |ids| && ids[n] in w.agents
    requires prev == Turns(w, ids, growth, n) && Follows(w, prev)
    ensures r == Turns(w, ids, growth, n + 1) && Follows(w, r)
  {
    r := StepOne(prev, ids[n], growth);
    TurnsKeep(w, ids, growth, n, prev, r);
  }

  /** The loop of step (model.py:100-102, model_un.py:175-177): every village
      present at entry steps once, in ascending id order; children created on
      the way are filed under their fresh ids but not stepped. */
  method StepAll(w: World, growth: int -> nat) returns (r: World)
    requires WellFormed(w)
    ensures r == Round(w, growth)
    ensures Follows(w, r)
  {
    var ids := Snapshot(w);
    SnapshotIsAgents(w);
    FollowsRefl(w);
    r := w;
    var i := 0;
    while i < |ids|
      invariant 0 <= i <= |ids|
      invariant r == Turns(w, ids, growth, i)
      invariant Follows(w, r)
    {
      r := TakeTurn(w, ids, growth, i, r);
      i := i + 1;
    }
  }

  /** The start dates of the parameter rows. */
  function Starts(founders: seq<Founder>): set<int>
  {
    set i | 0 <= i < |founders| :: founders[i].start
  }

  /** step of model.py (model.py:97-103): found the cultures due now if the
      clock is a start date, step the villages present, wind the clock back
      one year. */
  method Tick(w: World, founders: seq<Founder>, growth: int -> nat) returns (r: Result<World>)
    requires WellFormed(w)
    ensures r.Failure? <==> w.bp in Starts(founders) && Setup(w, founders).Failure?
    ensures r.Success? ==>
      var cur := if w.bp in Starts(founders) then Setup(w, founders).value else w;
      r.value == Round(cur, growth).(bp := w.bp - 1)
    ensures r.Success? ==> WellFormed(r.value) && r.value.bp == w.bp - 1
    ensures r.Success? ==> r.value.lastId >= w.lastId + Due(founders, w.bp)
    ensures r.Success? ==> Evolves(w.grid, r.value.grid)
    ensures r.Success? && w.bp !in Starts(founders) ==> Follows(w, r.value.(bp := w.bp))
  {
    var cur := w;
    if w.bp in Starts(founders) {
      var s := Setup(w, founders);
      if s.Failure? {
        return Failure(s.error);
      }
      SetupSpec(w, founders);
      cur := s.value;
    } else {
      SetupIdle(w, founders);
    }
    var next := StepAll(cur, growth);
    EvolvesTrans(w.grid, cur.grid, next.grid);
    r := Success(next.(bp := next.bp - 1));
  }

  /** step of model_un.py (model_un.py:174-178): no founding, just the loop
      and the clock. */
  method TickSingle(w: World, growth: int -> nat) returns (r: World)
    requires WellFormed(w)
    ensures r == Round(w, growth).(bp := w.bp - 1)
    ensures r.bp == w.bp - 1 && Follows(w, r.(bp := w.bp))
  {
    var next := StepAll(w, growth);
    r := next.(bp := next.bp - 1);
  }
}
