# Agent-based model of village expansion, with a genetic-algorithm calibrator

The system simulates farming villages spreading over a 638 x 825 raster
grid of cells, one simulated year per tick. Each cell has the following
state:

- an owner (0 = free, -1 = no data, otherwise a village id);
- the id of the village sitting on it;
- a suitability value `env`;
- the year (BP) in which a village first reached it.

Villages do the following:

- grow and claim the best free cells within their catchment;
- split into two once their population reaches a fission threshold,
  either nearby or by a longer leapfrog jump;
- move away after a permanence time.

A fitness score compares the simulated arrival dates with probability
tables of dated archaeological sites. A genetic algorithm searches the
village parameters (and, in its second version, the weights of the
suitability network) using the following steps:

- selection of the best genomes;
- single-point crossover over cyclic parent pairs;
- single-point mutation;
- elitist replacement.

The Dafny modules follow the program's files:

| module | file | models |
|---|---|---|
| `Wrappers` | wrappers.dfy | `Option` and `Result` for the program's exceptions |
| `Geometry` | geometry.dfy | `round(hypot(dx, dy))` in integers, and the offset masks of village.py |
| `Grids` | grid.dfy | the cells, neighbourhood, destination and free-land queries, and the choice of the best cell |
| `Villages` | village.dfy | the `Village` class of village.py |
| `Scoring` | scoring.dfy | `eval` of model.py and model_un.py |
| `Settlement` | settlement.dfy | grid set-up, id allocation, founding and the tick, for model.py and model_un.py |
| `Evolution` | evolution.dfy | the genome operators and one generation, shared by GA.py and GA_v2.py |
| `GenesV1` | ga.dfy | the gene classes of GA.py |
| `GenesV2` | ga_v2.dfy | the gene classes of GA_v2.py |

Modelling choices:

- **Pure functions.** The model uses pure functions and methods over
  immutable values. A village and the grid go in, and their successors come
  out (`Placed`, `Stepped`). The world `World(grid, agents, bp, lastId)`
  replaces the `Model` object.
- **Random draws are parameters.** Every `np.random`/`random` draw is passed
  in as a parameter (`GeneDraw`, `CrossDraw`, `MutationDraw`, `InitDraws`).
  The intervals the source samples from appear as conditions (`SignOk`,
  `InitDrawsOk`, `CutsFit`).
- **Exceptions become values.** Python exceptions that the code can raise
  (`KeyError`, `IndexError`, `ZeroDivisionError`, an unbound local) become
  `Failure`/`None` results instead of preconditions.
- **Ties in `max`.** `max(d, key=d.get)` and `max(d.values())` over the
  query dictionaries return the first maximal key in the order the offset
  masks are scanned (x outer, y inner). `Grids.Best` is therefore the most
  suitable cell, and among equals the lexicographically least one.
- **Integer distance.** A rounded Euclidean distance `round(sqrt n)` is never
  a tie at .5 (an odd square is never divisible by 4). So
  `round(sqrt n) <= r` exactly when `4n < (2r+1)^2`, and the model needs no
  floating point for distances.
- **Truncation.** `int()` of a float truncates toward zero (`Evolution.Trunc`).
  This differs from Dafny's `Floor` for negative values.
- **One id allocator.** The source keeps two counters: `Model.current_id`
  (model.py:47-53, handed out by `next_id` when founding) and the class
  attribute `Village.village_counter` (village.py:10, 20-21, read by every
  `Village` constructor, including the one `fission` calls). The model
  merges them into the single `lastId`. Every new village, whether founded
  or split off, takes `lastId + 1`.
- **Grid record.** The cell record is the one village.py reads and writes:
  `owner`, `agent`, `env`, and a single `arrival_time`.
  - model.py builds a grid without `agent` and `env` and with a per-culture
    `arrival_time` dictionary. Read against village.py, every
    `get_neighbors` call on that grid is a missing key. The model follows
    village.py's record.
  - model.py's no-data rule (any layer `== -9999` makes the owner -1) is
    kept in `Settlement.InitGrid`.
  - model_un.py's rule (owner -1 and suitability 0 unless all five layers
    are `> -9999`) is kept in `Settlement.InitGridSingle`.
- **Where the code was followed.**
  - Founding does not record an arrival date (model.py:55-72 never calls
    `record_date`).
  - model.py's score divides by the fixed constant 4, whatever the number
    of cultures.
  - model_un.py's `step` never founds villages.

## Model

| member | source | states |
|---|---|---|
| Geometry.RoundSqrt | village.py:121-127 | the rounded distance d of a squared length n satisfies (2d-1)^2 < 4n < (2d+1)^2, so it is Python's round(sqrt n) with no .5 ties |
| Geometry.RoundedAtMost | village.py:57-60 | a cell is within rounded distance r exactly when 4n < (2r+1)^2 |
| Geometry.RoundedExactly | village.py:87-90 | a cell is at rounded distance exactly d exactly when its squared length lies strictly between the two odd-square bounds |
| Geometry.WithinSquare | village.py:57-58 | every offset within rounded distance r lies inside the square range(-r, r+1) scanned for the mask, so the scan misses no cell |
| Geometry.NeighborMaskIff | village.py:56-60 | the memoised neighbour mask contains an offset exactly when the integer disk test holds for it |
| Geometry.DistanceMaskIff | village.py:86-90 | the memoised distance mask contains an offset exactly when its rounded distance equals d |
| Grids.NeighborhoodExact | village.py:52-68 | the neighbourhood is exactly the grid cells within rounded distance r of the centre |
| Grids.DestinationsExact | village.py:82-98 | the destinations are exactly the grid cells at rounded distance d |
| Grids.NeighborhoodShift | village.py:56-67 | moving the centre and the grid together moves the neighbourhood with them, so one mask per radius, computed at the first village's position, serves every village |
| Grids.EmptyDestinationsSpec | village.py:100-119 | empty destinations are exactly the cells at distance d that are unowned and at least as suitable as the tolerance; pioneer mode also excludes dated cells, so it only shrinks the set |
| Grids.NeighborIds | village.py:70-80 | the reported ids never include 0 or the asking village; they are exactly the markers of the marked cells of the neighbourhood, in both directions |
| Grids.Best | village.py:153 | the chosen cell is a candidate, at least as suitable as every candidate, and lexicographically first among equally suitable ones |
| Grids.MaxEnv | village.py:198 | the largest suitability is attained by some candidate and bounds all of them |
| Grids.BestSameEnv | village.py:223 | the choice depends only on the candidates' suitabilities, so ownership or date changes do not alter it |
| Villages.ClaimLand | village.py:160-166 | the cell gets the village as owner, nothing else on the grid changes, the cell is appended to the land and K* becomes k times the number of cells |
| Villages.ClaimShrinksFree | village.py:144-154 | claiming a free cell removes exactly that cell from the free land, which bounds the claiming loop |
| Villages.ClaimBest | village.py:151-154 | one iteration claims the most suitable free cell and strictly shrinks the free land |
| Villages.UpdateLand | village.py:137-158 | on exit the population never exceeds K*, and the grid keeps its cells |
| Villages.UpdateLandOwnersOnly | village.py:137-158 | update_land changes only the owner field of cells |
| Villages.UpdateLandFrame | village.py:137-158 | the village keeps its traits and position, its old land stays a prefix, K* stays k times the land, and a village within K* is left untouched |
| Villages.UpdateLandClamp | village.py:155-158 | either the population is unchanged, or it is cut to K* with the village made inactive; a village only becomes inactive when no free land is left |
| Villages.UpdateLandClaims | village.py:144-154 | every new cell was free land, every changed owner is the village on a cell of its land, and the free land only shrinks |
| Villages.UpdateLandFirst | village.py:151-154 | a village over K* with free land first claims the most suitable free cell |
| Villages.UpdateLandOnGrid | village.py:144-154 | update_land keeps the village's land on the grid: a village whose cells are all grid cells still has only grid cells after claiming |
| Villages.UpdateLandTakesOnlyFree | village.py:144-154 | update_land claims only unowned cells: a cell held by a village, or marked -1 for lack of data (model.py:41-43), keeps its owner |
| Villages.UpdateLandGreedy | village.py:151-154 | every claimed cell is at least as suitable as any cell still free at the end |
| Villages.AbandonLand | village.py:232-238 | every cell of the land becomes unowned, all other owners stay, and the land list empties |
| Villages.ClaimThenAbandon | village.py:232-238 | abandoning after a claim frees the claimed cell and leaves every cell outside the old land exactly as before |
| Villages.RecordDate | village.py:168-175 | cells within the catchment that have no date get the current year; dated cells and all other fields stay |
| Villages.RecordDateIdempotent | village.py:168-175 | recording twice in one year equals recording once, and dates are write-once and suitability fixed |
| Villages.Fission | village.py:204-215 | parent and child each get half the population (floor), so together they keep it or lose one; the child has a new id, no land and K* 0, and copies the parent's position and parameters |
| Villages.Remark | village.py:224-227 | the new home carries the village's marker, the old cell is cleared only if it carried that marker, and nothing else changes |
| Villages.Settled | village.py:223-229 | reference form of the first half of move: re-mark, date, claim, in that order; keeps the grid's cells, the id, and puts the village on the new cell |
| Villages.Moved | village.py:217-230 | reference form of move: settle on the best candidate, then update the land; keeps the grid's cells and the id, and the village sits on the best candidate |
| Villages.SplitOff | village.py:188-190 | reference form of a split: fission with the next id, then the child moves; the parent keeps half the population and nothing else changes on it |
| Villages.FissionChecked | village.py:177-202 | reference form of check_fission with the source's three gates in order (threshold, near ring with fewer than six foreign marks, leap); keeps the grid's cells and the parent's id and position |
| Villages.MoveChecked | village.py:240-260 | reference form of check_move: abandon, then move to the best free ring cell and restart the time, or only advance the time; keeps the grid's cells and the id |
| Villages.Continued | village.py:264-266 | reference form of the second half of step: check_fission, then check_move on the parent it leaves |
| Villages.Advance | village.py:262-266 | reference form of step: an inactive village is returned as is; an active one grows by the increment, updates its land, then checks fission and moving |
| Villages.Settle | village.py:223-229 | computes exactly `Settled`; moving onto a cell marks it, dates its catchment, claims it and sets it as the village's position |
| Villages.Move | village.py:217-230 | computes exactly `Moved`; the village settles on the best candidate, which becomes its newest cell and is owned by it; it ends within K*, with dates write-once, only its own claims changing owners, and its land on the grid |
| Villages.Split | village.py:188-190 | computes exactly `SplitOff`; a split halves the parent and places a child with the next id on the best candidate, within K* and on the grid |
| Villages.CheckFission | village.py:177-202 | computes exactly `FissionChecked`; a child is created exactly when the population reaches the threshold and either near fission (free ring land, fewer than six foreign marks) or a leap (enabled, a never-dated free cell more suitable than the current one) is open; otherwise nothing changes |
| Villages.CheckMove | village.py:240-260 | computes exactly `MoveChecked`; before the permanence time, or with no free ring land, only the time counter advances; otherwise the village moves to the best free ring cell, restarts its time and releases every cell it left |
| Villages.Step | village.py:262-266 | computes exactly `Advance`, the composition of growth, update_land, check_fission and check_move in the source's order; an inactive village is untouched; an active one keeps its parameters and land on the grid, dates are write-once, and any child takes the next id |
| Scoring.Largest | model.py:91 | the maximum of a non-empty probability table is one of its values and bounds them all |
| Scoring.Contribution | model.py:86-91 | a site fails only when it is off the grid or its matched table has maximum 0; an undated or unmatched site adds 0; a matched one adds its probability divided by the table's maximum |
| Scoring.ContributionBounds | model.py:88-91 | with non-negative tables each contribution lies in [0, 1] |
| Scoring.Total | model_un.py:148-156 | the sum fails exactly when some site fails |
| Scoring.TotalBounds | model_un.py:148-156 | with non-negative tables the sum lies between 0 and the number of sites |
| Scoring.EvalSingle | model_un.py:138-158 | for sites on distinct cells (the keys of the date dict), the score is the total divided by the number of sites, and fails on an empty table |
| Scoring.EvalSingleBounds | model_un.py:138-158 | with non-negative tables the single-culture score lies in [0, 1] |
| Scoring.UnreachedEvalZero | model_un.py:150-151 | a table none of whose cells has been reached (arrival date 0) scores exactly 0 |
| Scoring.SumOfAverages | model.py:81-93 | the sum of per-culture averages fails exactly when some culture's average fails |
| Scoring.SumOfAveragesBounds | model.py:81-93 | with non-negative tables on distinct cells, the sum of averages lies between 0 and the number of cultures |
| Scoring.EvalAll | model.py:74-95 | the score is the sum of per-culture averages divided by 4 |
| Scoring.EvalAllBounds | model.py:93-95 | with non-negative tables on distinct cells, the score lies in [0, number of cultures / 4], so it lies in [0, 1] for four cultures |
| Scoring.UnreachedScoresZero | model.py:86-91 | a culture none of whose sites was reached scores 0 |
| Settlement.ArrivalsOf | model_un.py:150 | the arrival layer eval reads has one entry per grid cell, its arrival date |
| Settlement.FreshGridScoresZero | model_un.py:138-158 | scored on the freshly built single-culture grid, any non-empty table of sites on the raster scores exactly 0 |
| Settlement.MaskOwner | model.py:38-43 | the owner becomes -1 exactly when some culture layer has no data at the cell, and is kept otherwise |
| Settlement.InitGrid | model.py:26-32 | the grid has exactly the 638 x 825 window of cells |
| Settlement.InitGridNoData | model.py:26-43 | a fresh cell is undated and unmarked, free unless a layer has no data there, in which case it is -1 |
| Settlement.InitCellSingle | model_un.py:78-117 | a cell is -1 with suitability 0 exactly when some of the five layers is at or below -9999, and free otherwise |
| Settlement.InitGridSingle | model_un.py:50-53 | the single-culture grid has exactly the 638 x 825 window of cells |
| Settlement.InitGridSingleUndated | model_un.py:50-53 | every cell of the fresh single-culture grid starts with no arrival date (0) |
| Settlement.NextId | model.py:47-53 | ids are handed out as 1, 2, 3, and so on; a new id is never already in use |
| Settlement.Evict | model.py:66-70 | the neighbours are deleted, their land is released, and every other village and owner stays |
| Settlement.Found | model.py:61-72 | a founding fails exactly on a missing key: a marker that is not a village, a second deletion of one id, or a founder cell off the grid |
| Settlement.FoundAgents | model.py:62-72 | the founder is filed under the next id owning exactly its own cell, and no marked neighbour survives |
| Settlement.FoundKeeps | model.py:66-70 | every village not marked near the founder survives unchanged, and no other village appears |
| Settlement.FoundGrid | model.py:66-72 | only owners change: the founder's cell is its own, and the neighbours' land is released |
| Settlement.FoundWellFormed | model.py:61-72 | founding keeps every village filed under its own allocated id and on the grid |
| Settlement.SetupSpec | model.py:55-72 | a successful setup keeps the world well formed and the clock fixed, changes only owners, and allocates one id per founder due this year |
| Settlement.SetupIdle | model.py:60-61 | with no founder due this year, setup changes nothing |
| Settlement.Init | model.py:7-45 | a successful initialisation starts at 4600 BP on the full window, well formed, with one id per founder due then |
| Settlement.FoundSingle | model_un.py:129-136 | the founder fails only off the grid; otherwise it is added under the next id owning its cell, and nothing else changes |
| Settlement.InitSingle | model_un.py:9-53 | the single-culture model starts at the founder's date with village 1 owning the founder's cell, and fails only if that cell is outside the window |
| Settlement.IdsBelow | model.py:100 | the snapshot lists each existing id below the bound once, in increasing (insertion) order |
| Settlement.InstallFollows | model.py:101-102 | filing a stepped village and its child keeps the world well formed, keeps every other village, and follows the previous state |
| Settlement.SnapshotIsAgents | model.py:100 | in a well-formed world the snapshot lists exactly the villages present, each once, and no id the loop will hand out |
| Settlement.TurnsIdle | model.py:100-102 | a pass over villages that are all inactive changes nothing |
| Settlement.RoundIdle | model.py:100-102 | a world whose villages have all stopped is a fixed point of the loop of step |
| Settlement.TurnsNext | model.py:101-102 | the fold takes one more turn by installing the outcome of `Advance` for the next village |
| Settlement.TakeTurn | model.py:101-102 | one iteration of the loop computes the next turn of the fold and keeps the world following the start |
| Settlement.StepOne | model.py:101-102 | one village's turn is exactly its `Advance` outcome installed in the world: it keeps all other villages and leaves the world unchanged when the village is inactive |
| Settlement.StepAll | model.py:100-102 | the loop computes exactly the left fold `Round` of `Advance` over the snapshot of ids taken at entry, in insertion order, skipping children; it keeps the world well formed with dates write-once, loses no village, gives new villages fresh ids, and keeps every village's parameters |
| Settlement.Tick | model.py:97-103 | a tick fails exactly when it is a founding year and setup fails; otherwise it is the fold `Round` over the world after setup (or the world itself) with the clock one year earlier; it winds the clock back by one year, allocates at least one id per founder due, and keeps dates write-once |
| Settlement.TickSingle | model_un.py:174-178 | the single-culture tick is exactly the fold `Round` over the world with the clock one year earlier |
| Evolution.Trunc | GA_v2.py:17 | int() of a float truncates toward zero, on both signs |
| Evolution.Clamp | GA_v2.py:29-34 | the clamped value lies in range, is unchanged inside it and sits on the crossed bound outside it |
| Evolution.MutateGenome | GA_v2.py:145-149 | with the draw below the rate, exactly the chosen gene is mutated and the fitness is reset; otherwise the genome is kept; an empty genome or a failing gene fails the mutation |
| Evolution.DoMutation | GA_v2.py:207-210 | every genome is mutated with its own draws, and the call succeeds exactly when each mutation does |
| Evolution.Values | GA_v2.py:150-151 | one value per gene, in order |
| Evolution.ValuesSplice | GA_v2.py:150-151 | the values of a spliced gene list are the splice of the values |
| Evolution.PairSplices | GA_v2.py:194-197 | crossing gives two unscored children: each takes one parent's genes before the cut and the other's after |
| Evolution.ModSucc | GA_v2.py:203-204 | advancing the cyclic index equals adding one modulo the number of parents |
| Evolution.Crossed | GA_v2.py:187-205 | reference crossover: round i mates parents i and i+1 cyclically and appends the pair; it fails exactly when some round's parent has too few genes to draw a cut |
| Evolution.CrossedMember | GA_v2.py:191-202 | every child comes from the pair of its round |
| Evolution.DoCrossover | GA_v2.py:187-205 | the loop equals the reference crossover over ceil(n_pop/2) rounds, yields n_pop or n_pop+1 children, and fails with fewer than two parents |
| Evolution.PickBest | GA_v2.py:184 | picks an unchosen index at least as fit as every other unchosen one |
| Evolution.GetParents | GA_v2.py:183-185 | returns n_select distinct genomes in decreasing fitness, each at least as fit as every genome left out; it fails when n_select exceeds the population |
| Evolution.NextPopulation | GA_v2.py:222-223 | the next population is the mutated offspring followed by the first n_elit parents, and fails when there are fewer parents |
| Evolution.CrossedWidth | GA_v2.py:196-197 | crossover keeps the number of genes of every genome |
| Evolution.ElitesDominate | GA_v2.py:222-223 | the first n_elit of a ranked selection are at least as fit as every genome not among them |
| Evolution.Bred | GA_v2.py:220-221 | crossover then mutation as a function: it succeeds exactly when the reference crossover and the mutation of its children both succeed, and then is that mutation's result; no children for n_pop 0; fewer than two parents fail; 2*ceil(n_pop/2) children of the parents' width |
| Evolution.Offspring | GA_v2.py:220-221 | do_crossover followed by do_mutation computes exactly `Bred`, including when it fails |
| Evolution.Picked | GA_v2.py:185 | the genomes at the selected indices, in order |
| Evolution.Generation | GA_v2.py:218-223 | the selected indices are distinct, in non-increasing fitness, and beaten by no index left out; a generation fails exactly when n_select exceeds the population, breeding the selected parents fails, or n_elit exceeds n_select; otherwise the next population is `Bred` of the selected parents followed by the first n_elit of them, every genome keeps the width, and no genome outside the elites is fitter than one in them |
| GenesV2.ClampedStep | GA_v2.py:18-34 | a value outside its domain fails; otherwise the result stays in range, a step of at least 1 leaves a bound inwards, and an interior value moves |
| GenesV2.WeightStep | GA_v2.py:131-133 | a weight step is taken exactly when it stays in [-20, 20], and the range is kept |
| GenesV2.MutateGene | GA_v2.py:15-133 | each gene class keeps its kind and range; catchment 2 moves to 1 or 3 and any other value to 2; the leap gene resets to 0 on the reset draw and restarts at 15 from 0 |
| GenesV2.Initialize | GA_v2.py:140-144 | the 49 genes are laid out by class and lie in their mutation ranges, below the bounds the sampling intervals imply |
| GenesV2.MutatePopulation | GA_v2.py:207-210 | do_mutation with these genes succeeds exactly when every genome's mutation does |
| GenesV2.MutationKeepsValid | GA_v2.py:145-149 | mutation of a valid genome with a proper sign coin never fails and keeps it valid |
| GenesV2.MutatePopulationKeepsValid | GA_v2.py:207-210 | mutating a valid population never fails and keeps every genome valid |
| GenesV2.SpliceKeepsValid | GA_v2.py:196-197 | splicing two valid gene lists at any cut is valid |
| GenesV2.PairKeepsValid | GA_v2.py:194-202 | both children of valid parents are valid |
| GenesV2.CrossoverKeepsValid | GA_v2.py:187-205 | crossover of valid parents yields only valid children |
| GenesV1.RejectStep | GA.py:14-16 | a step is taken exactly when it lands in range, and the range is kept |
| GenesV1.MutateGene | GA.py:11-57 | each gene class keeps its kind and range; catchment moves by the coin or stays; the leap gene resets to 0 on the reset draw and restarts at 15 from 0 |
| GenesV1.Initialize | GA.py:65-67 | the five genes are laid out by class and lie in their mutation ranges, below the bounds the sampling intervals imply |
| GenesV1.MutatePopulation | GA.py:130-133 | do_mutation with these genes succeeds exactly when every genome's mutation does |
| GenesV1.MutationKeepsValid | GA.py:69-73 | mutating a valid genome never fails and keeps it valid |
| GenesV1.MutatePopulationKeepsValid | GA.py:130-133 | mutating a valid population keeps every genome valid |
| GenesV1.SpliceKeepsValid | GA.py:119-120 | splicing two valid gene lists at any cut is valid |
| GenesV1.PairKeepsValid | GA.py:117-125 | both children of valid parents are valid |
| GenesV1.CrossoverKeepsValid | GA.py:110-128 | crossover of valid parents yields only valid children |

## Left out

- File and console I/O are not modelled: reading layers, parameter and date files, pickling, progress bars, printing and `Model.write` (model_un.py:160-172). They have no effect on the simulated state.
- `GA.get_fitness` and `GA.initialize` of the calibrator are not modelled. They run whole simulations in a process pool, so fitness values are an input to selection.
- The suitability network (`NN.activation`) and the loading of per-culture niche layers are not modelled. Suitability is taken as a given raster (`suit`), because the network is floating-point code outside the core.
- The growth increment `round(r * population)` of `grow` (village.py:129-135) is a function parameter `growth`, because it is floating-point rounding. Only the claiming that follows is modelled.
- village_un.py, which model_un.py imports, is not part of this model. village.py's `Village` stands in for it.
- model.py's per-culture arrival dictionary and its call `Village(id, model, *param)` do not match village.py's constructor and cell record. The model follows village.py (see above).
- Settlement.Founded requires only that the founder's cell is on the grid. Its other failure cases are handled by `Found`, which returns a failure before `Founded` is used.
- Evolution.GetParents: `np.argsort` orders equal fitness values in an unspecified order. The model breaks ties by the lowest index, which is one of the orders the source permits.
- Evolution.DoCrossover and Evolution.DoMutation do not model `copy.deepcopy` versus aliasing. Values in the model are immutable, so copies and shared references coincide.
- Scoring.Contribution, Scoring.Total, Scoring.EvalSingle, Scoring.EvalAll and GenesV2.WeightStep compute over exact reals, where the source uses Python floats. These are the probabilities, the normalised contributions and their sums, the divisions by `len(dates)` and by 4 (model.py:90-95, model_un.py:153-158), and Gen_06's `value + np.random.normal(0, 2)` with its ±20 rejection (GA_v2.py:132-133). IEEE rounding, NaN and infinities are not modelled.
- GenesV2.MutateGene takes Gen_06's normal draw as a real parameter and does not model its distribution.
- GenesV1.Initialize and GenesV2.Initialize take Gen_03's `np.random.choice((1,2,3), 1)[0]` value (GA.py:28, GA_v2.py:63) directly as the drawn catchment, constrained to 1..3.
- The `bar`, `fitAve` and `fitMin` bookkeeping of `evolve` and its `max_it` loop are not modelled. One iteration is modelled by `Evolution.Generation`.
- Settlement.NextId and Villages.Split: the two id counters of the source (`Model.current_id` and `Village.village_counter`) are merged into one. Under two counters a child could receive an id a founder already holds; the model does not represent such clashes.
- Both `eval`s call `get_dates(breed_name)` (model.py:83, model_un.py:146), but utils.py:15 defines `get_dates()` without a parameter, so each call raises `TypeError`. The model scores as if the call returned utils.py's dict for the culture. That dict is keyed by cell, and a later file for the same cell replaces an earlier one, so `len(dates)` counts distinct cells. Scoring.EvalSingle, Scoring.SumOfAverages and Scoring.EvalAll therefore require the sites to lie on distinct cells (`Scoring.Distinct`).
- Settlement.Turns skips an id whose village is missing or off the grid. In a well-formed world this never happens: `StepAll` takes the snapshot of a well-formed world, and every turn keeps it well formed.
