# Vintage Story bot core: pathfinding and visibility, modelled in Dafny

This project models the core of `python-vs-core`, the Python library that plans movement for a
bot in the voxel game Vintage Story. It covers three parts of the library.

The first part is the safe-path planner (`vintage_story_core/pathfinding.py`):
- it classifies the blocks of a scan into solid and liquid positions;
- it builds a heightmap of walkable surfaces;
- it lists the cardinal moves that obey the step-up, drop, liquid and head-clearance rules;
- it picks a start cell near the bot and an edge goal when the target column has no walkable surface in the scan;
- it runs A*, first without and then with two-block drops;
- it reports waypoints at standing height.

The second part is the visibility filter (`vintage_story_core/visibility.py`). It keeps the
blocks of a scan that the bot can see, then the visible blocks that are surface blocks.

The third part is the block parser `BlockInfo.from_dict` (`vintage_story_core/types.py`).

Modules, in dependency order:
- `Wrappers`, `Text` (text.dfy): `Option`, and ASCII lower-casing and substring search (Python's
  `str.lower()` and `in`).
- `Geometry`: voxel and column positions.
- `BlockTypes`: raw block dictionaries, `BlockInfo`, `from_dict`, `to_tuple`.
- `Terrain`: `_is_passable_block`, `_build_terrain_data`.
- `Moves`: `_has_head_clearance`, `_get_walkable_neighbors`, `_heuristic`, `_find_valid_start`.
- `Search`: `_astar`, with the heap as a sequence and the path reconstruction.
- `Pathfinding`: `_find_edge_goal`, `find_safe_path`.
- `Visibility`: `_sign`, the line-of-sight test, `filter_visible_blocks`,
  `get_visible_surface_blocks`.

How the model relates to the code:
- Loops in the source are `method`s with loop invariants, with two exceptions. The while loop of
  `_voxel_traversal` is the recursive function `TraverseFrom` over an input `Ray`, and
  `path.reverse()` is the function `Reversed`. Each is proved against a
  specification function (for example `GetWalkableNeighbors` against `WalkableNeighbors`,
  `FilterVisibleBlocks` against `VisibleBlocks`). Lemmas state the promised properties of
  those functions.
- Move costs are integers scaled by ten (`1`, `1.1`, `1.3` become `10`, `11`, `13`). The heuristic
  is scaled by ten as well. Integer sums are exact while the source's float sums are rounded, so a
  tie in the model (1 + 1.1 + 1.1 + 1.1 against 1 + 1 + 1 + 1.3, both 43) need not be a tie in the
  source, and floats can break or create ties in `tentative_g < g_score[...]`. This changes which
  parent and which route are kept, not soundness or completeness.
- A* is proved sound, complete and terminating:
  - a returned path is a route of allowed moves from the valid start to the goal;
  - `None` means no such route exists;
  - the search ends.
- The main loop of `_astar` ends because each expansion either scores a new heightmap column,
  lowers the sum of the scores, or shrinks the open set (the measure
  `hm.Keys - gScore.Keys, ScoreSum, |openSet|` of `Search.AStar`). The path reconstruction loop
  ends because each `came_from` parent costs at least one move less than its child.
- The voxel traversal is abstract. The cells the ray visits, each with the distance travelled
  there, are an input (`Ray`). What the loop does with them is modelled: it stops at the target,
  and it stops at a solid cell once the distance travelled is positive. That is not the same as
  having left the eye's cell: an eye exactly on a cell boundary, looking in the negative
  direction of that axis, enters the neighbouring cell at distance zero, so a solid block there
  does not hide what lies behind it (`Visibility.BoundaryNeighborDoesNotOcclude`).

One place where the code is narrower than its description: the solid and liquid sets of
`_build_terrain_data` are disjoint only when no position occurs twice in the scan. The same
position listed once as water and once as stone lands in both sets.
`Terrain.SolidAndLiquidAreDisjoint` therefore assumes unique positions.

## Model

| member | source | states |
|---|---|---|
| BlockTypes.BlockInfo.ToTuple | python-vs-core/src/vintage_story_core/types.py:85-87 | the tuple is the block's x, y, z |
| BlockTypes.FromDict | python-vs-core/src/vintage_story_core/types.py:50-83 | coordinates come from `worldPos` when present, else the flat keys, 0 when missing; the code defaults to ""; liquid iff the lower-cased code contains "water" or "liquid"; a present `isSolid` is taken verbatim, otherwise solid iff neither air nor liquid |
| BlockTypes.ParseThenTupleRecoversPosition | python-vs-core/src/vintage_story_core/types.py:56-64 | parsing a flat or a nested dictionary and taking `to_tuple` gives back the position written, and in the nested form the flat keys are ignored |
| BlockTypes.MissingCoordinatesReadAsZero | python-vs-core/src/vintage_story_core/types.py:58-64 | a dictionary without coordinates parses to (0, 0, 0) |
| BlockTypes.AirIffEmptyOrContainsAir | python-vs-core/src/vintage_story_core/types.py:67 | the air test holds iff the code is empty or its lower-cased form contains "air" (so "plankstairs" is air) |
| Text.Lower | python-vs-core/src/vintage_story_core/types.py:67-68 | lower-casing keeps the length, lower-cases each character and leaves no upper-case ASCII letter |
| Text.ContainsIffOccurs | python-vs-core/src/vintage_story_core/pathfinding.py:26-30 | the substring test holds iff the substring occurs at some index |
| Text.Contains | python-vs-core/src/vintage_story_core/types.py:67-68 | the empty string occurs in every string, and a string that occurs is no longer than the one it occurs in |
| Text.ContainsAt | python-vs-core/src/vintage_story_core/pathfinding.py:26-30 | an occurrence at a known index makes the substring test true |
| Terrain.BuildTerrainData | python-vs-core/src/vintage_story_core/pathfinding.py:36-99 | the solid set is the positions of non-liquid blocks with `isSolid` (default true) that are not passable; the liquid set is the positions whose lower-cased code contains "water", "lava" or "liquid"; the heightmap satisfies `IsHeightmap` (every entry is a surface, every column with a surface has an entry, and the entry is a preferred surface) |
| Terrain.IsPassableBlock | python-vs-core/src/vintage_story_core/pathfinding.py:13-33 | a block is passable iff "leaves" occurs in its lower-cased code and "woody" occurs nowhere in it, so woody leaf variants are never passable |
| Terrain.ClassifyBlocks | python-vs-core/src/vintage_story_core/pathfinding.py:55-73 | the classification loop yields exactly those solid and liquid sets |
| Terrain.BuildHeightmap | python-vs-core/src/vintage_story_core/pathfinding.py:78-97 | the heightmap loop yields a heightmap of the solids in which every column's entry is a surface at least as close to `bot_y - 1` as any other surface of that column (the highest one without `bot_y`) |
| Terrain.ClassifiedSetsGrow | python-vs-core/src/vintage_story_core/pathfinding.py:70-73 | one more block adds its position to the liquid set if liquid, else to the solid set if solid and not passable, else to neither |
| Terrain.HighestSurfaceIsDetermined | python-vs-core/src/vintage_story_core/pathfinding.py:94-97 | without `bot_y` the heightmap is unique: two heightmaps of the same solids are equal |
| Terrain.HeightmapHoldsHighestSurface | python-vs-core/src/vintage_story_core/pathfinding.py:94-97 | without `bot_y` every surface of a column is at most the heightmap's entry, which exists |
| Terrain.SolidAndLiquidAreDisjoint | python-vs-core/src/vintage_story_core/pathfinding.py:70-73 | with unique block positions no position is both solid and liquid |
| Terrain.LiquidTestsDifferOnlyByLava | python-vs-core/src/vintage_story_core/pathfinding.py:65 | the pathfinder's liquid test is `from_dict`'s test or "lava" in the lower-cased code |
| Terrain.PositionAgreesWithFromDict | python-vs-core/src/vintage_story_core/pathfinding.py:57-61 | where the pathfinder can read a position it is the one `from_dict` reads |
| Moves.StepCost | python-vs-core/src/vintage_story_core/pathfinding.py:178-182 | a level move or a step up costs 10 (1.0), a one-block drop 11 (1.1), a two-block drop 13 (1.3); every move costs between 10 and 13 |
| Moves.HasHeadClearance | python-vs-core/src/vintage_story_core/pathfinding.py:102-111 | standing on a surface, head clearance holds iff both cells the bot occupies (one and two above the surface) are free of solids |
| Moves.GetWalkableNeighbors | python-vs-core/src/vintage_story_core/pathfinding.py:114-186 | the loop returns the allowed moves of the four cardinal directions in the fixed order |
| Moves.WalkableNeighborsAreLegal | python-vs-core/src/vintage_story_core/pathfinding.py:140-184 | every returned neighbour is a cardinal step to a heightmap column that satisfies all move rules (no liquid on or above the surface, step up at most 1, drop at most 1 or 2 with two-block drops, head clearance, clearance above the bot on a step up), with the surface height and the cost for its height change |
| Moves.WalkableNeighborsAreComplete | python-vs-core/src/vintage_story_core/pathfinding.py:140-184 | every cardinal step that satisfies the move rules is returned |
| Moves.Heuristic | python-vs-core/src/vintage_story_core/pathfinding.py:189-191 | the Manhattan distance is non-negative and zero iff the columns coincide |
| Moves.HeuristicIsConsistent | python-vs-core/src/vintage_story_core/pathfinding.py:189-191 | one cardinal step lowers the scaled heuristic by at most the cheapest move cost |
| Moves.FindValidStart | python-vs-core/src/vintage_story_core/pathfinding.py:194-236 | the loop returns the first of the nine offsets, in their order, whose column has a surface within 2 of `bot_y` |
| Moves.ValidStartIsFirstQualifying | python-vs-core/src/vintage_story_core/pathfinding.py:213-236 | there is no start iff no offset qualifies; otherwise the start is the surface cell of a qualifying offset before which none qualifies |
| Moves.ValidStartIsNear | python-vs-core/src/vintage_story_core/pathfinding.py:220-234 | a start lies within Chebyshev distance 1 of the bot, on its column's surface, within 2 of `bot_y` |
| Search.HeapPop | python-vs-core/src/vintage_story_core/pathfinding.py:280 | the popped entry is in the open set and no entry is smaller in the order (f, counter); the rest is the open set minus that entry |
| Search.Reversed | python-vs-core/src/vintage_story_core/pathfinding.py:290 | the reversed list has the same length and element i is element `n-1-i` of the original |
| Search.ReconstructPath | python-vs-core/src/vintage_story_core/pathfinding.py:284-291 | following `came_from` from the goal cell ends, and the reversed chain is a route of allowed moves from the start cell to the goal column; with no links it is the goal cell alone |
| Search.RelaxNeighbor | python-vs-core/src/vintage_story_core/pathfinding.py:297-307 | relaxing one neighbour keeps every score a cost of a heightmap column, every parent link an allowed move to a cheaper column, every open entry on a surface, and every scored column accounted for; the neighbour is scored afterwards, and either it is newly scored, the score sum fell, or nothing changed |
| Search.RelaxNeighbors | python-vs-core/src/vintage_story_core/pathfinding.py:293-307 | after relaxing all neighbours the expanded column is closed (all its neighbours scored), the invariants hold, and the search made progress or changed nothing |
| Search.ExpandColumn | python-vs-core/src/vintage_story_core/pathfinding.py:280-307 | expanding a popped non-goal column keeps the invariants and makes progress: a column is newly scored, the score sum falls, or the open set shrinks |
| Search.RelaxParents | python-vs-core/src/vintage_story_core/pathfinding.py:301-303 | recording a cheaper score and its parent keeps the scores and the parent links valid |
| Search.RelaxFrontier | python-vs-core/src/vintage_story_core/pathfinding.py:307 | pushing the relaxed neighbour's entry leaves every scored column accounted for |
| Search.PopFrontier | python-vs-core/src/vintage_story_core/pathfinding.py:280-283 | popping a non-goal entry leaves at most its own column unaccounted for |
| Search.ClosedSetContainsWalks | python-vs-core/src/vintage_story_core/pathfinding.py:279-309 | a walk of allowed moves that starts in a set of expanded columns stays in it |
| Search.ExhaustedSearchHasNoRoute | python-vs-core/src/vintage_story_core/pathfinding.py:279-309 | once the open set is empty no route leads from a scored cell to the goal |
| Search.ReversedChainIsRoute | python-vs-core/src/vintage_story_core/pathfinding.py:286-290 | a chain of parent links read backwards is a route from the start to the goal |
| Search.AStar | python-vs-core/src/vintage_story_core/pathfinding.py:239-309 | no valid start gives None; a returned path is a route of allowed moves from the valid start to the goal column; None with a valid start means no such route exists; a start in the goal column gives the one-cell path |
| Pathfinding.FindEdgeGoal | python-vs-core/src/vintage_story_core/pathfinding.py:312-352 | None iff the heightmap is empty; the start when it is the target; otherwise a heightmap column whose projection onto the direction of the target is maximal |
| Pathfinding.StandingCells | python-vs-core/src/vintage_story_core/pathfinding.py:450 | one waypoint per path cell, at the same column and one block higher |
| Pathfinding.FindSafePath | python-vs-core/src/vintage_story_core/pathfinding.py:355-466 | no blocks gives "No block data provided" with infinite distance; the terrain is as `BuildTerrainData` states; an empty heightmap gives "No walkable surfaces found in block data"; otherwise as `SearchTerrain`; "Cannot determine path toward target" never occurs; success iff the reason is empty |
| Pathfinding.SearchTerrain | python-vs-core/src/vintage_story_core/pathfinding.py:408-466 | the goal is the target if scanned, else the edge goal; success iff a route with two-block drops exists; then the path is such a route, one without two-block drops whenever one exists, the waypoints are its cells raised by one, `reached_target` iff the target was scanned, the distance is from the path's end; otherwise "No safe path found" with the distance from the bot |
| Pathfinding.SafeMoveIsMove | python-vs-core/src/vintage_story_core/pathfinding.py:161-163 | a move allowed without two-block drops is allowed with them |
| Pathfinding.SafeRouteIsRoute | python-vs-core/src/vintage_story_core/pathfinding.py:431-435 | a route without two-block drops is a route with them |
| Pathfinding.SafeReachableIsReachable | python-vs-core/src/vintage_story_core/pathfinding.py:431-435 | a goal reachable without two-block drops is reachable with them |
| Pathfinding.NoRouteAtAll | python-vs-core/src/vintage_story_core/pathfinding.py:434-444 | no route with two-block drops means no route without them |
| Visibility.Sign | python-vs-core/src/vintage_story_core/visibility.py:14-20 | 1, -1, 0 exactly as the argument is positive, negative, zero |
| Visibility.Eye | python-vs-core/src/vintage_story_core/visibility.py:146-150 | the eye is `eye_height` above the observer |
| Visibility.SqDist | python-vs-core/src/vintage_story_core/visibility.py:163-164 | the squared distance is non-negative |
| Visibility.LineOfSight | python-vs-core/src/vintage_story_core/visibility.py:43-52 | zero distance to the block centre means visible; a distance beyond `max_distance` means not visible |
| Visibility.TraversalSeesIff | python-vs-core/src/vintage_story_core/visibility.py:96-122 | the traversal sees the target iff the ray reaches the target's cell with no occluder before it, or ends in it with no occluder at all |
| Visibility.TraverseFrom | python-vs-core/src/vintage_story_core/visibility.py:94-122 | the traversal sees the target only if the ray reaches the target's cell or ends in it; with no target and no occluder on the ray, the final cell alone decides |
| Visibility.ReachingTargetMeansVisible | python-vs-core/src/vintage_story_core/visibility.py:96-98 | reaching the target's cell with nothing occluding on the way means visible |
| Visibility.ObserverCellNeverOccludes | python-vs-core/src/vintage_story_core/visibility.py:94-101 | whether the observer's own cell is solid does not change what the ray sees |
| Visibility.OccluderBeforeTargetHides | python-vs-core/src/vintage_story_core/visibility.py:100-101 | a solid cell reached at a positive distance, before the target, hides the target |
| Visibility.BoundaryNeighborDoesNotOcclude | python-vs-core/src/vintage_story_core/visibility.py:64-101 | for an eye on a cell boundary looking along -x, a solid neighbour cell entered at distance zero does not hide the target behind it, while a ray entering the same cell at a positive distance, which this eye never produces and which serves only as a contrast for the occluder test, would be hidden |
| Visibility.Filter | python-vs-core/src/vintage_story_core/visibility.py:168-183 | the filter is no longer than its input and holds exactly the input elements that pass the test |
| Visibility.FilterEmbeds | python-vs-core/src/vintage_story_core/visibility.py:168-183 | the filter's result embeds into its input at increasing positions |
| Visibility.SubsequenceIsTransitive | python-vs-core/src/vintage_story_core/visibility.py:212-231 | a subsequence of a subsequence is a subsequence |
| Visibility.ParseAll | python-vs-core/src/vintage_story_core/visibility.py:155-157 | one parsed `BlockInfo` per block, in order |
| Visibility.MaxSqDistanceBounds | python-vs-core/src/vintage_story_core/visibility.py:161-166 | `max_distance` is non-negative, bounds every block centre's distance, and is attained when positive |
| Visibility.ParseBlocks | python-vs-core/src/vintage_story_core/visibility.py:152-159 | the loop parses every block and the occluder set is exactly the positions of blocks whose `is_solid` holds |
| Visibility.FarthestCenter | python-vs-core/src/vintage_story_core/visibility.py:161-166 | the loop computes the farthest block centre's distance, squared |
| Visibility.FilterVisibleBlocks | python-vs-core/src/vintage_story_core/visibility.py:125-183 | the loop returns, in order, the blocks that are solid, liquid or rest on a solid block and pass the line-of-sight test |
| Visibility.CheckBlock | python-vs-core/src/vintage_story_core/visibility.py:173-181 | one block is kept iff it is solid, liquid or rests on a solid block, and it is in line of sight |
| Visibility.VisibleIsSubsequence | python-vs-core/src/vintage_story_core/visibility.py:168-183 | the visible blocks are an order-preserving subsequence of the input |
| Visibility.VisibleIff | python-vs-core/src/vintage_story_core/visibility.py:170-181 | a block is visible iff it is in the scan, is solid, liquid or rests on an occluder, and is in line of sight |
| Visibility.VisibleItemRestsOnSolid | python-vs-core/src/vintage_story_core/visibility.py:173-178 | a visible block that is neither solid nor liquid has a solid block of the scan directly below it |
| Visibility.LooseItemVisibleIff | python-vs-core/src/vintage_story_core/visibility.py:173-181 | a loose item (neither solid nor liquid, like a loose flint on soil) is visible iff the position below it is solid and it is in line of sight |
| Visibility.ScanIsWithinMaxDistance | python-vs-core/src/vintage_story_core/visibility.py:161-166 | no block of the scan is beyond `max_distance`, so the distance cut-off never hides one of them |
| Visibility.HasExposedFace | python-vs-core/src/vintage_story_core/visibility.py:247-253 | the flag is set iff one of the six face neighbours is not a solid position |
| Visibility.SolidPositions | python-vs-core/src/vintage_story_core/visibility.py:214-219 | the loop collects exactly the positions of blocks whose `is_solid` holds |
| Visibility.GetVisibleSurfaceBlocks | python-vs-core/src/vintage_story_core/visibility.py:186-258 | the loop returns, in order, the visible blocks that are liquids (when wanted), non-solid items, or solids with an exposed face |
| Visibility.SurfaceIsSubsequenceOfVisible | python-vs-core/src/vintage_story_core/visibility.py:212-258 | the surface blocks are an order-preserving subsequence of the visible blocks and of the scan |
| Visibility.SurfaceMembership | python-vs-core/src/vintage_story_core/visibility.py:235-256 | for a visible block: a liquid is a surface block iff liquids are wanted; a block neither solid nor liquid always is; a solid non-liquid is iff one of its six neighbours is not solid |

## Left out

- Floating point: positions arrive as integers, so both conversions of a coordinate to an
  integer are left out. `find_safe_path` floors the bot and target positions
  (`int(math.floor(...))`, so -0.5 becomes -1). `BlockInfo.from_dict` and `_build_terrain_data`
  use `int(...)`, which truncates toward zero, so -0.5 becomes 0. Distances are compared squared,
  which ranks them as the square roots do. `distance_to_target` is reported as its square
  (`Euclid` of the squared distance), not as the source's `math.sqrt` of it. Rounding in sums of move costs and of distances is not
  modelled.
- `FindSafePath` takes the floored bot position and the target column, not the position
  dictionaries. A missing `x`/`y`/`z` key raises `KeyError` in the source. The model instead
  requires every block to carry coordinates (`WellPositioned`).
- `find_safe_path`'s "Cannot determine path toward target" branch cannot be reached: the edge goal
  is None only for an empty heightmap, which returns earlier. The model keeps the branch and proves
  it dead.
- `Search.AStar`: the heap (`heapq`) is a sequence. Popping takes an entry minimal in the order
  (f, counter), which is the entry `heapq` pops. Path optimality is not stated; the contract is
  soundness and completeness.
- `Search.AStar`: `f_score` is written but never read in the source. The model keeps it in the
  same way.
- Python's set and dictionary iteration order is a nondeterministic choice. It decides ties in
  two places:
  - the surface chosen with `bot_y`, so `BuildHeightmap` states "some closest surface";
  - the edge goal, so `FindEdgeGoal` states "some column of maximal projection".
- `_find_edge_goal` divides the projection by the distance to the target; the model does not. The
  distance is positive, so the ranking is the same. Its `scan_radius` argument is unused in the
  source and is not modelled.
- Visibility:
  - the float stepping inside `_voxel_traversal` (`t_max`, `t_delta`, normalisation) is given as
    the `Ray` input;
  - `Vec3.length` and `normalize` are left out;
  - distances are compared squared.
- The bot-control server, the agents and the command-line tools are not part of this model.
- Two behaviours the pathfinder does not guard against are not stated. One is blocks the scan
  reports with `isSolid` False that still collide (fences, doors, chiseled blocks): the code takes
  `isSolid` at its word, so they are not solid positions. The other is escaping from pits.
- Text.Lower: only ASCII `A`-`Z` are lower-cased, while Python's `str.lower()` also folds other
  Unicode letters. The keywords the classifiers look for are ASCII, but a code with a non-ASCII
  capital letter is not lower-cased as in the source.
