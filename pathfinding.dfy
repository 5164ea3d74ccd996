/**
 * The entry point of the pathfinder (`_find_edge_goal` and `find_safe_path` in
 * python-vs-core/src/vintage_story_core/pathfinding.py): build the terrain, choose
 * a goal column, search with at most one-block drops, then with two-block drops,
 * and report the waypoints at standing height.
 */
module Pathfinding {
  import opened Wrappers
  import opened Geometry
  import opened BlockTypes
  import opened Terrain
  import opened Moves
  import opened Search

  /**
   * How far `k` lies in the direction from `start` to `target`: the dot product of the two
   * offsets. The source divides it by the positive distance, which does not change the ranking.
   */
  function Projection(start: Column, target: Column, k: Column): int
  {
    (k.x - start.x) * (target.x - start.x) + (k.z - start.z) * (target.z - start.z)
  }

  /**
   * `_find_edge_goal`: None for an empty heightmap, `start` when it is the target, otherwise a
   * heightmap column furthest in the target's direction (the first such in iteration order).
   */
  method FindEdgeGoal(start: Column, target: Column, heightmap: Heightmap) returns (r: Option<Column>)
    ensures r.None? <==> heightmap == map[]
    ensures heightmap != map[] && start == target ==> r == Some(start)
    ensures heightmap != map[] && start != target ==>
      r.Some? && r.value in heightmap &&
      forall k :: k in heightmap ==> Projection(start, target, k) <= Projection(start, target, r.value)
  {
    if heightmap == map[] {
      return None;
    }
    var dx := target.x - start.x;
    var dz := target.z - start.z;
    if dx == 0 && dz == 0 {
      return Some(start);
    }
    // `best` None stands for the initial best score of minus infinity.
    var best: Option<Column> := None;
    var bestScore := 0;
    var remaining := heightmap.Keys;
    ghost var done: set<Column> := {};
    while remaining != {}
      invariant remaining + done == heightmap.Keys && remaining !! done
      invariant best.None? <==> done == {}
      invariant best.Some? ==> best.value in done && bestScore == Projection(start, target, best.value)
      invariant forall k :: k in done ==> Projection(start, target, k) <= bestScore
      decreases remaining
    {
      var pos :| pos in remaining;
      var px := pos.x - start.x;
      var pz := pos.z - start.z;
      var score := px * dx + pz * dz;
      if best.None? || score > bestScore {
        bestScore := score;
        best := Some(pos);
      }
      remaining := remaining - {pos};
      done := done + {pos};
    }
    assert done == heightmap.Keys;
    return best;
  }

  /** Why a search failed; `NoReason` on success. */
  datatype Reason = NoBlockData | NoWalkableSurface | CannotDetermineDirection | NoSafePath | NoReason

  /** The reason strings the source returns. */
  function Message(reason: Reason): string
  {
    match reason
    case NoBlockData => "No block data provided"
    case NoWalkableSurface => "No walkable surfaces found in block data"
    case CannotDetermineDirection => "Cannot determine path toward target"
    case NoSafePath => "No safe path found"
    case NoReason => ""
  }

  /** `distance_to_target`: infinite, or a Euclidean distance given by its square. */
  datatype Distance = Infinite | Euclid(squared: int)

  /** The result dictionary of `find_safe_path`. */
  datatype PathResult = PathResult(success: bool, waypoints: seq<Voxel>, reachedTarget: bool,
                                   distanceToTarget: Distance, reason: Reason)

  function Failure(reason: Reason, distance: Distance): PathResult
  {
    PathResult(false, [], false, distance, reason)
  }

  /** The squared horizontal distance between two columns. */
  function SquaredDistance(a: Column, b: Column): int
  {
    (a.x - b.x) * (a.x - b.x) + (a.z - b.z) * (a.z - b.z)
  }

  /** The waypoints: every path cell raised by one, to where the bot's feet are. */
  function StandingCells(path: seq<Voxel>): (waypoints: seq<Voxel>)
    ensures |waypoints| == |path|
    ensures forall i :: 0 <= i < |path| ==>
      waypoints[i] == Voxel(path[i].x, path[i].y + 1, path[i].z)
  {
    if path == [] then [] else [Voxel(path[0].x, path[0].y + 1, path[0].z)] + StandingCells(path[1..])
  }

  /** From the bot's cell there is a valid start and a route from it to `goal`. */
  ghost predicate Reachable(t: TerrainData, allow2BlockDrop: bool, bot: Voxel, goal: Column)
  {
    var s := ValidStart(bot.x, bot.y, bot.z, t.heightmap);
    s.Some? && exists w :: IsRoute(t, allow2BlockDrop, w, s.value, goal)
  }

  /**
   * The goal `find_safe_path` searches for: the target column when it was scanned; otherwise the
   * bot's own column when that is the target, else a scanned column furthest toward the target.
   */
  ghost predicate IsGoalFor(hm: Heightmap, start: Column, target: Column, goal: Column)
  {
    if target in hm then goal == target
    else if start == target then goal == start
    else goal in hm && forall k :: k in hm ==> Projection(start, target, k) <= Projection(start, target, goal)
  }

  /**
   * `find_safe_path` on the floored bot position `bot` and target column `target`. Besides the
   * result it yields, as ghosts, the terrain it built, the goal column it searched for and the
   * path it found.
   */
  method FindSafePath(bot: Voxel, target: Column, blocks: seq<RawBlock>)
    returns (r: PathResult, ghost t: TerrainData, ghost goal: Column, ghost path: seq<Voxel>)
    requires WellPositioned(blocks)
    ensures blocks == [] ==> r == Failure(NoBlockData, Infinite)
    ensures blocks != [] ==>
      && t.solids == SolidSetOf(blocks, |blocks|)
      && t.liquids == LiquidSetOf(blocks, |blocks|)
      && IsHeightmap(t.heightmap, t.solids, Some(bot.y))
    ensures blocks != [] && t.heightmap == map[] ==> r == Failure(NoWalkableSurface, Infinite)
    ensures blocks != [] && t.heightmap != map[] ==> SearchOutcome(bot, target, t, r, goal, path)
    ensures r.reason != CannotDetermineDirection
    ensures r.success <==> r.reason == NoReason
  {
    t := TerrainData(map[], {}, {});
    goal := target;
    path := [];
    if blocks == [] {
      return Failure(NoBlockData, Infinite), t, goal, path;
    }
    var heightmap, solids, liquids := BuildTerrainData(blocks, Some(bot.y));
    var terrain := TerrainData(heightmap, solids, liquids);
    t := terrain;
    if heightmap == map[] {
      return Failure(NoWalkableSurface, Infinite), t, goal, path;
    }
    r, goal, path := SearchTerrain(bot, target, terrain);
  }

  /**
   * What `find_safe_path` promises once it has a non-empty heightmap: the goal is the target or
   * the edge goal; it succeeds exactly when a route with two-block drops exists, and then the
   * path is such a route, one without two-block drops whenever one exists, the waypoints are its
   * cells at standing height, the target counts as reached exactly when it was scanned, and the
   * distance is from the path's end; otherwise it fails with "No safe path found" and the
   * distance from the bot; a start already in the goal column gives the one-cell path.
   */
  ghost predicate SearchOutcome(bot: Voxel, target: Column, t: TerrainData, r: PathResult, goal: Column, path: seq<Voxel>)
  {
    var vs := ValidStart(bot.x, bot.y, bot.z, t.heightmap);
    && IsGoalFor(t.heightmap, ColumnOf(bot), target, goal)
    && (r.success <==> Reachable(t, true, bot, goal))
    && (!r.success ==>
          && !Reachable(t, false, bot, goal)
          && r == Failure(NoSafePath, Euclid(SquaredDistance(target, ColumnOf(bot)))))
    && (r.success ==>
          && r.reason == NoReason
          && IsRoute(t, true, path, vs.value, goal)
          && (Reachable(t, false, bot, goal) ==> IsRoute(t, false, path, vs.value, goal))
          && r.waypoints == StandingCells(path)
          && (r.reachedTarget <==> target in t.heightmap)
          && r.distanceToTarget == Euclid(SquaredDistance(target, ColumnOf(path[|path| - 1]))))
    && (vs.Some? && ColumnOf(vs.value) == goal ==> r.success && path == [vs.value])
  }

  /** The part of `find_safe_path` after the terrain is built: choose the goal, search twice, report. */
  method SearchTerrain(bot: Voxel, target: Column, t: TerrainData)
    returns (r: PathResult, ghost goal: Column, ghost path: seq<Voxel>)
    requires t.heightmap != map[]
    ensures SearchOutcome(bot, target, t, r, goal, path)
  {
    var heightmap := t.heightmap;
    var startXZ := Column(bot.x, bot.z);
    var goalXZ := target;
    var targetInScan := target in heightmap;
    if !targetInScan {
      var edgeGoal := FindEdgeGoal(startXZ, target, heightmap);
      // A Python tuple is always truthy, so only a missing goal fails this test.
      if edgeGoal.Some? {
        goalXZ := edgeGoal.value;
      } else {
        assert false;
        return Failure(CannotDetermineDirection, Infinite), target, [];
      }
    }
    goal := goalXZ;
    path := [];

    var found := AStar(bot, goalXZ, t, false);
    ghost var safeFound := found.Some?;
    if found.None? {
      found := AStar(bot, goalXZ, t, true);
    }
    if found.None? {
      NoRouteAtAll(t, bot, goal);
      return Failure(NoSafePath, Euclid(SquaredDistance(target, startXZ))), goal, path;
    }
    var route := found.value;
    path := route;
    if safeFound {
      SafeRouteIsRoute(t, route, ValidStart(bot.x, bot.y, bot.z, heightmap).value, goal);
    }
    var finalPos := route[|route| - 1];
    var distance := Euclid(SquaredDistance(target, ColumnOf(finalPos)));
    var reachedTarget := targetInScan && goalXZ == target && |route| > 0;
    r := PathResult(true, StandingCells(route), reachedTarget, distance, NoReason);
  }

  /** A move allowed with at most one-block drops is allowed with two-block drops too. */
  lemma SafeMoveIsMove(t: TerrainData, a: Voxel, b: Voxel)
    requires Allows(t, false, a, b)
    ensures Allows(t, true, a, b)
  {
    var m :| m in WalkableNeighbors(t, false, a.x, a.z, a.y, |Directions|) && b == Voxel(m.x, m.y, m.z);
    WalkableNeighborsAreLegal(t, false, a.x, a.z, a.y, |Directions|);
    WalkableNeighborsAreLegal(t, true, a.x, a.z, a.y, |Directions|);
    WalkableNeighborsAreComplete(t, true, a.x, a.z, a.y, |Directions|);
    var k :| 0 <= k < |Directions| && Column(m.x, m.z) == Step(Column(a.x, a.z), k);
    var m' :| m' in WalkableNeighbors(t, true, a.x, a.z, a.y, |Directions|) && Column(m'.x, m'.z) == Step(Column(a.x, a.z), k);
    assert b == Voxel(m'.x, m'.y, m'.z);
  }

  /** A route with at most one-block drops is a route with two-block drops allowed. */
  lemma {:induction false} SafeRouteIsRoute(t: TerrainData, w: seq<Voxel>, s: Voxel, goal: Column)
    requires IsRoute(t, false, w, s, goal)
    ensures IsRoute(t, true, w, s, goal)
  {
    forall i | 0 <= i < |w| - 1 ensures Allows(t, true, w[i], w[i + 1]) {
      SafeMoveIsMove(t, w[i], w[i + 1]);
    }
  }

  /** When the bot can reach a column without two-block drops, it can reach it with them. */
  lemma SafeReachableIsReachable(t: TerrainData, bot: Voxel, goal: Column)
    requires Reachable(t, false, bot, goal)
    ensures Reachable(t, true, bot, goal)
  {
    var s := ValidStart(bot.x, bot.y, bot.z, t.heightmap).value;
    var w :| IsRoute(t, false, w, s, goal);
    SafeRouteIsRoute(t, w, s, goal);
  }

  /** No route with two-block drops means no route at all. */
  lemma NoRouteAtAll(t: TerrainData, bot: Voxel, goal: Column)
    requires !Reachable(t, true, bot, goal)
    ensures !Reachable(t, false, bot, goal)
  {
    if Reachable(t, false, bot, goal) {
      SafeReachableIsReachable(t, bot, goal);
    }
  }
}
