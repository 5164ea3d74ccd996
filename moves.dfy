/**
 * The movement rules of the pathfinder: head clearance, the walkable cardinal
 * neighbours of a column, the A* heuristic and the choice of a start cell
 * (python-vs-core/src/vintage_story_core/pathfinding.py).
 */
module Moves {
  import opened Wrappers
  import opened Geometry
  import opened Terrain

  /** The four cardinal offsets (dx, dz), in the order the neighbours are tried. */
  const Directions: seq<(int, int)> := [(1, 0), (-1, 0), (0, 1), (0, -1)]

  /** Move costs are kept as integers: ten times the source's 1, 1.1 and 1.3. */
  const CostScale: int := 10
  const MaxStepCost: int := 13

  /** The column reached from `c` along direction `k`. */
  function Step(c: Column, k: nat): Column
    requires k < |Directions|
  {
    Column(c.x + Directions[k].0, c.z + Directions[k].1)
  }

  /** A walkable neighbour `(nx, nz, ny, cost)`: its column, its surface height and the scaled move cost. */
  datatype Neighbor = Neighbor(x: int, z: int, y: int, cost: int)

  /** The scaled cost of a move whose surface height changes by `heightDiff`. */
  function StepCost(heightDiff: int): (cost: int)
    ensures heightDiff >= 0 ==> cost == CostScale
    ensures heightDiff == -1 ==> cost == 11
    ensures heightDiff < -1 ==> cost == MaxStepCost
    ensures CostScale <= cost <= MaxStepCost
  {
    if heightDiff < 0 then (if heightDiff == -1 then 11 else 13) else 10
  }

  /**
   * `_has_head_clearance`: the cell two above the surface (the bot's head) is not solid. On a
   * surface, whose cell above is free by definition, this means both cells the bot occupies are free.
   */
  predicate HasHeadClearance(x: int, surfaceY: int, z: int, solids: set<Voxel>)
    ensures IsSurface(solids, Column(x, z), surfaceY) ==>
      (HasHeadClearance(x, surfaceY, z, solids) <==>
         Voxel(x, surfaceY + 1, z) !in solids && Voxel(x, surfaceY + 2, z) !in solids)
  {
    Voxel(x, surfaceY + 2, z) !in solids
  }

  /**
   * The rules `_get_walkable_neighbors` applies to the column `(nx, nz)` next to `(x, z)`, standing
   * on `currentY`: the column has a surface `ny`, no liquid on it or just above it, a step up of
   * at most one block, a drop of at most one block (two when `allow2BlockDrop`), head clearance
   * there, and on a step up head clearance at the current column too.
   */
  predicate CanStep(t: TerrainData, allow2BlockDrop: bool, x: int, z: int, currentY: int, nx: int, nz: int)
  {
    && Column(nx, nz) in t.heightmap
    && var ny := t.heightmap[Column(nx, nz)];
    && Voxel(nx, ny, nz) !in t.liquids
    && Voxel(nx, ny + 1, nz) !in t.liquids
    && ny - currentY <= 1
    && (ny - currentY >= -1 || (allow2BlockDrop && ny - currentY >= -2))
    && HasHeadClearance(nx, ny, nz, t.solids)
    && (ny - currentY == 1 ==> Voxel(x, currentY + 2, z) !in t.solids)
  }

  /** The specification of `_get_walkable_neighbors`: the allowed moves along the first `n` directions, in order. */
  function WalkableNeighbors(t: TerrainData, allow2BlockDrop: bool, x: int, z: int, currentY: int, n: nat): seq<Neighbor>
    requires n <= |Directions|
  {
    if n == 0 then []
    else
      var rest := WalkableNeighbors(t, allow2BlockDrop, x, z, currentY, n - 1);
      var nx := x + Directions[n - 1].0;
      var nz := z + Directions[n - 1].1;
      if CanStep(t, allow2BlockDrop, x, z, currentY, nx, nz) then
        var ny := t.heightmap[Column(nx, nz)];
        rest + [Neighbor(nx, nz, ny, StepCost(ny - currentY))]
      else rest
  }

  /** `_get_walkable_neighbors`: try the four directions in order and keep the allowed moves. */
  method GetWalkableNeighbors(t: TerrainData, allow2BlockDrop: bool, x: int, z: int, currentY: int)
    returns (neighbors: seq<Neighbor>)
    ensures neighbors == WalkableNeighbors(t, allow2BlockDrop, x, z, currentY, |Directions|)
  {
    neighbors := [];
    for k := 0 to |Directions|
      invariant neighbors == WalkableNeighbors(t, allow2BlockDrop, x, z, currentY, k)
    {
      var (dx, dz) := Directions[k];
      var nx, nz := x + dx, z + dz;
      var key := Column(nx, nz);
      if key !in t.heightmap {
        continue;
      }
      var ny := t.heightmap[key];
      if Voxel(nx, ny, nz) in t.liquids || Voxel(nx, ny + 1, nz) in t.liquids {
        continue;
      }
      var heightDiff := ny - currentY;
      if heightDiff > 1 {
        continue;
      }
      if heightDiff < -1 {
        if !allow2BlockDrop || heightDiff < -2 {
          continue;
        }
      }
      if !HasHeadClearance(nx, ny, nz, t.solids) {
        continue;
      }
      if heightDiff == 1 {
        if Voxel(x, currentY + 2, z) in t.solids {
          continue;
        }
      }
      var cost := 10;
      if heightDiff < 0 {
        cost := if heightDiff == -1 then 11 else 13;
      }
      neighbors := neighbors + [Neighbor(nx, nz, ny, cost)];
    }
  }

  /** Every returned neighbour is a cardinal step that obeys the movement rules, with its surface height and cost. */
  lemma {:induction false} WalkableNeighborsAreLegal(t: TerrainData, allow2BlockDrop: bool, x: int, z: int, currentY: int, n: nat)
    requires n <= |Directions|
    ensures forall m :: m in WalkableNeighbors(t, allow2BlockDrop, x, z, currentY, n) ==>
      && (exists k :: 0 <= k < n && Column(m.x, m.z) == Step(Column(x, z), k))
      && CanStep(t, allow2BlockDrop, x, z, currentY, m.x, m.z)
      && m.y == t.heightmap[Column(m.x, m.z)]
      && m.cost == StepCost(m.y - currentY)
  {
    if n > 0 {
      WalkableNeighborsAreLegal(t, allow2BlockDrop, x, z, currentY, n - 1);
      var rest := WalkableNeighbors(t, allow2BlockDrop, x, z, currentY, n - 1);
      forall m | m in WalkableNeighbors(t, allow2BlockDrop, x, z, currentY, n) && m !in rest
        ensures Column(m.x, m.z) == Step(Column(x, z), n - 1)
      {
      }
    }
  }

  /** Every cardinal step that obeys the movement rules is among the returned neighbours. */
  lemma {:induction false} WalkableNeighborsAreComplete(t: TerrainData, allow2BlockDrop: bool, x: int, z: int, currentY: int, n: nat)
    requires n <= |Directions|
    ensures forall k :: 0 <= k < n && CanStep(t, allow2BlockDrop, x, z, currentY, Step(Column(x, z), k).x, Step(Column(x, z), k).z) ==>
      exists m :: m in WalkableNeighbors(t, allow2BlockDrop, x, z, currentY, n) && Column(m.x, m.z) == Step(Column(x, z), k)
  {
    if n > 0 {
      WalkableNeighborsAreComplete(t, allow2BlockDrop, x, z, currentY, n - 1);
      var c := Column(x, z);
      var rest := WalkableNeighbors(t, allow2BlockDrop, x, z, currentY, n - 1);
      var all := WalkableNeighbors(t, allow2BlockDrop, x, z, currentY, n);
      forall k | 0 <= k < n && CanStep(t, allow2BlockDrop, x, z, currentY, Step(c, k).x, Step(c, k).z)
        ensures exists m :: m in all && Column(m.x, m.z) == Step(c, k)
      {
        if k < n - 1 {
          var m :| m in rest && Column(m.x, m.z) == Step(c, k);
          assert m in all;
        } else {
          var m := all[|all| - 1];
          assert m in all && Column(m.x, m.z) == Step(c, k);
        }
      }
    }
  }

  /** `_heuristic`: the Manhattan distance between two columns. */
  function Heuristic(x1: int, z1: int, x2: int, z2: int): (h: int)
    ensures h >= 0
    ensures h == 0 <==> x1 == x2 && z1 == z2
  {
    Abs(x2 - x1) + Abs(z2 - z1)
  }

  /** The scaled heuristic never drops by more than the cheapest move: it is consistent, hence admissible. */
  lemma HeuristicIsConsistent(c: Column, k: nat, goal: Column)
    requires k < |Directions|
    ensures CostScale * Heuristic(c.x, c.z, goal.x, goal.z)
      <= CostScale + CostScale * Heuristic(Step(c, k).x, Step(c, k).z, goal.x, goal.z)
  {
  }

  /** The nine `(dx, dz)` offsets `_find_valid_start` tries: the bot's column, the cardinals, the diagonals. */
  const SearchOffsets: seq<(int, int)> :=
    [(0, 0), (1, 0), (-1, 0), (0, 1), (0, -1), (1, 1), (1, -1), (-1, 1), (-1, -1)]

  /** The column at offset `k` from the bot's column. */
  function OffsetColumn(botX: int, botZ: int, k: nat): Column
    requires k < |SearchOffsets|
  {
    Column(botX + SearchOffsets[k].0, botZ + SearchOffsets[k].1)
  }

  /** Offset `k` gives a start: its column has a surface within 2 of the bot's y. */
  predicate StartQualifies(botX: int, botY: int, botZ: int, hm: Heightmap, k: nat)
    requires k < |SearchOffsets|
  {
    var key := OffsetColumn(botX, botZ, k);
    key in hm && Abs(hm[key] - botY) <= 2
  }

  /** The surface cell of the column at offset `k`. */
  function StartCell(botX: int, botZ: int, hm: Heightmap, k: nat): Voxel
    requires k < |SearchOffsets| && OffsetColumn(botX, botZ, k) in hm
  {
    var key := OffsetColumn(botX, botZ, k);
    Voxel(key.x, hm[key], key.z)
  }

  /** The specification of `_find_valid_start`: the first qualifying offset from `k` on. */
  function FirstStartFrom(botX: int, botY: int, botZ: int, hm: Heightmap, k: nat): Option<Voxel>
    requires k <= |SearchOffsets|
    decreases |SearchOffsets| - k
  {
    if k == |SearchOffsets| then None
    else if StartQualifies(botX, botY, botZ, hm, k) then Some(StartCell(botX, botZ, hm, k))
    else FirstStartFrom(botX, botY, botZ, hm, k + 1)
  }

  function ValidStart(botX: int, botY: int, botZ: int, hm: Heightmap): Option<Voxel>
  {
    FirstStartFrom(botX, botY, botZ, hm, 0)
  }

  /** `_find_valid_start`: try the offsets in order and return the first that qualifies. */
  method FindValidStart(botX: int, botY: int, botZ: int, hm: Heightmap) returns (start: Option<Voxel>)
    ensures start == ValidStart(botX, botY, botZ, hm)
  {
    for k := 0 to |SearchOffsets|
      invariant FirstStartFrom(botX, botY, botZ, hm, k) == ValidStart(botX, botY, botZ, hm)
    {
      var (dx, dz) := SearchOffsets[k];
      var checkX, checkZ := botX + dx, botZ + dz;
      var key := Column(checkX, checkZ);
      if key !in hm {
        continue;
      }
      var surfaceY := hm[key];
      if Abs(surfaceY - botY) <= 2 {
        return Some(Voxel(checkX, surfaceY, checkZ));
      }
    }
    return None;
  }

  /** The start is the surface cell of the first qualifying offset; there is none exactly when no offset qualifies. */
  lemma {:induction false} ValidStartIsFirstQualifying(botX: int, botY: int, botZ: int, hm: Heightmap, k: nat)
    requires k <= |SearchOffsets|
    ensures FirstStartFrom(botX, botY, botZ, hm, k).None? <==>
      forall j :: k <= j < |SearchOffsets| ==> !StartQualifies(botX, botY, botZ, hm, j)
    ensures FirstStartFrom(botX, botY, botZ, hm, k).Some? ==>
      exists j :: k <= j < |SearchOffsets| && StartQualifies(botX, botY, botZ, hm, j)
        && FirstStartFrom(botX, botY, botZ, hm, k) == Some(StartCell(botX, botZ, hm, j))
        && forall i :: k <= i < j ==> !StartQualifies(botX, botY, botZ, hm, i)
    decreases |SearchOffsets| - k
  {
    if k < |SearchOffsets| {
      ValidStartIsFirstQualifying(botX, botY, botZ, hm, k + 1);
    }
  }

  /**
   * A valid start lies within Chebyshev distance 1 of the bot, is the surface cell of its
   * column, and is within 2 of the bot's y.
   */
  lemma ValidStartIsNear(botX: int, botY: int, botZ: int, hm: Heightmap)
    ensures ValidStart(botX, botY, botZ, hm).Some? ==>
      var s := ValidStart(botX, botY, botZ, hm).value;
      && Abs(s.x - botX) <= 1 && Abs(s.z - botZ) <= 1
      && Column(s.x, s.z) in hm && hm[Column(s.x, s.z)] == s.y
      && Abs(s.y - botY) <= 2
  {
    ValidStartIsFirstQualifying(botX, botY, botZ, hm, 0);
    if ValidStart(botX, botY, botZ, hm).Some? {
      var j :| 0 <= j < |SearchOffsets| && StartQualifies(botX, botY, botZ, hm, j)
        && ValidStart(botX, botY, botZ, hm) == Some(StartCell(botX, botZ, hm, j));
      assert -1 <= SearchOffsets[j].0 <= 1 && -1 <= SearchOffsets[j].1 <= 1;
    }
  }
}
