/**
 * Block classification and the heightmap of walkable surfaces
 * (`_is_passable_block` and `_build_terrain_data` in
 * python-vs-core/src/vintage_story_core/pathfinding.py).
 */
module Terrain {
  import opened Wrappers
  import opened Text
  import opened Geometry
  import opened BlockTypes

  /**
   * Walk-through foliage: the lower-cased code contains "leaves" but not "woody", so woody leaf
   * variants, which may collide, are never passable.
   */
  predicate IsPassableBlock(code: string)
    ensures IsPassableBlock(code) <==>
      (exists i :: OccursAt(Lower(code), "leaves", i)) && !(exists i :: OccursAt(Lower(code), "woody", i))
  {
    var lower := Lower(code);
    ContainsIffOccurs(lower, "woody");
    ContainsIffOccurs(lower, "leaves");
    if Contains(lower, "woody") then false
    else Contains(lower, "leaves")
  }

  /** The pathfinder's liquid test: "water", "lava" or "liquid" in the lower-cased code. */
  predicate IsLiquidCode(code: string)
  {
    Contains(Lower(code), "water") || Contains(Lower(code), "lava") || Contains(Lower(code), "liquid")
  }

  /** The pathfinder reads `pos["x"]`, `pos["y"]`, `pos["z"]` without defaults, so all three must be present. */
  predicate HasPosition(b: RawBlock)
  {
    var c := CoordSource(b);
    c.x.Some? && c.y.Some? && c.z.Some?
  }

  /** The position the pathfinder reads, from `worldPos` when present, else from the flat keys. */
  function PositionOf(b: RawBlock): Voxel
    requires HasPosition(b)
  {
    var c := CoordSource(b);
    Voxel(c.x.value, c.y.value, c.z.value)
  }

  /** Every block of the scan has the coordinates the pathfinder reads. */
  predicate WellPositioned(blocks: seq<RawBlock>)
  {
    forall i :: 0 <= i < |blocks| ==> HasPosition(blocks[i])
  }

  /** A block that lands in `liquid_blocks`. */
  predicate IsLiquidBlock(b: RawBlock)
  {
    IsLiquidCode(CodeOf(b))
  }

  /** A block that lands in `solid_blocks`: not liquid, `isSolid` (default true), and not passable foliage. */
  predicate IsSolidBlock(b: RawBlock)
  {
    !IsLiquidBlock(b) && b.isSolid.GetOr(true) && !IsPassableBlock(CodeOf(b))
  }

  /** The positions of the solid blocks among the first `n` blocks of the scan. */
  function SolidSetOf(blocks: seq<RawBlock>, n: nat): set<Voxel>
    requires WellPositioned(blocks) && n <= |blocks|
  {
    set j | 0 <= j < n && IsSolidBlock(blocks[j]) :: PositionOf(blocks[j])
  }

  /** The positions of the liquid blocks among the first `n` blocks of the scan. */
  function LiquidSetOf(blocks: seq<RawBlock>, n: nat): set<Voxel>
    requires WellPositioned(blocks) && n <= |blocks|
  {
    set j | 0 <= j < n && IsLiquidBlock(blocks[j]) :: PositionOf(blocks[j])
  }

  /** The column -> surface y map the pathfinder walks on. */
  type Heightmap = map<Column, int>

  /** The scan as the pathfinder sees it: heightmap, solid positions, liquid positions. */
  datatype TerrainData = TerrainData(heightmap: Heightmap, solids: set<Voxel>, liquids: set<Voxel>)

  /** `y` is a walkable surface in column `c`: solid there and not solid directly above. */
  predicate IsSurface(solids: set<Voxel>, c: Column, y: int)
  {
    Voxel(c.x, y, c.z) in solids && Voxel(c.x, y + 1, c.z) !in solids
  }

  /**
   * Surface `y` is at least as good as surface `other`: the higher one without a bot height,
   * otherwise the one at least as close to the block under the bot's feet (`bot_y - 1`).
   */
  predicate Prefers(botY: Option<int>, y: int, other: int)
  {
    match botY
    case None => y >= other
    case Some(b) => Abs(y - (b - 1)) <= Abs(other - (b - 1))
  }

  /**
   * `hm` is a heightmap of `solids`: every entry is a surface (soundness), every column with a
   * surface has an entry (completeness), and the entry is a preferred surface of its column.
   */
  ghost predicate IsHeightmap(hm: Heightmap, solids: set<Voxel>, botY: Option<int>)
  {
    && (forall c :: c in hm ==> IsSurface(solids, c, hm[c]))
    && (forall v :: v in solids && IsSurface(solids, ColumnOf(v), v.y) ==>
          ColumnOf(v) in hm && Prefers(botY, hm[ColumnOf(v)], v.y))
  }

  /** `_build_terrain_data`: classify every block, then pick a surface for every column. */
  method BuildTerrainData(blocks: seq<RawBlock>, botY: Option<int>)
    returns (heightmap: Heightmap, solids: set<Voxel>, liquids: set<Voxel>)
    requires WellPositioned(blocks)
    ensures solids == SolidSetOf(blocks, |blocks|)
    ensures liquids == LiquidSetOf(blocks, |blocks|)
    ensures IsHeightmap(heightmap, solids, botY)
  {
    solids, liquids := ClassifyBlocks(blocks);
    heightmap := BuildHeightmap(solids, botY);
  }

  /** The first loop of `_build_terrain_data`: the solid and the liquid positions of the scan. */
  method ClassifyBlocks(blocks: seq<RawBlock>) returns (solids: set<Voxel>, liquids: set<Voxel>)
    requires WellPositioned(blocks)
    ensures solids == SolidSetOf(blocks, |blocks|)
    ensures liquids == LiquidSetOf(blocks, |blocks|)
  {
    solids, liquids := {}, {};
    for i := 0 to |blocks|
      invariant solids == SolidSetOf(blocks, i)
      invariant liquids == LiquidSetOf(blocks, i)
    {
      var block := blocks[i];
      var pos := PositionOf(block);
      var code := CodeOf(block);
      var isSolid := block.isSolid.GetOr(true);
      var isLiquid := IsLiquidCode(code);
      var isPassable := IsPassableBlock(code);
      if isLiquid {
        liquids := liquids + {pos};
      } else if isSolid && !isPassable {
        solids := solids + {pos};
      }
      ClassifiedSetsGrow(blocks, i);
    }
  }

  /**
   * The second loop of `_build_terrain_data`: every solid position with a non-solid cell above
   * is a surface of its column; the first one seen is recorded, and a later one replaces it when
   * it is strictly closer to `bot_y - 1` or, without a bot height, strictly higher.
   */
  method BuildHeightmap(solids: set<Voxel>, botY: Option<int>) returns (heightmap: Heightmap)
    ensures IsHeightmap(heightmap, solids, botY)
  {
    heightmap := map[];
    var remaining := solids;
    ghost var done: set<Voxel> := {};
    while remaining != {}
      invariant remaining + done == solids && remaining !! done
      invariant forall c :: c in heightmap ==> IsSurface(solids, c, heightmap[c])
      invariant forall v :: v in done && IsSurface(solids, ColumnOf(v), v.y) ==>
          ColumnOf(v) in heightmap && Prefers(botY, heightmap[ColumnOf(v)], v.y)
      decreases remaining
    {
      var v :| v in remaining;
      var key := ColumnOf(v);
      var above := Voxel(v.x, v.y + 1, v.z);
      if above !in solids {
        if key !in heightmap {
          heightmap := heightmap[key := v.y];
        } else if botY.Some? {
          var currentDist := Abs(heightmap[key] - (botY.value - 1));
          var newDist := Abs(v.y - (botY.value - 1));
          if newDist < currentDist {
            heightmap := heightmap[key := v.y];
          }
        } else if v.y > heightmap[key] {
          heightmap := heightmap[key := v.y];
        }
      }
      remaining := remaining - {v};
      done := done + {v};
    }
  }

  /** Classifying one more block adds at most its position to one of the two sets. */
  lemma ClassifiedSetsGrow(blocks: seq<RawBlock>, i: nat)
    requires WellPositioned(blocks) && i < |blocks|
    ensures SolidSetOf(blocks, i + 1) == SolidSetOf(blocks, i) + (if IsSolidBlock(blocks[i]) then {PositionOf(blocks[i])} else {})
    ensures LiquidSetOf(blocks, i + 1) == LiquidSetOf(blocks, i) + (if IsLiquidBlock(blocks[i]) then {PositionOf(blocks[i])} else {})
  {
  }

  /** Without a bot height the heightmap is determined: two heightmaps of the same solids are equal. */
  lemma HighestSurfaceIsDetermined(h1: Heightmap, h2: Heightmap, solids: set<Voxel>)
    requires IsHeightmap(h1, solids, None) && IsHeightmap(h2, solids, None)
    ensures h1 == h2
  {
    forall c | c in h1 ensures c in h2 && h2[c] == h1[c] {
      var v1 := Voxel(c.x, h1[c], c.z);
      assert ColumnOf(v1) == c && v1 in solids;
      var v2 := Voxel(c.x, h2[c], c.z);
      assert ColumnOf(v2) == c && v2 in solids;
    }
    forall c | c in h2 ensures c in h1 {
      var v2 := Voxel(c.x, h2[c], c.z);
      assert ColumnOf(v2) == c && v2 in solids;
    }
  }

  /** Without a bot height the entry of a column is its highest surface. */
  lemma HeightmapHoldsHighestSurface(hm: Heightmap, solids: set<Voxel>, c: Column, y: int)
    requires IsHeightmap(hm, solids, None)
    requires IsSurface(solids, c, y)
    ensures c in hm && y <= hm[c]
  {
    var v := Voxel(c.x, y, c.z);
    assert ColumnOf(v) == c && v in solids;
  }

  /** A block that is liquid is never solid, so with unique positions the two sets are disjoint. */
  lemma SolidAndLiquidAreDisjoint(blocks: seq<RawBlock>)
    requires WellPositioned(blocks)
    requires forall i, j :: 0 <= i < |blocks| && 0 <= j < |blocks| && PositionOf(blocks[i]) == PositionOf(blocks[j]) ==> i == j
    ensures SolidSetOf(blocks, |blocks|) !! LiquidSetOf(blocks, |blocks|)
  {
    forall v | v in SolidSetOf(blocks, |blocks|) ensures v !in LiquidSetOf(blocks, |blocks|) {
      var i :| 0 <= i < |blocks| && IsSolidBlock(blocks[i]) && PositionOf(blocks[i]) == v;
    }
  }

  /** The pathfinder's liquid test is `from_dict`'s with "lava" added. */
  lemma LiquidTestsDifferOnlyByLava(code: string)
    ensures IsLiquidCode(code) <==> IsLiquidInfoCode(code) || Contains(Lower(code), "lava")
  {
  }

  /** Where both parsers succeed they read the same position. */
  lemma PositionAgreesWithFromDict(b: RawBlock)
    requires HasPosition(b)
    ensures PositionOf(b) == FromDict(b).ToTuple()
  {
  }
}
