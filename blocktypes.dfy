/**
 * The raw block records of a scan and their normalised form, `BlockInfo`
 * (python-vs-core/src/vintage_story_core/types.py).
 */
module BlockTypes {
  import opened Wrappers
  import opened Text
  import opened Geometry

  /** The coordinate keys of a block dictionary, each of which may be missing. */
  datatype Coords = Coords(x: Option<int>, y: Option<int>, z: Option<int>)

  /**
   * A block dictionary as the scan delivers it: an optional nested `worldPos`
   * dictionary, the flat `x`/`y`/`z` keys, and the optional `code` and `isSolid` keys.
   */
  datatype RawBlock = RawBlock(worldPos: Option<Coords>, flat: Coords, code: Option<string>, isSolid: Option<bool>)

  /** A normalised block: integer position, block code, solidity and liquid flags. */
  datatype BlockInfo = BlockInfo(x: int, y: int, z: int, code: string, isSolid: bool, isLiquid: bool)
  {
    /** The block's position as an (x, y, z) triple. */
    function ToTuple(): (p: Voxel)
      ensures p.x == x && p.y == y && p.z == z
    {
      Voxel(x, y, z)
    }
  }

  /** `data.get("code", "")`. */
  function CodeOf(data: RawBlock): string
  {
    data.code.GetOr("")
  }

  /** The air test of `from_dict`: the code is "air", empty, or contains "air" once lower-cased. */
  predicate IsAirCode(code: string)
  {
    code == "air" || code == "" || Contains(Lower(code), "air")
  }

  /** The liquid test of `from_dict`; unlike the pathfinder it does not look for "lava". */
  predicate IsLiquidInfoCode(code: string)
  {
    Contains(Lower(code), "water") || Contains(Lower(code), "liquid")
  }

  /** The coordinates `from_dict` reads: the nested `worldPos` when that key is present, otherwise the flat keys. */
  function CoordSource(data: RawBlock): Coords
  {
    if data.worldPos.Some? then data.worldPos.value else data.flat
  }

  /** `BlockInfo.from_dict`: missing coordinates default to 0, a present `isSolid` is taken verbatim. */
  function FromDict(data: RawBlock): (info: BlockInfo)
    ensures info.x == CoordSource(data).x.GetOr(0)
    ensures info.y == CoordSource(data).y.GetOr(0)
    ensures info.z == CoordSource(data).z.GetOr(0)
    ensures info.code == CodeOf(data)
    ensures info.isLiquid <==> IsLiquidInfoCode(CodeOf(data))
    ensures data.isSolid.Some? ==> info.isSolid == data.isSolid.value
    ensures data.isSolid.None? ==> (info.isSolid <==> !IsAirCode(CodeOf(data)) && !info.isLiquid)
  {
    var c := CoordSource(data);
    var x := c.x.GetOr(0);
    var y := c.y.GetOr(0);
    var z := c.z.GetOr(0);
    var code := CodeOf(data);
    var isAir := IsAirCode(code);
    var isLiquid := IsLiquidInfoCode(code);
    var isSolid := if data.isSolid.Some? then data.isSolid.value else !isAir && !isLiquid;
    BlockInfo(x, y, z, code, isSolid, isLiquid)
  }

  /** The flat dictionary `{"x": .., "y": .., "z": .., "code": .., "isSolid": ..}` for a position. */
  function FlatDict(p: Voxel, code: Option<string>, isSolid: Option<bool>): RawBlock
  {
    RawBlock(None, Coords(Some(p.x), Some(p.y), Some(p.z)), code, isSolid)
  }

  /** The nested dictionary `{"worldPos": {"x": .., "y": .., "z": ..}, ...}` for a position. */
  function NestedDict(p: Voxel, flat: Coords, code: Option<string>, isSolid: Option<bool>): RawBlock
  {
    RawBlock(Some(Coords(Some(p.x), Some(p.y), Some(p.z))), flat, code, isSolid)
  }

  /**
   * Parsing a dictionary written in either format and taking `to_tuple` gives back
   * the position it was written from; in the nested format the flat keys are ignored.
   */
  lemma ParseThenTupleRecoversPosition(p: Voxel, flat: Coords, code: Option<string>, isSolid: Option<bool>)
    ensures FromDict(FlatDict(p, code, isSolid)).ToTuple() == p
    ensures FromDict(NestedDict(p, flat, code, isSolid)).ToTuple() == p
  {
  }

  /** A coordinate that is missing from the format in use reads as 0. */
  lemma MissingCoordinatesReadAsZero(data: RawBlock)
    requires CoordSource(data) == Coords(None, None, None)
    ensures FromDict(data).ToTuple() == Voxel(0, 0, 0)
  {
  }

  /** The separate `code == "air"` test adds nothing: an air code is an empty one or one containing "air". */
  lemma AirIffEmptyOrContainsAir(code: string)
    ensures IsAirCode(code) <==> code == "" || Contains(Lower(code), "air")
  {
    if code == "air" {
      assert Lower(code) == "air";
      assert Lower(code)[..3] == "air";
    }
  }
}
