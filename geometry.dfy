/** Integer grid positions shared by the visibility filter and the pathfinder. */
module Geometry {

  /** A voxel (block) position; y is vertical. */
  datatype Voxel = Voxel(x: int, y: int, z: int)

  /** A vertical column of voxels, identified by its horizontal position. */
  datatype Column = Column(x: int, z: int)

  function ColumnOf(v: Voxel): Column
  {
    Column(v.x, v.z)
  }

  function Abs(n: int): nat
  {
    if n < 0 then -n else n
  }
}
