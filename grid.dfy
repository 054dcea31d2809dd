/** Map cells and building facings, as the host game gives them (IntVec3, Rot4). */
module Grid {

  /** A map cell. x and z span the map; y is the altitude layer, 0 for every cell. */
  datatype IntVec3 = IntVec3(x: int, y: int, z: int)

  function Add(a: IntVec3, b: IntVec3): IntVec3
  {
    IntVec3(a.x + b.x, a.y + b.y, a.z + b.z)
  }

  function Abs(n: int): nat
  {
    if n < 0 then -n else n
  }

  /** The four facings of a building. */
  datatype Rot4 = North | East | South | West {

    /** The one-cell offset this facing points along (the host's Rot4.FacingCell). */
    function FacingCell(): (d: IntVec3)
      ensures d.y == 0 && Abs(d.x) + Abs(d.z) == 1
    {
      match this
      case North => IntVec3(0, 0, 1)
      case East => IntVec3(1, 0, 0)
      case South => IntVec3(0, 0, -1)
      case West => IntVec3(-1, 0, 0)
    }
  }

  /** The cell directly in front of a building standing on `c` with facing `rot`
      (`c + rot.FacingCell` in the host). */
  function Facing(c: IntVec3, rot: Rot4): (f: IntVec3)
    ensures f.y == c.y && Abs(f.x - c.x) + Abs(f.z - c.z) == 1
    ensures f != c
  {
    Add(c, rot.FacingCell())
  }
}
