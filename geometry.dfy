/** Value types the collision layer works on: Minecraft's `Box`, `Vec3d`, the
    world border's four planar bounds and the opaque collision shapes.
    `Box` and its helpers belong to the game, not to the collision layer; they are
    given here the definitions the game's `Box` class has. */
module Geometry {

  datatype Option<+T> = None | Some(value: T)

  /** The sequence holding the value of `o`, or the empty sequence. */
  function ToSeq<T>(o: Option<T>): (r: seq<T>)
    ensures o.None? <==> r == []
    ensures o.Some? ==> r == [o.value]
  {
    match o
    case None => []
    case Some(v) => [v]
  }

  /** A movement vector (`Vec3d`). */
  datatype Vec3 = Vec3(x: real, y: real, z: real)

  datatype Axis = X | Y | Z

  function Min(a: real, b: real): real { if a <= b then a else b }
  function Max(a: real, b: real): real { if a <= b then b else a }

  /** An axis-aligned box: six bounds, replaced rather than updated. */
  datatype Box = Box(minX: real, minY: real, minZ: real, maxX: real, maxY: real, maxZ: real)
  {
    predicate WellFormed() { minX <= maxX && minY <= maxY && minZ <= maxZ }

    function Lo(a: Axis): real
    {
      match a
      case X => minX
      case Y => minY
      case Z => minZ
    }

    function Hi(a: Axis): real
    {
      match a
      case X => maxX
      case Y => maxY
      case Z => maxZ
    }

    /** `getAverageSideLength`: the mean of the three side lengths. */
    function AverageSideLength(): real
    {
      ((maxX - minX) + (maxY - minY) + (maxZ - minZ)) / 3.0
    }

    /** `expand(d)`: grows the box by `d` on every side. */
    function Expand(d: real): Box
    {
      Of(minX - d, minY - d, minZ - d, maxX + d, maxY + d, maxZ + d)
    }

    /** `stretch(v)`: moves the face each component of `v` points to by that component. */
    function Stretch(v: Vec3): Box
    {
      Of(if v.x < 0.0 then minX + v.x else minX,
         if v.y < 0.0 then minY + v.y else minY,
         if v.z < 0.0 then minZ + v.z else minZ,
         if v.x > 0.0 then maxX + v.x else maxX,
         if v.y > 0.0 then maxY + v.y else maxY,
         if v.z > 0.0 then maxZ + v.z else maxZ)
    }

    /** `union`: the smallest box holding both boxes. */
    function Union(other: Box): Box
    {
      Of(Min(minX, other.minX), Min(minY, other.minY), Min(minZ, other.minZ),
         Max(maxX, other.maxX), Max(maxY, other.maxY), Max(maxZ, other.maxZ))
    }
  }

  /** The game's `new Box(x1, y1, z1, x2, y2, z2)`: it orders each pair of bounds. */
  function Of(x1: real, y1: real, z1: real, x2: real, y2: real, z2: real): (b: Box)
    ensures b.WellFormed()
  {
    Box(Min(x1, x2), Min(y1, y2), Min(z1, z2), Max(x1, x2), Max(y1, y2), Max(z1, z2))
  }

  /** A world border: four horizontal bounds, unbounded vertically. */
  datatype Border = Border(west: real, east: real, north: real, south: real)

  /** An opaque collision shape (`VoxelShape`): the cuboid of an entity's box, the
      border's own shape (`asVoxelShape`), or block geometry from the grid. */
  datatype Shape = Cuboid(box: Box) | BorderShape(border: Border) | BlockShape(id: nat, empty: bool)
  {
    /** `isEmpty`: only grid shapes are tested for emptiness in this layer. */
    predicate IsEmpty() { BlockShape? && empty }
  }
}
