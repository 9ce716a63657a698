/** The objects the collision layer consumes but does not own: other entities,
    the querying entity, the world view (its border, its spatial entity index and
    the block sweep), the chunk-aware block sweeper, and the caller's shape list. */
module Collaborators {
  import opened Geometry

  /** Another entity found by the spatial index: its box and its `isCollidable()`. */
  datatype Body = Body(id: nat, boundingBox: Box, collidable: bool)

  /** The querying entity: its own box, the border of its own world
      (`getWorld().getWorldBorder()`) and its `collidesWith(other)` relation. */
  datatype Entity = Entity(boundingBox: Box, worldBorder: Border, collidesWith: Body -> bool)

  /** The world view a query runs against.
      - `entitiesForCollision(box, entity)`: `WorldHelper.getEntitiesForCollision`, the
        candidate entities near `box`, without `entity` itself, in the index's order;
      - `borderCanCollide(entity, box)`: `WorldBorder.canCollide`;
      - `blockSweep(entity, box)`: the shapes the chunk-aware block sweep yields for `box`,
        in sweep order. */
  datatype World = World(
    border: Border,
    borderCanCollide: (Option<Entity>, Box) -> bool,
    entitiesForCollision: (Box, Option<Entity>) -> seq<Body>,
    blockSweep: (Option<Entity>, Box) -> seq<Shape>)

  /** A caller-owned `List<VoxelShape>` that the collision layer appends to. */
  class ShapeList {
    var elements: seq<Shape>

    constructor ()
      ensures elements == []
    {
      elements := [];
    }

    method Add(s: Shape)
      modifies this
      ensures elements == old(elements) + [s]
    {
      elements := elements + [s];
    }
  }

  /** The chunk-aware block sweeper, seen from outside: it hands out the shapes of
      its sweep one at a time and remembers the last one it handed out. */
  class BlockCollisionSweeper {
    var pending: seq<Shape>
    var lastCollision: Option<Shape>

    constructor (sweep: seq<Shape>)
      ensures pending == sweep && lastCollision == None
    {
      pending := sweep;
      lastCollision := None;
    }

    /** `computeNext`: the next shape of the sweep, or `None` (null) once it is exhausted. */
    method ComputeNext() returns (r: Option<Shape>)
      modifies this
      ensures old(pending) == [] ==> r == None && pending == [] && lastCollision == old(lastCollision)
      ensures old(pending) != [] ==>
        r == Some(old(pending)[0]) && pending == old(pending)[1..] && lastCollision == r
    {
      if pending == [] {
        r := None;
      } else {
        r := Some(pending[0]);
        pending := pending[1..];
        lastCollision := r;
      }
    }

    /** `collectAll`: drains the rest of the sweep, in order. */
    method CollectAll() returns (all: seq<Shape>)
      modifies this
      ensures all == old(pending) && pending == []
      ensures lastCollision == (if all == [] then old(lastCollision) else Some(all[|all| - 1]))
    {
      all := [];
      while pending != []
        invariant all + pending == old(pending)
        invariant lastCollision == (if all == [] then old(lastCollision) else Some(all[|all| - 1]))
        decreases |pending|
      {
        var s := ComputeNext();
        all := all + [s.value];
      }
    }

    /** `getLastCollision`. */
    function GetLastCollision(): Option<Shape>
      reads this
    {
      lastCollision
    }
  }
}
