/** The entity collision query layer of LithiumEntityCollisions: the fast
    world-border test, the single-axis box reduction, the eager and the lazy
    enumeration of entity and world-border collision shapes, and the helpers that
    movement code calls to collect or test collisions. */
module EntityCollisions {
  import opened Geometry
  import opened Collaborators

  /** `EPSILON = 1.0E-7`. */
  const EPSILON: real := 0.0000001

  // ---------------------------------------------------------------------------
  // World-border fast test
  // ---------------------------------------------------------------------------

  /** `Math.floor` and `Math.ceil` on the border's bounds. */
  function FloorOf(x: real): real { x.Floor as real }
  function CeilOf(x: real): real { (-((-x).Floor)) as real }

  predicate IsIntegral(x: real) { x.Floor as real == x }

  predicate InRange(v: real, lo: real, hi: real) { lo <= v <= hi }

  /** `isWithinWorldBorder`: the border is rounded outward to whole grid units and
      the box's four horizontal bounds are compared against it. */
  function IsWithinWorldBorder(border: Border, box: Box): (r: bool)
    ensures r <==>
      && InRange(box.minX, FloorOf(border.west), CeilOf(border.east))
      && InRange(box.maxX, FloorOf(border.west), CeilOf(border.east))
      && InRange(box.minZ, FloorOf(border.north), CeilOf(border.south))
      && InRange(box.maxZ, FloorOf(border.north), CeilOf(border.south))
  {
    var wMinX := FloorOf(border.west);
    var wMinZ := FloorOf(border.north);
    var wMaxX := CeilOf(border.east);
    var wMaxZ := CeilOf(border.south);
    box.minX >= wMinX && box.minX <= wMaxX && box.minZ >= wMinZ && box.minZ <= wMaxZ &&
    box.maxX >= wMinX && box.maxX <= wMaxX && box.maxZ >= wMinZ && box.maxZ <= wMaxZ
  }

  /** The exact, unrounded containment the fast test stands in for. */
  predicate InsideBorderExactly(border: Border, box: Box)
  {
    InRange(box.minX, border.west, border.east) && InRange(box.maxX, border.west, border.east) &&
    InRange(box.minZ, border.north, border.south) && InRange(box.maxZ, border.north, border.south)
  }

  /** Floor and ceiling lie within one unit of `x`, and both are `x` itself when `x`
      is a whole number. */
  lemma RoundingBounds(x: real)
    ensures FloorOf(x) <= x < FloorOf(x) + 1.0
    ensures CeilOf(x) - 1.0 < x <= CeilOf(x)
    ensures IsIntegral(x) ==> FloorOf(x) == x && CeilOf(x) == x
  {
    assert FloorOf(-x) <= -x < FloorOf(-x) + 1.0;
    if IsIntegral(x) {
      assert (-x).Floor == -(x.Floor);
    }
  }

  /** The vertical extent of the box is never consulted. */
  lemma WithinBorderIgnoresVerticalExtent(border: Border, box: Box, minY: real, maxY: real)
    ensures IsWithinWorldBorder(border, box) == IsWithinWorldBorder(border, box.(minY := minY, maxY := maxY))
  {
  }

  /** Outward rounding is conservative: a box inside the unrounded border is reported within. */
  lemma InsideBorderIsWithin(border: Border, box: Box)
    requires InsideBorderExactly(border, box)
    ensures IsWithinWorldBorder(border, box)
  {
    RoundingBounds(border.west);
    RoundingBounds(border.east);
    RoundingBounds(border.north);
    RoundingBounds(border.south);
  }

  /** The approximation stays below one grid unit: a box reported within lies strictly
      less than one unit outside the unrounded border on every side. */
  lemma WithinBorderIsLessThanOneUnitOutside(border: Border, box: Box)
    requires IsWithinWorldBorder(border, box)
    ensures border.west - 1.0 < box.minX && box.minX < border.east + 1.0
    ensures border.west - 1.0 < box.maxX && box.maxX < border.east + 1.0
    ensures border.north - 1.0 < box.minZ && box.minZ < border.south + 1.0
    ensures border.north - 1.0 < box.maxZ && box.maxZ < border.south + 1.0
  {
    RoundingBounds(border.west);
    RoundingBounds(border.east);
    RoundingBounds(border.north);
    RoundingBounds(border.south);
  }

  /** On a border whose bounds are whole grid units the fast test is exact. */
  lemma IntegralBorderIsExact(border: Border, box: Box)
    requires IsIntegral(border.west) && IsIntegral(border.east)
    requires IsIntegral(border.north) && IsIntegral(border.south)
    ensures IsWithinWorldBorder(border, box) <==> InsideBorderExactly(border, box)
  {
    RoundingBounds(border.west);
    RoundingBounds(border.east);
    RoundingBounds(border.north);
    RoundingBounds(border.south);
  }

  /** A box reaching one unit past the west edge of a 16 by 16 border is not within it. */
  lemma BoxCrossingWestEdgeIsNotWithin()
    ensures !IsWithinWorldBorder(Border(0.0, 16.0, 0.0, 16.0), Box(-1.0, 0.0, -1.0, 1.0, 1.0, 1.0))
  {
    RoundingBounds(0.0);
  }

  /** `isBoxEmpty`: the average side length is at most EPSILON. */
  function IsBoxEmpty(box: Box): (r: bool)
    ensures r <==> (box.maxX - box.minX) + (box.maxY - box.minY) + (box.maxZ - box.minZ) <= 3.0 * EPSILON
    ensures r && box.WellFormed() ==>
      box.maxX - box.minX <= 3.0 * EPSILON && box.maxY - box.minY <= 3.0 * EPSILON &&
      box.maxZ - box.minZ <= 3.0 * EPSILON
  {
    box.AverageSideLength() <= EPSILON
  }

  /** `getWorldBorderCollision`: the view's border shape when the border can collide
      with `entity` at `box`, otherwise null. */
  function GetWorldBorderCollision(view: World, entity: Option<Entity>, box: Box): (r: Option<Shape>)
    ensures r.Some? <==> view.borderCanCollide(entity, box)
    ensures r.Some? ==> r.value == BorderShape(view.border)
  {
    if view.borderCanCollide(entity, box) then Some(BorderShape(view.border)) else None
  }

  /** `doesBoxCollideWithWorldBorder`; `matchesAnywhere(a, b)` stands for the shape
      system's `VoxelShapes.matchesAnywhere(a, b, AND)`. */
  function DoesBoxCollideWithWorldBorder(view: World, entity: Option<Entity>, box: Box,
                                         matchesAnywhere: (Shape, Shape) -> bool): (r: bool)
    ensures IsWithinWorldBorder(view.border, box) ==> !r
    ensures r <==> !IsWithinWorldBorder(view.border, box) && view.borderCanCollide(entity, box) &&
                   matchesAnywhere(BorderShape(view.border), Cuboid(box))
  {
    if IsWithinWorldBorder(view.border, box) then
      false
    else
      var worldBorderShape := GetWorldBorderCollision(view, entity, box);
      worldBorderShape.Some? && matchesAnywhere(worldBorderShape.value, Cuboid(box))
  }

  /** A box inside the unrounded border never collides with it, whatever the shape
      system and the border's capability would say. */
  lemma InsideBorderNeverCollidesWithIt(view: World, entity: Option<Entity>, box: Box,
                                        matchesAnywhere: (Shape, Shape) -> bool)
    requires InsideBorderExactly(view.border, box)
    ensures !DoesBoxCollideWithWorldBorder(view, entity, box, matchesAnywhere)
  {
    InsideBorderIsWithin(view.border, box);
  }

  /** The border inclusion rule of the iterator and of `appendWorldBorderCollision`:
      the border's shape, when the query box is not within the border of the entity's
      world while the entity's own box is. */
  function WorldBorderShape(entity: Entity, box: Box): (r: Option<Shape>)
    ensures r.Some? <==>
      !IsWithinWorldBorder(entity.worldBorder, box) && IsWithinWorldBorder(entity.worldBorder, entity.boundingBox)
    ensures r.Some? ==> r.value == BorderShape(entity.worldBorder)
  {
    var border := entity.worldBorder;
    if !IsWithinWorldBorder(border, box) && IsWithinWorldBorder(border, entity.boundingBox) then
      Some(BorderShape(border))
    else
      None
  }

  /** The border shape is produced only for a query that leaves the border, and never
      for an entity that is itself already outside it. */
  lemma WorldBorderShapeOnlyWhenLeaving(entity: Entity, box: Box)
    ensures InsideBorderExactly(entity.worldBorder, box) ==> WorldBorderShape(entity, box) == None
    ensures !IsWithinWorldBorder(entity.worldBorder, entity.boundingBox) ==> WorldBorderShape(entity, box) == None
    ensures InsideBorderExactly(entity.worldBorder, entity.boundingBox) && !IsWithinWorldBorder(entity.worldBorder, box) ==>
              WorldBorderShape(entity, box) == Some(BorderShape(entity.worldBorder))
  {
    if InsideBorderExactly(entity.worldBorder, box) {
      InsideBorderIsWithin(entity.worldBorder, box);
    }
    if InsideBorderExactly(entity.worldBorder, entity.boundingBox) {
      InsideBorderIsWithin(entity.worldBorder, entity.boundingBox);
    }
  }

  // ---------------------------------------------------------------------------
  // Single-axis box reduction
  // ---------------------------------------------------------------------------

  /** `getSmallerBoxForSingleAxisMovement`: for the first non-zero velocity among Y, X
      and Z, the box is replaced on that axis by the slab it is about to enter; with no
      non-zero velocity it is stretched by the whole movement. */
  function GetSmallerBoxForSingleAxisMovement(movement: Vec3, b: Box, velY: real, velX: real, velZ: real): (r: Box)
    ensures r.WellFormed()
  {
    if velY > 0.0 then Of(b.minX, b.maxY, b.minZ, b.maxX, b.maxY + velY, b.maxZ)
    else if velY < 0.0 then Of(b.minX, b.minY + velY, b.minZ, b.maxX, b.minY, b.maxZ)
    else if velX > 0.0 then Of(b.maxX, b.minY, b.minZ, b.maxX + velX, b.maxY, b.maxZ)
    else if velX < 0.0 then Of(b.minX + velX, b.minY, b.minZ, b.minX, b.maxY, b.maxZ)
    else if velZ > 0.0 then Of(b.minX, b.minY, b.maxZ, b.maxX, b.maxY, b.maxZ + velZ)
    else if velZ < 0.0 then Of(b.minX, b.minY, b.minZ + velZ, b.maxX, b.maxY, b.minZ)
    else b.Stretch(movement)
  }

  /** The axis the reduction works on: the first of Y, X, Z with a non-zero velocity. */
  function LeadingAxis(velY: real, velX: real, velZ: real): Option<(Axis, real)>
  {
    if velY != 0.0 then Some((Y, velY))
    else if velX != 0.0 then Some((X, velX))
    else if velZ != 0.0 then Some((Z, velZ))
    else None
  }

  /** The displacement by `v` along `a` alone. */
  function AlongAxis(a: Axis, v: real): Vec3
  {
    match a
    case X => Vec3(v, 0.0, 0.0)
    case Y => Vec3(0.0, v, 0.0)
    case Z => Vec3(0.0, 0.0, v)
  }

  /** The extent the reduction gives each axis of a well-formed box. */
  lemma SingleAxisReduction(movement: Vec3, b: Box, velY: real, velX: real, velZ: real)
    requires b.WellFormed()
    ensures var r := GetSmallerBoxForSingleAxisMovement(movement, b, velY, velX, velZ);
            match LeadingAxis(velY, velX, velZ)
            case None => r == b.Stretch(movement)
            case Some((a, v)) =>
              && (v > 0.0 ==> r.Lo(a) == b.Hi(a) && r.Hi(a) == b.Hi(a) + v)
              && (v < 0.0 ==> r.Lo(a) == b.Lo(a) + v && r.Hi(a) == b.Lo(a))
              && (forall o: Axis :: o != a ==> r.Lo(o) == b.Lo(o) && r.Hi(o) == b.Hi(o))
  {
  }

  /** Only the leading velocity matters: the ones after it are ignored. */
  lemma LaterVelocitiesAreIgnored(movement: Vec3, b: Box, velY: real, velX: real, velZ: real, velX': real, velZ': real)
    ensures velY != 0.0 ==>
      GetSmallerBoxForSingleAxisMovement(movement, b, velY, velX, velZ) ==
      GetSmallerBoxForSingleAxisMovement(movement, b, velY, velX', velZ')
    ensures velY == 0.0 && velX != 0.0 ==>
      GetSmallerBoxForSingleAxisMovement(movement, b, velY, velX, velZ) ==
      GetSmallerBoxForSingleAxisMovement(movement, b, velY, velX, velZ')
  {
  }

  /** The reduction loses nothing a full sweep along the leading axis would find: the
      reduced box starts at the old leading face, and together with the original box it
      spans exactly the box swept by the leading displacement. */
  lemma ReductionCoversLeadingSweep(movement: Vec3, b: Box, velY: real, velX: real, velZ: real)
    requires b.WellFormed()
    requires LeadingAxis(velY, velX, velZ).Some?
    ensures var (a, v) := LeadingAxis(velY, velX, velZ).value;
            var r := GetSmallerBoxForSingleAxisMovement(movement, b, velY, velX, velZ);
            && (if v > 0.0 then r.Lo(a) == b.Hi(a) else r.Hi(a) == b.Lo(a))
            && r.Union(b) == b.Stretch(AlongAxis(a, v))
  {
  }

  /** Falling by 0.5 from a box spanning heights 10 to 11 gives the slab from 9.5 to 10. */
  lemma FallingBoxReducesToSlabBelow()
    ensures GetSmallerBoxForSingleAxisMovement(Vec3(0.0, -0.5, 0.0), Box(0.0, 10.0, 0.0, 1.0, 11.0, 1.0), -0.5, 0.0, 0.0)
            == Box(0.0, 9.5, 0.0, 1.0, 10.0, 1.0)
  {
  }

  // ---------------------------------------------------------------------------
  // Candidate filter and the eager enumeration
  // ---------------------------------------------------------------------------

  /** The filter of `appendEntityCollisions`: `isCollidable()` without a querying
      entity, `entity.collidesWith(other)` with one. */
  function Admits(entity: Option<Entity>, other: Body): (r: bool)
    ensures entity.None? ==> (r <==> other.collidable)
    ensures entity.Some? ==> (r <==> entity.value.collidesWith(other))
  {
    match entity
    case None => other.collidable
    case Some(e) => e.collidesWith(other)
  }

  /** The candidates that pass the filter, in candidate order. */
  function Filter(entity: Option<Entity>, candidates: seq<Body>): (r: seq<Body>)
    ensures |r| <= |candidates|
    ensures forall k :: 0 <= k < |r| ==> Admits(entity, r[k]) && r[k] in candidates
    ensures forall k :: 0 <= k < |candidates| && Admits(entity, candidates[k]) ==> candidates[k] in r
  {
    if candidates == [] then []
    else (if Admits(entity, candidates[0]) then [candidates[0]] else []) + Filter(entity, candidates[1..])
  }

  lemma {:induction false} CuboidsDistributes(a: seq<Body>, b: seq<Body>)
    ensures Cuboids(a + b) == Cuboids(a) + Cuboids(b)
  {
    if a != [] {
      assert (a + b)[0] == a[0];
      assert (a + b)[1..] == a[1..] + b;
      CuboidsDistributes(a[1..], b);
      ConcatAssociates([Cuboid(a[0].boundingBox)], Cuboids(a[1..]), Cuboids(b));
    } else {
      assert a + b == b;
    }
  }

  lemma {:induction false} FilterDistributes(entity: Option<Entity>, a: seq<Body>, b: seq<Body>)
    ensures Filter(entity, a + b) == Filter(entity, a) + Filter(entity, b)
  {
    if a != [] {
      var head := if Admits(entity, a[0]) then [a[0]] else [];
      assert (a + b)[0] == a[0];
      assert (a + b)[1..] == a[1..] + b;
      FilterDistributes(entity, a[1..], b);
      assert Filter(entity, a + b) == head + Filter(entity, a[1..] + b);
      assert Filter(entity, a) == head + Filter(entity, a[1..]);
    } else {
      assert a + b == b;
    }
  }

  /** The filter drops nothing exactly when every candidate is admitted. */
  lemma {:induction false} FilterKeepsAllIffAllAdmitted(entity: Option<Entity>, candidates: seq<Body>)
    ensures |Filter(entity, candidates)| == |candidates| <==>
            forall k :: 0 <= k < |candidates| ==> Admits(entity, candidates[k])
    ensures (forall k :: 0 <= k < |candidates| ==> Admits(entity, candidates[k])) ==>
            Filter(entity, candidates) == candidates
  {
    if candidates != [] {
      var tail := candidates[1..];
      FilterKeepsAllIffAllAdmitted(entity, tail);
      if forall k :: 0 <= k < |tail| ==> Admits(entity, tail[k]) {
        if Admits(entity, candidates[0]) {
          assert forall k :: 0 <= k < |candidates| ==> Admits(entity, candidates[k]) by {
            forall k | 0 <= k < |candidates| ensures Admits(entity, candidates[k]) {
              if k > 0 { assert candidates[k] == tail[k - 1]; }
            }
          }
          assert candidates == [candidates[0]] + tail;
        }
      } else {
        var k :| 0 <= k < |tail| && !Admits(entity, tail[k]);
        assert candidates[k + 1] == tail[k];
      }
    }
  }

  /** The cuboids of the candidates' boxes, in order. */
  function Cuboids(bodies: seq<Body>): (r: seq<Shape>)
    ensures |r| == |bodies|
    ensures forall k :: 0 <= k < |r| ==> r[k] == Cuboid(bodies[k].boundingBox)
  {
    if bodies == [] then [] else [Cuboid(bodies[0].boundingBox)] + Cuboids(bodies[1..])
  }

  /** Filtering one more candidate adds its cuboid exactly when the filter admits it. */
  lemma CuboidsOfFilterStep(entity: Option<Entity>, candidates: seq<Body>, i: nat)
    requires i < |candidates|
    ensures Cuboids(Filter(entity, candidates[..i + 1])) ==
      Cuboids(Filter(entity, candidates[..i])) +
      (if Admits(entity, candidates[i]) then [Cuboid(candidates[i].boundingBox)] else [])
  {
    var now := if Admits(entity, candidates[i]) then [candidates[i]] else [];
    assert candidates[..i + 1] == candidates[..i] + [candidates[i]];
    assert Filter(entity, [candidates[i]]) == now;
    FilterDistributes(entity, candidates[..i], [candidates[i]]);
    CuboidsDistributes(Filter(entity, candidates[..i]), now);
  }

  /** What `appendEntityCollisions` adds: nothing for an empty box, otherwise one cuboid
      per admitted candidate near the box grown by EPSILON, in candidate order. */
  function EntityCollisionsFor(world: World, entity: Option<Entity>, box: Box): seq<Shape>
  {
    if IsBoxEmpty(box) then []
    else Cuboids(Filter(entity, world.entitiesForCollision(box.Expand(EPSILON), entity)))
  }

  /** `appendEntityCollisions`. */
  method AppendEntityCollisions(entityCollisions: ShapeList, world: World, entity: Option<Entity>, box: Box)
    modifies entityCollisions
    ensures entityCollisions.elements == old(entityCollisions.elements) + EntityCollisionsFor(world, entity, box)
  {
    if IsBoxEmpty(box) {
      return;
    }
    var expandedBox := box.Expand(EPSILON);
    var candidates := world.entitiesForCollision(expandedBox, entity);
    ghost var added: seq<Shape> := [];
    for i := 0 to |candidates|
      invariant entityCollisions.elements == old(entityCollisions.elements) + added
      invariant added == Cuboids(Filter(entity, candidates[..i]))
    {
      var otherEntity := candidates[i];
      CuboidsOfFilterStep(entity, candidates, i);
      ConcatAssociates(old(entityCollisions.elements), added, [Cuboid(otherEntity.boundingBox)]);
      added := added + if Admits(entity, otherEntity) then [Cuboid(otherEntity.boundingBox)] else [];
      if entity.None? {
        if !otherEntity.collidable {
          continue;
        }
      } else if !entity.value.collidesWith(otherEntity) {
        continue;
      }
      entityCollisions.Add(Cuboid(otherEntity.boundingBox));
    }
    assert candidates[..|candidates|] == candidates;
  }

  /** `appendWorldBorderCollision`: adds the border shape under the border inclusion rule. */
  method AppendWorldBorderCollision(worldBorderCollisions: ShapeList, entity: Entity, box: Box)
    modifies worldBorderCollisions
    ensures worldBorderCollisions.elements == old(worldBorderCollisions.elements) + ToSeq(WorldBorderShape(entity, box))
  {
    var worldBorder := entity.worldBorder;
    if !IsWithinWorldBorder(worldBorder, box) && IsWithinWorldBorder(worldBorder, entity.boundingBox) {
      worldBorderCollisions.Add(BorderShape(worldBorder));
    }
  }

  // ---------------------------------------------------------------------------
  // The lazy entity and world-border enumeration, as a step function
  // ---------------------------------------------------------------------------

  /** Which filter guard a scan uses: `AsWritten` is the guard `index <= nextFilterIndex`
      of `shouldIncludeEntity`; `Intended` filters every candidate, as
      `appendEntityCollisions` does. */
  datatype Guard = AsWritten | Intended

  predicate GuardHolds(g: Guard, index: nat, nextFilterIndex: int)
  {
    match g
    case AsWritten => index <= nextFilterIndex
    case Intended => true
  }

  /** `shouldIncludeEntity` at 1-based position `index` with filter mark `n`: whether the
      candidate is yielded, and the new filter mark. */
  function ShouldInclude(g: Guard, entity: Option<Entity>, other: Body, index: nat, n: int): (r: (bool, int))
    ensures r.0 <==> !GuardHolds(g, index, n) || Admits(entity, other)
    ensures r.1 == (if GuardHolds(g, index, n) && Admits(entity, other) then n + 1 else n)
    ensures g == AsWritten && n < index ==> r == (true, n)
  {
    if GuardHolds(g, index, n) then
      if Admits(entity, other) then (true, n + 1) else (false, n)
    else
      (true, n)
  }

  /** The entity loop of `computeNext` from position `i` with filter mark `n`: where it
      stops, the new filter mark, and the candidate it yields, if any. */
  function ScanEntities(g: Guard, entity: Option<Entity>, list: seq<Body>, i: nat, n: int): (res: (nat, int, Option<Body>))
    requires i <= |list|
    ensures i <= res.0 <= |list|
    ensures res.2.None? ==> res.0 == |list|
    ensures res.2.Some? ==> i < res.0 && res.2.value == list[res.0 - 1]
    decreases |list| - i
  {
    if i == |list| then (i, n, None)
    else
      var (included, n') := ShouldInclude(g, entity, list[i], i + 1, n);
      if included then (i + 1, n', Some(list[i]))
      else ScanEntities(g, entity, list, i + 1, n')
  }

  /** As written, a scan whose filter mark is not ahead of the cursor leaves the mark
      where it was. */
  lemma AsWrittenScanKeepsMark(entity: Option<Entity>, list: seq<Body>, i: nat, n: int)
    requires i <= |list| && n <= i
    ensures ScanEntities(AsWritten, entity, list, i, n).1 == n
  {
  }

  /** The inputs an iterable is built from, with the candidate list once fetched. */
  datatype Query = Query(entity: Option<Entity>, box: Box, candidates: seq<Body>, includeWorldBorder: bool)
  {
    /** The assertion of the factory: the border is only requested with an entity. */
    predicate Valid() { includeWorldBorder ==> entity.Some? }
  }

  /** The per-iterator cursor and the iterable's filter mark. */
  datatype Cursor = Cursor(index: nat, nextFilterIndex: int, consumedWorldBorder: bool)

  /** The state of a new iterator on a new iterable. */
  const Fresh: Cursor := Cursor(0, 0, false)

  /** One `computeNext`: the next candidate's cuboid; once the candidates are exhausted,
      the border shape at most once when requested; then end of data (`None`). */
  function Step(g: Guard, q: Query, c: Cursor): (res: (Cursor, Option<Shape>))
    requires q.Valid() && c.index <= |q.candidates|
    ensures c.index <= res.0.index <= |q.candidates|
    ensures c.consumedWorldBorder ==> res.0.consumedWorldBorder
    ensures res.1.Some? ==> c.index < res.0.index || (!c.consumedWorldBorder && res.0.consumedWorldBorder)
  {
    var (i, n, found) := ScanEntities(g, q.entity, q.candidates, c.index, c.nextFilterIndex);
    if found.Some? then
      (Cursor(i, n, c.consumedWorldBorder), Some(Cuboid(found.value.boundingBox)))
    else if q.includeWorldBorder && !c.consumedWorldBorder then
      (Cursor(i, n, true), WorldBorderShape(q.entity.value, q.box))
    else
      (Cursor(i, n, c.consumedWorldBorder), None)
  }

  /** Everything an iterator in state `c` yields until end of data. */
  function Yields(g: Guard, q: Query, c: Cursor): seq<Shape>
    requires q.Valid() && c.index <= |q.candidates|
    decreases |q.candidates| - c.index, if c.consumedWorldBorder then 0 else 1
  {
    var (c', r) := Step(g, q, c);
    if r.None? then [] else [r.value] + Yields(g, q, c')
  }

  /** What follows the entity shapes: the border shape, if requested, not yet consumed,
      and produced by the border inclusion rule. */
  function BorderTail(q: Query, consumedWorldBorder: bool): seq<Shape>
    requires q.Valid()
  {
    if q.includeWorldBorder && !consumedWorldBorder then ToSeq(WorldBorderShape(q.entity.value, q.box)) else []
  }

  /** Once the candidates are exhausted, only the border tail is left. */
  lemma ExhaustedYieldsBorderTail(g: Guard, q: Query, c: Cursor)
    requires q.Valid() && c.index == |q.candidates|
    ensures Yields(g, q, c) == BorderTail(q, c.consumedWorldBorder)
  {
    var n := c.nextFilterIndex;
    assert ScanEntities(g, q.entity, q.candidates, c.index, n) == (c.index, n, None);
    if q.includeWorldBorder && !c.consumedWorldBorder {
      var c' := Cursor(c.index, n, true);
      assert Step(g, q, c) == (c', WorldBorderShape(q.entity.value, q.box));
      assert ScanEntities(g, q.entity, q.candidates, c'.index, n) == (c.index, n, None);
      assert Step(g, q, c').1 == None;
    } else {
      assert Step(g, q, c).1 == None;
    }
  }

  lemma CuboidsFrom(bodies: seq<Body>, i: nat)
    requires i < |bodies|
    ensures Cuboids(bodies[i..]) == [Cuboid(bodies[i].boundingBox)] + Cuboids(bodies[i + 1..])
  {
    assert bodies[i..][1..] == bodies[i + 1..];
  }

  /** As written, the filter guard never holds once the filter mark is not ahead of the
      cursor, so every remaining candidate is yielded unfiltered, then the border tail. */
  lemma {:induction false} AsWrittenYieldsEveryCandidate(q: Query, c: Cursor)
    requires q.Valid() && c.index <= |q.candidates| && c.nextFilterIndex <= c.index
    ensures Yields(AsWritten, q, c) == Cuboids(q.candidates[c.index..]) + BorderTail(q, c.consumedWorldBorder)
    decreases |q.candidates| - c.index
  {
    var i, n := c.index, c.nextFilterIndex;
    if i < |q.candidates| {
      var c' := Cursor(i + 1, n, c.consumedWorldBorder);
      var shape := Cuboid(q.candidates[i].boundingBox);
      assert ScanEntities(AsWritten, q.entity, q.candidates, i, n) == (i + 1, n, Some(q.candidates[i]));
      assert Step(AsWritten, q, c) == (c', Some(shape));
      assert Yields(AsWritten, q, c) == [shape] + Yields(AsWritten, q, c');
      AsWrittenYieldsEveryCandidate(q, c');
      CuboidsFrom(q.candidates, i);
    } else {
      ExhaustedYieldsBorderTail(AsWritten, q, c);
    }
  }

  /** A fresh iterable, as written, yields a cuboid for every candidate. */
  lemma FreshIterableYieldsEveryCandidate(q: Query)
    requires q.Valid()
    ensures Yields(AsWritten, q, Fresh) == Cuboids(q.candidates) + BorderTail(q, false)
  {
    AsWrittenYieldsEveryCandidate(q, Fresh);
    assert q.candidates[0..] == q.candidates;
  }

  /** With every candidate filtered, a scan stops at the next admitted candidate. */
  lemma {:induction false} IntendedScanFindsNextAdmitted(entity: Option<Entity>, list: seq<Body>, i: nat, n: int)
    requires i <= |list|
    ensures var (j, _, found) := ScanEntities(Intended, entity, list, i, n);
            Filter(entity, list[i..]) == if found.None? then [] else [found.value] + Filter(entity, list[j..])
    decreases |list| - i
  {
    if i < |list| {
      assert list[i..][1..] == list[i + 1..];
      if !Admits(entity, list[i]) {
        IntendedScanFindsNextAdmitted(entity, list, i + 1, n);
      }
    }
  }

  /** One step as seen from the scan: the shape of the candidate found, if any, then
      whatever follows from where the scan stopped. */
  lemma YieldsAfterScan(g: Guard, q: Query, c: Cursor)
    requires q.Valid() && c.index <= |q.candidates|
    ensures var (j, n, found) := ScanEntities(g, q.entity, q.candidates, c.index, c.nextFilterIndex);
            var c' := Cursor(j, n, c.consumedWorldBorder);
            Yields(g, q, c) == if found.Some? then [Cuboid(found.value.boundingBox)] + Yields(g, q, c')
                               else Yields(g, q, c')
  {
    var (j, n, found) := ScanEntities(g, q.entity, q.candidates, c.index, c.nextFilterIndex);
    var c' := Cursor(j, n, c.consumedWorldBorder);
    if found.None? {
      assert ScanEntities(g, q.entity, q.candidates, j, n) == (j, n, None);
      assert Step(g, q, c) == Step(g, q, c');
    }
  }

  lemma ConcatAssociates<T>(a: seq<T>, b: seq<T>, c: seq<T>)
    ensures a + (b + c) == (a + b) + c
  {
  }

  /** With the intended guard, an iterator yields the cuboids of the admitted remaining
      candidates, in order, then the border tail. */
  lemma {:induction false} IntendedYieldsFilteredCandidates(q: Query, c: Cursor)
    requires q.Valid() && c.index <= |q.candidates|
    ensures Yields(Intended, q, c) == Cuboids(Filter(q.entity, q.candidates[c.index..])) + BorderTail(q, c.consumedWorldBorder)
    decreases |q.candidates| - c.index
  {
    var (j, n, found) := ScanEntities(Intended, q.entity, q.candidates, c.index, c.nextFilterIndex);
    var c' := Cursor(j, n, c.consumedWorldBorder);
    var tail := BorderTail(q, c.consumedWorldBorder);
    IntendedScanFindsNextAdmitted(q.entity, q.candidates, c.index, c.nextFilterIndex);
    YieldsAfterScan(Intended, q, c);
    if found.Some? {
      var shape := Cuboid(found.value.boundingBox);
      var rest := Filter(q.entity, q.candidates[j..]);
      IntendedYieldsFilteredCandidates(q, c');
      assert Cuboids(Filter(q.entity, q.candidates[c.index..])) == [shape] + Cuboids(rest) by {
        assert ([found.value] + rest)[1..] == rest;
      }
      assert Yields(Intended, q, c) == [shape] + (Cuboids(rest) + tail);
      ConcatAssociates([shape], Cuboids(rest), tail);
    } else {
      ExhaustedYieldsBorderTail(Intended, q, c');
    }
  }

  /** The as-written enumeration agrees with the intended one exactly when every
      candidate passes the filter. */
  lemma AsWrittenAgreesWithIntendedIffAllAdmitted(q: Query)
    requires q.Valid()
    ensures Yields(AsWritten, q, Fresh) == Yields(Intended, q, Fresh) <==>
            forall k :: 0 <= k < |q.candidates| ==> Admits(q.entity, q.candidates[k])
  {
    FreshIterableYieldsEveryCandidate(q);
    IntendedYieldsFilteredCandidates(q, Fresh);
    assert q.candidates[0..] == q.candidates;
    FilterKeepsAllIffAllAdmitted(q.entity, q.candidates);
    if Yields(AsWritten, q, Fresh) == Yields(Intended, q, Fresh) {
      assert |Cuboids(q.candidates)| == |Cuboids(Filter(q.entity, q.candidates))|;
    }
  }

  /** A single non-collidable candidate, with no querying entity: as written it is
      yielded; the filter of `appendEntityCollisions` would drop it. */
  lemma NonCollidableCandidateIsYieldedAsWritten(box: Box, other: Body)
    requires !other.collidable
    ensures Yields(AsWritten, Query(None, box, [other], false), Fresh) == [Cuboid(other.boundingBox)]
    ensures Yields(Intended, Query(None, box, [other], false), Fresh) == []
  {
    var q := Query(None, box, [other], false);
    FreshIterableYieldsEveryCandidate(q);
    IntendedYieldsFilteredCandidates(q, Fresh);
    assert q.candidates[0..] == [other];
  }

  /** The inputs of the iterable `doesBoxCollideWithHardEntities` builds. */
  function HardEntityQuery(view: World, entity: Option<Entity>, box: Box): Query
  {
    var expanded := box.Expand(EPSILON);
    Query(entity, expanded, view.entitiesForCollision(expanded, entity), false)
  }

  /** With the intended guard, the lazy enumeration without the border yields exactly
      what `appendEntityCollisions` appends for the same box. */
  lemma IntendedLazyMatchesEagerAppend(view: World, entity: Option<Entity>, box: Box)
    requires !IsBoxEmpty(box)
    ensures Yields(Intended, HardEntityQuery(view, entity, box), Fresh) == EntityCollisionsFor(view, entity, box)
  {
    var q := HardEntityQuery(view, entity, box);
    IntendedYieldsFilteredCandidates(q, Fresh);
    assert q.candidates[0..] == q.candidates;
  }

  /** With the intended guard, the hard-entity test would find a collision exactly when
      the box is not empty and some nearby candidate passes the filter. */
  lemma IntendedHardEntityTestFilters(view: World, entity: Option<Entity>, box: Box)
    ensures (!IsBoxEmpty(box) && Yields(Intended, HardEntityQuery(view, entity, box), Fresh) != []) <==>
            (!IsBoxEmpty(box) && Filter(entity, view.entitiesForCollision(box.Expand(EPSILON), entity)) != [])
  {
    var q := HardEntityQuery(view, entity, box);
    IntendedYieldsFilteredCandidates(q, Fresh);
    assert q.candidates[0..] == q.candidates;
  }

  // ---------------------------------------------------------------------------
  // The iterable and its iterator
  // ---------------------------------------------------------------------------

  /** Guava's `AbstractIterator` state: nothing computed, an element waiting, or done. */
  datatype IteratorState = NotReady | Ready(next: Shape) | Done

  /** The anonymous `Iterable` of `getEntityWorldBorderCollisionIterable`. Its candidate
      list and filter mark are shared by all of its iterators. `guard` selects the filter
      guard of `shouldIncludeEntity`: the factory builds `AsWritten` iterables, as the
      program does; an `Intended` iterable filters every candidate. */
  class CollisionIterable {
    const guard: Guard
    const view: World
    const entity: Option<Entity>
    const box: Box
    const includeWorldBorder: bool
    var entityList: Option<seq<Body>>
    var nextFilterIndex: int

    /** The filter mark is 0 until the candidates are fetched. As written, it never
        leaves 0: it only grows when the guard `index <= nextFilterIndex` holds, which
        needs an index of at most 0 while the index is always at least 1 there. */
    ghost predicate Valid()
      reads this
    {
      && (includeWorldBorder ==> entity.Some?)
      && (guard == AsWritten || entityList.None? ==> nextFilterIndex == 0)
      && (entityList.Some? ==> entityList.value == view.entitiesForCollision(box, entity))
    }

    /** The inputs of this iterable once its candidates are fetched. */
    function Planned(): Query
    {
      Query(entity, box, view.entitiesForCollision(box, entity), includeWorldBorder)
    }

    function Inputs(): (q: Query)
      reads this
      requires entityList.Some?
      ensures Valid() ==> q == Planned()
    {
      Query(entity, box, entityList.value, includeWorldBorder)
    }

    constructor (guard: Guard, view: World, entity: Option<Entity>, box: Box, includeWorldBorder: bool)
      requires includeWorldBorder ==> entity.Some?
      ensures Valid()
      ensures this.guard == guard && this.view == view && this.entity == entity && this.box == box
      ensures this.includeWorldBorder == includeWorldBorder
      ensures entityList == None
    {
      this.guard := guard;
      this.view := view;
      this.entity := entity;
      this.box := box;
      this.includeWorldBorder := includeWorldBorder;
      entityList := None;
      nextFilterIndex := 0;
    }

    /** `iterator()`: a new iterator at the start, sharing this iterable's state. */
    method Iterator() returns (it: CollisionIterator)
      requires Valid()
      ensures fresh(it) && it.owner == this && it.Valid()
      ensures it.index == 0 && !it.consumedWorldBorder && it.state == NotReady
    {
      it := new CollisionIterator(this);
    }
  }

  /** The anonymous `AbstractIterator` of the iterable. */
  class CollisionIterator {
    const owner: CollisionIterable
    var index: nat
    var consumedWorldBorder: bool
    var state: IteratorState

    ghost predicate Valid()
      reads this, owner
    {
      && owner.Valid()
      && (owner.entityList.None? ==> index == 0)
      && (owner.entityList.Some? ==> index <= |owner.entityList.value|)
    }

    function Position(): Cursor
      reads this, owner
    {
      Cursor(index, owner.nextFilterIndex, consumedWorldBorder)
    }

    constructor (owner: CollisionIterable)
      requires owner.Valid()
      ensures this.owner == owner && Valid()
      ensures index == 0 && !consumedWorldBorder && state == NotReady
    {
      this.owner := owner;
      index := 0;
      consumedWorldBorder := false;
      state := NotReady;
    }

    /** `initializeEntityList`: fetches the candidates and resets the filter mark. */
    method InitializeEntityList()
      modifies owner`entityList, owner`nextFilterIndex
      ensures owner.entityList == Some(owner.view.entitiesForCollision(owner.box, owner.entity))
      ensures owner.nextFilterIndex == 0
    {
      owner.entityList := Some(owner.view.entitiesForCollision(owner.box, owner.entity));
      owner.nextFilterIndex := 0;
    }

    /** `shouldIncludeEntity`, with the owner's guard. */
    method ShouldIncludeEntity(other: Body) returns (included: bool)
      modifies owner`nextFilterIndex
      ensures (included, owner.nextFilterIndex) ==
              ShouldInclude(owner.guard, owner.entity, other, index, old(owner.nextFilterIndex))
    {
      if owner.guard == Intended || index <= owner.nextFilterIndex {
        if owner.entity.None? {
          if !other.collidable {
            return false;
          }
        } else if !owner.entity.value.collidesWith(other) {
          return false;
        }
        owner.nextFilterIndex := owner.nextFilterIndex + 1;
      }
      return true;
    }

    /** `computeNext`: fetches the candidates on first use, then takes one step. */
    method ComputeNext() returns (r: Option<Shape>)
      requires Valid()
      modifies this`index, this`consumedWorldBorder, owner`entityList, owner`nextFilterIndex
      ensures Valid() && owner.entityList.Some?
      ensures old(owner.entityList).Some? ==> owner.entityList == old(owner.entityList)
      ensures (Position(), r) == Step(owner.guard, owner.Inputs(), old(Position()))
    {
      if owner.entityList.None? {
        InitializeEntityList();
      }
      var list := owner.entityList.value;
      ghost var scan := ScanEntities(owner.guard, owner.entity, list, index, owner.nextFilterIndex);
      if owner.guard == AsWritten {
        AsWrittenScanKeepsMark(owner.entity, list, index, owner.nextFilterIndex);
      }
      while index < |list|
        invariant owner.entityList == Some(list)
        invariant index <= |list|
        invariant consumedWorldBorder == old(consumedWorldBorder)
        invariant ScanEntities(owner.guard, owner.entity, list, index, owner.nextFilterIndex) == scan
        decreases |list| - index
      {
        ghost var examined, mark := index, owner.nextFilterIndex;
        var otherEntity := list[index];
        index := index + 1;
        var included := ShouldIncludeEntity(otherEntity);
        if included {
          assert scan == (index, owner.nextFilterIndex, Some(otherEntity)) by {
            assert scan == ScanEntities(owner.guard, owner.entity, list, examined, mark);
          }
          return Some(Cuboid(otherEntity.boundingBox));
        }
      }
      if owner.includeWorldBorder && !consumedWorldBorder {
        consumedWorldBorder := true;
        var worldBorderShape := WorldBorderShape(owner.entity.value, owner.box);
        if worldBorderShape.Some? {
          return worldBorderShape;
        }
      }
      return None;
    }

    /** `hasNext`: computes the next element only when none is waiting. */
    method HasNext() returns (b: bool)
      requires Valid()
      modifies this, owner
      ensures Valid()
      ensures old(state).Ready? ==> b && unchanged(this, owner)
      ensures old(state).Done? ==> !b && unchanged(this, owner)
      ensures old(state).NotReady? ==>
                && owner.entityList.Some?
                && (old(owner.entityList).Some? ==> owner.entityList == old(owner.entityList))
                && var (c, r) := Step(owner.guard, owner.Inputs(), old(Position()));
                   Position() == c && b == r.Some? && state == (if r.Some? then Ready(r.value) else Done)
    {
      match state
      case Ready(_) => b := true;
      case Done => b := false;
      case NotReady =>
        var r := ComputeNext();
        if r.Some? {
          state := Ready(r.value);
          b := true;
        } else {
          state := Done;
          b := false;
        }
    }

    /** `next`: the waiting or newly computed element; `None` stands for the
        `NoSuchElementException` thrown at end of data. */
    method Next() returns (r: Option<Shape>)
      requires Valid()
      modifies this, owner
      ensures Valid()
      ensures old(state).Ready? ==>
                r == Some(old(state).next) && state == NotReady &&
                Position() == old(Position()) && owner.entityList == old(owner.entityList)
      ensures old(state).Done? ==> r == None && unchanged(this, owner)
      ensures old(state).NotReady? ==>
                && owner.entityList.Some?
                && (old(owner.entityList).Some? ==> owner.entityList == old(owner.entityList))
                && var (c, s) := Step(owner.guard, owner.Inputs(), old(Position()));
                   Position() == c && r == s && state == (if s.Some? then NotReady else Done)
    {
      var has := HasNext();
      if !has {
        return None;
      }
      r := Some(state.next);
      state := NotReady;
    }
  }

  /** Drains an iterator with `next()` until end of data, as a for-each over the
      iterable does: the shapes come out exactly as `Yields` lists them, which for a
      fresh as-written iterator is every candidate's cuboid, then the border tail. */
  method DrainIterator(it: CollisionIterator) returns (out: seq<Shape>)
    requires it.Valid() && it.state == NotReady
    modifies it, it.owner
    ensures it.Valid() && it.state == Done
    ensures out == Yields(it.owner.guard, it.owner.Planned(), old(it.Position()))
    ensures it.owner.guard == AsWritten && old(it.Position()) == Fresh ==>
              out == Cuboids(it.owner.Planned().candidates) + BorderTail(it.owner.Planned(), false)
  {
    ghost var g, q, start := it.owner.guard, it.owner.Planned(), it.Position();
    out := [];
    var more := true;
    while more
      invariant it.Valid() && it.state == (if more then NotReady else Done)
      invariant it.index <= |q.candidates|
      invariant more ==> out + Yields(g, q, it.Position()) == Yields(g, q, start)
      invariant !more ==> out == Yields(g, q, start)
      decreases |q.candidates| - it.index, if it.consumedWorldBorder then 0 else 1, if more then 1 else 0
    {
      ghost var before := it.Position();
      var r := it.Next();
      if r.None? {
        more := false;
      } else {
        assert Yields(g, q, before) == [r.value] + Yields(g, q, it.Position());
        ConcatAssociates(out, [r.value], Yields(g, q, it.Position()));
        out := out + [r.value];
      }
    }
    if g == AsWritten && start == Fresh {
      FreshIterableYieldsEveryCandidate(q);
    }
  }

  /** `getEntityWorldBorderCollisionIterable`: builds the iterable; nothing is fetched
      until an iterator first computes an element. */
  method GetEntityWorldBorderCollisionIterable(view: World, entity: Option<Entity>, box: Box, includeWorldBorder: bool)
    returns (it: CollisionIterable)
    requires includeWorldBorder ==> entity.Some?
    ensures fresh(it) && it.Valid() && it.entityList == None && it.guard == AsWritten
    ensures it.view == view && it.entity == entity && it.box == box && it.includeWorldBorder == includeWorldBorder
  {
    it := new CollisionIterable(AsWritten, view, entity, box, includeWorldBorder);
  }

  // ---------------------------------------------------------------------------
  // Queries used by movement code
  // ---------------------------------------------------------------------------

  /** `doesBoxCollideWithHardEntities`: false for an empty box; otherwise whether a
      fresh iterator over the box grown by EPSILON, without the border, has an element.
      As written that is whether any candidate is near, filtered or not. */
  method DoesBoxCollideWithHardEntities(view: World, entity: Option<Entity>, box: Box) returns (r: bool)
    ensures r <==> !IsBoxEmpty(box) && Yields(AsWritten, HardEntityQuery(view, entity, box), Fresh) != []
    ensures r <==> !IsBoxEmpty(box) && view.entitiesForCollision(box.Expand(EPSILON), entity) != []
  {
    if IsBoxEmpty(box) {
      return false;
    }
    var iterable := GetEntityWorldBorderCollisionIterable(view, entity, box.Expand(EPSILON), false);
    var it := iterable.Iterator();
    r := it.HasNext();
    assert iterable.Inputs() == HardEntityQuery(view, entity, box);
    FreshIterableYieldsEveryCandidate(HardEntityQuery(view, entity, box));
  }

  /** `getBlockCollisions`: the whole block sweep, in sweep order. */
  method GetBlockCollisions(world: World, entity: Option<Entity>, box: Box) returns (r: seq<Shape>)
    ensures r == world.blockSweep(entity, box)
  {
    var sweeper := new BlockCollisionSweeper(world.blockSweep(entity, box));
    r := sweeper.CollectAll();
  }

  /** `doesBoxCollideWithBlocks`: pulls one shape from the sweep and reports whether it
      exists and is not empty. */
  method DoesBoxCollideWithBlocks(world: World, entity: Option<Entity>, box: Box) returns (r: bool)
    ensures var sweep := world.blockSweep(entity, box);
            r <==> sweep != [] && !sweep[0].IsEmpty()
  {
    var sweeper := new BlockCollisionSweeper(world.blockSweep(entity, box));
    var shape := sweeper.ComputeNext();
    r := shape.Some? && !shape.value.IsEmpty();
  }

  /** `addLastBlockCollisionIfRequired`: when asked, adds the sweeper's last collision if
      it has one; always answers false. */
  method AddLastBlockCollisionIfRequired(addLastBlockCollision: bool, blockCollisionSweeper: BlockCollisionSweeper,
                                         list: ShapeList) returns (r: bool)
    modifies list
    ensures !r
    ensures list.elements == old(list.elements) +
              (if addLastBlockCollision then ToSeq(blockCollisionSweeper.lastCollision) else [])
  {
    if addLastBlockCollision {
      var lastCollision := blockCollisionSweeper.GetLastCollision();
      if lastCollision.Some? {
        list.Add(lastCollision.value);
      }
    }
    return false;
  }

  /** `addEntityCollisionsIfRequired`: when asked, appends the entity collisions of the
      movement space; always answers false. */
  method AddEntityCollisionsIfRequired(getEntityCollisions: bool, entity: Option<Entity>, world: World,
                                       entityCollisions: ShapeList, movementSpace: Box) returns (r: bool)
    modifies entityCollisions
    ensures !r
    ensures entityCollisions.elements == old(entityCollisions.elements) +
              (if getEntityCollisions then EntityCollisionsFor(world, entity, movementSpace) else [])
  {
    if getEntityCollisions {
      AppendEntityCollisions(entityCollisions, world, entity, movementSpace);
    }
    return false;
  }

  /** `addWorldBorderCollisionIfRequired`: when asked and an entity is given, appends
      the border collision of the movement space; always answers false. */
  method AddWorldBorderCollisionIfRequired(getWorldBorderCollision: bool, entity: Option<Entity>,
                                           worldBorderCollisions: ShapeList, movementSpace: Box) returns (r: bool)
    modifies worldBorderCollisions
    ensures !r
    ensures worldBorderCollisions.elements == old(worldBorderCollisions.elements) +
              (if getWorldBorderCollision && entity.Some? then ToSeq(WorldBorderShape(entity.value, movementSpace)) else [])
  {
    if getWorldBorderCollision && entity.Some? {
      AppendWorldBorderCollision(worldBorderCollisions, entity.value, movementSpace);
    }
    return false;
  }
}
