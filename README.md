# Lithium entity collision queries, modelled in Dafny

This project models `LithiumEntityCollisions`, the collision-query layer of the
Lithium game-performance mod. Movement code calls it for four jobs:

- a fast world-border containment test that avoids the shape system;
- a reduction of an entity's box to the slab it is about to enter when it moves
  along one axis;
- an eager and a lazy enumeration of the collision shapes of nearby entities,
  and of the world border;
- small helpers that collect those shapes into caller-owned lists or test for
  any collision.

The project has three files:

- `geometry.dfy`: the game's value types. `Box` (six bounds), `Vec3`, the border's
  four horizontal bounds, and an opaque `Shape`. The shape is an entity cuboid,
  the border's own shape, or block geometry.
- `collaborators.dfy`: what the layer consumes but does not own.
  - Other entities (`Body`) and the querying entity (`Entity`).
  - The world view (`World`). Its spatial entity index, border capability and
    block sweep are given as data.
  - The caller's shape list (`ShapeList`) and the chunk-aware block sweeper
    (`BlockCollisionSweeper`).
- `entity_collisions.dfy`: the layer itself, in module `EntityCollisions`.
  - Pure functions for the border test, the box reduction and the filter.
  - Methods for everything that appends to a list.
  - Two classes for the anonymous `Iterable` and its iterator. They share the
    candidate list and the filter mark, as in the program.

The lazy enumeration is specified by `Step`, one `computeNext`, and `Yields`,
everything an iterator produces until end of data. Both are parameterised by a
`Guard`:
- `AsWritten` is the filter guard `index <= nextFilterIndex` of
  `shouldIncludeEntity`.
- `Intended` filters every candidate, as `appendEntityCollisions` does.

The iterator classes run either guard. The factory `getEntityWorldBorderCollisionIterable`
and the `doesBoxCollideWithHardEntities` query build `AsWritten` iterables,
because that is what the program does. The difference between the two guards
is recorded under Findings.

Java doubles are modelled as reals. `Math.floor` and `Math.ceil` are modelled as
the mathematical floor and ceiling.

## Model

| member | source | states |
|---|---|---|
| EntityCollisions.IsWithinWorldBorder | src/main/java/me/jellysquid/mods/lithium/common/entity/LithiumEntityCollisions.java:185-194 | the box's four horizontal bounds lie in [floor(west), ceil(east)] x [floor(north), ceil(south)] |
| EntityCollisions.WithinBorderIgnoresVerticalExtent | src/main/java/me/jellysquid/mods/lithium/common/entity/LithiumEntityCollisions.java:185-194 | the fast border test never consults the box's vertical bounds |
| EntityCollisions.InsideBorderIsWithin | src/main/java/me/jellysquid/mods/lithium/common/entity/LithiumEntityCollisions.java:186-193 | outward rounding is conservative: a box whose horizontal bounds lie in the unrounded [west, east] x [north, south] is reported within |
| EntityCollisions.WithinBorderIsLessThanOneUnitOutside | src/main/java/me/jellysquid/mods/lithium/common/entity/LithiumEntityCollisions.java:186-193 | a box reported within lies less than one grid unit outside the unrounded border on every horizontal side |
| EntityCollisions.IntegralBorderIsExact | src/main/java/me/jellysquid/mods/lithium/common/entity/LithiumEntityCollisions.java:185-194 | when all four border bounds are whole numbers, the fast test holds exactly when the box lies inside the unrounded border |
| EntityCollisions.BoxCrossingWestEdgeIsNotWithin | src/main/java/me/jellysquid/mods/lithium/common/entity/LithiumEntityCollisions.java:192-193 | a box reaching one unit past the west edge of a 16 by 16 border is not within it |
| EntityCollisions.IsBoxEmpty | src/main/java/me/jellysquid/mods/lithium/common/entity/LithiumEntityCollisions.java:197-199 | a box is empty when its average side length is at most EPSILON, that is when its three side lengths sum to at most 3 EPSILON; a well-formed empty box has no side longer than 3 EPSILON |
| EntityCollisions.GetWorldBorderCollision | src/main/java/me/jellysquid/mods/lithium/common/entity/LithiumEntityCollisions.java:210-213 | the result is the view's border shape exactly when the border can collide with the entity at the box, and null otherwise |
| EntityCollisions.DoesBoxCollideWithWorldBorder | src/main/java/me/jellysquid/mods/lithium/common/entity/LithiumEntityCollisions.java:201-208 | false whenever the fast test says within; otherwise true exactly when the border can collide and its shape matches the box's cuboid |
| EntityCollisions.InsideBorderNeverCollidesWithIt | src/main/java/me/jellysquid/mods/lithium/common/entity/LithiumEntityCollisions.java:201-204 | a box inside the unrounded border never collides with it, whatever the shape system and the border capability say |
| EntityCollisions.WorldBorderShape | src/main/java/me/jellysquid/mods/lithium/common/entity/LithiumEntityCollisions.java:167-173 | the border shape of the entity's world exactly when the query box is not within that border and the entity's own box is; null otherwise |
| EntityCollisions.WorldBorderShapeOnlyWhenLeaving | src/main/java/me/jellysquid/mods/lithium/common/entity/LithiumEntityCollisions.java:167-173 | the border inclusion rule: there is no border shape for a query box inside the border and none for an entity already outside it. There is one when the entity is inside and the query box is not within |
| EntityCollisions.GetSmallerBoxForSingleAxisMovement | src/main/java/me/jellysquid/mods/lithium/common/entity/LithiumEntityCollisions.java:255-290 | the reduced box is well formed (each min at most its max) |
| EntityCollisions.SingleAxisReduction | src/main/java/me/jellysquid/mods/lithium/common/entity/LithiumEntityCollisions.java:263-289 | the leading axis is the first non-zero of Y, X, Z. Positive v gives it [oldMax, oldMax + v], negative v gives [oldMin + v, oldMin], and the other two axes are unchanged. With no non-zero velocity the result is `stretch(movement)` |
| EntityCollisions.LaterVelocitiesAreIgnored | src/main/java/me/jellysquid/mods/lithium/common/entity/LithiumEntityCollisions.java:263-283 | velocities after the leading one do not affect the result |
| EntityCollisions.ReductionCoversLeadingSweep | src/main/java/me/jellysquid/mods/lithium/common/entity/LithiumEntityCollisions.java:263-289 | the reduced box touches the old leading face. Its union with the original box is exactly the original box stretched by the leading displacement |
| EntityCollisions.FallingBoxReducesToSlabBelow | src/main/java/me/jellysquid/mods/lithium/common/entity/LithiumEntityCollisions.java:269-271 | falling by 0.5 from heights 10 to 11 gives the slab from 9.5 to 10 |
| EntityCollisions.Admits | src/main/java/me/jellysquid/mods/lithium/common/entity/LithiumEntityCollisions.java:83-89 | without a querying entity a candidate passes when it is collidable; with one, when the entity collides with it |
| EntityCollisions.Filter | src/main/java/me/jellysquid/mods/lithium/common/entity/LithiumEntityCollisions.java:83-89 | every kept candidate passes the filter (`isCollidable()` without an entity, `collidesWith` with one) and comes from the candidates; every candidate that passes is kept |
| EntityCollisions.FilterKeepsAllIffAllAdmitted | src/main/java/me/jellysquid/mods/lithium/common/entity/LithiumEntityCollisions.java:83-89 | the filter drops nothing exactly when every candidate passes it |
| EntityCollisions.AppendEntityCollisions | src/main/java/me/jellysquid/mods/lithium/common/entity/LithiumEntityCollisions.java:69-93 | only appends. For an empty box it appends nothing. Otherwise it appends, in candidate order, one cuboid per candidate near the box grown by EPSILON that passes the filter |
| EntityCollisions.AppendWorldBorderCollision | src/main/java/me/jellysquid/mods/lithium/common/entity/LithiumEntityCollisions.java:95-101 | appends the border shape under the border inclusion rule, and nothing else |
| EntityCollisions.ShouldInclude | src/main/java/me/jellysquid/mods/lithium/common/entity/LithiumEntityCollisions.java:153-165 | a candidate is yielded when the guard fails or the filter admits it; the mark grows by one exactly when both hold. As written, a mark behind the 1-based index yields the candidate and keeps the mark |
| EntityCollisions.ScanEntities | src/main/java/me/jellysquid/mods/lithium/common/entity/LithiumEntityCollisions.java:129-135 | the entity loop stops at or after its start and never beyond the list. When it finds a candidate it stops just past it; when it finds none it stops at the end of the list |
| EntityCollisions.AsWrittenScanKeepsMark | src/main/java/me/jellysquid/mods/lithium/common/entity/LithiumEntityCollisions.java:153-165 | as written, a filter mark not ahead of the cursor is never advanced by the loop |
| EntityCollisions.Step | src/main/java/me/jellysquid/mods/lithium/common/entity/LithiumEntityCollisions.java:124-146 | `computeNext` never moves the cursor back or past the list. Every element it produces advances the cursor or consumes the border |
| EntityCollisions.ExhaustedYieldsBorderTail | src/main/java/me/jellysquid/mods/lithium/common/entity/LithiumEntityCollisions.java:137-145 | once the candidates are exhausted, an iterator yields at most the border shape, only when requested and not yet consumed, then end of data |
| EntityCollisions.AsWrittenYieldsEveryCandidate | src/main/java/me/jellysquid/mods/lithium/common/entity/LithiumEntityCollisions.java:129-165 | as written, from any cursor whose filter mark is not ahead of it, an iterator yields the cuboid of every remaining candidate, unfiltered and in order, then the border tail |
| EntityCollisions.FreshIterableYieldsEveryCandidate | src/main/java/me/jellysquid/mods/lithium/common/entity/LithiumEntityCollisions.java:110-177 | as written, a fresh iterable yields a cuboid for every candidate, then the border tail |
| EntityCollisions.IntendedScanFindsNextAdmitted | src/main/java/me/jellysquid/mods/lithium/common/entity/LithiumEntityCollisions.java:129-135 | with every candidate filtered, the loop stops at the next candidate that passes the filter |
| EntityCollisions.IntendedYieldsFilteredCandidates | src/main/java/me/jellysquid/mods/lithium/common/entity/LithiumEntityCollisions.java:153-165 | with the intended guard, an iterator yields the cuboids of the remaining candidates that pass the filter, in order, then the border tail |
| EntityCollisions.AsWrittenAgreesWithIntendedIffAllAdmitted | src/main/java/me/jellysquid/mods/lithium/common/entity/LithiumEntityCollisions.java:153-165 | the as-written and the intended enumerations agree exactly when every candidate passes the filter |
| EntityCollisions.NonCollidableCandidateIsYieldedAsWritten | src/main/java/me/jellysquid/mods/lithium/common/entity/LithiumEntityCollisions.java:154-158 | with no entity and one non-collidable candidate, the as-written iterator yields its cuboid while the intended one yields nothing |
| EntityCollisions.IntendedLazyMatchesEagerAppend | src/main/java/me/jellysquid/mods/lithium/common/entity/LithiumEntityCollisions.java:69-93 | with the intended guard, the lazy enumeration without the border yields exactly what `appendEntityCollisions` appends for the same non-empty box |
| EntityCollisions.IntendedHardEntityTestFilters | src/main/java/me/jellysquid/mods/lithium/common/entity/LithiumEntityCollisions.java:58-64 | with the intended guard, the hard-entity test finds a collision exactly when the box is not empty and some candidate near the box grown by EPSILON passes the filter |
| EntityCollisions.CollisionIterable.constructor | src/main/java/me/jellysquid/mods/lithium/common/entity/LithiumEntityCollisions.java:112-114 | a new iterable has no candidate list yet and a filter mark of 0 |
| EntityCollisions.CollisionIterable.Iterator | src/main/java/me/jellysquid/mods/lithium/common/entity/LithiumEntityCollisions.java:118-121 | each call gives a new iterator at index 0, with the border not consumed and nothing computed, sharing the iterable's state |
| EntityCollisions.CollisionIterator.InitializeEntityList | src/main/java/me/jellysquid/mods/lithium/common/entity/LithiumEntityCollisions.java:148-151 | fetches the candidates from the spatial index and resets the filter mark to 0 |
| EntityCollisions.CollisionIterator.ShouldIncludeEntity | src/main/java/me/jellysquid/mods/lithium/common/entity/LithiumEntityCollisions.java:153-165 | the answer and the new filter mark are those of `ShouldInclude` under the iterable's guard |
| EntityCollisions.CollisionIterator.ComputeNext | src/main/java/me/jellysquid/mods/lithium/common/entity/LithiumEntityCollisions.java:124-146 | fetches the candidate list once per iterable and never replaces it. The new cursor and the element produced are those of `Step` |
| EntityCollisions.CollisionIterator.HasNext | src/main/java/me/jellysquid/mods/lithium/common/entity/LithiumEntityCollisions.java:119-146 | computes only when nothing is waiting. A waiting or finished iterator is left unchanged; otherwise one `Step` is taken and its element waits |
| EntityCollisions.CollisionIterator.Next | src/main/java/me/jellysquid/mods/lithium/common/entity/LithiumEntityCollisions.java:119-146 | hands out the waiting element, or takes one `Step`; at end of data it produces nothing |
| EntityCollisions.DrainIterator | src/main/java/me/jellysquid/mods/lithium/common/entity/LithiumEntityCollisions.java:110-177 | calling `next()` until end of data produces exactly what `Yields` lists for the iterator's starting state, and leaves it done. For a fresh as-written iterator that is every candidate's cuboid, then the border tail |
| EntityCollisions.GetEntityWorldBorderCollisionIterable | src/main/java/me/jellysquid/mods/lithium/common/entity/LithiumEntityCollisions.java:110-112 | builds an as-written iterable over the given view, entity, box and border flag, fetching nothing yet; requires an entity when the border is requested |
| EntityCollisions.DoesBoxCollideWithHardEntities | src/main/java/me/jellysquid/mods/lithium/common/entity/LithiumEntityCollisions.java:58-64 | false for an empty box. Otherwise true exactly when a fresh as-written iterator over the box grown by EPSILON, without the border, has an element, which is exactly when any candidate is near |
| EntityCollisions.GetBlockCollisions | src/main/java/me/jellysquid/mods/lithium/common/entity/LithiumEntityCollisions.java:40-42 | the whole block sweep, in sweep order |
| EntityCollisions.DoesBoxCollideWithBlocks | src/main/java/me/jellysquid/mods/lithium/common/entity/LithiumEntityCollisions.java:47-53 | pulls one shape from the sweep and answers whether it exists and is not empty |
| EntityCollisions.AddLastBlockCollisionIfRequired | src/main/java/me/jellysquid/mods/lithium/common/entity/LithiumEntityCollisions.java:245-253 | always false. Appends the sweeper's last collision when asked and when there is one, and nothing otherwise |
| EntityCollisions.AddEntityCollisionsIfRequired | src/main/java/me/jellysquid/mods/lithium/common/entity/LithiumEntityCollisions.java:292-297 | always false. Appends the entity collisions of the movement space when asked, and nothing otherwise |
| EntityCollisions.AddWorldBorderCollisionIfRequired | src/main/java/me/jellysquid/mods/lithium/common/entity/LithiumEntityCollisions.java:298-303 | always false. Appends the border collision of the movement space when asked and an entity is given, and nothing otherwise |

## Left out

- `getSupportingCollisionForEntity` and `getCollisionShapeBelowEntityFallback` (LithiumEntityCollisions.java:215-243): chunk, section-array and block-state lookups in the game's storage, with no logic of this layer.
- `ChunkAwareBlockCollisionSweeper` is not part of this model. It is represented by the sequence of shapes its sweep yields (`World.blockSweep`), handed out one at a time, and the last shape handed out.
- `WorldHelper.getEntitiesForCollision` is a parameter (`World.entitiesForCollision`): the candidates near a box, without the querying entity itself, in the index's order.
- `WorldBorder.canCollide` is a parameter (`World.borderCanCollide`). `VoxelShapes.matchesAnywhere` is a parameter of `DoesBoxCollideWithWorldBorder`. `VoxelShapes.cuboid` and `WorldBorder.asVoxelShape` are constructors of the opaque `Shape`.
- `Shape.IsEmpty` only distinguishes empty block shapes; the emptiness of entity cuboids and of the border shape is not modelled, since this layer tests emptiness only on the block sweep's shapes.
- The game's `Box` constructor, `expand`, `stretch`, `union` and `getAverageSideLength` are given the definitions the game's `Box` has. They are taken as given, not derived from the game's code.
- IEEE-754 doubles: bounds and velocities are reals. Rounding error, infinities and NaN are not modelled. In particular, the "movement is NaN" case of the stretch fallback (LithiumEntityCollisions.java:285) cannot arise.
- The `assert` at LithiumEntityCollisions.java:111, that the border is only requested with an entity, is a precondition of the factory and of the iterable's constructor, not runtime behaviour.
- Guava's `AbstractIterator` is reduced to its three states (nothing computed, an element waiting, done). `next()` at end of data throws `NoSuchElementException` in Java; here it returns `None`.
- The `entity.getWorld().getWorldBorder()` lookups are modelled as the border carried by the entity (`Entity.worldBorder`).
- `MobEntityMixin.java` is a mixin hook over host and library calls, outside this layer; it is not part of this model.

## Findings

| source | as written | input that shows it | evidently intended | confidence | as-written member | corrected member |
|---|---|---|---|---|---|---|
| src/main/java/me/jellysquid/mods/lithium/common/entity/LithiumEntityCollisions.java:154 | `shouldIncludeEntity` filters only when `index <= nextFilterIndex`. `index` is incremented before the call (:131), so it is at least 1, while the mark starts at 0 (:150) and only grows inside that branch. The guard never holds and every candidate is yielded unfiltered | a non-empty box, no querying entity, one nearby candidate whose `isCollidable()` is false: the iterator yields its cuboid, and `doesBoxCollideWithHardEntities` answers true | filter every candidate with `isCollidable()` / `collidesWith`, as `appendEntityCollisions` (:83-89) and the comment at :76-82 describe | not executed | EntityCollisions.NonCollidableCandidateIsYieldedAsWritten | EntityCollisions.IntendedYieldsFilteredCandidates |

The classes run either guard. `getEntityWorldBorderCollisionIterable` and
`doesBoxCollideWithHardEntities` keep the program's guard, so their contracts
describe what the program does. With the corrected guard:
- for a non-empty box, the lazy enumeration equals the eager append
  (`IntendedLazyMatchesEagerAppend`). For an empty box the iterable still yields
  nearby candidates, while `appendEntityCollisions` returns early;
- the hard-entity test finds a collision only for candidates that pass the
  filter (`IntendedHardEntityTestFilters`).
