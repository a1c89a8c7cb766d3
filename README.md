# get-to-the-treasure: the scene's world generator, in Dafny

This project models the part of `GameScene` in the side-scrolling driving
game that has logic worth proving. The car drives right along an endless
road. World space is cut into chunks 350 px wide. As the camera moves, every
chunk from the one under the camera's left edge to two past its right edge is
visited once. A visited chunk gets a house or not, decided deterministically
from the chunk index by a seeded Park-Miller generator. Houses more than 400
px behind the camera are destroyed. Every frame the car accelerates while the
right key is held and never rolls backwards.

Two modules:

- `SeededRandom` (`seeded_random.dfy`) models `seededRandom`. It is one step
  of the Lehmer generator with multiplier 16807 and modulus 2^31 - 1. It is
  defined for every integer seed, and JavaScript's truncating `%` is spelled
  out (`JsRem`). The state stays non-zero through the multiply-mod step. The
  proof uses the inverse 1407677000 of 16807, so primality is not needed.
  Hence every seed `>= 0` yields a value in [0, 1). The one family of negative
  seeds that normalises to 0 gives a negative value.
- `GameScene` (`game_scene.dfy`) holds the per-chunk decision `ChunkHouse`
  and the class `Scene`. The class has the source's `generatedChunks` (a set)
  and `houses` (a sequence of `House(x, y, colorIdx)` records standing for the
  images). It also has a `CarBody` with the two values `update` sets.
  `SpawnHouses`, `CleanupHouses`, `DriveControl` and `Update` are methods whose
  postconditions give the new state through the specification functions
  `ChunkSpan`, `Spawned`, `Kept` and `Evicted`. The lemmas give the properties
  of those functions. The object invariant `WorldInvariant` says three things:
  every generated chunk is non-negative; every live house is exactly the house
  its own chunk produces (determinism); and no chunk has two houses.

Numbers are modelled as follows. The integer arithmetic of `seededRandom` is
exact in JavaScript, because every intermediate value stays below 2^53.
Doubles elsewhere (`scrollX`, positions, the final division of
`seededRandom`) are Dafny `real`s. `Math.floor` is `.Floor`. The camera's
scroll position and width, and the state of the right key, are inputs to
`Update`. The engine's camera-follow policy is not modelled.

This version of the scene uses 350 px chunks, generates no treasures and has
no entering of houses, so eviction has no exemption for an occupied house.

## Model

| member | source | states |
|---|---|---|
| `SeededRandom.JsRem` | get-to-the-treasure/src/scenes/GameScene.js:5 | JavaScript `%` by 2147483647: the remainder has the dividend's sign, lies strictly between -2147483647 and 2147483647, and differs from the dividend by a multiple of the modulus |
| `SeededRandom.NormalizedSeed` | get-to-the-treasure/src/scenes/GameScene.js:5-6 | the normalised state lies in [0, 2147483646]; for every seed `>= 0` it is in [1, 2147483646]; it is 0 exactly when the truncated remainder is -2147483646 |
| `SeededRandom.MultiplierKeepsNonZero` | get-to-the-treasure/src/scenes/GameScene.js:7 | for a state in [0, 2147483646], multiplying by 16807 gives a multiple of 2147483647 exactly when the state is 0 |
| `SeededRandom.NextState` | get-to-the-treasure/src/scenes/GameScene.js:5-7 | the state after `(s * 16807) % 2147483647` lies in [0, 2147483646], is zero exactly when the normalised seed is, and is congruent to the normalised seed times 16807 |
| `SeededRandom.Random` | get-to-the-treasure/src/scenes/GameScene.js:4-9 | `seededRandom(seed)` is below 1 for every seed, in [0, 1) for every seed `>= 0` (and whenever the normalised state is non-zero), and negative exactly in the normalised-to-zero case |
| `SeededRandom.MultiplierCancels` | get-to-the-treasure/src/scenes/GameScene.js:7 | a difference of states smaller than the modulus that 16807 maps to a multiple of 2147483647 is zero |
| `SeededRandom.RandomInjective` | get-to-the-treasure/src/scenes/GameScene.js:3-9 | for every pair of integer seeds, the two give the same value exactly when they normalise to the same state |
| `SeededRandom.LiftCollides` | get-to-the-treasure/src/scenes/GameScene.js:5-6 | the lift by 2147483646 (not 2147483647) makes seeds 0, 2147483646 and 2147483647 normalise to the same state and give the same value |
| `SeededRandom.NegativeEdgeSeedIsNegative` | get-to-the-treasure/src/scenes/GameScene.js:4-8 | seed -2147483646 normalises to 0 and yields -1/2147483646, outside [0, 1) |
| `GameScene.ChunkAt` | get-to-the-treasure/src/scenes/GameScene.js:132-134 | the chunk of a position is the one whose 350 px span contains it: chunk*350 <= x < chunk*350+350 |
| `GameScene.ChunkHouse` | get-to-the-treasure/src/scenes/GameScene.js:140-155 | the per-chunk decision: presence channel chunk*7+1 against 0.6, x from channel chunk*11+5, colour from chunk*17+7, y offset from chunk*19+9; its properties are stated by `HouseWithinChunk`, and `IsChunkHouse` ties every live house to it |
| `GameScene.HouseWithinChunk` | get-to-the-treasure/src/scenes/GameScene.js:140-153 | a chunk `>= 0` has a house exactly when `seededRandom(chunk*7+1) < 0.6`; its x lies in [chunk*350+50, chunk*350+300), so `floor(x/350)` is the chunk; its colour index is a valid index into the six `HOUSE_COLORS`; its y lies in (roadTop-54, roadTop-24] |
| `GameScene.StartChunk` | get-to-the-treasure/src/scenes/GameScene.js:132 | the first chunk a visit asks for is the chunk under the camera's left edge: chunk*350 <= scrollX < chunk*350+350 |
| `GameScene.EndChunk` | get-to-the-treasure/src/scenes/GameScene.js:134 | the last chunk a visit asks for is two past the chunk under the camera's right edge: (end-2)*350 <= scrollX+width < (end-2)*350+350 |
| `GameScene.ChunkSpan` | get-to-the-treasure/src/scenes/GameScene.js:136-138 | the chunks a visit marks: exactly the non-negative indices between the first and last chunk asked for |
| `GameScene.Spawned` | get-to-the-treasure/src/scenes/GameScene.js:136-157 | the houses one visit of lo..hi appends, in chunk order; its properties are stated by `SpawnedFromFreshChunks`, `SpawnedHouseFor`, `SpawnedNothingWhenVisited`, `SpawnedIgnoresOutside`, `SpawnedSplit` and `SpawnedRightOf`, and `Scene.SpawnHouses` is proved equal to it |
| `GameScene.SpawnedFromFreshChunks` | get-to-the-treasure/src/scenes/GameScene.js:136-156 | every house a visit appends is the deterministic house of a non-negative chunk in range that was not generated before, and the appended houses come from strictly increasing chunks (at most one per chunk) |
| `GameScene.SpawnedHouseFor` | get-to-the-treasure/src/scenes/GameScene.js:136-156 | a visit appends a house for a chunk if and only if the chunk is in range, non-negative, not yet generated and its presence channel is below 0.6 |
| `GameScene.SpawnedNothingWhenVisited` | get-to-the-treasure/src/scenes/GameScene.js:137 | when every non-negative chunk of the range is already generated, a visit appends no house |
| `GameScene.SpawnedIgnoresOutside` | get-to-the-treasure/src/scenes/GameScene.js:136-138 | generated chunks outside the range do not change what a visit appends |
| `GameScene.SpawnedSplit` | get-to-the-treasure/src/scenes/GameScene.js:130-158 | visiting lo..mid and then mid+1..hi appends the same houses, in the same order, as visiting lo..hi at once: the result does not depend on how the range was split across frames |
| `GameScene.VisitKeepsInvariant` | get-to-the-treasure/src/scenes/GameScene.js:136-156 | a visit preserves the world invariant: generated chunks non-negative, each live house its chunk's deterministic house, no chunk with two houses |
| `GameScene.Kept` | get-to-the-treasure/src/scenes/GameScene.js:162-168 | the houses the filter keeps, in order; its properties are stated by `KeptMembers`, `KeptAppend`, `KeptEvictedPartition`, `KeptIdempotent`, `KeptAllInView` and `KeptDistinct`, and `Scene.CleanupHouses` is proved equal to it |
| `GameScene.Evicted` | get-to-the-treasure/src/scenes/GameScene.js:163-166 | the houses the filter destroys, in order; its properties are stated by `KeptMembers`, `KeptAppend`, `KeptEvictedPartition` and `KeptAllInView`, and `Scene.CleanupHouses` returns exactly it |
| `GameScene.KeptMembers` | get-to-the-treasure/src/scenes/GameScene.js:161-168 | a house survives cleanup if and only if it was live and its x is at least scrollX-400; it is destroyed if and only if it was live and its x is less |
| `GameScene.KeptAppend` | get-to-the-treasure/src/scenes/GameScene.js:162-168 | both the kept and the destroyed lists distribute over concatenation, so cleanup keeps the houses' relative order |
| `GameScene.KeptEvictedPartition` | get-to-the-treasure/src/scenes/GameScene.js:162-168 | as multisets, kept plus destroyed is exactly the old house list: every house is kept or destroyed, and none is both |
| `GameScene.KeptIdempotent` | get-to-the-treasure/src/scenes/GameScene.js:160-169 | a second cleanup at the same scroll keeps everything and destroys nothing |
| `GameScene.KeptAllInView` | get-to-the-treasure/src/scenes/GameScene.js:162-168 | when no house lies left of the cut-off, cleanup keeps the list unchanged and destroys nothing |
| `GameScene.KeptDistinct` | get-to-the-treasure/src/scenes/GameScene.js:162-168 | cleanup keeps houses of distinct chunks distinct |
| `GameScene.CleanupKeepsInvariant` | get-to-the-treasure/src/scenes/GameScene.js:160-169 | cleanup preserves the world invariant |
| `GameScene.SpawnedRightOf` | get-to-the-treasure/src/scenes/GameScene.js:136-156 | every house a visit appends lies at or right of x = lo*350+50, the left margin of the first chunk in range |
| `GameScene.SpawnedSurvivesCleanup` | get-to-the-treasure/src/scenes/GameScene.js:64-65 | a house spawned in a frame is never destroyed by that frame's cleanup, because its x exceeds scrollX-300 |
| `GameScene.CarBody.constructor` | get-to-the-treasure/src/scenes/GameScene.js:51-58 | the car's physics body, reduced to the horizontal acceleration and velocity that `update` sets, starts at rest |
| `GameScene.Scene.RoadTop` | get-to-the-treasure/src/scenes/GameScene.js:146 | the road's top edge, roadY - roadHeight/2, from which every house's y is measured |
| `GameScene.Scene.constructor` | get-to-the-treasure/src/scenes/GameScene.js:20-27 | the scene starts with roadY = height/2 (road top height/2-40), no generated chunks, no houses, a car at rest, and the invariant holding |
| `GameScene.Scene.SpawnHouses` | get-to-the-treasure/src/scenes/GameScene.js:130-158 | the generated chunks grow by exactly the non-negative chunks from floor(scrollX/350) to floor((scrollX+width)/350)+2; the houses become the old list followed by the visit's houses; when the invariant held before, it still holds |
| `GameScene.Scene.CleanupHouses` | get-to-the-treasure/src/scenes/GameScene.js:160-169 | the houses become the in-order filter keeping x >= scrollX-400; the destroyed houses are exactly the others; the generated chunks do not change; when the invariant held before, it still holds |
| `GameScene.Scene.DriveControl` | get-to-the-treasure/src/scenes/GameScene.js:50-59 | acceleration is 500 when right is held and 0 otherwise; a negative velocity becomes 0 and any other is kept, so velocity is >= 0 |
| `GameScene.Scene.Update` | get-to-the-treasure/src/scenes/GameScene.js:49-66 | one frame: driving control, then the visit, then cleanup; the new houses are the old survivors followed by all of the frame's new houses; only old houses are destroyed; the car's new acceleration and velocity are those of `DriveControl`; when the invariant held before, it still holds |
| `GameScene.RevisitSpawnsNothing` | get-to-the-treasure/src/scenes/GameScene.js:137-138 | calling `spawnHouses` twice with the same camera leaves the same state as calling it once, and keeps the invariant when it held before |

## Left out

- `generateHouseTextures`, `drawRoad`, `drawCar` and `ROOF_COLORS` (GameScene.js:12, 68-128, 171-236): rendering through the game engine, with no logic.
- The engine's arcade physics (drag 400, maximum velocity 300, world bounds, camera follow and offset, GameScene.js:36-46): integration happens inside the engine, so velocity between frames and `scrollX` are inputs.
- The dashes' `tilePositionX` update (GameScene.js:62): presentation only.
- The image origin `(0.5, 1)` of each house (GameScene.js:154): presentation only; the record keeps the anchor point.
- `rand2 = seededRandom(chunk * 13 + 3)` and `roadBottom` (GameScene.js:141, 147): computed but never used, so they have no effect.
- IEEE-754 rounding of the `(s - 1) / 2147483646` division, of `floor(scrollX / 350)` and of the house coordinates: modelled with ideal real arithmetic, so bit-exact behaviour at the 0.6 threshold is not captured.
- `main.js`: engine bootstrapping and configuration only.
- Treasures, the enter/exit-house interaction states, the occupied-house eviction exemption and the weather cycle: this version of the scene has none of them.
