# Falling leaves: a verified model of the leaf particle pool

This project models `FallingLeavesSystem` from `src/leaf.js`. It is the pool of
twenty falling leaves that a three.js scene draws as one instanced mesh. The pool
holds one record per leaf: position, velocity, Euler rotation, rotation speed and
scale. It has three operations:

- The constructor pushes a record for each slot, respawns it, and then gives it a
  random starting height anywhere between `yMin` and `yMax`.
- `respawn(p)` puts a leaf near the top of the spawn volume with a fresh fall
  velocity, spin and scale 0.
- `update(dt)` visits every slot in index order. It moves and spins the leaf,
  grows it in while its scale is below 0.8, and sways it sideways by `sin(y)`.
  It then writes the leaf's transform to the mesh's matrix slot and respawns the
  leaf if it is below ground. Finally it flags the matrix buffer for upload.

The model has two modules:

- `Three` (three.dfy) holds the value types the pool touches: `Vec3`, and the
  translation/rotation/scale record `Trs` that a matrix slot is composed from.
- `Leaf` (leaf.dfy) has two layers.
  - A specification layer of functions. `Spawn` gives what `respawn` produces from
    twelve random values. `Seeded` gives what the constructor leaves in a slot.
    `Step` is one leaf's motion in `update`. `Advance` is one whole `update` over a
    pool, and `Run` is `m` successive calls. Lemmas state what `respawn` and
    `update` promise about these functions.
  - An imperative layer: the class `LeafPool`. Its fields are an `array<Particle>`
    for the records, an `array<Trs>` for the mesh's matrix buffer, the
    `needsUpdate` flag and the random stream with its cursor. Its members are
    the constructor with `SeedSlot` (one iteration of its loop), `Draw` (one
    `Math.random()` call) and `DrawThree` (the three calls of one `set(...)`),
    `Respawn`, and `Update` with `UpdateSlot` (one iteration of its loop).
    Each method is proved against the specification functions. For example, `Update` leaves exactly
    `Advance(old(particles[..]), ...).pool` in the array, and it leaves the
    pre-respawn transform of every leaf in the matrix buffer.

`Math.random()` is an infinite stream `random: nat -> real` that the pool reads
from its cursor `drawn`. Each call is one `Draw`. `respawn` draws twelve values
in source order: position x, y, z, velocity x, y, z, rotation x, y, z, then spin
x, y, z. The constructor draws thirteen per slot. The properties assume only
that the values lie in [0, 1). Within one `update`, slot `i` draws from position
`k + 12 * |FallenSlots(ps, i, ...)|`, where `k` is the cursor at the start and
`FallenSlots` is the set of earlier slots that respawned. `RespawnDrawsDisjoint`,
with `FallenSlotsGrowPast` and `FallenSlotsNeverShrink`, justifies this closed form:
no two respawns of one update read the same value, and
`AdvanceDrawsAtMostTwelvePerSlot` bounds what one update consumes. `Math.sin` is a
parameter `sin: real -> real` of `Update`. The sway bound assumes only that it
stays in [-1, 1].

## Model

| member | source | states |
|---|---|---|
| Leaf.SpawnLaunches | src/leaf.js:37-59 | given twelve values in [0, 1), a respawned leaf is in the canopy: y in (yMax-1, yMax], x within xRange/2 of 0, z within zRange/2 of 0. Its velocity has vel.x in [0.0125, 0.0625), vel.y in (-0.03, -0.02] and vel.z in [-0.01, 0.04). Each rotation component is in [0, 3), each spin component in [-0.05, 0.05), and its scale is 0 |
| Leaf.CanopyPositionInVolume | src/leaf.js:39-41 | a respawn position drawn from values in [0, 1) is centred in x and z, and its y lies within one unit below yMax |
| Leaf.InterpolatedHeight | src/leaf.js:33 | `r * (yMax - yMin) + yMin` with r in [0, 1) lies between yMin and yMax, the far end excluded, for bounds in either order |
| Leaf.SeededLaunches | src/leaf.js:30-33 | a slot the constructor fills has the launch state of a respawn (scale 0 included), and its height lies between yMin and yMax |
| Leaf.InitialPool | src/leaf.js:20-34 | the constructor leaves exactly Count = 20 leaves |
| Leaf.InitialPoolLaunched | src/leaf.js:22-34 | given values in [0, 1), every leaf of the initial pool has scale 0 (the pushed literal's 1.0 is overwritten), a launch state and a height between yMin and yMax |
| Leaf.StepGrowsIn | src/leaf.js:72 | a leaf at or above scale 0.8 keeps its scale. With dt >= 0 no leaf shrinks, and 0 <= scale < 0.8 + 2*dt is preserved |
| Leaf.StepFallsAndSways | src/leaf.js:65-75 | velocity and spin are unchanged and y moves by vel.y. With sin in [-1, 1], x moves by vel.x to within 0.001 |
| Leaf.FallenSlots | src/leaf.js:62-89 | at most n of the first n slots can fall in one update |
| Leaf.AdvanceDrawsAtMostTwelvePerSlot | src/leaf.js:62-89 | one update draws at most twelve values per slot, so its final cursor lies between k and k + 12 * the pool size, and it draws nothing exactly when no leaf falls below ground |
| Leaf.FallenSlotsNext | src/leaf.js:62-89 | extending the prefix by slot n adds exactly one fallen slot when that leaf is below ground after its step, and none otherwise. This is how the `update` loop advances the stream cursor |
| Leaf.FallenSlotsGrowPast | src/leaf.js:62-89 | a slot that falls is counted by every longer prefix |
| Leaf.FallenSlotsNeverShrink | src/leaf.js:62 | a longer prefix never counts fewer fallen slots |
| Leaf.RespawnDrawsDisjoint | src/leaf.js:62-89 | within one update, two respawns never read the same random value: the twelve values of an earlier respawn all come before those of a later slot, and every slot's cursor is at or below the tick's final cursor |
| Leaf.Advance | src/leaf.js:61-92 | one update keeps the pool's size |
| Leaf.AdvanceRecyclesFallen | src/leaf.js:86-89 | after an update, a leaf whose step took it below ground has been respawned in the canopy with a fresh launch state. Every other leaf is exactly its stepped self |
| Leaf.AdvanceLeavesNoneBelowGround | src/leaf.js:37-89 | with yMax >= 1, no leaf ends an update below ground, whatever the pool held before |
| Leaf.AdvanceGrowsOrRecycles | src/leaf.js:72-88 | with dt >= 0, an update never shrinks a leaf except by respawning it at scale 0 |
| Leaf.AdvanceKeepsScalesBounded | src/leaf.js:58-72 | with dt >= 0, one update preserves 0 <= scale < 0.8 + 2*dt for the whole pool |
| Leaf.Run | src/leaf.js:61-92 | any number of updates keeps the pool's size |
| Leaf.RunKeepsScalesBounded | src/leaf.js:61-92 | over any number of updates with a fixed dt >= 0, the scale bound is an invariant of the pool |
| Leaf.PoolStaysInShape | src/leaf.js:4-92 | from construction on, with a fixed dt >= 0 and yMax >= 1, every scale stays in [0, 0.8 + 2*dt), and after any update no leaf is below ground |
| Leaf.LeafPool.constructor | src/leaf.js:4-35 | the pool has 20 slots holding exactly InitialPool, 13 values have been drawn per slot, every matrix slot is the identity, and the buffer is not flagged |
| Leaf.LeafPool.SeedSlot | src/leaf.js:30-33 | one constructor iteration leaves Seeded from the next 13 values in slot i and changes no other slot |
| Leaf.LeafPool.Draw | src/leaf.js:39 | one `Math.random()` call returns the next value of the stream and advances the cursor by one |
| Leaf.LeafPool.DrawThree | src/leaf.js:44-56 | the three `Math.random()` arguments of one `set(...)` are the next three values of the stream, in order, and the cursor advances by three |
| Leaf.LeafPool.Respawn | src/leaf.js:37-59 | slot i becomes Spawn of the next 12 values, no other slot changes, and the cursor advances by 12 |
| Leaf.LeafPool.UpdateSlot | src/leaf.js:62-90 | one iteration leaves the stepped leaf in slot i, respawned exactly when it is below ground (drawing 12 values then). Matrix slot i gets the stepped, pre-respawn transform, and no other slot of either array changes |
| Leaf.LeafPool.Update | src/leaf.js:61-92 | the pool becomes Advance of the old pool and the cursor Advance's final cursor. Each matrix slot holds its leaf's stepped, pre-respawn transform, and the buffer is flagged for upload |

## Left out

- Rendering plumbing is not modelled: the material, the `InstancedMesh`, `castShadow`, `scene.add` (src/leaf.js:10-16) and the `dummy` object.
- Matrix composition is not modelled. `dummy.updateMatrix()` and `setMatrixAt` (src/leaf.js:78-84) are represented by the translation/rotation/scale record `Trs` that the 4x4 matrix would be composed from.
- `Math.random` and `Math.sin` are inputs, not functions the model computes. `Math.random` is a stream the pool is built with, and `Math.sin` is a parameter of `Update`. Their ranges ([0, 1) and [-1, 1]) appear only as lemma hypotheses.
- The matrix buffer's starting contents come from three.js's `InstancedMesh` constructor, not from src/leaf.js:14. The model assumes that every slot starts as the identity transform, as recent three.js releases set it; older releases left the buffer zero-filled, which this model does not capture.
- Coordinates are mathematical reals rather than IEEE doubles, so rounding is not modelled.
- `needsUpdate` is a boolean field. three.js's setter actually bumps a version counter on the buffer.
- Leaves are records in an array, and `Respawn` and `UpdateSlot` take a slot index. In the source, `respawn(p)` mutates the record object that `particles[i]` refers to. No record is shared between slots, so the model loses no aliasing.
- The spawn volume is not checked. The code accepts any `{yMin, yMax, xRange, zRange}`, and so does the model; properties that need a condition (`yMax >= 1`) take it as a hypothesis.
- Leaf.LeafPool.Update: the properties of the pool after an update (none below ground, scales bounded, fallen leaves recycled) are not repeated in its postcondition. The postcondition ties the new state to Advance, and the lemmas on Advance and Run state those properties.
- src/script.js (scene setup, grid shader, renderer, resize handling, orbit controls, the animation loop) and src/Helper/WorldAxisGizmo.js (an overlay viewport) are not part of this model; they only issue rendering calls.
