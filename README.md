# Terrain, platform and key toggles of the Christmas-room scene

This Dafny project models two pieces of the OpenGL demo's `src/main.cpp`.

1. **The terrain and platform mesh construction.**
   - *Terrain vertices.* A `W × W` grid of points is stored three floats per point, in row-major order. The demo uses `W = 64`; the model takes any `W`.
   - *Terrain indices.* Each grid cell gets two triangles, six indices.
   - *Smoothing.* A 3×3 box filter replaces every height (the y slot) by the mean of the in-grid neighbourhood. It reads the unsmoothed heights, writes into a temporary buffer, and then copies the results into the y slots.
   - *Platform wall.* Four edge walks visit 4W−2 rim samples. Each sample pushes 12 floats: a bottom vertex at height −0.5 and a top vertex at the terrain height, each followed by a second attribute.
   - *Wall indices.* One quad joins each rim sample to the next, and the neighbour indices wrap modulo the vertex count.
2. **The key callback.** The F, C, SPACE, E and L keys drive a state machine over these globals:
   - the windmill flags (shown, coloured, rotating);
   - its speed and angle;
   - its 24 colour values;
   - the snow flag and the light flag.

Files:

- `terrain.dfy` (module `Terrain`) holds:
  - the grid layout (`RowStart`, `PointIndex`, and `RowMajor`, which is the source's `z*w + x`);
  - the vertex and index loops;
  - the smoothing filter, as imperative methods over sequences and a temporary array.

  Every method is proved against a specification function: `VertexAt`, `CellIndices`, and the scan-order `WindowCount`/`WindowSum`/`WindowMean`. Lemmas about those functions state the properties the code relies on.
- `platform.dfy` (module `Platform`) holds:
  - the rim walk (`RimPoint`, `Rim`, and the four edge walks);
  - the wall index loop (`WallIndices`);
  - `BuildTerrainAndPlatform`, which chains the whole construction at width 64.
- `controls.dfy` (module `KeyControls`) holds:
  - the toggle state as a value `Toggles` and its transition function `OnKey`, with lemmas for each key;
  - the invariant "rotating or coloured implies shown", proved for every reachable state;
  - the class `Controls`, whose fields and colour array are the globals. Its `KeyCallback` mirrors the callback's sequential `if`s and early returns, and is proved to follow `OnKey`.

Modelling choices:

- Floats are modelled as `real`.
- The sampled points are an opaque input `sample: (nat, nat) -> Vec3`, since each one comes from a square-to-disc mapping with `sqrt` and from Perlin noise.
- `rand()` is an input: the 24 values (`Draws`) the colour loop would draw, each in `0 .. RAND_MAX`.
- GLFW key and action codes are the library's constants: SPACE 32, C 67, E 69, F 70, L 76; RELEASE 0, PRESS 1, REPEAT 2.
- C runs its colour loop and then sets the coloured flag once, after the loop. Despite its indentation, the assignment at line 1614 is not part of the loop body (lines 1612-1614). The model states that order.

## Model

| member | source | states |
|---|---|---|
| `Terrain.RowMajor` | src/main.cpp:427 | the offset `z*w + x` the source computes is the row-major position of point (x, z), `z` whole rows of `w` points plus `x` |
| `Terrain.RowMajorOrder` | src/main.cpp:408-409 | the vertex loops visit points in strictly increasing row-major position |
| `Terrain.PointIndexInRange` | src/main.cpp:408-421 | every grid point's position is below `w*w`, and its three floats lie inside a `3*w*w` buffer |
| `Terrain.BuildVertices` | src/main.cpp:403-421 | the vertex loop yields exactly `3*w*w` floats, and point (x, z) is the sampled point, stored at float offset `3*(z*w+x)` |
| `Terrain.CellCorners` | src/main.cpp:427-438 | a cell's six indices are (topLeft, bottomLeft, topRight, topRight, bottomLeft, bottomRight), with topLeft = point (x, z), topRight = point (x+1, z), bottomLeft = point (x, z+1) and bottomRight = point (x+1, z+1); all are below `w*w` |
| `Terrain.BuildIndices` | src/main.cpp:425-440 | the index loop emits `6*(w-1)^2` indices; cell (x, z) occupies entries `6*(z*(w-1)+x) .. +6` with exactly its two triangles; every index is below `w*w` |
| `Terrain.WindowCountIsProduct` | src/main.cpp:450-461 | the filter's in-bounds neighbour count is the product of the in-range neighbours along x and along z, and is never zero |
| `Terrain.NeighbourCountByPosition` | src/main.cpp:450-461 | for `w >= 2` the neighbour count is 4 at a corner, 6 on an edge and 9 in the interior |
| `Terrain.WindowAverage` | src/main.cpp:447-464 | the dz/dx scan returns the sum of the in-grid unsmoothed heights divided by their count (`WindowMean`); every neighbour read lies inside the buffer and the count is non-zero |
| `Terrain.Smooth` | src/main.cpp:443-470 | smoothing keeps the buffer length and every x and z slot, and sets each point's y slot to the mean of its in-grid 3x3 window of the unsmoothed heights |
| `Terrain.WindowSumBounds` | src/main.cpp:455-460 | when every height lies in [lo, hi], the window sum lies between count·lo and count·hi |
| `Terrain.SmoothingKeepsBounds` | src/main.cpp:464 | when every input height lies in [lo, hi], each smoothed height does too |
| `Terrain.SmoothedWithin` | src/main.cpp:443-470 | the whole smoothed buffer keeps the input buffer's height range |
| `Platform.RimPoint` | src/main.cpp:500-570 | the k-th sample of the four edge walks is a grid point on the boundary |
| `Platform.RimCoversBoundary` | src/main.cpp:500-570 | every boundary point of the grid is visited by some rim sample |
| `Platform.RimCornersRepeat` | src/main.cpp:500-570 | the walks visit (w-1, 0) and (w-1, w-1) twice, start at (0, 0) and end at (0, 1) |
| `Platform.RimLayout` | src/main.cpp:500-570 | the first n rim samples take `12n` floats, and sample k sits at floats `12k .. 12k+11` |
| `Platform.PushRimSample` | src/main.cpp:501-515 | one loop body pushes the twelve floats: bottom (X, −0.5, Z), attribute (X, 0, Z), top (X, Y, Z), attribute (X, 0, Z), reading the terrain at `3*(z*w+x)` |
| `Platform.WalkNearEdge` | src/main.cpp:500-516 | the walk along z = 0 with x rising pushes rim samples 0 .. w−1 |
| `Platform.WalkRightEdge` | src/main.cpp:518-534 | the walk along x = w−1 with z rising pushes rim samples w .. 2w−1 |
| `Platform.WalkFarEdge` | src/main.cpp:536-552 | the walk along z = w−1 with x falling to 1 pushes rim samples 2w .. 3w−2 |
| `Platform.WalkLeftEdge` | src/main.cpp:554-570 | the walk along x = 0 with z falling to 1 pushes rim samples 3w−1 .. 4w−3 |
| `Platform.BuildRimVertices` | src/main.cpp:497-570 | the four walks give `12*(4w−2)` floats, with floats `12k .. 12k+11` the rim sample of rim point k |
| `Platform.WallCloses` | src/main.cpp:573-581 | the last quad joins the last rim sample back to sample 0 |
| `Platform.WallStep` | src/main.cpp:573-581 | the six indices emitted in iteration i are below the vertex count `m`, and equal the quad of sample i when `m` is exactly two vertices per sample |
| `Platform.BuildRimIndices` | src/main.cpp:573-581 | the loop emits `6*(size/12)` indices, every index is below `size/6`, and for a buffer of whole samples iteration i emits quad i |
| `Platform.BuildTerrainAndPlatform` | src/main.cpp:403-581 | for width 64, the construction gives: the buffer sizes; the terrain buffer is the smoothing of the sampled grid, so each x and z is the sample's and each height is the window mean of the sampled heights; each cell's two triangles at its row-major slot; terrain and platform indices in range; heights in [0, 1] when the samples are; the platform layout; the wall quads |
| `KeyControls.Initial` | src/main.cpp:64-83 | the start-up globals satisfy the invariant, with black colours in [0, 1] and all toggles off |
| `KeyControls.ColorOf` | src/main.cpp:1613 | `rand() / RAND_MAX` lies in [0, 1], is 0 exactly for a zero draw, and is 1 exactly for RAND_MAX |
| `KeyControls.UnitQuotient` | src/main.cpp:1613 | a draw divided by any positive bound it does not exceed lies in [0, 1], is 0 exactly for a zero draw, and is 1 exactly at the bound; so the colour properties do not depend on the C library's RAND_MAX |
| `KeyControls.Recolored` | src/main.cpp:1612-1613 | the colour loop fills all 24 slots, slot i from draw i, and every slot ends up in [0, 1] |
| `KeyControls.OnKey` | src/main.cpp:1593-1630 | every key event preserves "rotating or coloured implies shown" and a full colour buffer, and keeps colours in [0, 1] |
| `KeyControls.ShowResets` | src/main.cpp:1595-1601 | F on a hidden windmill shows it with speed 90, angle 0 and rotation and colour off; snow, lights and colours are unchanged |
| `KeyControls.HideClears` | src/main.cpp:1601-1606 | F on a shown windmill hides it and clears rotation and colour; speed, angle, snow, lights and colours are unchanged |
| `KeyControls.ShowThenHide` | src/main.cpp:1595-1607 | pressing F twice from a consistent hidden state changes only speed and angle, to 90 and 0 |
| `KeyControls.HiddenIgnoresColorAndSpin` | src/main.cpp:1609-1621 | while the windmill is hidden, C and SPACE change nothing |
| `KeyControls.RecolorFills` | src/main.cpp:1609-1615 | C (press or repeat) on a shown windmill sets all 24 colours from the draws, each in [0, 1], switches colour on, and changes nothing else |
| `KeyControls.SpinToggles` | src/main.cpp:1617-1621 | SPACE on a shown windmill flips rotation and nothing else |
| `KeyControls.SnowAndLightsToggleAlone` | src/main.cpp:1623-1629 | E flips only the snow and L only the lights; pressing either twice restores the state |
| `KeyControls.SnowCommutes` | src/main.cpp:1593-1630 | the snow toggle commutes with every key event |
| `KeyControls.LightsCommute` | src/main.cpp:1593-1630 | the light toggle commutes with every key event |
| `KeyControls.ReleaseAndOtherKeysIgnored` | src/main.cpp:1593-1630 | a release, or a key other than F, C, SPACE, E and L, changes nothing |
| `KeyControls.RunKeepsInvariant` | src/main.cpp:1593-1630 | any sequence of key events from a consistent state, with colours in [0, 1], stays consistent and keeps its colours in [0, 1] |
| `KeyControls.ReachableConsistent` | src/main.cpp:75-83 | every state reachable from start-up keeps the invariant and unit colours |
| `KeyControls.Controls.constructor` | src/main.cpp:64-83 | the globals start at the start-up state |
| `KeyControls.Controls.KeyCallback` | src/main.cpp:1593-1630 | the callback's field and array updates produce exactly the state `OnKey` gives, and the invariant is kept |

## Left out

- OpenGL, GLFW and ImGui calls are not modelled: buffer uploads, vertex array setup, uniforms, draw calls and window management. They call a foreign API. `include/shader.h` is not part of this model.
- The square-to-disc mapping with `glm::sqrt` and the Perlin height (src/main.cpp:410-416) are library floating-point numerics. The model takes the resulting point as the opaque `sample` input. `BuildTerrainAndPlatform` therefore states the [0, 1] height range only conditionally: when the samples lie in [0, 1].
- `RandMax` is glibc's RAND_MAX, 2147483647. The value is implementation-defined, and the Microsoft C runtime uses 32767. The contracts of `ColorOf`, `Recolored`, `OnKey` and `RecolorFills` hold for any positive RAND_MAX (`UnitQuotient`). Only the exact colour values depend on the constant.
- Floating-point rounding is not modelled: floats are `real`, and the smoothing mean and `rand() / RAND_MAX` are exact divisions.
- The unsigned 32-bit index arithmetic is unbounded here. At width 64 no index comes near 2^32.
- `rand()` is an input (`Draws`), as are the key codes and actions. The unused `scancode`, `mods` and window arguments of the callback are dropped.
- The particle counts (src/main.cpp:81, 83) are not modelled, because the callback never touches them. For the same reason the particle systems are left out, and so are:
  - the windmill angle wrap-around;
  - the speed and angle nudges in `processInput`;
  - the camera callbacks. `camera.h` is not part of this model.
- `Smooth` computes each window through the `WindowAverage` method, instead of inlining the dz/dx loops into the z/x loops as the source does. The arithmetic and the order of reads are the same.
- `BuildRimVertices` runs the source's four consecutive edge loops as four methods, which are called in sequence.
