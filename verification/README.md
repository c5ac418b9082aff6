# Rubik's cube rotation engine

This project models the rotation engine of the cube display in `src/cubeDisplay.ts`, with every piece of drawing removed. The engine has four parts:

- **Command queue.** `rotate(layer, direction)` accepts a command only if the layer is one of the nine layer names and the direction is `"CW"`, `"CCW"` or the number `2`. An accepted command is appended to the queue.
- **Animation driver.** This is the state-changing part of `renderScene`. Each frame it either advances the running turn by 1.5 degrees, clamped at 90, or dequeues the next command. At 90 degrees it commits the turn:
  - every cubie of the layer snapshot is rotated;
  - the engine goes idle;
  - the layer index is rebuilt.
- **Cubie positions.** `applyRotation` turns a cubie's position by a multiple of 90 degrees about the axis of the rotating layer, then rounds it to two decimals.
- **Layer index.** `createCubies` lays 27 cubies out on the grid {-2.25, 0, 2.25}³. `updateSideIndices` rebuilds nine lists of cubie indices (left/middle/right, bottom/equator/top, back/standing/front) from the sign of each rounded coordinate.

## Modules

| File | Module | Contents |
|---|---|---|
| `wrappers.dfy` | `Wrappers` | `Option` and `Result` |
| `cubie.dfy` | `Cubie` | Positions in hundredths, quarter turns, `Turn` (the position part of `applyRotation`) and its algebra |
| `layers.dfy` | `Layers` | Layer names, the layer-to-axis table, `Math.round`, classification, the nine-list index and its properties |
| `commands.dfy` | `Commands` | Directions, commands, the checks of `rotate`, the direction-to-turns map |
| `engine.dfy` | `Animation` | The engine state as a value, one frame (`Frame`) and `n` frames (`Frames`), the invariant and everything proved about runs of frames |
| `display.dfy` | `Display` | Class `Cube`: the same state in mutable fields, updated in place by `Rotate` and `Step`, each proved against the pure model |

### Representation

- **Positions.** Positions are integer hundredths: 2.25 is 225.
  - A quarter turn is an exact signed permutation of the coordinates. +90 degrees about X maps (x, y, z) to (x, -z, y); about Y to (z, y, -x); about Z to (-y, x, z).
  - A turn of `t` quarter turns is `t mod 4` such steps. So the two-decimal rounding of `applyRotation` is the identity here.
- **Rounding.** `Math.round` on hundredths is `(h + 50) / 100` with flooring division, so halves round toward positive infinity, as in JavaScript.
- **Angle.** `angle` is kept in tenths of a degree: the speed 1.5 is 15 and 90 degrees is 900. A turn takes exactly 60 advancing frames. This is exact for the source too, because sums of 1.5 are exact in binary floating point.
- **Directions.** A direction is `Text(s)` or `Number(n)`, the `string | number` of the source. Only `Text("CW")`, `Text("CCW")` and `Number(2.0)` pass the check in `rotate`.
- **Layer index.** The index (`Record<string, number[]>` in the source) is a record of nine lists, `SideIndices`, with `Get` and `Push`.
- **Queue.** The queue stores the validated `Command(layer, direction)`, with the layer as an enumeration.

The class `Display.Cube` holds these fields:
- `cubies`: an array of positions;
- `sideIndices`;
- `queue`;
- `turns`;
- `angle`;
- `layerToRotate`;
- `cubiesToRotate`.

`State()` reads the fields as an `Animation.Engine` value, and `Valid()` is the engine invariant `Inv` on that value. `Step` is split along the three blocks of `renderScene`, each a method proved against a pure function:
- `Advance` against `Advanced`;
- `TakeSnapshot` against `Snapshotted`;
- `Settle` and `CommitAndReset` against `Settled` and `Commit`.

## Model

| member | source | states |
|---|---|---|
| Display.Cube.Rotate | src/cubeDisplay.ts:400-416 | Keeps the invariant. If the layer name and the direction pass, exactly one command with that layer and direction is appended at the tail, earlier entries are untouched and no error is reported. Otherwise the queue is unchanged and the first failed check is reported. |
| Commands.Validate | src/cubeDisplay.ts:400-413 | The command is accepted if and only if the layer is one of the nine names and the direction is whitelisted. An accepted command carries exactly that layer and direction. The error is "invalid layer" if and only if the name is not a layer, whatever the direction. |
| Layers.ParseLayer | src/cubeDisplay.ts:401-404 | A name parses to a layer whose name it is. It fails only when no layer has that name. |
| Layers.ParseLayerName | src/cubeDisplay.ts:401-404 | Every layer name parses back to its layer. |
| Commands.TurnsOf | src/cubeDisplay.ts:208-220 | "CW" gives -1, "CCW" gives +1 and 2 gives +2. The count is non-zero exactly for the three whitelisted directions, so every other value gives 0. |
| Commands.DirectionWhitelist | src/cubeDisplay.ts:402-409 | `possibleDirections.includes` compares by value and type. A direction passes exactly when it is the string "CW", the string "CCW" or the number 2. So the string "2" and a lower-case "cw" are rejected. |
| Display.Cube.Step | src/cubeDisplay.ts:197-275 | One frame keeps the array in place and keeps the invariant. The new state is exactly `Frame` of the old one. |
| Display.Cube.Advance | src/cubeDisplay.ts:199-223 | The first block of a frame: the new state is `Advanced` of the old one. |
| Animation.Advanced | src/cubeDisplay.ts:199-223 | After the first block, a layer has been chosen whenever a turn runs or the angle has reached 90 degrees. |
| Animation.AdvancedQueue | src/cubeDisplay.ts:199-223 | The first block never moves a cubie or touches the index. While a turn runs it leaves the queue alone and never lets the angle exceed 90 degrees. When idle it takes exactly the head, without advancing the angle. With an empty queue it changes nothing. |
| Display.Cube.TakeSnapshot | src/cubeDisplay.ts:253-258 | The snapshot read in the draw loop: the new state is `Snapshotted` of the old one. |
| Animation.SnapshotIsMembers | src/cubeDisplay.ts:257 | The snapshot is the only field the draw loop refreshes. With an up-to-date index, the snapshot is the rotating layer's current member list. |
| Display.Cube.Settle | src/cubeDisplay.ts:268-275 | The last block: commits exactly when the angle has reached 90 degrees. The new state is `Settled` of the old one. |
| Animation.SettledBelowFull | src/cubeDisplay.ts:268-275 | After the last block the angle is below 90 degrees. A frame that has not reached 90 degrees is left as it is, and the queue is never touched. |
| Animation.CommitIdle | src/cubeDisplay.ts:268-275 | A commit leaves the engine idle, with angle and turns 0 and the index rebuilt from the new positions. It moves no cubie outside the snapshot. It leaves the queue, the layer and the snapshot as they were. |
| Display.Cube.CommitAndReset | src/cubeDisplay.ts:268-275 | The commit turns exactly the snapshot's cubies about the axis of the rotating layer, resets `angle` and `turns` to 0, and rebuilds the index from the new positions. |
| Display.Cube.CommitTurn | src/cubeDisplay.ts:269 | Every index in the snapshot gets the rotation exactly once, and every other cubie keeps its position. |
| Animation.ApplyTurnMovesChosen | src/cubeDisplay.ts:269 | The `forEach` moves only the cubies whose indices it visits. Each of them keeps its coordinate along the rotation axis and stays on the grid. |
| Animation.TurnLayerMovesLayer | src/cubeDisplay.ts:269-274 | A layer turn moves no cubie outside the layer and keeps the number of cubies. |
| Display.Cube.ApplyRotation | src/cubeDisplay.ts:72-86 | Rotates the one cubie in place: its position becomes `Turn` of the old one, and every other array slot is unchanged. |
| Animation.Frame | src/cubeDisplay.ts:197-275 | A frame keeps the engine well-shaped: no turn runs without a chosen layer. |
| Animation.FrameInParts | src/cubeDisplay.ts:197-275 | A frame is the advance, then the snapshot, then the commit, in that order. |
| Animation.StepFacts | src/cubeDisplay.ts:197-275 | From a valid state, a frame keeps the invariant and is the three blocks in order. Whatever its last block commits is the rotating layer's current member list. |
| Animation.FrameWhileRotating | src/cubeDisplay.ts:199-203 | While a turn runs, a frame only adds the speed to the angle, or, on reaching 90 degrees, it commits. |
| Animation.FrameStartsHead | src/cubeDisplay.ts:204-223 | An idle frame with a non-empty queue removes exactly the head command. It sets the head's layer and turn count, does not advance the angle, and snapshots the layer's current members. |
| Animation.FrameIdle | src/cubeDisplay.ts:197-275 | An idle frame with an empty queue changes nothing. |
| Animation.FrameQueue | src/cubeDisplay.ts:199-206 | The queue is untouched while a turn runs. It loses only its head, and only when idle. It never shrinks by more than one per frame. |
| Animation.CommitsCurrentMembers | src/cubeDisplay.ts:257-269 | The snapshot that is committed at 90 degrees is the current member list of the rotating layer, because the index is not rebuilt mid-turn. |
| Animation.InvRunning | src/cubeDisplay.ts:257 | Under the invariant, a running turn's snapshot equals the index entry of its layer. |
| Animation.CommitInv | src/cubeDisplay.ts:268-275 | Committing a turn keeps the invariant. |
| Animation.StartInv | src/cubeDisplay.ts:204-223 | Starting the head command keeps the invariant. |
| Animation.FramePreservesInv | src/cubeDisplay.ts:197-275 | Every frame keeps the invariant. The invariant says: 27 cubies on distinct grid points; the index rebuilt from them; only valid commands queued; idle means angle 0; a running turn has count -1, 1 or 2, an angle that is a multiple of the speed below 90 degrees, and its layer's members as snapshot. |
| Animation.FramesPreserveInv | src/cubeDisplay.ts:197-280 | Any number of frames keeps the invariant. |
| Animation.FramesAdd | src/cubeDisplay.ts:277-280 | Running `a` frames and then `b` frames is running `a + b` frames. |
| Animation.FramesThen | src/cubeDisplay.ts:277-280 | Frame runs compose through their intermediate state. |
| Animation.RotationFinishes | src/cubeDisplay.ts:199-203 | A turn at angle 90 - 1.5k degrees commits after exactly `k` more frames. Before that it stays in progress with the queue untouched. |
| Animation.RunHeadCommand | src/cubeDisplay.ts:197-275 | From idle, the head command is carried out in exactly 61 frames: one frame to dequeue it and 60 to turn. Afterwards the engine is idle, the layer is turned, the index is rebuilt and the rest of the queue waits. |
| Animation.AfterCommandInv | src/cubeDisplay.ts:197-275 | Carrying out one command keeps the invariant. |
| Animation.HeadCommandRunsAlone | src/cubeDisplay.ts:199-206 | During those 61 frames a turn is always in progress and no other command leaves the queue. |
| Animation.RunCommandsInOrder | src/cubeDisplay.ts:204-206 | Carrying out `n` commands consumes them from the front of the queue. It applies their layer turns in submission order. |
| Animation.FramesRunCommands | src/cubeDisplay.ts:197-280 | From idle, 61·n frames carry out the first `n` queued commands one after another. |
| Animation.RunInOrder | src/cubeDisplay.ts:197-280 | From idle, after 61·n frames the engine is idle, the first `n` commands are gone from the queue, and the positions are those of their turns applied in submission order. |
| Animation.FourClockwiseCommands | src/cubeDisplay.ts:197-280 | Four queued clockwise turns of a layer, run from idle, return every cubie to its start and leave the rest of the queue. |
| Animation.ClockwiseThenCounterClockwiseCommands | src/cubeDisplay.ts:197-280 | A queued clockwise then counter-clockwise turn of one layer, run from idle, returns every cubie to its start. |
| Animation.RunFourClockwise | src/cubeDisplay.ts:269 | Four clockwise turns of one layer, one after another, restore every position. |
| Animation.RunClockwiseThenCounterClockwise | src/cubeDisplay.ts:269 | A clockwise turn then a counter-clockwise turn of one layer restore every position. |
| Animation.TurnLayerKeepsMembers | src/cubeDisplay.ts:269-274 | Turning a layer keeps exactly the same cubies in that layer. |
| Animation.TurnLayerKeepsCube | src/cubeDisplay.ts:269-274 | After a committed turn the positions are still 27 distinct grid points, that is, a permutation of the grid. |
| Animation.TurnLayerAdd | src/cubeDisplay.ts:269 | Turning a layer by `a` and then by `b` is turning it by `a + b`. |
| Animation.TurnLayerFull | src/cubeDisplay.ts:269 | A whole number of revolutions of a layer changes nothing. |
| Animation.FourClockwiseLayerTurns | src/cubeDisplay.ts:269 | Four clockwise layer turns restore every position. |
| Animation.ClockwiseThenCounterClockwiseLayer | src/cubeDisplay.ts:269 | A clockwise layer turn followed by a counter-clockwise one is the identity. |
| Animation.LayerIndexSizes | src/cubeDisplay.ts:292-328 | Under the invariant, every one of the nine lists holds exactly nine cubies. |
| Cubie.Turn | src/cubeDisplay.ts:72-86 | A turn about a layer's axis keeps the coordinate along that axis. It maps grid points to grid points. |
| Cubie.QuarterTurnsKeep | src/cubeDisplay.ts:72-86 | Any number of quarter turns keeps the axis coordinate and keeps grid points on the grid. |
| Cubie.QuarterTurnsAdd | src/cubeDisplay.ts:72-86 | `a` quarter turns then `b` quarter turns are `a + b` quarter turns. |
| Cubie.QuarterTurnsMod | src/cubeDisplay.ts:72-86 | Quarter turns repeat with period four. |
| Cubie.TurnAdd | src/cubeDisplay.ts:72-86 | Turning by `a` then by `b` is turning by `a + b`. |
| Cubie.TurnFullRevolution | src/cubeDisplay.ts:72-86 | A multiple of four quarter turns is the identity. |
| Cubie.TurnInverse | src/cubeDisplay.ts:72-86 | A turn is undone by the opposite turn. |
| Cubie.TurnInjective | src/cubeDisplay.ts:72-86 | Distinct positions stay distinct under a turn. |
| Cubie.FourClockwiseTurns | src/cubeDisplay.ts:72-86 | Four -90 degree turns about one axis return every position to its start. |
| Cubie.ClockwiseThenCounterClockwise | src/cubeDisplay.ts:72-86 | A -90 degree turn followed by a +90 degree turn about one axis is the identity. |
| Layers.Classify | src/cubeDisplay.ts:298-327 | Classifying along an axis yields a layer of that axis. |
| Layers.GridLayer | src/cubeDisplay.ts:357-369 | On the grid, a layer is exactly the plane at its level on its axis. The axis is the table of `getSideRotationAxes`. |
| Layers.RotationAxis | src/cubeDisplay.ts:357-369 | `getSideRotationAxes` gives each layer the one axis along which `updateSideIndices` sorts cubies into it: some position falls in the layer along an axis exactly when that axis is the layer's rotation axis. |
| Layers.RoundUnits | src/cubeDisplay.ts:299 | `Math.round` gives the whole number within half a unit, with halves going up. |
| Display.Cube.UpdateSideIndices | src/cubeDisplay.ts:292-328 | Empties the nine lists and pushes each index on one list per axis. The result is exactly the index derived from the positions. |
| Layers.IndexSnoc | src/cubeDisplay.ts:298-327 | Handling one more cubie appends its index once per axis, to the layer it falls in. |
| Layers.IndexGet | src/cubeDisplay.ts:292-328 | The derived index `Index` holds, under every layer name, that layer's member list `Members`. `MembersSpec` states what that list is. |
| Layers.SideIndices.Push | src/cubeDisplay.ts:303-325 | A push appends the index to the end of the named list and leaves the other eight lists unchanged. |
| Layers.MembersSpec | src/cubeDisplay.ts:292-328 | For `Members`, the list `updateSideIndices` builds for one layer: an index is in it exactly when that cubie lies in the layer. The list is strictly ascending, with every index in range. |
| Layers.OneLayerPerAxis | src/cubeDisplay.ts:298-327 | Every cubie is in exactly one layer list per axis. |
| Layers.AxisCountsSum | src/cubeDisplay.ts:298-327 | The three lists of an axis together hold every cubie once. |
| Layers.MembersAgree | src/cubeDisplay.ts:292-328 | Positions that classify alike give the same list. |
| Layers.MembersBound | src/cubeDisplay.ts:292-328 | With distinct positions, a list is no longer than any set holding its cubies' positions. |
| Layers.LayerSizes | src/cubeDisplay.ts:292-328 | 27 distinct grid positions give nine cubies in every layer. |
| Layers.SideIndicesExt | src/cubeDisplay.ts:292-297 | Two indices with the same nine lists are the same. |
| Display.Cube.constructor | src/cubeDisplay.ts:330-355 | A new cube satisfies the invariant and is the initial state: the grid, its index, an empty queue and no turn. |
| Display.CreateCubies | src/cubeDisplay.ts:330-350 | The nested loops place cubie `9·ix + 3·iy + iz` at (C[ix], C[iy], C[iz]). |
| Animation.InitialPositions | src/cubeDisplay.ts:343-349 | The layout has exactly one position per cubie, 27 in all. `InitialAt` gives where each one is. |
| Animation.InitialAt | src/cubeDisplay.ts:343-349 | Index `9·ix + 3·iy + iz` sits at (C[ix], C[iy], C[iz]), with C = [-2.25, 0, 2.25]. |
| Animation.InitialIndexInverse | src/cubeDisplay.ts:343-349 | Each initial position determines its cubie index. |
| Animation.InitialCube | src/cubeDisplay.ts:330-355 | The initial cubies are 27 distinct grid points. |
| Animation.Initial | src/cubeDisplay.ts:163 | The initial engine satisfies the invariant. |
| Animation.InitialRightLayer | src/cubeDisplay.ts:330-355 | Initially the right layer (x = 2.25) is exactly cubies 18 to 26. |

## Left out

- WebGL work is not modelled: shaders, context and program setup, buffers and vertex arrays, `setupCanvas`, and the matrix composition and draw calls of `Cubie.draw`. These are foreign library calls with no state the engine reads.
- Camera math from the sliders is not modelled. It is floating-point trigonometry that feeds rendering only.
- The quaternion `rotationQuat` that `applyRotation` composes is not modelled. It changes how a cubie looks, never its position or layer. `axisOfRotation` is not stored either: the commit uses the axis of `layerToRotate`, which is what the source reads from `sideRotationAxes`.
- Cubie.Turn: does not model the floating-point matrix product of `applyRotation`. It assumes the product lands within 0.005 of the exact result, so that rounding to two decimals restores the exact grid value.
- `requestAnimationFrame` scheduling is not modelled. One call of `Step` is one frame; `Frames` iterates it.
- The `console.error` messages are not modelled. `Rotate` returns the error as a value instead.
- The `Cubie` objects themselves are not modelled, only their positions, held in one array. `toString` and the unused `location` field are not modelled.
- `src/cubeDisplay.js`, `src/codeEditor.js`, `src/index.js` and `webpack.config.js` are not part of this model.
- The rotation queue is a global of the source module. Here it is a field of the one `Cube` object.
