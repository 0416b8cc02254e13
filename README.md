# Bounded orbit controls of the virtual gallery

The gallery room is 20 by 20 units with its walls at plus and minus 10. The
`BoundedControls` component wraps a library orbit-controls instance. On every
render frame, its `useFrame` callback pushes the camera position back inside
an axis-aligned box: x and z in [-9.5, 9.5], y in [0.5, 5.5]. It does the same
to the controls' look target, when there is one. It calls the controls'
`update()` only when a camera coordinate had to be corrected.

This project models that callback and proves what it guarantees.

- `room.dfy` (module `Room`) holds the box, points, and the per-axis and
  per-point clamps as functions on values.
- `tick_spec.dfy` (module `TickSpec`) holds one tick on values. It also holds
  a run of frames, in which the orbit controls move the camera and target
  arbitrarily between ticks.
- `bounded_controls.dfy` (module `BoundedControls`) holds the component
  itself. It has mutable `Vec3`, `Camera` and `OrbitControls` objects. The
  method `Tick` updates them in place, guard by guard, and is proved equal to
  the value-level tick.

The camera may move up and down and is clamped to [0.5, 5.5]. The component
handles no keyboard, pointer-lock or touch input.
Coordinates are finite `real` numbers: the tick only compares and assigns,
so floating-point rounding plays no part, but NaN is not represented (see
"## Left out").

## Model

| member | source | states |
|---|---|---|
| Room.RoomBoundsWellFormed | src/components/BoundedControls.tsx:11-18 | the limits are -9.5/9.5 on x and z and 0.5/5.5 on y, and min < max on every axis |
| Room.ClampAxis | src/components/BoundedControls.tsx:26-33 | for lo <= hi: the result is in [lo, hi]; below lo gives exactly lo, above hi gives exactly hi, in range is unchanged; the flag is set iff the input was out of range, iff the value changed |
| Room.InvertedLimitsGiveUpper | src/components/BoundedControls.tsx:26-33 | the two guards run in sequence, so with hi < lo every input ends at hi, which pins the lower-then-upper order of the guards |
| Room.ClampPoint | src/components/BoundedControls.tsx:26-49 | the clamped camera lies in the box; a point in the box is kept with no correction; the flag (`needsUpdate`) is set iff the point was outside the box, iff it moved |
| Room.AxesIndependent | src/components/BoundedControls.tsx:26-49 | each output coordinate depends only on the same input coordinate, so clamping one axis never changes the other two |
| Room.SnapsToViolatedLimit | src/components/BoundedControls.tsx:26-49 | on every axis, a coordinate below (above) its range lands exactly on the min (max), and one in range is kept |
| Room.ClampPointIdempotent | src/components/BoundedControls.tsx:26-60 | clamping a clamped point changes nothing and sets no flag |
| TickSpec.Tick | src/components/BoundedControls.tsx:21-64 | after a tick the camera and the target (if present) are in the box; target presence is kept; the update count rises by one iff the camera was outside the box; a settled frame is left as it is |
| TickSpec.TargetNeverTriggersUpdate | src/components/BoundedControls.tsx:52-64 | the update count and the camera after a tick do not depend on the target, so target corrections alone never trigger `update()` |
| TickSpec.TickIdempotent | src/components/BoundedControls.tsx:26-64 | a second tick right after the first changes nothing and calls `update()` no more |
| TickSpec.RunSettles | src/components/BoundedControls.tsx:20-66 | whatever the controls do between frames, after at least one frame the camera and target are inside the box |
| TickSpec.RunUpdateCount | src/components/BoundedControls.tsx:20-66 | over a run, `update()` is called exactly once per frame in which the camera was outside the box at tick time |
| TickSpec.StillRunIsStable | src/components/BoundedControls.tsx:20-66 | when the controls leave a settled frame alone, any number of further frames change nothing and call `update()` no more |
| BoundedControls.OrbitControls.Update | src/components/BoundedControls.tsx:62-64 | `update()` is observed only as one more call |
| BoundedControls.ClampInPlace | src/components/BoundedControls.tsx:26-59 | the six guarded assignments on one vector leave it at the value-level clamp of its old value and return the correction flag |
| BoundedControls.Tick | src/components/BoundedControls.tsx:20-66 | with both references present the camera, target and update count become the value-level tick of the old ones (also when target and position are one vector); with either missing nothing changes |

## Left out

- `OrbitControls` internals: damping, polar-angle limits, min/max distance (src/components/BoundedControls.tsx:69-81) and the body of `update()` are library behaviour. `update()` is modelled only as a call counter.
- The React hooks, `useFrame` scheduling and rendering are host plumbing. One tick is one method call, and a run of frames is a sequence of moves in `TickSpec.Run`.
- Between ticks, the library may move the camera and target in any way. The model takes each such move as an arbitrary input (`TickSpec.Move`).
- Scene geometry, lighting, textures, page layout and the mobile overlay (MuseumScene.tsx, Museum3D.tsx, MobileControls.tsx, Index.tsx) are declarative and are not part of this model.
- Floating-point numbers: coordinates are finite `real` numbers. The tick only compares and assigns constants, so no rounding occurs. An infinite coordinate would be snapped like any out-of-range value; the model has no infinite values.
- TickSpec.Tick, TickSpec.RunSettles and TickSpec.RunUpdateCount assume finite coordinates. A NaN coordinate fails both guards of its axis (src/components/BoundedControls.tsx:26-49 for the camera, 54-59 for the target). The source then leaves it at NaN, outside the box, and does not set `needsUpdate`. For such input the in-box results and "one `update()` iff the camera was outside" do not hold of the program.
- BoundedControls.OrbitControls.Update: the model assumes `update()` moves neither the camera nor the target. In the library, `update()` repositions the camera around the target, and with damping on (src/components/BoundedControls.tsx:79-80) it keeps rotating after input stops. So the in-box results of TickSpec.Tick, TickSpec.RunSettles and BoundedControls.Tick describe the state the guards leave, just before `update()` runs.
- The tick's twelve guards are grouped into `ClampInPlace`, which runs once on the camera position and once on the target. For the target, its flag is discarded. The order of the guards within a vector is kept.
