/** The `BoundedControls` component: on every render frame it pushes the
    camera and the orbit target back inside the room, in place, and asks the
    orbit controls to update when the camera had to be moved. */
module BoundedControls {
  import opened Room
  import Spec = TickSpec

  /** A mutable three-component vector (a camera position or a target). */
  class Vec3 {
    var x: real
    var y: real
    var z: real

    constructor (x0: real, y0: real, z0: real)
      ensures Value() == Point(x0, y0, z0)
    {
      x, y, z := x0, y0, z0;
    }

    function Value(): Point
      reads this
    {
      Point(x, y, z)
    }
  }

  /** The camera; only its position takes part in the tick. */
  class Camera {
    const position: Vec3

    constructor (position: Vec3)
      ensures this.position == position
    {
      this.position := position;
    }
  }

  /** The orbit-controls instance behind the component's reference: its look
      target (possibly absent) and the number of `update()` calls made. */
  class OrbitControls {
    const target: Vec3?
    var updateCount: nat

    constructor (target: Vec3?)
      ensures this.target == target && updateCount == 0
    {
      this.target := target;
      updateCount := 0;
    }

    /** `update()`: only the fact that it was called is observable here. */
    method Update()
      modifies this`updateCount
      ensures updateCount == old(updateCount) + 1
    {
      updateCount := updateCount + 1;
    }
  }

  /** The state the tick reads and writes, as a value. */
  function View(camera: Camera, controls: OrbitControls): Spec.Frame
    reads camera.position, controls, controls.target
  {
    Spec.Frame(camera.position.Value(),
               if controls.target == null then Spec.None else Spec.Some(controls.target.Value()),
               controls.updateCount)
  }

  /** The six guarded assignments the tick runs on one vector, x, then z,
      then y, each snapping a coordinate that is out of range to the limit it
      crossed; `corrected` is the tick's `needsUpdate` flag for that vector. */
  method ClampInPlace(v: Vec3) returns (corrected: bool)
    modifies v
    ensures v.Value() == ClampPoint(old(v.Value()), RoomBounds).value
    ensures corrected == ClampPoint(old(v.Value()), RoomBounds).corrected
  {
    corrected := false;
    if v.x < RoomBounds.minX {
      v.x := RoomBounds.minX;
      corrected := true;
    }
    if v.x > RoomBounds.maxX {
      v.x := RoomBounds.maxX;
      corrected := true;
    }
    if v.z < RoomBounds.minZ {
      v.z := RoomBounds.minZ;
      corrected := true;
    }
    if v.z > RoomBounds.maxZ {
      v.z := RoomBounds.maxZ;
      corrected := true;
    }
    if v.y < RoomBounds.minY {
      v.y := RoomBounds.minY;
      corrected := true;
    }
    if v.y > RoomBounds.maxY {
      v.y := RoomBounds.maxY;
      corrected := true;
    }
  }

  /** One `useFrame` callback. Nothing happens unless both the controls
      reference and the camera are there. The camera's corrections decide
      whether `update()` is called; the target's corrections are dropped.
      The target may be the very vector that holds the camera position; the
      result is the same. */
  method Tick(camera: Camera?, controls: OrbitControls?)
    modifies if camera != null then {camera.position} else {}
    modifies if controls != null then {controls} else {}
    modifies if controls != null && controls.target != null then {controls.target} else {}
    ensures camera != null && controls != null ==>
      View(camera, controls) == Spec.Tick(old(View(camera, controls)), RoomBounds)
    ensures camera == null || controls == null ==>
      (camera != null ==> unchanged(camera.position)) &&
      (controls != null ==> unchanged(controls) && (controls.target != null ==> unchanged(controls.target)))
  {
    if controls != null && camera != null {
      ghost var before := View(camera, controls);
      var position := camera.position;
      var needsUpdate := ClampInPlace(position);

      if controls.target != null {
        var target := controls.target;
        var _ := ClampInPlace(target);
        if target == position {
          ClampPointIdempotent(before.camera, RoomBounds);
        }
      }

      if needsUpdate {
        controls.Update();
      }
    }
  }

  /** A session in the room: the camera starts at (0, 1.6, 8) looking at
      (0, 1.6, 0); the user drags it through the wall at x = 10 and below the
      floor, and the next tick puts it back on the limits it crossed. */
  method ExampleSession()
  {
    var position := new Vec3(0.0, 1.6, 8.0);
    var camera := new Camera(position);
    var target := new Vec3(0.0, 1.6, 0.0);
    var controls := new OrbitControls(target);

    Tick(camera, controls);
    assert position.Value() == Point(0.0, 1.6, 8.0);
    assert controls.updateCount == 0;

    position.x, position.y := 12.0, -1.0;
    target.z := -20.0;
    Tick(camera, controls);
    assert position.Value() == Point(9.5, 0.5, 8.0);
    assert target.Value() == Point(0.0, 1.6, -9.5);
    assert controls.updateCount == 1;

    Tick(camera, controls);
    assert controls.updateCount == 1;

    Tick(null, controls);
    assert controls.updateCount == 1;
  }
}
