/** The first-person camera: mouse-look with its pitch clamp, and the
    per-frame update of `animate` in main.js (delta clamp, horizontal move,
    vertical move and eye-height pinning, room display). */
module Camera {
  import opened Layout
  import opened Building
  import opened Locator
  import opened Input

  const MoveSpeed: real := 5.0
  const LookSpeed: real := 0.002
  const EyeHeight: real := 1.6
  /** Largest frame step, in seconds (100 ms). */
  const MaxDelta: real := 0.1
  /** Step used when the measured one is zero or negative (about 60 fps). */
  const DefaultDelta: real := 0.016

  /** `Math.max` and `Math.min` on reals. */
  function Max(a: real, b: real): real { if a >= b then a else b }
  function Min(a: real, b: real): real { if a <= b then a else b }

  /** The frame step after the two corrections of `animate`: first capped
      at 100 ms, then replaced by 16 ms when not positive. The result is
      always in (0, 0.1], and an in-range step is kept as it is. */
  function ClampDelta(raw: real): (d: real)
    ensures 0.0 < d <= MaxDelta
    ensures raw > MaxDelta ==> d == MaxDelta
    ensures raw <= 0.0 ==> d == DefaultDelta
    ensures 0.0 < raw <= MaxDelta ==> d == raw
  {
    var capped := if raw > MaxDelta then MaxDelta else raw;
    if capped <= 0.0 then DefaultDelta else capped
  }

  /** The pitch limit `Math.max(-PI_2, Math.min(PI_2, pitch))`: the result
      lies in [-pi/2, pi/2], an in-range pitch is kept, and one beyond a
      limit becomes that limit. */
  function ClampPitch(pitch: real): (r: real)
    ensures -HalfPi <= r <= HalfPi
    ensures -HalfPi <= pitch <= HalfPi ==> r == pitch
    ensures pitch > HalfPi ==> r == HalfPi
    ensures pitch < -HalfPi ==> r == -HalfPi
  {
    Max(-HalfPi, Min(HalfPi, pitch))
  }

  /** Clamping twice is clamping once, for both limits. */
  lemma ClampsIdempotent(raw: real, pitch: real)
    ensures ClampDelta(ClampDelta(raw)) == ClampDelta(raw)
    ensures ClampPitch(ClampPitch(pitch)) == ClampPitch(pitch)
  {
  }

  /** The camera pose, the look angles kept by the `YXZ` Euler object and
      the state the event handlers share with the frame loop. */
  class Controls {
    /** `camera.position` */
    var x: real
    var y: real
    var z: real
    /** `euler.y`, turning about the vertical axis */
    var yaw: real
    /** `euler.x`, looking up and down */
    var pitch: real
    /** `isPointerLocked` */
    var pointerLocked: bool
    /** `prevTime`, in milliseconds */
    var prevTime: real

    /** The pitch stays within the clamp's range. */
    ghost predicate Valid()
      reads this
    {
      -HalfPi <= pitch <= HalfPi
    }

    /** The camera starts at eye level above the origin, looking straight
        ahead, with the pointer not locked; `now` is `performance.now()`. */
    constructor (now: real)
      ensures Valid()
      ensures x == 0.0 && y == EyeHeight && z == 0.0 && yaw == 0.0 && pitch == 0.0
      ensures !pointerLocked && prevTime == now
    {
      x, y, z := 0.0, EyeHeight, 0.0;
      yaw, pitch := 0.0, 0.0;
      pointerLocked := false;
      prevTime := now;
    }

    /** The `pointerlockchange` handler: locked exactly when the canvas is
        the pointer-lock element. */
    method PointerLockChange(canvasLocked: bool)
      modifies this`pointerLocked
      ensures pointerLocked == canvasLocked
    {
      pointerLocked := canvasLocked;
    }

    /** The `mousemove` handler: ignored unless the pointer is locked;
        otherwise yaw turns by -dx * 0.002 without bound and pitch by
        -dy * 0.002, then clamped to [-pi/2, pi/2]. */
    method MouseMove(movementX: real, movementY: real)
      requires Valid()
      modifies this`yaw, this`pitch
      ensures Valid()
      ensures !pointerLocked ==> yaw == old(yaw) && pitch == old(pitch)
      ensures pointerLocked ==> yaw == old(yaw) - movementX * LookSpeed
      ensures pointerLocked ==> pitch == ClampPitch(old(pitch) - movementY * LookSpeed)
    {
      if !pointerLocked {
        return;
      }
      yaw := yaw - movementX * LookSpeed;
      pitch := pitch - movementY * LookSpeed;
      pitch := ClampPitch(pitch);
    }

    /** One call of `animate` at time `time` (ms). `moveX`, `moveZ` is the
        horizontal move vector the frame derives from the look direction
        and the flags; it has no vertical part, and it is zero when each
        pair of opposite flags cancels (both set or both released). Returns the clamped step and the room name
        shown for the new position. */
    method Frame(time: real, input: InputState, moveX: real, moveZ: real, rooms: seq<Room>)
      returns (delta: real, room: string)
      requires input.forward == input.backward && input.left == input.right ==> moveX == 0.0 && moveZ == 0.0
      modifies this`x, this`y, this`z, this`prevTime
      ensures delta == ClampDelta((time - old(prevTime)) / 1000.0)
      ensures x == old(x) + moveX && z == old(z) + moveZ
      ensures !input.up && !input.down ==> y == EyeHeight
      ensures input.up && !input.down ==> y == old(y) + MoveSpeed * delta
      ensures !input.up && input.down ==> y == old(y) - MoveSpeed * delta
      ensures input.up && input.down ==> y == old(y)
      ensures room == Locate(rooms, Vec3(x, y, z))
      ensures prevTime == time
    {
      delta := ClampDelta((time - prevTime) / 1000.0);

      x, z := x + moveX, z + moveZ;

      if input.up {
        y := y + MoveSpeed * delta;
      }
      if input.down {
        y := y - MoveSpeed * delta;
      }
      if !input.up && !input.down {
        y := EyeHeight;
      }

      room := GetCurrentRoom(rooms, Vec3(x, y, z));
      prevTime := time;
    }
  }
}
