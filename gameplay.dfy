/** The two camera controllers. Each collects input between frames (key
    flags, a mouse-look latch and `Option` sums of mouse and wheel deltas,
    where `None` reads as zero), and once per frame `UpdateCamera` consumes
    the sums, moves the camera and resets both sums to `None`.

    The camera arithmetic of each update is stated as a function of the
    controller and camera state; the methods are proved to apply exactly
    those functions. */
module Gameplay {
  import opened Wrappers
  import opened Geometry
  import opened Input
  import opened Cameras

  // ---- accumulators ----

  /** `Some(acc.unwrap_or_default() + delta)` for mouse deltas. */
  function AccumulateVec2(acc: Option<Vec2>, delta: Vec2): Option<Vec2> {
    Some(Add2(Vec2OrZero(acc), delta))
  }

  /** The same for the free-look wheel, which keeps a single number. */
  function AccumulateReal(acc: Option<real>, delta: real): Option<real> {
    Some(RealOrZero(acc) + delta)
  }

  /** The accumulator after each delta of `deltas`, oldest first. */
  function AccumulateAllVec2(acc: Option<Vec2>, deltas: seq<Vec2>): Option<Vec2>
    decreases |deltas|
  {
    if deltas == [] then acc else AccumulateAllVec2(AccumulateVec2(acc, deltas[0]), deltas[1..])
  }

  function AccumulateAllReal(acc: Option<real>, deltas: seq<real>): Option<real>
    decreases |deltas|
  {
    if deltas == [] then acc else AccumulateAllReal(AccumulateReal(acc, deltas[0]), deltas[1..])
  }

  /** Plain sums, as references for the accumulators. */
  function SumVec2(ds: seq<Vec2>): Vec2
    decreases |ds|
  {
    if ds == [] then ZERO2 else Add2(ds[0], SumVec2(ds[1..]))
  }

  function SumReal(ds: seq<real>): real
    decreases |ds|
  {
    if ds == [] then 0.0 else ds[0] + SumReal(ds[1..])
  }

  /** Between two updates the mouse accumulator holds the sum of every delta
      received, and is `None` exactly when there was none. */
  lemma {:induction false} AccumulatedVec2IsSum(acc: Option<Vec2>, deltas: seq<Vec2>)
    ensures AccumulateAllVec2(acc, deltas) ==
            if deltas == [] then acc else Some(Add2(Vec2OrZero(acc), SumVec2(deltas)))
    decreases |deltas|
  {
    if deltas != [] {
      AccumulatedVec2IsSum(AccumulateVec2(acc, deltas[0]), deltas[1..]);
    }
  }

  lemma {:induction false} AccumulatedRealIsSum(acc: Option<real>, deltas: seq<real>)
    ensures AccumulateAllReal(acc, deltas) ==
            if deltas == [] then acc else Some(RealOrZero(acc) + SumReal(deltas))
    decreases |deltas|
  {
    if deltas != [] {
      AccumulatedRealIsSum(AccumulateReal(acc, deltas[0]), deltas[1..]);
    }
  }

  // ---- free-look clamps ----

  /** The yaw limit as written: above 89 becomes 89, but below -90 becomes
      -89, not -90. */
  function YawClamp(yaw: real): (r: real)
    ensures -90.0 <= r <= 89.0
    ensures -90.0 <= yaw <= 89.0 ==> r == yaw
  {
    if yaw > 89.0 then 89.0 else if yaw < -90.0 then -89.0 else yaw
  }

  /** The quirk: the clamp is not monotone, so turning further left past
      -90 degrees snaps the view one degree back to the right. */
  lemma YawClampNotMonotone()
    ensures YawClamp(-90.5) == -89.0 && YawClamp(-90.0) == -90.0
    ensures YawClamp(-90.5) > YawClamp(-90.0)
  {
  }

  /** Clamping twice is clamping once. */
  lemma YawClampIdempotent(yaw: real)
    ensures YawClamp(YawClamp(yaw)) == YawClamp(yaw)
  {
  }

  /** `f32::clamp(fov, 1, 60)`. */
  function FovClamp(fov: real): (r: real)
    ensures 1.0 <= r <= 60.0
    ensures 1.0 <= fov <= 60.0 ==> r == fov
    ensures fov < 1.0 ==> r == 1.0
    ensures fov > 60.0 ==> r == 60.0
  {
    if fov < 1.0 then 1.0 else if fov > 60.0 then 60.0 else fov
  }

  // ---- free-look controller ----

  /** Which movement flag a key drives; the arrows and WASD share flags. */
  datatype MoveFlag = MoveForward | MoveBackward | MoveLeft | MoveRight

  function MoveFlagOf(key: KeyCode): (r: Option<MoveFlag>)
    ensures r == Some(MoveForward) <==> key == ArrowUp || key == KeyW
    ensures r == Some(MoveBackward) <==> key == ArrowDown || key == KeyS
    ensures r == Some(MoveLeft) <==> key == ArrowLeft || key == KeyA
    ensures r == Some(MoveRight) <==> key == ArrowRight || key == KeyD
  {
    match key
    case ArrowUp => Some(MoveForward)
    case KeyW => Some(MoveForward)
    case ArrowDown => Some(MoveBackward)
    case KeyS => Some(MoveBackward)
    case ArrowLeft => Some(MoveLeft)
    case KeyA => Some(MoveLeft)
    case ArrowRight => Some(MoveRight)
    case KeyD => Some(MoveRight)
    case _ => None
  }

  /** The movement flag an event drives, if any. */
  function MoveFlagOfEvent(e: WindowEvent): Option<MoveFlag> {
    if e.KeyboardInput? && e.physicalKey.Code? then MoveFlagOf(e.physicalKey.code) else None
  }

  /** A speed in units per second scaled to a frame of `deltaSecs`
      seconds, as `update_camera` does for both its speeds. */
  function FrameSpeed(speed: real, deltaSecs: real): real {
    speed * deltaSecs
  }

  /** The eye moved by the held movement keys: forward and backward along
      the view direction, left and right along `forward x up`, each by
      `distance`. */
  function FreeLookPosition(eye: Vec3, forward: Vec3, up: Vec3, distance: real,
                            f: bool, b: bool, l: bool, r: bool): Vec3
  {
    var side := Cross3(forward, up);
    var p0 := eye;
    var p1 := if f then Add3(p0, Scale3(forward, distance)) else p0;
    var p2 := if b then Sub3(p1, Scale3(forward, distance)) else p1;
    var p3 := if l then Sub3(p2, Scale3(side, distance)) else p2;
    if r then Add3(p3, Scale3(side, distance)) else p3
  }

  /** Opposite keys held together cancel exactly; with no key held the eye
      stays where it is. */
  lemma {:induction false} OppositeMovesCancel(eye: Vec3, forward: Vec3, up: Vec3, distance: real,
                                               f: bool, b: bool, l: bool, r: bool)
    ensures FreeLookPosition(eye, forward, up, distance, f, b, l, r) ==
            FreeLookPosition(eye, forward, up, distance, f && !b, b && !f, l && !r, r && !l)
    ensures FreeLookPosition(eye, forward, up, distance, false, false, false, false) == eye
  {
    var fw := Scale3(forward, distance);
    var sd := Scale3(Cross3(forward, up), distance);
    forall p: Vec3 ensures Sub3(Add3(p, fw), fw) == p && Add3(Sub3(p, sd), sd) == p {
    }
  }

  /** The look direction for yaw and pitch in degrees. */
  function LookDirection(m: Math, yawDeg: real, pitchDeg: real): Vec3 {
    var yaw := m.toRadians(yawDeg);
    var pitch := m.toRadians(pitchDeg);
    m.normalize(Vec3(m.cos(yaw) * m.cos(pitch), m.sin(pitch), m.sin(yaw) * m.cos(pitch)))
  }

  /** A first-person controller: keys move the eye, the mouse turns the view
      and the wheel changes the field of view. */
  class FreeLookCameraController {
    const moveSpeed: real
    const lookSpeed: real
    var moveForward: bool
    var moveBackward: bool
    var moveLeft: bool
    var moveRight: bool
    var mouseDelta: Option<Vec2>
    var pitchDeg: real
    var yawDeg: real
    var scrollWheelDelta: Option<real>
    var fovY: real

    constructor ()
      ensures moveSpeed == 4.0 && lookSpeed == 4.0
      ensures !moveForward && !moveBackward && !moveLeft && !moveRight
      ensures mouseDelta == None && scrollWheelDelta == None
      ensures pitchDeg == 0.0 && yawDeg == -90.0 && fovY == 45.0
    {
      moveSpeed := 4.0;
      lookSpeed := 4.0;
      moveForward := false;
      moveBackward := false;
      moveLeft := false;
      moveRight := false;
      mouseDelta := None;
      pitchDeg := 0.0;
      yawDeg := -90.0;
      scrollWheelDelta := None;
      fovY := 45.0;
    }

    function Flag(flag: MoveFlag): bool
      reads this
    {
      match flag
      case MoveForward => moveForward
      case MoveBackward => moveBackward
      case MoveLeft => moveLeft
      case MoveRight => moveRight
    }

    /** A movement key sets its flag to "is pressed" and is reported used;
        every other event is unused and changes nothing. */
    method ProcessInput(e: WindowEvent) returns (used: bool)
      modifies this
      ensures used <==> MoveFlagOfEvent(e).Some?
      ensures used ==> Flag(MoveFlagOfEvent(e).value) == (e.state == Pressed)
      ensures forall flag :: MoveFlagOfEvent(e) != Some(flag) ==> Flag(flag) == old(Flag(flag))
      ensures mouseDelta == old(mouseDelta) && scrollWheelDelta == old(scrollWheelDelta)
      ensures pitchDeg == old(pitchDeg) && yawDeg == old(yawDeg) && fovY == old(fovY)
    {
      used := false;
      if e.KeyboardInput? {
        var isPressed := e.state == Pressed;
        match e.physicalKey {
          case Code(k) =>
            if k == ArrowUp || k == KeyW {
              moveForward := isPressed;
              used := true;
            } else if k == ArrowDown || k == KeyS {
              moveBackward := isPressed;
              used := true;
            } else if k == ArrowLeft || k == KeyA {
              moveLeft := isPressed;
              used := true;
            } else if k == ArrowRight || k == KeyD {
              moveRight := isPressed;
              used := true;
            }
          case Unidentified(_) =>
        }
      }
    }

    method ProcessMouseMotion(delta: Vec2)
      modifies this
      ensures mouseDelta == AccumulateVec2(old(mouseDelta), delta)
      ensures scrollWheelDelta == old(scrollWheelDelta)
      ensures moveForward == old(moveForward) && moveBackward == old(moveBackward)
      ensures moveLeft == old(moveLeft) && moveRight == old(moveRight)
      ensures pitchDeg == old(pitchDeg) && yawDeg == old(yawDeg) && fovY == old(fovY)
    {
      mouseDelta := Some(Add2(Vec2OrZero(mouseDelta), delta));
    }

    /** Only the horizontal wheel component is kept. */
    method ProcessMouseWheel(delta: Vec2)
      modifies this
      ensures scrollWheelDelta == AccumulateReal(old(scrollWheelDelta), delta.x)
      ensures mouseDelta == old(mouseDelta)
      ensures moveForward == old(moveForward) && moveBackward == old(moveBackward)
      ensures moveLeft == old(moveLeft) && moveRight == old(moveRight)
      ensures pitchDeg == old(pitchDeg) && yawDeg == old(yawDeg) && fovY == old(fovY)
    {
      scrollWheelDelta := Some(RealOrZero(scrollWheelDelta) + delta.x);
    }

    /** Moves the eye by the held keys, turns by the summed mouse motion
        (yaw clamped, pitch not), points the camera along the new view
        direction, adds the summed wheel to the field of view and clamps it
        to [1, 60] degrees, then empties both sums. */
    method UpdateCamera(m: Math, camera: Camera, deltaSecs: real)
      requires camera.Valid()
      modifies this, camera
      ensures camera.Valid()
      ensures yawDeg == YawClamp(old(yawDeg) + FrameSpeed(lookSpeed, deltaSecs) * Vec2OrZero(old(mouseDelta)).x)
      ensures pitchDeg == old(pitchDeg) - FrameSpeed(lookSpeed, deltaSecs) * Vec2OrZero(old(mouseDelta)).y
      ensures fovY == FovClamp(old(fovY) + RealOrZero(old(scrollWheelDelta)))
      ensures -90.0 <= yawDeg <= 89.0 && 1.0 <= fovY <= 60.0
      ensures camera.eye == FreeLookPosition(old(camera.eye), m.forward(old(camera.eye), old(camera.target)), old(camera.up),
                                             FrameSpeed(moveSpeed, deltaSecs), moveForward, moveBackward,
                                             moveLeft, moveRight)
      ensures camera.target == Add3(camera.eye, LookDirection(m, yawDeg, pitchDeg))
      ensures camera.fovY == m.toRadians(fovY)
      ensures camera.up == old(camera.up) && camera.worldUp == old(camera.worldUp)
      ensures camera.aspect == old(camera.aspect) && camera.zNear == old(camera.zNear)
      ensures camera.zFar == old(camera.zFar)
      ensures camera.viewportWidth == old(camera.viewportWidth)
      ensures camera.viewportHeight == old(camera.viewportHeight)
      ensures mouseDelta == None && scrollWheelDelta == None
      ensures moveForward == old(moveForward) && moveBackward == old(moveBackward)
      ensures moveLeft == old(moveLeft) && moveRight == old(moveRight)
    {
      var cameraPos := FreeLookPosition(camera.eye, camera.Forward(m), camera.up,
                                        FrameSpeed(moveSpeed, deltaSecs), moveForward, moveBackward,
                                        moveLeft, moveRight);
      var lookSpeedNow := FrameSpeed(lookSpeed, deltaSecs);
      var yawIn := yawDeg + lookSpeedNow * Vec2OrZero(mouseDelta).x;
      var pitchIn := pitchDeg - lookSpeedNow * Vec2OrZero(mouseDelta).y;
      assert yawIn == old(yawDeg) + FrameSpeed(lookSpeed, deltaSecs) * Vec2OrZero(old(mouseDelta)).x;
      assert pitchIn == old(pitchDeg) - FrameSpeed(lookSpeed, deltaSecs) * Vec2OrZero(old(mouseDelta)).y;
      yawDeg := YawClamp(yawIn);
      pitchDeg := pitchIn;
      var lookDir := LookDirection(m, yawDeg, pitchDeg);
      camera.Reorient(cameraPos, Add3(cameraPos, lookDir));
      fovY := fovY + RealOrZero(scrollWheelDelta);
      fovY := FovClamp(fovY);
      camera.SetFovY(m.toRadians(fovY));
      mouseDelta := None;
      scrollWheelDelta := None;
    }
  }

  // ---- arcball controller ----

  /** `std::f32::consts::PI` */
  const PI: real := 3.14159265

  /** `f32::signum`: 1 for zero and positive numbers, -1 for negative ones. */
  function Signum(x: real): (r: real)
    ensures r == 1.0 || r == -1.0
    ensures r == 1.0 <==> x >= 0.0
  {
    if x < 0.0 then -1.0 else 1.0
  }

  /** The gimbal guard: the pitched position is taken only while
      `cos_angle * signum(y_angle) < 0.99`. */
  predicate UsePitched(cosAngle: real, yAngle: real) {
    cosAngle * Signum(yAngle) < 0.99
  }

  /** What the guard means: pitching up (or not at all) is refused once the
      view direction is within 0.99 of the up axis, pitching down once it is
      within 0.99 of the down axis; away from both poles pitch always
      applies. */
  lemma {:induction false} GimbalGuard(cosAngle: real, yAngle: real)
    ensures yAngle >= 0.0 ==> (UsePitched(cosAngle, yAngle) <==> cosAngle < 0.99)
    ensures yAngle < 0.0 ==> (UsePitched(cosAngle, yAngle) <==> cosAngle > -0.99)
    ensures -0.99 < cosAngle < 0.99 ==> UsePitched(cosAngle, yAngle)
  {
    if yAngle < 0.0 {
      assert cosAngle * Signum(yAngle) == -cosAngle;
    } else {
      assert cosAngle * Signum(yAngle) == cosAngle;
    }
  }

  /** The fixed tuning of the arcball controller. */
  datatype ArcballSettings = ArcballSettings(
    horizontalSpeed: real,
    verticalSpeed: real,
    scrollDirectionModifier: real,
    scrollSpeedModifier: real,
    minDistance: real,
    maxDistance: Option<real>)

  /** The eye after the horizontal orbit, the optional vertical orbit and
      the wheel zoom, before the distance clamp. */
  function ArcballUnclamped(m: Math, eye: Vec3, pivot: Vec3, up: Vec3, worldUp: Vec3,
                            viewportWidth: nat, viewportHeight: nat,
                            motion: Vec2, scroll: Vec2, s: ArcballSettings, deltaSecs: real): Vec3
    requires viewportWidth > 0 && viewportHeight > 0
  {
    var xViewAngles := 2.0 * PI / viewportWidth as real;
    var yViewAngles := PI / viewportHeight as real;
    var xAngle := motion.x * xViewAngles * s.horizontalSpeed * deltaSecs;
    var yAngle := motion.y * yViewAngles * s.verticalSpeed * deltaSecs;
    var pos1 := Add3(m.rotate(m.axisAngle(up, xAngle), Sub3(eye, pivot)), pivot);
    var right := Cross3(m.normalize(Sub3(pivot, pos1)), up);
    var pos2 := Add3(m.rotate(m.axisAngle(right, yAngle), Sub3(pos1, pivot)), pivot);
    var forward := m.normalize(Sub3(pivot, pos1));
    var cosAngle := Dot3(forward, worldUp);
    var pos := if UsePitched(cosAngle, yAngle) then pos2 else pos1;
    var scrollAmount := scroll.x * s.scrollDirectionModifier;
    Sub3(pos, Scale3(forward, scrollAmount * s.scrollSpeedModifier * deltaSecs))
  }

  /** The distance clamp as written: the clamped branches return a point at
      the bound's distance from the ORIGIN, because the pivot is not added
      back. */
  function ClampDistanceAsWritten(m: Math, pivot: Vec3, pos: Vec3, minDistance: real,
                                  maxDistance: Option<real>): Vec3
  {
    var pivotToCamera := Sub3(pos, pivot);
    var distance := m.length(pivotToCamera);
    if distance <= minDistance then Scale3(m.normalize(pivotToCamera), minDistance)
    else if maxDistance.Some? && distance >= maxDistance.value then
      Scale3(m.normalize(pivotToCamera), maxDistance.value)
    else pos
  }

  /** The distance clamp as intended: the clamped point lies on the ray from
      the pivot through the eye. */
  function ClampDistance(m: Math, pivot: Vec3, pos: Vec3, minDistance: real,
                         maxDistance: Option<real>): Vec3
  {
    var pivotToCamera := Sub3(pos, pivot);
    var distance := m.length(pivotToCamera);
    if distance <= minDistance then Add3(pivot, Scale3(m.normalize(pivotToCamera), minDistance))
    else if maxDistance.Some? && distance >= maxDistance.value then
      Add3(pivot, Scale3(m.normalize(pivotToCamera), maxDistance.value))
    else pos
  }

  /** `normalize` yields unit vectors for nonzero input. */
  ghost predicate ExactNormalize(m: Math) {
    forall v: Vec3 {:trigger m.normalize(v)} :: !IsZero3(v) ==> LengthSq3(m.normalize(v)) == 1.0
  }

  /** `length` is the non-negative square root of the squared length. */
  ghost predicate ExactLength(m: Math) {
    forall v: Vec3 {:trigger m.length(v)} :: m.length(v) >= 0.0 && m.length(v) * m.length(v) == LengthSq3(v)
  }

  lemma SubAddCancel(pivot: Vec3, v: Vec3)
    ensures Sub3(Add3(pivot, v), pivot) == v
  {
  }

  /** With exact `normalize` and `length`, the corrected clamp keeps the eye
      between the two distances from the pivot (compared squared). */
  lemma {:induction false} ClampDistanceWithinBounds(m: Math, pivot: Vec3, pos: Vec3, minDistance: real,
                                                     maxDistance: Option<real>)
    requires ExactNormalize(m) && ExactLength(m)
    requires 0.0 <= minDistance
    requires maxDistance.Some? ==> minDistance <= maxDistance.value
    requires !IsZero3(Sub3(pos, pivot))
    ensures minDistance * minDistance <= LengthSq3(Sub3(ClampDistance(m, pivot, pos, minDistance, maxDistance), pivot))
    ensures maxDistance.Some? ==>
            LengthSq3(Sub3(ClampDistance(m, pivot, pos, minDistance, maxDistance), pivot))
            <= maxDistance.value * maxDistance.value
  {
    var p2c := Sub3(pos, pivot);
    var d := m.length(p2c);
    var n := m.normalize(p2c);
    assert LengthSq3(n) == 1.0;
    assert d >= 0.0 && d * d == LengthSq3(p2c);
    var r := ClampDistance(m, pivot, pos, minDistance, maxDistance);
    if d <= minDistance {
      SubAddCancel(pivot, Scale3(n, minDistance));
      LengthSqScale(n, minDistance);
      if maxDistance.Some? {
        assert minDistance * minDistance <= maxDistance.value * maxDistance.value by {
          MulMonotone(minDistance, maxDistance.value);
        }
      }
    } else if maxDistance.Some? && d >= maxDistance.value {
      SubAddCancel(pivot, Scale3(n, maxDistance.value));
      LengthSqScale(n, maxDistance.value);
      MulMonotone(minDistance, maxDistance.value);
    } else {
      assert Sub3(r, pivot) == p2c;
      MulMonotone(minDistance, d);
      if maxDistance.Some? {
        MulMonotone(d, maxDistance.value);
      }
    }
  }

  lemma MulMonotone(a: real, b: real)
    requires 0.0 <= a <= b
    ensures a * a <= b * b
  {
  }

  lemma ClampAsWrittenAtExample(m: Math)
    requires m.normalize(Vec3(0.5, 0.0, 0.0)) == Vec3(1.0, 0.0, 0.0)
    requires m.length(Vec3(0.5, 0.0, 0.0)) == 0.5
    ensures ClampDistanceAsWritten(m, Vec3(30.0, 0.0, 0.0), Vec3(30.5, 0.0, 0.0), 1.0, Some(20.0))
            == Vec3(1.0, 0.0, 0.0)
  {
    var p2c := Sub3(Vec3(30.5, 0.0, 0.0), Vec3(30.0, 0.0, 0.0));
    assert p2c == Vec3(0.5, 0.0, 0.0);
    assert Scale3(m.normalize(p2c), 1.0) == Vec3(1.0, 0.0, 0.0);
  }

  lemma ExampleEyeBeyondMaximum()
    ensures LengthSq3(Sub3(Vec3(1.0, 0.0, 0.0), Vec3(30.0, 0.0, 0.0))) > 20.0 * 20.0
  {
    assert Sub3(Vec3(1.0, 0.0, 0.0), Vec3(30.0, 0.0, 0.0)) == Vec3(-29.0, 0.0, 0.0);
  }

  /** The defect of the clamp as written: with a pivot 30 units from the
      origin and an eye half a unit from the pivot, the minimum-distance
      branch puts the eye one unit from the origin, 29 units from the pivot,
      beyond the 20-unit maximum. */
  lemma ClampDistanceAsWrittenEscapes(m: Math)
    requires m.normalize(Vec3(0.5, 0.0, 0.0)) == Vec3(1.0, 0.0, 0.0)
    requires m.length(Vec3(0.5, 0.0, 0.0)) == 0.5
    ensures ClampDistanceAsWritten(m, Vec3(30.0, 0.0, 0.0), Vec3(30.5, 0.0, 0.0), 1.0, Some(20.0))
            == Vec3(1.0, 0.0, 0.0)
    ensures LengthSq3(Sub3(Vec3(1.0, 0.0, 0.0), Vec3(30.0, 0.0, 0.0))) > 20.0 * 20.0
  {
    ClampAsWrittenAtExample(m);
    ExampleEyeBeyondMaximum();
  }

  /** For a pivot at the origin the written and the intended clamp agree. */
  lemma ClampAgreesAtOrigin(m: Math, pos: Vec3, minDistance: real, maxDistance: Option<real>)
    ensures ClampDistanceAsWritten(m, ZERO3, pos, minDistance, maxDistance)
            == ClampDistance(m, ZERO3, pos, minDistance, maxDistance)
  {
    assert Sub3(pos, ZERO3) == pos;
    forall v: Vec3 ensures Add3(ZERO3, v) == v {
    }
  }

  /** An orbit camera: dragging with the left button held rotates the eye
      around the target and the wheel moves it nearer or farther. */
  class ArcballCameraController {
    const horizontalSpeed: real
    const verticalSpeed: real
    var allowMouseLook: bool
    var mouseMotion: Option<Vec2>
    var mouseScroll: Option<Vec2>
    const scrollDirectionModifier: real
    const scrollSpeedModifier: real
    const minDistance: real
    const maxDistance: Option<real>

    function Settings(): ArcballSettings {
      ArcballSettings(horizontalSpeed, verticalSpeed, scrollDirectionModifier, scrollSpeedModifier,
                      minDistance, maxDistance)
    }

    constructor ()
      ensures Settings() == ArcballSettings(25.0, 25.0, -1.0, 25.0, 1.0, Some(20.0))
      ensures !allowMouseLook && mouseMotion == None && mouseScroll == None
    {
      horizontalSpeed := 25.0;
      verticalSpeed := 25.0;
      allowMouseLook := false;
      mouseMotion := None;
      mouseScroll := None;
      scrollDirectionModifier := -1.0;
      scrollSpeedModifier := 25.0;
      minDistance := 1.0;
      maxDistance := Some(20.0);
    }

    /** Only the left mouse button is used: pressing it latches mouse look
        on, releasing it latches it off. */
    method ProcessInput(e: WindowEvent) returns (used: bool)
      modifies this
      ensures used <==> e.MouseInput? && e.button == LeftButton
      ensures used ==> allowMouseLook == (e.state == Pressed)
      ensures !used ==> allowMouseLook == old(allowMouseLook)
      ensures mouseMotion == old(mouseMotion) && mouseScroll == old(mouseScroll)
    {
      if e.MouseInput? && e.button == LeftButton {
        allowMouseLook := e.state == Pressed;
        used := true;
      } else {
        used := false;
      }
    }

    /** Motion counts only while mouse look is latched on. */
    method ProcessMouseMotion(delta: Vec2)
      modifies this
      ensures mouseMotion == if old(allowMouseLook) then AccumulateVec2(old(mouseMotion), delta)
                             else old(mouseMotion)
      ensures allowMouseLook == old(allowMouseLook) && mouseScroll == old(mouseScroll)
    {
      if allowMouseLook {
        mouseMotion := Some(Add2(Vec2OrZero(mouseMotion), delta));
      }
    }

    /** The wheel always counts. */
    method ProcessMouseWheel(delta: Vec2)
      modifies this
      ensures mouseScroll == AccumulateVec2(old(mouseScroll), delta)
      ensures allowMouseLook == old(allowMouseLook) && mouseMotion == old(mouseMotion)
    {
      mouseScroll := Some(Add2(Vec2OrZero(mouseScroll), delta));
    }

    /** Orbits and zooms the eye around the camera's target, clamps it as
        the code is written (`ClampDistanceAsWritten`, which leaves the pivot
        out of the clamped branches), keeps the target, and empties both
        sums. */
    method UpdateCamera(m: Math, camera: Camera, deltaSecs: real)
      requires camera.Valid()
      modifies this, camera
      ensures camera.Valid()
      ensures camera.eye ==
              ClampDistanceAsWritten(m, old(camera.target),
                                     ArcballUnclamped(m, old(camera.eye), old(camera.target), old(camera.up),
                                                      old(camera.worldUp), old(camera.viewportWidth),
                                                      old(camera.viewportHeight), Vec2OrZero(old(mouseMotion)),
                                                      Vec2OrZero(old(mouseScroll)), Settings(), deltaSecs),
                                     minDistance, maxDistance)
      ensures camera.target == old(camera.target)
      ensures camera.up == old(camera.up) && camera.worldUp == old(camera.worldUp)
      ensures camera.fovY == old(camera.fovY) && camera.aspect == old(camera.aspect)
      ensures camera.zNear == old(camera.zNear) && camera.zFar == old(camera.zFar)
      ensures camera.viewportWidth == old(camera.viewportWidth)
      ensures camera.viewportHeight == old(camera.viewportHeight)
      ensures mouseMotion == None && mouseScroll == None
      ensures allowMouseLook == old(allowMouseLook)
    {
      var pivot := camera.target;
      var unclamped := ArcballUnclamped(m, camera.eye, pivot, camera.up, camera.worldUp,
                                        camera.viewportWidth, camera.viewportHeight,
                                        Vec2OrZero(mouseMotion), Vec2OrZero(mouseScroll),
                                        Settings(), deltaSecs);
      var cameraPos := ClampDistanceAsWritten(m, pivot, unclamped, minDistance, maxDistance);
      camera.Reorient(cameraPos, pivot);
      mouseMotion := None;
      mouseScroll := None;
    }
  }

  /** With exact `normalize` and `length` and the target at the origin (where
      the renderer's camera starts), the update as written keeps the eye
      between 1 and 20 units from the target, however far the wheel turned
      (unless the zoom lands exactly on the target). Off the origin it does
      not: see `ClampDistanceAsWrittenEscapes`. */
  lemma {:induction false} ArcballDistanceBound(m: Math, eye: Vec3, up: Vec3, worldUp: Vec3,
                                                viewportWidth: nat, viewportHeight: nat,
                                                motion: Vec2, scroll: Vec2, deltaSecs: real)
    requires ExactNormalize(m) && ExactLength(m)
    requires viewportWidth > 0 && viewportHeight > 0
    ensures var s := ArcballSettings(25.0, 25.0, -1.0, 25.0, 1.0, Some(20.0));
            var unclamped := ArcballUnclamped(m, eye, ZERO3, up, worldUp, viewportWidth, viewportHeight,
                                              motion, scroll, s, deltaSecs);
            !IsZero3(Sub3(unclamped, ZERO3)) ==>
              1.0 <= LengthSq3(Sub3(ClampDistanceAsWritten(m, ZERO3, unclamped, s.minDistance, s.maxDistance),
                                    ZERO3)) <= 400.0
  {
    var s := ArcballSettings(25.0, 25.0, -1.0, 25.0, 1.0, Some(20.0));
    var unclamped := ArcballUnclamped(m, eye, ZERO3, up, worldUp, viewportWidth, viewportHeight,
                                      motion, scroll, s, deltaSecs);
    if !IsZero3(Sub3(unclamped, ZERO3)) {
      ClampAsWrittenWithinBoundsAtOrigin(m, unclamped);
    }
  }

  /** The arcball's own bounds, 1 and 20, hold for the clamp as written when
      the pivot is the origin. */
  lemma ClampAsWrittenWithinBoundsAtOrigin(m: Math, pos: Vec3)
    requires ExactNormalize(m) && ExactLength(m)
    requires !IsZero3(Sub3(pos, ZERO3))
    ensures 1.0 <= LengthSq3(Sub3(ClampDistanceAsWritten(m, ZERO3, pos, 1.0, Some(20.0)), ZERO3)) <= 400.0
  {
    ClampAgreesAtOrigin(m, pos, 1.0, Some(20.0));
    ClampDistanceWithinBounds(m, ZERO3, pos, 1.0, Some(20.0));
  }
}
