/** The scalar arithmetic of the cursor's view handling: the yaw-tracking rule
    that turns the camera once the cursor strays past a threshold angle, and
    the clamps that keep the cursor on screen. The angle between the cursor ray
    and the view's forward axis, and the sign of the ray's dot product with the
    view's right axis, are engine geometry and arrive as inputs. */
module CursorView {

  /** Angle (degrees) beyond which the camera starts to follow the cursor. */
  const RotationAngle: real := 35.0

  /** Largest camera yaw (degrees) applied in one frame. */
  const MaxRotAngleDiff: real := 2.0

  /** The rotations one frame asks of the engine: `cameraYaw` about world up
      for the camera, `cursorPull` about the behaviour's own up axis for the cursor. */
  datatype ViewCorrection = ViewCorrection(cameraYaw: real, cursorPull: real)

  const NoCorrection: ViewCorrection := ViewCorrection(0.0, 0.0)

  /** The sign used for the correction: negative exactly when the ray points
      left of the view (a zero dot product counts as right). */
  function SideSign(rightDot: real): real {
    if rightDot < 0.0 then -1.0 else 1.0
  }

  /** The yaw rule of `rotateCamera`. Past the threshold, the excess angle is
      applied to the camera with the ray's side as sign, capped at the per-frame
      maximum; whatever the cap cuts off is pulled back out of the cursor. */
  function RotateCamera(angle: real, rightDot: real): (r: ViewCorrection)
    ensures angle <= RotationAngle ==> r == NoCorrection
    ensures -MaxRotAngleDiff <= r.cameraYaw <= MaxRotAngleDiff
    ensures angle > RotationAngle ==> (r.cameraYaw < 0.0 <==> rightDot < 0.0) && r.cameraYaw != 0.0
    ensures angle > RotationAngle && angle - RotationAngle <= MaxRotAngleDiff ==>
              r.cameraYaw == SideSign(rightDot) * (angle - RotationAngle) && r.cursorPull == 0.0
    ensures angle - RotationAngle > MaxRotAngleDiff ==>
              r.cameraYaw == SideSign(rightDot) * MaxRotAngleDiff
    // camera turn minus cursor turn always accounts for the whole excess
    ensures angle > RotationAngle ==>
              r.cameraYaw - r.cursorPull == SideSign(rightDot) * (angle - RotationAngle)
  {
    if angle > RotationAngle then
      var angleDiff := angle - RotationAngle;
      var sign := SideSign(rightDot);
      if angleDiff > MaxRotAngleDiff then
        ViewCorrection(sign * MaxRotAngleDiff, -sign * (angleDiff - MaxRotAngleDiff))
      else
        ViewCorrection(sign * angleDiff, 0.0)
    else
      NoCorrection
  }

  /** `Mathf.Clamp(value, lo, hi)`: `lo` below, `hi` above, `value` otherwise. */
  function Clamp(value: real, lo: real, hi: real): (r: real)
    ensures lo <= hi ==> lo <= r <= hi
    ensures lo <= value <= hi ==> r == value
    ensures value < lo ==> r == lo
    ensures lo <= hi && value > hi ==> r == hi
  {
    if value < lo then lo else if value > hi then hi else value
  }

  /** `Mathf.Clamp01`. */
  function Clamp01(value: real): (r: real)
    ensures 0.0 <= r <= 1.0
    ensures 0.0 <= value <= 1.0 ==> r == value
    ensures value < 0.0 ==> r == 0.0
    ensures value > 1.0 ==> r == 1.0
  {
    Clamp(value, 0.0, 1.0)
  }

  /** A viewport position: (0,0) bottom-left, (1,1) top-right of the screen;
      `depth` is the distance in front of the camera. */
  datatype Viewport = Viewport(x: real, y: real, depth: real)

  predicate OnScreen(v: Viewport) {
    0.0 <= v.x <= 1.0 && 0.0 <= v.y <= 1.0
  }

  /** The clamp step of `capCursorHeight`: both viewport coordinates into [0,1]. */
  function CapViewport(v: Viewport): (r: Viewport)
    ensures OnScreen(r)
    ensures r.depth == v.depth
    ensures OnScreen(v) ==> r == v
    ensures 0.0 <= v.x <= 1.0 ==> r.x == v.x
    ensures 0.0 <= v.y <= 1.0 ==> r.y == v.y
    ensures v.x < 0.0 ==> r.x == 0.0
    ensures v.x > 1.0 ==> r.x == 1.0
    ensures v.y < 0.0 ==> r.y == 0.0
    ensures v.y > 1.0 ==> r.y == 1.0
  {
    Viewport(Clamp01(v.x), Clamp01(v.y), v.depth)
  }

  /** The clamp step of `capCursorWidth`: the screen-space x into [0, width]. */
  function CapWidth(screenX: real, width: real): (r: real)
    requires 0.0 <= width
    ensures 0.0 <= r <= width
    ensures 0.0 <= screenX <= width ==> r == screenX
    ensures screenX < 0.0 ==> r == 0.0
    ensures screenX > width ==> r == width
  {
    Clamp(screenX, 0.0, width)
  }

  /** Capping a capped position changes nothing. */
  lemma CapViewportIdempotent(v: Viewport)
    ensures CapViewport(CapViewport(v)) == CapViewport(v)
  {
  }
}
