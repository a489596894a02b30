/** The spherical cursor's per-frame selection and manipulation logic as a pure
    step function. Raycasts, the grabbed object's box height and the view angle
    are inputs; camera and object rotations are reported as amounts. */
module SphericalCursorModule {
  import opened Wrappers
  import opened Vectors
  import opened TransformModeHandler
  import opened CursorView

  /** An opaque handle for a furniture object in the scene. */
  type ObjectId = nat

  /** The part of a selectable object's transform and rigidbody the logic
      touches: position, local scale and the rigidbody's rotation-freeze flag. */
  datatype Pose = Pose(position: Vec3, scale: Vec3, frozen: bool)

  /** A furniture raycast hit: the hit point, its distance along the ray and
      the object hit. */
  datatype Hit = Hit(point: Vec3, distance: real, obj: ObjectId)

  /** The behaviour's inspector-set parameters. */
  datatype Config = Config(distanceScaleFactor: real, minScale: Vec3, rotationSpeed: real)

  /** The field initialisers: smallest scale 0.1 on every axis, rotation speed 10. */
  function DefaultConfig(distanceScaleFactor: real): Config {
    Config(distanceScaleFactor, Uniform(0.1), 10.0)
  }

  /** Cursor scale used when the ray hits no furniture. */
  const DefaultCursorScale: Vec3 := Uniform(7.0)

  /** `Mathf.Deg2Rad` as declared by the engine. */
  const Deg2Rad: real := 0.0174532924

  /** Everything the behaviour keeps, or writes into the scene, between frames. */
  datatype State = State(
    grabbed: Option<ObjectId>,         // selectedGameObject
    grabOffset: Vec3,                  // selectedGameObjectOffset
    floorOffset: Vec3,                 // selectedGameObjectFloorOffset
    cursorScale: Vec3,                 // the cursor's local scale
    selection: Option<ObjectId>,       // Selectable.CurrentSelection
    floorSprite: Vec3,                 // floor sprite position
    spriteVisible: bool,               // floor sprite renderer enabled
    poses: map<ObjectId, Pose>)

  /** One frame's input: mouse-button edges, mouse deltas, the current mode,
      the furniture and floor raycast results along the cursor ray, the angle
      between that ray and the view's forward axis with the ray's dot product
      against the view's right axis, and the grabbed object's box-collider
      height in world units. */
  datatype Input = Input(
    buttonDown: bool,
    buttonUp: bool,
    mouseX: real,
    mouseY: real,
    mode: TransformMode,
    furniture: Option<Hit>,
    floor: Option<Vec3>,
    viewAngle: real,
    rightDot: real,
    grabbedHeight: real)

  /** A world-space rotation requested for the grabbed object: about world up
      and about world right, in the units passed to the engine. */
  datatype Turn = Turn(aboutUp: real, aboutRight: real)

  /** A step's result: the new state, the camera/cursor rotations and, in
      Rotate mode, the rotation of the grabbed object. */
  datatype Frame = Frame(next: State, view: ViewCorrection, turn: Option<Turn>)

  /** The grabbed object, if any, is one of the scene's objects. */
  predicate Grabbable(s: State) {
    s.grabbed.Some? ==> s.grabbed.value in s.poses
  }

  /** The furniture raycast only ever reports scene objects. */
  predicate HitKnown(objects: set<ObjectId>, inp: Input) {
    inp.furniture.Some? ==> inp.furniture.value.obj in objects
  }

  /** The grab invariant: an object's rotation is frozen exactly when it is
      the grabbed one. So at most one object is ever held frozen. */
  predicate Inv(s: State) {
    && Grabbable(s)
    && forall id :: id in s.poses ==> (s.poses[id].frozen <==> s.grabbed == Some(id))
  }

  /** Whether the frame asks the floor raycast: translating a held object, a
      grab, or a frame whose furniture ray missed while nothing is held. */
  predicate FloorQueried(s: State, inp: Input) {
    if s.grabbed.Some? then !inp.buttonUp && inp.mode == Translate
    else inp.furniture.None? || inp.buttonDown
  }

  /** `releaseSelectedObject`: unfreeze the held object and let go. */
  function Release(s: State): (r: State)
    requires s.grabbed.Some? && s.grabbed.value in s.poses
    ensures r.grabbed.None?
    ensures r.poses.Keys == s.poses.Keys
    ensures !r.poses[s.grabbed.value].frozen
    ensures r.poses[s.grabbed.value].position == s.poses[s.grabbed.value].position
    ensures r.poses[s.grabbed.value].scale == s.poses[s.grabbed.value].scale
    ensures forall id :: id in s.poses && id != s.grabbed.value ==> r.poses[id] == s.poses[id]
    ensures r.grabOffset == s.grabOffset && r.floorOffset == s.floorOffset
    ensures r.(grabbed := s.grabbed, poses := s.poses) == s
  {
    var g := s.grabbed.value;
    s.(grabbed := None, poses := s.poses[g := s.poses[g].(frozen := false)])
  }

  /** `selectObject`: hold `obj`, remember where on it the ray hit, and freeze
      its rotation. */
  function Select(s: State, obj: ObjectId, hitPoint: Vec3): (r: State)
    requires obj in s.poses
    ensures r.grabbed == Some(obj)
    ensures r.poses.Keys == s.poses.Keys
    ensures Add(s.poses[obj].position, r.grabOffset) == hitPoint
    ensures r.poses[obj].frozen
    ensures r.poses[obj].position == s.poses[obj].position
    ensures r.poses[obj].scale == s.poses[obj].scale
    ensures forall id :: id in s.poses && id != obj ==> r.poses[id] == s.poses[id]
    ensures r.(grabbed := s.grabbed, grabOffset := s.grabOffset, poses := s.poses) == s
  {
    s.(grabbed := Some(obj),
       grabOffset := Sub(hitPoint, s.poses[obj].position),
       poses := s.poses[obj := s.poses[obj].(frozen := true)])
  }

  /** The ground-plane offset captured at grab time: from the ray's hit point
      dropped to the floor's height, to the floor intersection. */
  function GroundOffset(hitPoint: Vec3, floor: Vec3): (d: Vec3)
    ensures d.y == 0.0
    ensures Add(Vec3(hitPoint.x, floor.y, hitPoint.z), d) == floor
  {
    Sub(floor, Vec3(hitPoint.x, floor.y, hitPoint.z))
  }

  /** `translateSelectedObject`: stand the held object `height` above the
      floor point shifted back by the floor offset, and put the floor sprite
      under it. The grab offset's y is overwritten with the height. */
  function TranslateGrabbed(s: State, floor: Vec3, height: real): (r: State)
    requires s.grabbed.Some? && s.grabbed.value in s.poses
    ensures r.poses.Keys == s.poses.Keys
    ensures Add(r.floorSprite, s.floorOffset) == floor
    ensures Sub(r.poses[s.grabbed.value].position, r.floorSprite) == Vec3(0.0, height, 0.0)
    ensures r.poses[s.grabbed.value].scale == s.poses[s.grabbed.value].scale
    ensures r.poses[s.grabbed.value].frozen == s.poses[s.grabbed.value].frozen
    ensures forall id :: id in s.poses && id != s.grabbed.value ==> r.poses[id] == s.poses[id]
    ensures r.grabOffset == Vec3(s.grabOffset.x, height, s.grabOffset.z)
    ensures r.(grabOffset := s.grabOffset, floorSprite := s.floorSprite, poses := s.poses) == s
  {
    var g := s.grabbed.value;
    var lifted := Add(Sub(floor, s.floorOffset), Vec3(0.0, height, 0.0));
    s.(grabOffset := s.grabOffset.(y := height),
       floorSprite := Sub(floor, s.floorOffset),
       poses := s.poses[g := s.poses[g].(position := lifted)])
  }

  /** `scaleSelectedObject`: grow every axis by the mouse's x movement, but
      only if no axis would drop below `minScale`. */
  function ScaleGrabbed(s: State, mouseX: real, minScale: Vec3): (r: State)
    requires s.grabbed.Some? && s.grabbed.value in s.poses
    ensures r.poses.Keys == s.poses.Keys
    ensures var before := s.poses[s.grabbed.value].scale;
            var after := r.poses[s.grabbed.value].scale;
            && (AtLeast(Add(before, Uniform(mouseX)), minScale) ==> after == Add(before, Uniform(mouseX)))
            && (!AtLeast(Add(before, Uniform(mouseX)), minScale) ==> after == before)
    ensures AtLeast(s.poses[s.grabbed.value].scale, minScale) ==> AtLeast(r.poses[s.grabbed.value].scale, minScale)
    ensures r.poses[s.grabbed.value].position == s.poses[s.grabbed.value].position
    ensures r.poses[s.grabbed.value].frozen == s.poses[s.grabbed.value].frozen
    ensures forall id :: id in s.poses && id != s.grabbed.value ==> r.poses[id] == s.poses[id]
    ensures r.(poses := s.poses) == s
  {
    var g := s.grabbed.value;
    var scaleValue := -mouseX;
    var newScale := Sub(s.poses[g].scale, Uniform(scaleValue));
    if AtLeast(newScale, minScale) then
      s.(poses := s.poses[g := s.poses[g].(scale := newScale)])
    else
      s
  }

  /** The cursor size committed on a button-up over furniture. */
  function HoverCursorScale(distance: real, distanceScaleFactor: real): real {
    (distance * distanceScaleFactor + 1.0) / 2.0
  }

  /** The furniture-hit branch while nothing is held: resize the cursor on a
      button-up, mark the hit object as the current selection, and grab it on
      a button-down (recording the ground-plane offset when the floor is hit). */
  function Hover(cfg: Config, s: State, h: Hit, inp: Input): (r: State)
    requires s.grabbed.None? && h.obj in s.poses
    ensures r.poses.Keys == s.poses.Keys
    ensures r.selection == Some(h.obj)
    ensures inp.buttonUp ==> r.cursorScale == Uniform(HoverCursorScale(h.distance, cfg.distanceScaleFactor))
    ensures !inp.buttonUp ==> r.cursorScale == s.cursorScale
    ensures r.grabbed == (if inp.buttonDown then Some(h.obj) else None)
    ensures inp.buttonDown ==> r == Select(r.(grabbed := s.grabbed, grabOffset := s.grabOffset,
                                                 poses := s.poses), h.obj, h.point)
    ensures inp.buttonDown && inp.floor.Some? ==> r.floorOffset == GroundOffset(h.point, inp.floor.value)
    ensures !(inp.buttonDown && inp.floor.Some?) ==> r.floorOffset == s.floorOffset
    ensures r.spriteVisible == (s.spriteVisible || (inp.buttonDown && inp.floor.Some?))
    ensures !inp.buttonDown ==> r.poses == s.poses && r.grabOffset == s.grabOffset
    ensures r.floorSprite == s.floorSprite
  {
    var sized := if inp.buttonUp then s.(cursorScale := Uniform(HoverCursorScale(h.distance, cfg.distanceScaleFactor))) else s;
    var selected := sized.(selection := Some(h.obj));
    if inp.buttonDown then
      var held := Select(selected, h.obj, h.point);
      match inp.floor
      case Some(f) => held.(spriteVisible := true, floorOffset := GroundOffset(h.point, f))
      case None => held
    else
      selected
  }

  /** The branch where the furniture ray missed and nothing is held: default
      cursor size, no selection, and the floor sprite moved to the floor hit. */
  function Miss(s: State, floor: Option<Vec3>): (r: State)
    ensures r.cursorScale == DefaultCursorScale && r.selection.None?
    ensures r.spriteVisible == (s.spriteVisible || floor.Some?)
    ensures floor.Some? ==> r.floorSprite == floor.value
    ensures floor.None? ==> r.floorSprite == s.floorSprite
    ensures r.(cursorScale := s.cursorScale, selection := s.selection,
               spriteVisible := s.spriteVisible, floorSprite := s.floorSprite) == s
  {
    var reset := s.(cursorScale := DefaultCursorScale, selection := None);
    match floor
    case Some(f) => reset.(spriteVisible := true, floorSprite := f)
    case None => reset
  }

  /** The object rotation of `rotateSelectedObject`: mouse x turns the object
      about world up (negated), mouse y about world right. */
  function TurnFor(cfg: Config, inp: Input): (t: Turn)
    ensures cfg.rotationSpeed > 0.0 ==> (t.aboutUp < 0.0 <==> inp.mouseX > 0.0)
    ensures cfg.rotationSpeed > 0.0 ==> (t.aboutRight > 0.0 <==> inp.mouseY > 0.0)
    ensures inp.mouseX == 0.0 ==> t.aboutUp == 0.0
    ensures t.aboutUp == -(cfg.rotationSpeed * Deg2Rad) * inp.mouseX
    ensures t.aboutRight == cfg.rotationSpeed * Deg2Rad * inp.mouseY
  {
    Turn(-(inp.mouseX * cfg.rotationSpeed * Deg2Rad), inp.mouseY * cfg.rotationSpeed * Deg2Rad)
  }

  /** The turn is linear in the mouse deltas: reversing both deltas reverses
      both rotations. */
  lemma TurnForReverses(cfg: Config, inp: Input)
    ensures var back := TurnFor(cfg, inp.(mouseX := -inp.mouseX, mouseY := -inp.mouseY));
            back == Turn(-TurnFor(cfg, inp).aboutUp, -TurnFor(cfg, inp).aboutRight)
  {
  }

  /** `Update`: one frame of the cursor behaviour. */
  function Step(cfg: Config, s: State, inp: Input): (r: Frame)
    requires Grabbable(s)
    requires HitKnown(s.poses.Keys, inp)
    ensures r.next.poses.Keys == s.poses.Keys
    ensures Grabbable(r.next)
    ensures forall id :: id in s.poses && s.grabbed != Some(id) && r.next.grabbed != Some(id) ==>
              r.next.poses[id] == s.poses[id]
  {
    var hidden := s.(spriteVisible := false);
    var view := if inp.mode == Rotate && s.grabbed.Some? then NoCorrection
                else RotateCamera(inp.viewAngle, inp.rightDot);
    if s.grabbed.Some? then
      if inp.buttonUp then
        Frame(Release(hidden), view, None)
      else
        match inp.mode
        case Translate =>
          (match inp.floor
           case Some(f) => Frame(TranslateGrabbed(hidden.(spriteVisible := true), f, inp.grabbedHeight), view, None)
           case None => Frame(hidden, view, None))
        case Rotate => Frame(hidden, view, Some(TurnFor(cfg, inp)))
        case Scale => Frame(ScaleGrabbed(hidden, inp.mouseX, cfg.minScale), view, None)
        case Off => Frame(hidden, view, None)
    else if inp.furniture.Some? then
      Frame(Hover(cfg, hidden, inp.furniture.value, inp), view, None)
    else
      Frame(Miss(hidden, inp.floor), view, None)
  }
}
