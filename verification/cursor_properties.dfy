/** Guarantees of the cursor behaviour's frame step, one frame at a time and
    over any sequence of frames. */
module CursorProperties {
  import opened Wrappers
  import opened Vectors
  import opened TransformModeHandler
  import opened CursorView
  import opened SphericalCursorModule

  /** Releasing: a button-up while holding lets go, unfreezes the object,
      moves, turns and rescales nothing, and keeps the stored offsets. */
  lemma StepRelease(cfg: Config, s: State, inp: Input)
    requires Grabbable(s) && HitKnown(s.poses.Keys, inp)
    requires s.grabbed.Some? && inp.buttonUp
    ensures var r := Step(cfg, s, inp);
            var g := s.grabbed.value;
            && r.next.grabbed.None?
            && !r.next.poses[g].frozen
            && r.next.poses[g].position == s.poses[g].position
            && r.next.poses[g].scale == s.poses[g].scale
            && r.turn.None?
            && r.next.grabOffset == s.grabOffset
            && r.next.floorOffset == s.floorOffset
            && r.next.cursorScale == s.cursorScale
            && r.next.selection == s.selection
  {
  }

  /** Grabbing: with nothing held, an object is grabbed exactly when the
      furniture ray hits and the button goes down, and then it is the hit
      object, frozen, with the grab offset leading from its origin to the hit. */
  lemma StepGrab(cfg: Config, s: State, inp: Input)
    requires Grabbable(s) && HitKnown(s.poses.Keys, inp)
    requires s.grabbed.None?
    ensures var r := Step(cfg, s, inp);
            && (r.next.grabbed.Some? <==> inp.furniture.Some? && inp.buttonDown)
            && (r.next.grabbed.Some? ==>
                  var h := inp.furniture.value;
                  && r.next.grabbed == Some(h.obj)
                  && r.next.poses[h.obj].frozen
                  && Add(s.poses[h.obj].position, r.next.grabOffset) == h.point
                  && r.next.poses[h.obj].position == s.poses[h.obj].position)
  {
  }

  /** While something is held no other object can be grabbed: the held object
      stays held until a button-up, and then nothing is held. */
  lemma StepHoldsOne(cfg: Config, s: State, inp: Input)
    requires Grabbable(s) && HitKnown(s.poses.Keys, inp)
    requires s.grabbed.Some?
    ensures Step(cfg, s, inp).next.grabbed == (if inp.buttonUp then None else s.grabbed)
  {
  }

  /** The floor offset is recaptured on a grab with a floor hit, lies in the
      ground plane, and is left alone by a grab without a floor hit. */
  lemma StepFloorOffset(cfg: Config, s: State, inp: Input)
    requires Grabbable(s) && HitKnown(s.poses.Keys, inp)
    requires s.grabbed.None? && inp.furniture.Some? && inp.buttonDown
    ensures var r := Step(cfg, s, inp);
            var p := inp.furniture.value.point;
            && (inp.floor.Some? ==>
                  && r.next.floorOffset == Sub(inp.floor.value, Vec3(p.x, inp.floor.value.y, p.z))
                  && r.next.floorOffset.y == 0.0)
            && (inp.floor.None? ==> r.next.floorOffset == s.floorOffset)
  {
  }

  /** Translate mode with a floor hit: the object stands its box height above
      the floor point shifted back by the floor offset, and the floor sprite
      marks that shifted point. */
  lemma StepTranslate(cfg: Config, s: State, inp: Input)
    requires Grabbable(s) && HitKnown(s.poses.Keys, inp)
    requires s.grabbed.Some? && !inp.buttonUp && inp.mode == Translate && inp.floor.Some?
    ensures var r := Step(cfg, s, inp);
            var g := s.grabbed.value;
            var f := inp.floor.value;
            && r.next.poses[g].position == Add(Sub(f, s.floorOffset), Vec3(0.0, inp.grabbedHeight, 0.0))
            && r.next.floorSprite == Sub(f, s.floorOffset)
            && r.next.spriteVisible
            && r.next.poses[g].scale == s.poses[g].scale
  {
  }

  /** Translate mode without a floor hit leaves the object where it is. */
  lemma StepTranslateNoFloor(cfg: Config, s: State, inp: Input)
    requires Grabbable(s) && HitKnown(s.poses.Keys, inp)
    requires s.grabbed.Some? && !inp.buttonUp && inp.mode == Translate && inp.floor.None?
    ensures Step(cfg, s, inp).next.poses == s.poses
  {
  }

  /** Off mode (and Rotate mode, whose rotation is reported separately) leave
      every pose untouched while holding. */
  lemma StepOffOrRotateKeepsPoses(cfg: Config, s: State, inp: Input)
    requires Grabbable(s) && HitKnown(s.poses.Keys, inp)
    requires s.grabbed.Some? && !inp.buttonUp && (inp.mode == Off || inp.mode == Rotate)
    ensures var r := Step(cfg, s, inp);
            && r.next.poses == s.poses
            && r.next.grabOffset == s.grabOffset
            && r.next.floorOffset == s.floorOffset
            && (r.turn.Some? <==> inp.mode == Rotate)
  {
  }

  /** Scale mode: the scale grows by the mouse's x movement on every axis if
      no axis would fall below the minimum, and stays put otherwise. */
  lemma StepScale(cfg: Config, s: State, inp: Input)
    requires Grabbable(s) && HitKnown(s.poses.Keys, inp)
    requires s.grabbed.Some? && !inp.buttonUp && inp.mode == Scale
    ensures var r := Step(cfg, s, inp);
            var g := s.grabbed.value;
            var proposed := Add(s.poses[g].scale, Uniform(inp.mouseX));
            && (AtLeast(proposed, cfg.minScale) ==> r.next.poses[g].scale == proposed)
            && (!AtLeast(proposed, cfg.minScale) ==> r.next.poses[g].scale == s.poses[g].scale)
            && r.next.poses[g].position == s.poses[g].position
  {
  }

  /** Cursor size: over furniture with nothing held, a button-up commits the
      distance-scaled size on every axis; with no furniture hit the cursor
      returns to its default size and the selection is cleared. */
  lemma StepCursorScale(cfg: Config, s: State, inp: Input)
    requires Grabbable(s) && HitKnown(s.poses.Keys, inp)
    requires s.grabbed.None?
    ensures var r := Step(cfg, s, inp);
            && (inp.furniture.Some? && inp.buttonUp ==>
                  var k := (inp.furniture.value.distance * cfg.distanceScaleFactor + 1.0) / 2.0;
                  r.next.cursorScale == Vec3(k, k, k))
            && (inp.furniture.Some? && !inp.buttonUp ==> r.next.cursorScale == s.cursorScale)
            && (inp.furniture.Some? ==> r.next.selection == Some(inp.furniture.value.obj))
            && (inp.furniture.None? ==> r.next.cursorScale == Vec3(7.0, 7.0, 7.0) && r.next.selection.None?)
  {
  }

  /** A held object leaves cursor size and selection alone. */
  lemma StepHeldKeepsCursor(cfg: Config, s: State, inp: Input)
    requires Grabbable(s) && HitKnown(s.poses.Keys, inp)
    requires s.grabbed.Some?
    ensures Step(cfg, s, inp).next.cursorScale == s.cursorScale
    ensures Step(cfg, s, inp).next.selection == s.selection
  {
  }

  /** The camera yaw: zero up to 35 degrees of cursor excursion, otherwise the
      excess capped at 2 degrees, negative exactly when the ray is left of the
      view; never applied while an object is held in Rotate mode. */
  lemma StepYaw(cfg: Config, s: State, inp: Input)
    requires Grabbable(s) && HitKnown(s.poses.Keys, inp)
    ensures var yaw := Step(cfg, s, inp).view.cameraYaw;
            && -2.0 <= yaw <= 2.0
            && (inp.mode == Rotate && s.grabbed.Some? ==> yaw == 0.0)
            && (!(inp.mode == Rotate && s.grabbed.Some?) ==>
                  && (inp.viewAngle <= 35.0 ==> yaw == 0.0)
                  && (inp.viewAngle > 35.0 ==>
                        && (yaw < 0.0 <==> inp.rightDot < 0.0)
                        && yaw == SideSign(inp.rightDot) * Min(inp.viewAngle - 35.0, 2.0)))
  {
  }

  function Min(a: real, b: real): real {
    if a <= b then a else b
  }

  /** Mouse x never drives both the camera and the held object in one frame. */
  lemma StepMutualExclusion(cfg: Config, s: State, inp: Input)
    requires Grabbable(s) && HitKnown(s.poses.Keys, inp)
    ensures var r := Step(cfg, s, inp);
            r.turn.Some? ==> r.view == NoCorrection && r.next.grabbed == s.grabbed
  {
  }

  /** The floor sprite is hidden at the start of every frame and shown only
      when that frame's floor query is made and hits. */
  lemma StepSprite(cfg: Config, s: State, inp: Input)
    requires Grabbable(s) && HitKnown(s.poses.Keys, inp)
    ensures Step(cfg, s, inp).next.spriteVisible <==> FloorQueried(s, inp) && inp.floor.Some?
  {
  }

  /** The frame step preserves the grab invariant. */
  lemma StepPreservesInv(cfg: Config, s: State, inp: Input)
    requires Inv(s) && HitKnown(s.poses.Keys, inp)
    ensures Inv(Step(cfg, s, inp).next)
  {
  }

  /** Under the invariant at most one object is frozen, and it is the held one. */
  lemma InvAtMostOneFrozen(s: State, a: ObjectId, b: ObjectId)
    requires Inv(s)
    requires a in s.poses && b in s.poses && s.poses[a].frozen && s.poses[b].frozen
    ensures a == b && s.grabbed == Some(a)
  {
  }

  /** The start-up state holds nothing and, the engine's default, freezes
      nothing; such a state meets the grab invariant. */
  lemma StartupInv(s: State)
    requires s.grabbed.None?
    requires forall id :: id in s.poses ==> !s.poses[id].frozen
    ensures Inv(s)
  {
  }

  /** Every object at or above the minimum scale stays there after a frame. */
  predicate ScalesAtLeast(s: State, minScale: Vec3) {
    forall id :: id in s.poses ==> AtLeast(s.poses[id].scale, minScale)
  }

  lemma StepScaleFloor(cfg: Config, s: State, inp: Input)
    requires Grabbable(s) && HitKnown(s.poses.Keys, inp)
    requires ScalesAtLeast(s, cfg.minScale)
    ensures ScalesAtLeast(Step(cfg, s, inp).next, cfg.minScale)
  {
  }

  /** Every frame's furniture hit is a scene object. */
  predicate AllHitsKnown(objects: set<ObjectId>, inputs: seq<Input>) {
    forall i :: 0 <= i < |inputs| ==> HitKnown(objects, inputs[i])
  }

  /** The state after running the behaviour over a sequence of frames. */
  function Run(cfg: Config, s: State, inputs: seq<Input>): (r: State)
    requires Grabbable(s) && AllHitsKnown(s.poses.Keys, inputs)
    ensures r.poses.Keys == s.poses.Keys
    ensures Grabbable(r)
    decreases |inputs|
  {
    if |inputs| == 0 then s
    else Run(cfg, Step(cfg, s, inputs[0]).next, inputs[1..])
  }

  /** The grab invariant holds after any number of frames: never more than one
      object held, and it alone frozen. */
  lemma {:induction false} RunPreservesInv(cfg: Config, s: State, inputs: seq<Input>)
    requires Inv(s) && AllHitsKnown(s.poses.Keys, inputs)
    ensures Inv(Run(cfg, s, inputs))
    decreases |inputs|
  {
    if |inputs| > 0 {
      StepPreservesInv(cfg, s, inputs[0]);
      RunPreservesInv(cfg, Step(cfg, s, inputs[0]).next, inputs[1..]);
    }
  }

  /** No sequence of frames takes a scale below the minimum. */
  lemma {:induction false} RunScaleFloor(cfg: Config, s: State, inputs: seq<Input>)
    requires Grabbable(s) && AllHitsKnown(s.poses.Keys, inputs)
    requires ScalesAtLeast(s, cfg.minScale)
    ensures ScalesAtLeast(Run(cfg, s, inputs), cfg.minScale)
    decreases |inputs|
  {
    if |inputs| > 0 {
      StepScaleFloor(cfg, s, inputs[0]);
      RunScaleFloor(cfg, Step(cfg, s, inputs[0]).next, inputs[1..]);
    }
  }

  /** A frame holding nothing, over a furniture hit at `distance`, with the
      given button edges, mode and floor answer. */
  function HoverInput(distance: real, obj: ObjectId, up: bool, down: bool, floor: Option<Vec3>): Input {
    Input(down, up, 0.0, 0.0, Off, Some(Hit(Vec3(0.0, 1.0, 0.0), distance, obj)), floor, 0.0, 1.0, 0.0)
  }

  /** A frame holding an object in `mode`, with the given mouse x and floor answer. */
  function HeldInput(mode: TransformMode, mouseX: real, floor: Option<Vec3>, height: real): Input {
    Input(false, false, mouseX, 0.0, mode, None, floor, 0.0, 1.0, height)
  }

  function Holding(obj: ObjectId, pose: Pose, floorOffset: Vec3): State {
    State(Some(obj), Vec3(0.0, 0.0, 0.0), floorOffset, Uniform(1.0), None,
          Vec3(0.0, 0.0, 0.0), false, map[obj := pose])
  }

  /** Furniture at distance 10 with scale factor 0.5: a button-up sets the
      cursor to 3 on every axis. */
  lemma ScenarioHoverCursorScale()
    ensures var s := State(None, Uniform(0.0), Uniform(0.0), Uniform(1.0), None, Uniform(0.0), false,
                           map[4 := Pose(Uniform(0.0), Uniform(1.0), false)]);
            Step(DefaultConfig(0.5), s, HoverInput(10.0, 4, true, false, None)).next.cursorScale
              == Vec3(3.0, 3.0, 3.0)
  {
  }

  /** A box of height 2 held with a zero floor offset follows the ray's floor
      point (5,0,3) to (5,2,3). */
  lemma ScenarioTranslate()
    ensures var s := Holding(1, Pose(Vec3(0.0, 2.0, 0.0), Uniform(1.0), true), Uniform(0.0));
            Step(DefaultConfig(0.5), s, HeldInput(Translate, 0.0, Some(Vec3(5.0, 0.0, 3.0)), 2.0))
              .next.poses[1].position == Vec3(5.0, 2.0, 3.0)
  {
  }

  /** Scale (1,1,1) with mouse x 2 becomes (3,3,3); scale 0.2 with mouse x -2
      would become -1.8, below the minimum, and stays 0.2. */
  lemma ScenarioScale()
    ensures var s := Holding(1, Pose(Uniform(0.0), Uniform(1.0), true), Uniform(0.0));
            Step(DefaultConfig(0.5), s, HeldInput(Scale, 2.0, None, 0.0)).next.poses[1].scale
              == Vec3(3.0, 3.0, 3.0)
    ensures var s := Holding(1, Pose(Uniform(0.0), Uniform(0.2), true), Uniform(0.0));
            Step(DefaultConfig(0.5), s, HeldInput(Scale, -2.0, None, 0.0)).next.poses[1].scale
              == Vec3(0.2, 0.2, 0.2)
  {
  }
}
