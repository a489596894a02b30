# Spherical cursor, teleport and transform-mode controls — a Dafny model

This project models the per-frame decision logic of three Unity behaviours of
a virtual-room application:

- **SphericalCursorModule** — the cursor that selects furniture. Each frame it
  hides the floor sprite, turns the camera to follow the cursor once the cursor
  strays more than 35° from the view's forward axis (at most 2° per frame),
  except while an object is held in Rotate mode, and then runs a small state
  machine:
  - while an object is held, a mouse-button-up edge releases it;
  - otherwise the current transform mode translates it along the floor,
    rotates it, or scales it (never below a per-axis minimum);
  - with nothing held, a furniture hit makes that object the current
    selection, a button-up resizes the cursor by the hit distance, and a
    button-down grabs the object and records the grab offset. It records the
    floor offset only if the floor ray hits; otherwise the previous grab's
    floor offset is kept;
  - with no furniture hit the cursor takes its default size, the selection
    is cleared, and the floor sprite moves to the floor hit.
- **TeleportModule** — on a button-down edge, moves the player body's X and Z
  to the floor point under the cursor ray, unless furniture blocks the ray.
- **TransformModeHandler** — the mode (Off, Translate, Rotate, Scale) chosen by
  the T, R, S and O key-up edges.

The model is functional. `SphericalCursorModule.Step` maps a `State` and one
frame's `Input` to the next state and the rotations the frame asks of the
engine. The state holds the held object, grab and floor offsets, cursor scale,
current selection, floor sprite, and a pose per object (position, scale,
rotation-freeze flag). The input holds the button edges, the mouse deltas, the
mode, and the raycast results. Vectors are triples of `real`.

The engine's geometry is turned into inputs:
- the furniture and floor raycasts along the cursor ray become optional hits.
  The floor raycast is made at most once per frame, always with the same ray,
  so a single optional floor point is exact;
- the angle between the cursor ray and the view's forward axis is an input;
- the ray's dot product with the view's right axis is an input;
- the held object's box-collider height is an input.

Facts about the code that the model keeps:
- Releasing clears only the held-object reference. The grab and floor
  offsets are kept (SphericalCursorModule.cs:237-243).
- The floor offset is recaptured on every grab that has a floor hit, in any
  transform mode (SphericalCursorModule.cs:138-150).
- Translating overwrites the y of the grab offset with the box height
  (SphericalCursorModule.cs:261).
- The mode keys are checked in two if/else-if chains, so the precedence is
  S, then O, then T, then R (TransformModeHandler.cs:17-27).
- Rotate mode multiplies the mouse delta by the rotation speed and by
  `Mathf.Deg2Rad`, then passes the product to `Transform.Rotate`, which takes
  degrees (SphericalCursorModule.cs:273-277). The model reports that product
  as written.

## Model

| member | source | states |
|---|---|---|
| TransformModeHandler.Update | Project/Assets/Altspace/Scripts/TransformModeHandler.cs:16-29 | An S release gives Scale. An O release without S gives Off. T without S or O gives Translate, even with R. R alone gives Rotate. No release keeps the mode. `axisLock` never changes. |
| TransformModeHandler.FirstReleased | Project/Assets/Altspace/Scripts/TransformModeHandler.cs:17-27 | Reference reading as a priority list: the first released key in the list decides the mode, and with no key released the mode is the current one. |
| TransformModeHandler.UpdateIsPriorityList | Project/Assets/Altspace/Scripts/TransformModeHandler.cs:17-27 | The two if/else-if chains equal the priority list S > O > T > R. |
| TransformModeHandler.InitialIsOff | Project/Assets/Altspace/Scripts/TransformModeHandler.cs:7-8 | The initial mode is Off and the axis lock is off. |
| TransformModeHandler.UpdateIdempotent | Project/Assets/Altspace/Scripts/TransformModeHandler.cs:17-27 | Applying the same key edges twice gives the same handler as applying them once. |
| TeleportModule.Teleport | Project/Assets/Altspace/Scripts/TeleportModule.cs:27-40 | Y never changes. Without a button-down, with a furniture hit, or without a floor hit, the position is unchanged. Otherwise X and Z become the floor hit's X and Z. |
| TeleportModule.TeleportIdempotent | Project/Assets/Altspace/Scripts/TeleportModule.cs:36 | Teleporting twice with the same input gives the same position as teleporting once. |
| TeleportModule.FurnitureBlocks | Project/Assets/Altspace/Scripts/TeleportModule.cs:34-35 | A furniture hit blocks the teleport, whatever the floor query would answer. |
| CursorView.RotateCamera | Project/Assets/Altspace/Scripts/SphericalCursorModule.cs:167-188 | No correction up to 35°. The camera yaw stays within ±2°. Past 35° the yaw is non-zero and negative exactly when the ray's right-dot is negative. Its magnitude is the excess, capped at 2. The cursor is pulled back by exactly what the cap cuts off. |
| CursorView.Clamp | Project/Assets/Altspace/Scripts/SphericalCursorModule.cs:231 | With lo ≤ hi the result lies in [lo, hi]. A value already in range is unchanged. A value below lo gives lo, and with lo ≤ hi a value above hi gives hi. |
| CursorView.Clamp01 | Project/Assets/Altspace/Scripts/SphericalCursorModule.cs:217-218 | The result lies in [0, 1]. Values already in range are unchanged, a value below 0 gives 0, and a value above 1 gives 1. |
| CursorView.CapViewport | Project/Assets/Altspace/Scripts/SphericalCursorModule.cs:208-224 | The capped viewport position is on screen in both axes, and its depth is kept. On each axis, an in-range coordinate is unchanged, one below 0 goes to 0, and one above 1 goes to 1. |
| CursorView.CapWidth | Project/Assets/Altspace/Scripts/SphericalCursorModule.cs:225-235 | The capped screen x lies in [0, width]. An x already in range is unchanged, an x below 0 gives 0, and an x above width gives width. |
| CursorView.CapViewportIdempotent | Project/Assets/Altspace/Scripts/SphericalCursorModule.cs:217-218 | Capping an already capped position changes nothing. |
| SphericalCursorModule.Release | Project/Assets/Altspace/Scripts/SphericalCursorModule.cs:237-243 | Nothing is held afterwards. The released object is unfrozen, with position and scale kept. Other objects are unchanged, and both offsets are kept. |
| SphericalCursorModule.Select | Project/Assets/Altspace/Scripts/SphericalCursorModule.cs:245-255 | The object becomes the held one and is frozen, with its pose otherwise unchanged. Its origin plus the grab offset is the hit point. |
| SphericalCursorModule.GroundOffset | Project/Assets/Altspace/Scripts/SphericalCursorModule.cs:145-147 | The floor offset has y = 0. Added to the hit point dropped to the floor's height, it reaches the floor intersection. |
| SphericalCursorModule.TranslateGrabbed | Project/Assets/Altspace/Scripts/SphericalCursorModule.cs:257-266 | The floor sprite plus the floor offset is the floor point. The object sits exactly the box height above the sprite. Scale and freeze flag are kept, other objects are unchanged, and the grab offset's y becomes the height. |
| SphericalCursorModule.ScaleGrabbed | Project/Assets/Altspace/Scripts/SphericalCursorModule.cs:281-296 | The scale becomes old + mouseX on every axis if every component is at least the minimum. Otherwise it is unchanged. A scale at or above the minimum stays there. |
| SphericalCursorModule.Hover | Project/Assets/Altspace/Scripts/SphericalCursorModule.cs:124-152 | The hit object becomes the selection. A button-up sets the cursor to (d·factor + 1)/2 on every axis, and otherwise keeps it. A button-down grabs the hit object. A grab with a floor hit records the ground offset and shows the sprite. Otherwise the floor offset is kept. |
| SphericalCursorModule.Miss | Project/Assets/Altspace/Scripts/SphericalCursorModule.cs:153-164 | The cursor takes the default scale and the selection is cleared. A floor hit moves the sprite there and shows it. Nothing else changes. |
| SphericalCursorModule.TurnFor | Project/Assets/Altspace/Scripts/SphericalCursorModule.cs:268-279 | The turn about world up is −(rotationSpeed · Deg2Rad) · mouse x. The turn about world right is rotationSpeed · Deg2Rad · mouse y. With a positive speed, the turn about up is negative exactly when mouse x is positive, and the turn about right is positive exactly when mouse y is. |
| SphericalCursorModule.TurnForReverses | Project/Assets/Altspace/Scripts/SphericalCursorModule.cs:273-277 | Reversing both mouse deltas reverses both rotations of the object. |
| SphericalCursorModule.Step | Project/Assets/Altspace/Scripts/SphericalCursorModule.cs:69-165 | The set of objects is kept, and a held object is always a scene object. Only the object held before or after the frame can change. |
| CursorProperties.StepRelease | Project/Assets/Altspace/Scripts/SphericalCursorModule.cs:96-102 | A button-up while holding clears the grab and unfreezes the object. No move, scale or turn happens that frame. The offsets, cursor scale and selection are kept. |
| CursorProperties.StepGrab | Project/Assets/Altspace/Scripts/SphericalCursorModule.cs:124-140 | With nothing held, a grab happens iff there is a furniture hit and a button-down. The grabbed object is the hit one, frozen and unmoved, and the grab offset leads from its origin to the hit point. |
| CursorProperties.StepHoldsOne | Project/Assets/Altspace/Scripts/SphericalCursorModule.cs:96-124 | While something is held, no other object can be grabbed. The held object stays held until a button-up releases it. |
| CursorProperties.StepFloorOffset | Project/Assets/Altspace/Scripts/SphericalCursorModule.cs:141-150 | A grab with a floor hit sets floorOffset = floor − (hit point with y := floor.y), so its y is 0. A grab without a floor hit keeps the old offset. |
| CursorProperties.StepTranslate | Project/Assets/Altspace/Scripts/SphericalCursorModule.cs:105-113 | In Translate mode with a floor hit, the position becomes floor − floorOffset + (0, height, 0). The sprite moves to floor − floorOffset and is shown. The scale is kept. |
| CursorProperties.StepTranslateNoFloor | Project/Assets/Altspace/Scripts/SphericalCursorModule.cs:107-113 | In Translate mode without a floor hit, no pose changes. |
| CursorProperties.StepOffOrRotateKeepsPoses | Project/Assets/Altspace/Scripts/SphericalCursorModule.cs:105-120 | In Off and Rotate modes no pose changes, and neither the grab offset nor the floor offset changes. An object turn is requested exactly in Rotate mode. |
| CursorProperties.StepScale | Project/Assets/Altspace/Scripts/SphericalCursorModule.cs:117-119 | In Scale mode the scale becomes s + mouseX on every axis when every axis stays at or above the minimum. Otherwise it is unchanged. The position is kept. |
| CursorProperties.StepCursorScale | Project/Assets/Altspace/Scripts/SphericalCursorModule.cs:124-156 | With nothing held: a furniture hit with button-up gives cursor scale (d·factor + 1)/2 on every axis. Without button-up the cursor scale is kept. The hit object becomes the selection. No furniture hit gives (7,7,7) and clears the selection. |
| CursorProperties.StepHeldKeepsCursor | Project/Assets/Altspace/Scripts/SphericalCursorModule.cs:96-122 | While holding, the cursor scale and the selection do not change. |
| CursorProperties.StepYaw | Project/Assets/Altspace/Scripts/SphericalCursorModule.cs:87-91 | The yaw lies within ±2. It is zero in Rotate mode with an object held. Otherwise it is zero up to 35°. Beyond 35° it equals sign · min(angle − 35, 2), where the sign is −1 when the right-dot is negative and +1 otherwise. |
| CursorProperties.StepMutualExclusion | Project/Assets/Altspace/Scripts/SphericalCursorModule.cs:87-116 | A frame that turns the held object neither turns the camera nor pulls the cursor, and it keeps the grab. |
| CursorProperties.StepSprite | Project/Assets/Altspace/Scripts/SphericalCursorModule.cs:72-164 | After a frame the floor sprite is visible iff that frame made a floor query and it hit. |
| CursorProperties.StepPreservesInv | Project/Assets/Altspace/Scripts/SphericalCursorModule.cs:237-255 | One frame preserves the grab invariant: an object is frozen iff it is the held one. |
| CursorProperties.InvAtMostOneFrozen | Project/Assets/Altspace/Scripts/SphericalCursorModule.cs:138-140 | Under the invariant, any two frozen objects are the same object, and it is the held one. |
| CursorProperties.StartupInv | Project/Assets/Altspace/Scripts/SphericalCursorModule.cs:66 | A state that holds nothing and has no frozen object, as after start-up, meets the invariant. |
| CursorProperties.StepScaleFloor | Project/Assets/Altspace/Scripts/SphericalCursorModule.cs:286-293 | If every object's scale is at or above the minimum, it still is after one frame. |
| CursorProperties.Run | Project/Assets/Altspace/Scripts/SphericalCursorModule.cs:69-165 | Over any sequence of frames the set of objects is kept, and a held object stays a scene object. |
| CursorProperties.RunPreservesInv | Project/Assets/Altspace/Scripts/SphericalCursorModule.cs:96-152 | After any sequence of frames at most one object is held, and only it is frozen. |
| CursorProperties.RunScaleFloor | Project/Assets/Altspace/Scripts/SphericalCursorModule.cs:281-296 | No sequence of frames takes any object's scale below the minimum. |
| CursorProperties.ScenarioHoverCursorScale | Project/Assets/Altspace/Scripts/SphericalCursorModule.cs:126-130 | Distance 10 with factor 0.5 and a button-up gives cursor scale (3,3,3). |
| CursorProperties.ScenarioTranslate | Project/Assets/Altspace/Scripts/SphericalCursorModule.cs:257-266 | A box of height 2 with a zero floor offset, over floor point (5,0,3), moves to (5,2,3). |
| CursorProperties.ScenarioScale | Project/Assets/Altspace/Scripts/SphericalCursorModule.cs:281-296 | Scale 1 with mouse x 2 becomes 3. Scale 0.2 with mouse x −2 would fall below the minimum, so it stays 0.2. |

## Left out

- LockCursor.cs: it only locks the OS cursor and quits the application on Escape. It is pure I/O.
- Cursor projection is left out. This covers the `RotateAround` of the cursor by the mouse deltas, the world/viewport/screen conversions in `capCursorHeight` and `capCursorWidth`, and the re-projection onto the 12-unit sphere. They are engine transforms, so only their clamp steps are modelled, as `CapViewport` and `CapWidth`.
- Object rotation is left out. The quaternion updates of `rotateSelectedObject` and the camera's `RotateAround` are not applied to any state. The model reports their angles as `Turn` and `ViewCorrection` values.
- `Physics.Raycast` and its layer masks, the 100-unit ray length, `Vector3.Angle` and `Vector3.Dot` are left out. Their results arrive as inputs.
- Float rounding is left out: `Vector3` components are `real`.
- Rendering is left out: the cursor colour, the `transform.Find` and `GetComponent` lookups, and `Awake`.
- The rigidbody is left out, except its rotation-freeze flag.
- `Selectable.CurrentSelection` is a static field of a class that is not part of this model. It is kept as the `selection` field of the state.
- Every furniture-layer collider is assumed to sit on a modelled object that has a Rigidbody and a BoxCollider. In SphericalCursorModule.cs, without a Rigidbody, `selectObject` stores the object and then throws at line 253, and `releaseSelectedObject` then throws at line 241 before clearing the reference at 242. Without a BoxCollider, `translateSelectedObject` throws at line 261. These exception paths are not modelled.
- SphericalCursorModule.Step: the source writes the engine-level cursor position every frame. The model has no cursor position, so that write is not represented.
