/** The 3-D phone mock-up's gestures (`PhoneModel`): wheel zoom of the
    camera, moving the phone in its plane and rotating it freely or about
    one axis, by mouse or by one finger, all measured from the snapshot
    taken at the press; and the exchange of its pose with the editor's
    `modelState`. The scene itself is not part of this model. */
module PhoneModel {
  import opened Wrappers
  import opened Pointer
  import opened ModelGestures

  /** `interactionMode`. */
  datatype Mode = Move | Rotate | RotateX | RotateY | RotateZ

  /** The press of a move: the pointer and the position then. */
  datatype DragStart = DragStart(x: real, y: real, initialPosition: Vec3)

  /** The press of a rotation: the rotation and the pointer then. */
  datatype RotationStart = RotationStart(rotation: Vec3, startX: real, startY: real)

  /** `rotationSpeed`: degrees per pixel. */
  const RotationSpeed := 0.5

  /** A move: the press position plus the pointer's motion times the
      sensitivity, with screen y pointing down and model y up; depth is
      kept. */
  function MovedPosition(start: DragStart, clientX: real, clientY: real, sensitivity: real): (p: Vec3)
    ensures p.z == start.initialPosition.z
  {
    var deltaX := (clientX - start.x) * sensitivity;
    var deltaY := -(clientY - start.y) * sensitivity;
    Vec3(start.initialPosition.x + deltaX, start.initialPosition.y + deltaY, start.initialPosition.z)
  }

  /** A pointer back at the press point puts the phone back. */
  lemma MoveBackToStart(start: DragStart, sensitivity: real)
    ensures MovedPosition(start, start.x, start.y, sensitivity) == start.initialPosition
  {
  }

  /** A rotation by mouse: `rotate` turns about x by the vertical motion
      and about y by the horizontal motion; `rotateX`, `rotateY` and
      `rotateZ` change only their own axis; in move mode nothing turns. */
  function Rotated(mode: Mode, start: RotationStart, clientX: real, clientY: real, current: Vec3): (r: Vec3)
    ensures mode == Move ==> r == current
    ensures mode != Move ==> r.z == start.rotation.z || mode == RotateZ
    ensures mode == RotateX ==> r.y == start.rotation.y && r.z == start.rotation.z
    ensures mode == RotateY ==> r.x == start.rotation.x && r.z == start.rotation.z
    ensures mode == RotateZ ==> r.x == start.rotation.x && r.y == start.rotation.y
    ensures mode == Rotate || mode == RotateX ==> r.x == start.rotation.x - (clientY - start.startY) * RotationSpeed
    ensures mode == Rotate || mode == RotateY ==> r.y == start.rotation.y + (clientX - start.startX) * RotationSpeed
    ensures mode == RotateZ ==> r.z == start.rotation.z + (clientX - start.startX) * RotationSpeed
  {
    var deltaX := clientX - start.startX;
    var deltaY := clientY - start.startY;
    var s := start.rotation;
    match mode
    case Rotate => Vec3(s.x - deltaY * RotationSpeed, s.y + deltaX * RotationSpeed, s.z)
    case RotateX => Vec3(s.x - deltaY * RotationSpeed, s.y, s.z)
    case RotateY => Vec3(s.x, s.y + deltaX * RotationSpeed, s.z)
    case RotateZ => Vec3(s.x, s.y, s.z + deltaX * RotationSpeed)
    case Move => current
  }

  /** A rotation by one finger: as by mouse, except that `rotateZ` turns
      by half the finger's distance from the press (`distance`, the
      square root of dx² + dy²) times the speed, clockwise when the finger
      went right. */
  function TouchRotated(mode: Mode, start: RotationStart, clientX: real, clientY: real, distance: real, current: Vec3): (r: Vec3)
    ensures mode != RotateZ ==> r == Rotated(mode, start, clientX, clientY, current)
    ensures mode == RotateZ ==> r.x == start.rotation.x && r.y == start.rotation.y
    ensures mode == RotateZ && clientX > start.startX ==> r.z == start.rotation.z + distance * RotationSpeed * 0.5
    ensures mode == RotateZ && clientX <= start.startX ==> r.z == start.rotation.z - distance * RotationSpeed * 0.5
  {
    if mode == RotateZ then
      var sign := if clientX - start.startX > 0.0 then 1.0 else -1.0;
      start.rotation.(z := start.rotation.z + sign * distance * RotationSpeed * 0.5)
    else Rotated(mode, start, clientX, clientY, current)
  }

  /** A rotation whose pointer is back at the press point leaves the phone
      as it was then. */
  lemma RotateBackToStart(mode: Mode, start: RotationStart, current: Vec3)
    requires mode != Move
    ensures Rotated(mode, start, start.startX, start.startY, current) == start.rotation
  {
  }

  class PhoneView {
    var position: Vec3
    var rotation: Vec3
    var cameraDistance: real
    var isDragging: bool
    var dragStart: DragStart
    var isRotating: bool
    var rotateStart: RotationStart
    var showControlIcons: bool
    var mode: Mode
    var isHovered: bool
    /** World units per pixel at the current camera distance. */
    var sensitivity: real
    /** The poses written to `modelState`, in order. */
    var pushed: seq<ModelState>
    /** How many times the template code was regenerated. */
    var regenerations: nat

    /** The initial pose from `modelState`: each axis `|| 0`, the camera
        distance `|| 3`. */
    constructor(m: ModelState)
      ensures position == AxesOr(m.position) && rotation == AxesOr(m.rotation)
      ensures cameraDistance == OrNumber(m.cameraDistance, 3.0)
      ensures !isDragging && !isRotating && !showControlIcons && mode == Move && pushed == [] && regenerations == 0
    {
      position := AxesOr(m.position);
      rotation := AxesOr(m.rotation);
      cameraDistance := OrNumber(m.cameraDistance, 3.0);
      isDragging := false;
      dragStart := DragStart(0.0, 0.0, Vec3(0.0, 0.0, 0.0));
      isRotating := false;
      rotateStart := RotationStart(Vec3(0.0, 0.0, 0.0), 0.0, 0.0);
      showControlIcons := false;
      mode := Move;
      isHovered := false;
      sensitivity := 0.01;
      pushed := [];
      regenerations := 0;
    }

    /** `handleWheel`: only over the phone; the camera distance moves by
        `deltaY * 0.03` within [1.5, 10] and the controls show. */
    method Wheel(deltaY: real)
      modifies this
      ensures !old(isHovered) ==> cameraDistance == old(cameraDistance) && showControlIcons == old(showControlIcons)
      ensures old(isHovered) ==> cameraDistance == CameraDistance(old(cameraDistance), deltaY) && showControlIcons
      ensures old(isHovered) ==> 1.5 <= cameraDistance <= 10.0
      ensures position == old(position) && rotation == old(rotation) && mode == old(mode)
      ensures isDragging == old(isDragging) && isRotating == old(isRotating) && isHovered == old(isHovered)
      ensures pushed == old(pushed) && regenerations == old(regenerations)
    {
      if !isHovered {
        return;
      }
      cameraDistance := CameraDistance(cameraDistance, deltaY);
      showControlIcons := true;
    }

    /** The phone's `onPointerOver`: the pointer is over the phone. */
    method PointerOver()
      modifies this`isHovered
      ensures isHovered
    {
      isHovered := true;
    }

    /** The phone's `onPointerOut`: the pointer has left the phone. */
    method PointerOut()
      modifies this`isHovered
      ensures !isHovered
    {
      isHovered := false;
    }

    /** `handleMouseDown`: only with the controls showing and on the
        canvas itself; a move records the pointer and position, a rotation
        the pointer and rotation. */
    method MouseDown(targetTag: string, clientX: real, clientY: real)
      modifies this
      ensures position == old(position) && rotation == old(rotation) && mode == old(mode)
      ensures cameraDistance == old(cameraDistance) && pushed == old(pushed) && regenerations == old(regenerations)
      ensures !(old(showControlIcons) && targetTag == "CANVAS") ==>
        isDragging == old(isDragging) && isRotating == old(isRotating) &&
        dragStart == old(dragStart) && rotateStart == old(rotateStart)
      ensures old(showControlIcons) && targetTag == "CANVAS" && mode == Move ==>
        isDragging && dragStart == DragStart(clientX, clientY, position) && isRotating == old(isRotating)
      ensures old(showControlIcons) && targetTag == "CANVAS" && mode != Move ==>
        isRotating && rotateStart == RotationStart(rotation, clientX, clientY) && isDragging == old(isDragging)
    {
      if showControlIcons && targetTag == "CANVAS" {
        if mode == Move {
          isDragging := true;
          dragStart := DragStart(clientX, clientY, position);
        } else {
          isRotating := true;
          rotateStart := RotationStart(rotation, clientX, clientY);
        }
      }
    }

    /** `handleMouseMove`: a move in move mode places the phone from the
        press snapshot; otherwise a rotation turns it from the press
        snapshot. */
    method MouseMove(clientX: real, clientY: real)
      modifies this
      ensures isDragging == old(isDragging) && isRotating == old(isRotating) && mode == old(mode)
      ensures dragStart == old(dragStart) && rotateStart == old(rotateStart)
      ensures cameraDistance == old(cameraDistance) && pushed == old(pushed) && regenerations == old(regenerations)
      ensures isDragging && mode == Move ==>
        position == MovedPosition(dragStart, clientX, clientY, sensitivity) && rotation == old(rotation)
      ensures !(isDragging && mode == Move) && isRotating ==>
        rotation == Rotated(mode, rotateStart, clientX, clientY, old(rotation)) && position == old(position)
      ensures !(isDragging && mode == Move) && !isRotating ==> position == old(position) && rotation == old(rotation)
    {
      if isDragging && mode == Move {
        position := MovedPosition(dragStart, clientX, clientY, sensitivity);
      } else if isRotating {
        rotation := Rotated(mode, rotateStart, clientX, clientY, rotation);
      }
    }

    /** `handleMouseUp` / `handleTouchEnd`: the gesture ends and the
        controls show again. */
    method MouseUp()
      modifies this
      ensures !isDragging && !isRotating && showControlIcons
      ensures position == old(position) && rotation == old(rotation) && cameraDistance == old(cameraDistance)
      ensures mode == old(mode) && pushed == old(pushed) && regenerations == old(regenerations)
    {
      isDragging := false;
      isRotating := false;
      showControlIcons := true;
    }

    /** `handleTouchStart`: as a mouse press, for exactly one finger and
        whatever the target. */
    method TouchStart(touches: seq<Point>)
      modifies this
      ensures position == old(position) && rotation == old(rotation) && mode == old(mode)
      ensures cameraDistance == old(cameraDistance) && pushed == old(pushed) && regenerations == old(regenerations)
      ensures !(old(showControlIcons) && |touches| == 1) ==>
        isDragging == old(isDragging) && isRotating == old(isRotating) &&
        dragStart == old(dragStart) && rotateStart == old(rotateStart)
      ensures old(showControlIcons) && |touches| == 1 && mode == Move ==>
        isDragging && dragStart == DragStart(touches[0].x, touches[0].y, position)
      ensures old(showControlIcons) && |touches| == 1 && mode != Move ==>
        isRotating && rotateStart == RotationStart(rotation, touches[0].x, touches[0].y)
    {
      if showControlIcons && |touches| == 1 {
        var touch := touches[0];
        if mode == Move {
          isDragging := true;
          dragStart := DragStart(touch.x, touch.y, position);
        } else {
          isRotating := true;
          rotateStart := RotationStart(rotation, touch.x, touch.y);
        }
      }
    }

    /** `handleTouchMove`: with one finger, a move (in any mode) places the
        phone and a rotation turns it, `rotateZ` by the finger's distance. */
    method TouchMove(touches: seq<Point>, distance: real)
      requires |touches| == 1 && !isDragging && isRotating ==>
        var dx, dy := touches[0].x - rotateStart.startX, touches[0].y - rotateStart.startY;
        distance >= 0.0 && distance * distance == dx * dx + dy * dy
      modifies this
      ensures isDragging == old(isDragging) && isRotating == old(isRotating) && mode == old(mode)
      ensures cameraDistance == old(cameraDistance) && pushed == old(pushed) && regenerations == old(regenerations)
      ensures |touches| != 1 ==> position == old(position) && rotation == old(rotation)
      ensures |touches| == 1 && isDragging ==>
        position == MovedPosition(dragStart, touches[0].x, touches[0].y, sensitivity) && rotation == old(rotation)
      ensures |touches| == 1 && !isDragging && isRotating ==>
        rotation == TouchRotated(mode, rotateStart, touches[0].x, touches[0].y, distance, old(rotation)) &&
        position == old(position)
      ensures |touches| == 1 && !isDragging && !isRotating ==> position == old(position) && rotation == old(rotation)
    {
      if |touches| == 1 {
        var touch := touches[0];
        if isDragging {
          position := MovedPosition(dragStart, touch.x, touch.y, sensitivity);
        } else if isRotating {
          rotation := TouchRotated(mode, rotateStart, touch.x, touch.y, distance, rotation);
        }
      }
    }

    /** The mode buttons. */
    method SetMode(m: Mode)
      modifies this
      ensures mode == m && position == old(position) && rotation == old(rotation) && showControlIcons == old(showControlIcons)
      ensures isDragging == old(isDragging) && isRotating == old(isRotating)
      ensures pushed == old(pushed) && regenerations == old(regenerations)
    {
      mode := m;
    }

    /** When the template or the model type changes: a stored position and
        rotation are taken over unless a gesture is under way, and a
        nonzero stored camera distance too. */
    method ApplyContextState(m: ModelState)
      modifies this
      ensures m.position.Some? && m.rotation.Some? && !isDragging && !isRotating ==>
        position == m.position.value && rotation == m.rotation.value &&
        cameraDistance == (if m.cameraDistance.Some? && m.cameraDistance.value != 0.0 then m.cameraDistance.value
                           else old(cameraDistance))
      ensures !(m.position.Some? && m.rotation.Some? && !isDragging && !isRotating) ==>
        position == old(position) && rotation == old(rotation) && cameraDistance == old(cameraDistance)
      ensures isDragging == old(isDragging) && isRotating == old(isRotating) && mode == old(mode)
      ensures pushed == old(pushed) && regenerations == old(regenerations)
    {
      if m.position.Some? && m.rotation.Some? && !isDragging && !isRotating {
        position := m.position.value;
        rotation := m.rotation.value;
        if m.cameraDistance.Some? && m.cameraDistance.value != 0.0 {
          cameraDistance := m.cameraDistance.value;
        }
      }
    }

    /** After the pose changes: in template edit mode it is written to
        `modelState` and the template code regenerated; otherwise nothing
        is written. */
    method SyncToContext(templateEditMode: bool)
      modifies this
      ensures templateEditMode ==>
        pushed == old(pushed) + [ModelState(None, Some(rotation), Some(position), Some(cameraDistance))] &&
        regenerations == old(regenerations) + 1
      ensures !templateEditMode ==> pushed == old(pushed) && regenerations == old(regenerations)
      ensures position == old(position) && rotation == old(rotation) && cameraDistance == old(cameraDistance)
      ensures isDragging == old(isDragging) && isRotating == old(isRotating) && mode == old(mode)
    {
      if templateEditMode {
        pushed := pushed + [ModelState(None, Some(rotation), Some(position), Some(cameraDistance))];
        regenerations := regenerations + 1;
      }
    }
  }

  /** A pose written to `modelState` in template edit mode and read back
      when the template changes is the pose the phone had. */
  /** The wheel zooms while the pointer is over the phone and not after
      it has left: over, wheel, out, wheel moves the camera once. */
  method HoverThenWheel(view: PhoneView, first: real, second: real)
    modifies view
    ensures view.cameraDistance == CameraDistance(old(view.cameraDistance), first)
    ensures 1.5 <= view.cameraDistance <= 10.0 && view.showControlIcons && !view.isHovered
    ensures view.position == old(view.position) && view.rotation == old(view.rotation)
  {
    view.PointerOver();
    view.Wheel(first);
    view.PointerOut();
    view.Wheel(second);
  }

  method PoseRoundTrip(view: PhoneView)
    requires !view.isDragging && !view.isRotating && view.cameraDistance != 0.0
    modifies view
    ensures view.position == old(view.position) && view.rotation == old(view.rotation)
    ensures view.cameraDistance == old(view.cameraDistance)
  {
    view.SyncToContext(true);
    view.ApplyContextState(view.pushed[|view.pushed| - 1]);
  }

  /** Rotating about x, then letting go, leaves the phone's y and z turns
      as they were before the press. */
  method RotateAboutX(view: PhoneView, pressX: real, pressY: real, clientX: real, clientY: real)
    requires view.showControlIcons && !view.isDragging
    modifies view
    ensures view.rotation.y == old(view.rotation.y) && view.rotation.z == old(view.rotation.z)
    ensures view.rotation.x == old(view.rotation.x) - (clientY - pressY) * RotationSpeed
    ensures view.position == old(view.position)
  {
    view.SetMode(RotateX);
    view.MouseDown("CANVAS", pressX, pressY);
    view.MouseMove(clientX, clientY);
    view.MouseUp();
  }
}
