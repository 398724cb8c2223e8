/** The flat phone mock-up (`PhoneModel2D`): wheel zoom, dragging and
    rotating its CSS transform by mouse or one finger, reset, the exchange
    of the transform with the editor's `modelState`, how an uploaded
    screenshot is fitted to the phone's 384 by 835 screen, and where the
    screen sits on the phone picture. */
module PhoneModel2D {
  import opened Wrappers
  import opened Pointer
  import opened ModelGestures

  /** The screen's aspect ratio, 384 / 835. */
  const ScreenRatio: real := 384.0 / 835.0

  /** `fitMode`: `fill`, `contain`, or anything else (`cover`, the
      initial and only value the component sets). */
  datatype FitMode = Fill | Contain | Cover

  /** `preprocessImage`: how a `w` by `h` screenshot is drawn for the
      screen. */
  function ScreenDrawing(mode: FitMode, w: real, h: real): (d: Drawing)
    requires w > 0.0 && h > 0.0
    ensures mode == Fill ==> d.source == d.target == Rect(0.0, 0.0, w, h)
    ensures mode == Contain ==>
      d.canvasW == d.canvasH * ScreenRatio && d.source == Rect(0.0, 0.0, w, h) &&
      d.target.w == w && d.target.h == h &&
      Inside(d.target, d.canvasW, d.canvasH) && Centred(d.target, d.canvasW, d.canvasH)
    ensures mode == Cover ==>
      d.canvasW == w && d.canvasH == h && d.target == Rect(0.0, 0.0, w, h) &&
      d.source.w == d.source.h * ScreenRatio && Inside(d.source, w, h) && Centred(d.source, w, h)
  {
    match mode
    case Fill => ModelGestures.Fill(w, h)
    case Contain => ModelGestures.Contain(w, h, ScreenRatio)
    case Cover => ModelGestures.Cover(w, h, ScreenRatio)
  }

  /** The screen's place on a `w` by `h` phone picture: 5.35% from the
      left, 2.5% from the top, 89.3% wide and 95% high; the measured
      23, 22, 384 and 835 pixels before the picture has a size. */
  function ScreenOverlay(w: real, h: real): (r: Rect)
    ensures w > 0.0 && h > 0.0 ==> Inside(r, w, h) && r.w > 0.0 && r.h > 0.0
    ensures w <= 0.0 ==> r.x == 23.0 && r.w == 384.0
    ensures h <= 0.0 ==> r.y == 22.0 && r.h == 835.0
  {
    Rect(if w > 0.0 then w * 0.0535 else 23.0,
         if h > 0.0 then h * 0.025 else 22.0,
         if w > 0.0 then w * 0.893 else 384.0,
         if h > 0.0 then h * 0.95 else 835.0)
  }

  class FlatPhone {
    var transform: Transform
    var isDragging: bool
    /** The pointer's offset from the transform at the press. */
    var dragStart: (real, real)
    var isRotating: bool
    var rotateStart: RotateStart
    var showRotateIcon: bool
    var fitMode: FitMode
    /** The transforms written to `modelState`, in order. */
    var pushed: seq<ModelState>
    /** How many times the template code was regenerated. */
    var regenerations: nat

    /** The scale is never 0, so a transform written to `modelState`
        reads back as itself. */
    predicate Valid()
      reads this
    {
      transform.scale != 0.0
    }

    /** The initial transform from `modelState`. */
    constructor(m: ModelState)
      ensures Valid()
      ensures transform == FlatFromState(m) && !isDragging && !isRotating && fitMode == Cover
      ensures pushed == [] && regenerations == 0
    {
      transform := FlatFromState(m);
      isDragging := false;
      dragStart := (0.0, 0.0);
      isRotating := false;
      rotateStart := RotateStart(0.0, 0.0);
      showRotateIcon := false;
      fitMode := Cover;
      pushed := [];
      regenerations := 0;
    }

    /** `handleWheel`. */
    method Wheel(deltaY: real)
      requires Valid()
      modifies this
      ensures Valid()
      ensures transform == old(transform).(scale := WheelScale(old(transform).scale, deltaY))
      ensures 0.5 <= transform.scale <= 3.0 && showRotateIcon
      ensures isDragging == old(isDragging) && isRotating == old(isRotating)
      ensures pushed == old(pushed) && regenerations == old(regenerations)
    {
      transform := transform.(scale := WheelScale(transform.scale, deltaY));
      showRotateIcon := true;
    }

    /** `handleMouseDown`. */
    method MouseDown(clientX: real, clientY: real)
      requires Valid()
      modifies this
      ensures Valid()
      ensures isDragging && dragStart == DragOffset(transform, clientX, clientY) && showRotateIcon
      ensures transform == old(transform) && isRotating == old(isRotating)
      ensures pushed == old(pushed) && regenerations == old(regenerations)
    {
      isDragging := true;
      dragStart := DragOffset(transform, clientX, clientY);
      showRotateIcon := true;
    }

    /** `handleMouseMove` (and, with one finger, `handleTouchMove`). */
    method MouseMove(clientX: real, clientY: real)
      requires Valid()
      modifies this
      ensures Valid()
      ensures isDragging ==> transform == DragTo(old(transform), dragStart, clientX, clientY)
      ensures !isDragging ==> transform == old(transform)
      ensures isDragging == old(isDragging) && dragStart == old(dragStart) && isRotating == old(isRotating)
      ensures pushed == old(pushed) && regenerations == old(regenerations)
    {
      if !isDragging {
        return;
      }
      transform := DragTo(transform, dragStart, clientX, clientY);
    }

    /** `handleMouseUp` / `handleTouchEnd`. */
    method MouseUp()
      requires Valid()
      modifies this
      ensures Valid()
      ensures !isDragging && transform == old(transform) && isRotating == old(isRotating)
      ensures pushed == old(pushed) && regenerations == old(regenerations)
    {
      isDragging := false;
    }

    /** `handleTouchStart`: a press for exactly one finger. */
    method TouchStart(touches: seq<Point>)
      requires Valid()
      modifies this
      ensures Valid()
      ensures |touches| == 1 ==> isDragging && dragStart == DragOffset(transform, touches[0].x, touches[0].y)
      ensures |touches| != 1 ==> isDragging == old(isDragging) && dragStart == old(dragStart)
      ensures transform == old(transform) && isRotating == old(isRotating)
      ensures pushed == old(pushed) && regenerations == old(regenerations)
    {
      if |touches| == 1 {
        MouseDown(touches[0].x, touches[0].y);
      }
    }

    /** `handleTouchMove`: a drag with exactly one finger. */
    method TouchMove(touches: seq<Point>)
      requires Valid()
      modifies this
      ensures Valid()
      ensures |touches| == 1 && isDragging ==> transform == DragTo(old(transform), dragStart, touches[0].x, touches[0].y)
      ensures !(|touches| == 1 && isDragging) ==> transform == old(transform)
      ensures isDragging == old(isDragging) && dragStart == old(dragStart) && isRotating == old(isRotating)
      ensures pushed == old(pushed) && regenerations == old(regenerations)
    {
      if |touches| == 1 && isDragging {
        MouseMove(touches[0].x, touches[0].y);
      }
    }

    /** `resetTransform`. */
    method Reset()
      requires Valid()
      modifies this
      ensures Valid()
      ensures transform == Identity
      ensures isDragging == old(isDragging) && isRotating == old(isRotating)
      ensures pushed == old(pushed) && regenerations == old(regenerations)
    {
      transform := Identity;
    }

    /** `handleRotateMouseDown` / `handleRotateTouchStart` (one finger):
        the rotation and the pointer's angle about the centre are kept. */
    method RotatePress(pointerAngle: real)
      requires Valid()
      modifies this
      ensures Valid()
      ensures isRotating && rotateStart == RotateStart(transform.rotation, pointerAngle)
      ensures transform == old(transform) && isDragging == old(isDragging)
      ensures pushed == old(pushed) && regenerations == old(regenerations)
    {
      isRotating := true;
      rotateStart := RotateStart(transform.rotation, pointerAngle);
    }

    /** `handleRotateMouseMove` / `handleRotateTouchMove` (one finger). */
    method RotateMove(pointerAngle: real)
      requires Valid()
      modifies this
      ensures Valid()
      ensures isRotating ==> transform == RotateTo(old(transform), rotateStart, pointerAngle)
      ensures !isRotating ==> transform == old(transform)
      ensures isRotating == old(isRotating) && rotateStart == old(rotateStart) && isDragging == old(isDragging)
      ensures pushed == old(pushed) && regenerations == old(regenerations)
    {
      if !isRotating {
        return;
      }
      transform := RotateTo(transform, rotateStart, pointerAngle);
    }

    /** `handleRotateMouseUp` / `handleRotateTouchEnd`. */
    method RotateRelease()
      requires Valid()
      modifies this
      ensures Valid()
      ensures !isRotating && showRotateIcon && transform == old(transform) && isDragging == old(isDragging)
      ensures pushed == old(pushed) && regenerations == old(regenerations)
    {
      isRotating := false;
      showRotateIcon := true;
    }

    /** When the template or the model type changes: a stored position and
        rotation are taken over unless a gesture is under way. */
    method ApplyContextState(m: ModelState)
      requires Valid()
      modifies this
      ensures Valid()
      ensures m.position.Some? && m.rotation.Some? && !isDragging && !isRotating ==> transform == FlatFromState(m)
      ensures !(m.position.Some? && m.rotation.Some? && !isDragging && !isRotating) ==> transform == old(transform)
      ensures isDragging == old(isDragging) && isRotating == old(isRotating)
      ensures pushed == old(pushed) && regenerations == old(regenerations)
    {
      if m.position.Some? && m.rotation.Some? && !isDragging && !isRotating {
        transform := FlatFromState(m);
      }
    }

    /** After the transform changes: in template edit mode it is written to
        `modelState` and the template code regenerated; otherwise nothing
        is written. */
    method SyncToContext(templateEditMode: bool)
      requires Valid()
      modifies this
      ensures Valid()
      ensures templateEditMode ==> pushed == old(pushed) + [FlatState(transform)] && regenerations == old(regenerations) + 1
      ensures !templateEditMode ==> pushed == old(pushed) && regenerations == old(regenerations)
      ensures transform == old(transform) && isDragging == old(isDragging) && isRotating == old(isRotating)
    {
      if templateEditMode {
        pushed := pushed + [FlatState(transform)];
        regenerations := regenerations + 1;
      }
    }
  }

  /** Zooming, dragging and turning, written to `modelState` in template
      edit mode and read back when the template changes, gives the same
      transform. */
  method TransformRoundTrip(phone: FlatPhone, deltaY: real, pressX: real, pressY: real, clientX: real, clientY: real)
    requires phone.Valid() && !phone.isRotating
    modifies phone
    ensures phone.Valid()
    ensures phone.transform.scale == WheelScale(old(phone.transform).scale, deltaY)
    ensures phone.transform.x == old(phone.transform).x + (clientX - pressX)
    ensures phone.transform.y == old(phone.transform).y + (clientY - pressY)
    ensures phone.transform.rotation == old(phone.transform).rotation
  {
    phone.Wheel(deltaY);
    phone.MouseDown(pressX, pressY);
    phone.MouseMove(clientX, clientY);
    phone.MouseUp();
    phone.SyncToContext(true);
    var t := phone.transform;
    FlatStateRoundTrip(t);
    phone.ApplyContextState(phone.pushed[|phone.pushed| - 1]);
  }
}
