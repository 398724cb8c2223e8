/** The flat MacBook mock-up (`MacBookModel2D`): the same wheel zoom,
    dragging and rotating as the flat phone, without touch handlers; its
    transform is written to `modelState` after every change (not only in
    template edit mode); screenshots are cropped to the 1632 by 1058
    screen; and the screen's place on the 2048 by 1349.5 picture. */
module MacBookModel2D {
  import opened Wrappers
  import opened ModelGestures

  /** The screen's aspect ratio, 1632 / 1058. */
  const ScreenRatio: real := 1632.0 / 1058.0

  /** `preprocessImage`: always cover, cropping the screenshot to the
      screen's shape and keeping its size. */
  function ScreenDrawing(w: real, h: real): (d: Drawing)
    requires w > 0.0 && h > 0.0
    ensures d.canvasW == w && d.canvasH == h && d.target == Rect(0.0, 0.0, w, h)
    ensures d.source.w == d.source.h * ScreenRatio
    ensures Inside(d.source, w, h) && Centred(d.source, w, h)
    ensures d.source.w == w || d.source.h == h
  {
    Cover(w, h, ScreenRatio)
  }

  /** The screen's place on a `w` by `h` MacBook picture, scaled from the
      measured 208, 146, 1632 and 1058 pixels of the 2048 by 1349.5
      original; those pixels before the picture has a size. */
  function ScreenOverlay(w: real, h: real): (r: Rect)
    ensures w > 0.0 && h > 0.0 ==> Inside(r, w, h) && r.w > 0.0 && r.h > 0.0
    ensures w > 0.0 ==> r.w == w * (1632.0 / 2048.0)
    ensures w <= 0.0 ==> r.x == 208.0 && r.w == 1632.0
    ensures h <= 0.0 ==> r.y == 146.0 && r.h == 1058.0
  {
    Rect(if w > 0.0 then w * (208.0 / 2048.0) else 208.0,
         if h > 0.0 then h * (146.0 / 1349.5) else 146.0,
         if w > 0.0 then w * (1632.0 / 2048.0) else 1632.0,
         if h > 0.0 then h * (1058.0 / 1349.5) else 1058.0)
  }

  /** At the picture's natural size the overlay is exactly the measured
      screen, the same as the fallback before the size is known. */
  lemma OverlayAtNaturalSize()
    ensures ScreenOverlay(2048.0, 1349.5) == Rect(208.0, 146.0, 1632.0, 1058.0)
    ensures ScreenOverlay(2048.0, 1349.5) == ScreenOverlay(0.0, 0.0)
  {
  }

  class FlatMacBook {
    var transform: Transform
    var isDragging: bool
    /** The pointer's offset from the transform at the press. */
    var dragStart: (real, real)
    var isRotating: bool
    var rotateStart: RotateStart
    var showRotateIcon: bool
    /** The transforms written to `modelState`, in order. */
    var pushed: seq<ModelState>
    /** How many times the template code was regenerated. */
    var regenerations: nat

    /** The scale is never 0, so a transform written to `modelState`
        reads back as itself. */
    predicate Valid()
      reads this
    {
      transform.scale != 0.0
    }

    /** The initial transform from `modelState`. */
    constructor(m: ModelState)
      ensures Valid()
      ensures transform == FlatFromState(m) && !isDragging && !isRotating
      ensures pushed == [] && regenerations == 0
    {
      transform := FlatFromState(m);
      isDragging := false;
      dragStart := (0.0, 0.0);
      isRotating := false;
      rotateStart := RotateStart(0.0, 0.0);
      showRotateIcon := false;
      pushed := [];
      regenerations := 0;
    }

    /** `handleWheel`. */
    method Wheel(deltaY: real)
      requires Valid()
      modifies this
      ensures Valid()
      ensures transform == old(transform).(scale := WheelScale(old(transform).scale, deltaY))
      ensures 0.5 <= transform.scale <= 3.0 && showRotateIcon
      ensures isDragging == old(isDragging) && isRotating == old(isRotating)
      ensures pushed == old(pushed) && regenerations == old(regenerations)
    {
      transform := transform.(scale := WheelScale(transform.scale, deltaY));
      showRotateIcon := true;
    }

    /** `handleMouseDown`. */
    method MouseDown(clientX: real, clientY: real)
      requires Valid()
      modifies this
      ensures Valid()
      ensures isDragging && dragStart == DragOffset(transform, clientX, clientY) && showRotateIcon
      ensures transform == old(transform) && isRotating == old(isRotating)
      ensures pushed == old(pushed) && regenerations == old(regenerations)
    {
      isDragging := true;
      dragStart := DragOffset(transform, clientX, clientY);
      showRotateIcon := true;
    }

    /** `handleMouseMove`. */
    method MouseMove(clientX: real, clientY: real)
      requires Valid()
      modifies this
      ensures Valid()
      ensures isDragging ==> transform == DragTo(old(transform), dragStart, clientX, clientY)
      ensures !isDragging ==> transform == old(transform)
      ensures isDragging == old(isDragging) && dragStart == old(dragStart) && isRotating == old(isRotating)
      ensures pushed == old(pushed) && regenerations == old(regenerations)
    {
      if !isDragging {
        return;
      }
      transform := DragTo(transform, dragStart, clientX, clientY);
    }

    /** `handleMouseUp`. */
    method MouseUp()
      requires Valid()
      modifies this
      ensures Valid()
      ensures !isDragging && transform == old(transform) && isRotating == old(isRotating)
      ensures pushed == old(pushed) && regenerations == old(regenerations)
    {
      isDragging := false;
    }

    /** `handleRotateMouseDown`: the rotation and the pointer's angle about
        the centre are kept. */
    method RotatePress(pointerAngle: real)
      requires Valid()
      modifies this
      ensures Valid()
      ensures isRotating && rotateStart == RotateStart(transform.rotation, pointerAngle)
      ensures transform == old(transform) && isDragging == old(isDragging)
      ensures pushed == old(pushed) && regenerations == old(regenerations)
    {
      isRotating := true;
      rotateStart := RotateStart(transform.rotation, pointerAngle);
    }

    /** `handleRotateMouseMove`. */
    method RotateMove(pointerAngle: real)
      requires Valid()
      modifies this
      ensures Valid()
      ensures isRotating ==> transform == RotateTo(old(transform), rotateStart, pointerAngle)
      ensures !isRotating ==> transform == old(transform)
      ensures isRotating == old(isRotating) && rotateStart == old(rotateStart) && isDragging == old(isDragging)
      ensures pushed == old(pushed) && regenerations == old(regenerations)
    {
      if !isRotating {
        return;
      }
      transform := RotateTo(transform, rotateStart, pointerAngle);
    }

    /** `handleRotateMouseUp`. */
    method RotateRelease()
      requires Valid()
      modifies this
      ensures Valid()
      ensures !isRotating && showRotateIcon && transform == old(transform) && isDragging == old(isDragging)
      ensures pushed == old(pushed) && regenerations == old(regenerations)
    {
      isRotating := false;
      showRotateIcon := true;
    }

    /** When the template or the model type changes: a stored position and
        rotation are taken over unless a gesture is under way. */
    method ApplyContextState(m: ModelState)
      requires Valid()
      modifies this
      ensures Valid()
      ensures m.position.Some? && m.rotation.Some? && !isDragging && !isRotating ==> transform == FlatFromState(m)
      ensures !(m.position.Some? && m.rotation.Some? && !isDragging && !isRotating) ==> transform == old(transform)
      ensures isDragging == old(isDragging) && isRotating == old(isRotating)
      ensures pushed == old(pushed) && regenerations == old(regenerations)
    {
      if m.position.Some? && m.rotation.Some? && !isDragging && !isRotating {
        transform := FlatFromState(m);
      }
    }

    /** After the transform changes it is always written to `modelState`;
        the template code is regenerated only in template edit mode. */
    method SyncToContext(templateEditMode: bool)
      requires Valid()
      modifies this
      ensures Valid()
      ensures pushed == old(pushed) + [FlatState(transform)]
      ensures templateEditMode ==> regenerations == old(regenerations) + 1
      ensures !templateEditMode ==> regenerations == old(regenerations)
      ensures transform == old(transform) && isDragging == old(isDragging) && isRotating == old(isRotating)
    {
      pushed := pushed + [FlatState(transform)];
      if templateEditMode {
        regenerations := regenerations + 1;
      }
    }
  }

  /** A turn of the rotate handle, saved outside template edit mode and
      read back after a template change, keeps the angle it was turned to
      and regenerates nothing. */
  method TurnSurvivesTemplateChange(mac: FlatMacBook, pressAngle: real, releaseAngle: real)
    requires mac.Valid() && !mac.isDragging
    modifies mac
    ensures mac.Valid()
    ensures mac.transform.rotation == old(mac.transform).rotation + (releaseAngle - pressAngle)
    ensures mac.transform.scale == old(mac.transform).scale
    ensures mac.transform.x == old(mac.transform).x && mac.transform.y == old(mac.transform).y
    ensures mac.regenerations == old(mac.regenerations)
  {
    mac.RotatePress(pressAngle);
    mac.RotateMove(releaseAngle);
    mac.RotateRelease();
    mac.SyncToContext(false);
    var t := mac.transform;
    FlatStateRoundTrip(t);
    mac.ApplyContextState(mac.pushed[|mac.pushed| - 1]);
  }
}
