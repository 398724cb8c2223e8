/** The gesture arithmetic and screen-image geometry shared by the device
    mock-ups (the 3-D phone, the flat phone and the flat MacBook): wheel
    zoom, drag and rotate from a start snapshot, the angle read-out, the
    transform kept in the editor's `modelState`, and how an uploaded
    screenshot is fitted to a screen of a given aspect ratio. */
module ModelGestures {
  import opened Wrappers
  import opened JsNum

  datatype Vec3 = Vec3(x: real, y: real, z: real)

  /** A flat mock-up's CSS transform: `translate(x, y) scale(s) rotate(r)`. */
  datatype Transform = Transform(scale: real, rotation: real, x: real, y: real)

  /** `resetTransform`. */
  const Identity := Transform(1.0, 0.0, 0.0, 0.0)

  /** The editor's `modelState` as a mock-up reads and writes it; a part
      the state does not hold is `None`. */
  datatype ModelState = ModelState(scale: Option<real>, rotation: Option<Vec3>, position: Option<Vec3>,
                                   cameraDistance: Option<real>)

  /** `x || d` for a number that may be missing: a missing or zero value
      reads as `d`. */
  function OrNumber(x: Option<real>, d: real): (r: real)
    ensures x.Some? && x.value != 0.0 ==> r == x.value
    ensures x.None? || x.value == 0.0 ==> r == d
  {
    if x.Some? && x.value != 0.0 then x.value else d
  }

  /** The wheel's zoom factor: down (`deltaY > 0`) shrinks by 3%, anything
      else grows by 3%. */
  function WheelFactor(deltaY: real): real {
    if deltaY > 0.0 then 1.0 - 0.03 else 1.0 + 0.03
  }

  /** A flat mock-up's scale after one wheel step: always within
      [0.5, 3]; down never grows it and up never shrinks it; inside the
      band it is exactly 3% off. */
  function WheelScale(scale: real, deltaY: real): (r: real)
    ensures 0.5 <= r <= 3.0
    ensures deltaY > 0.0 && scale >= 0.5 ==> r <= scale
    ensures deltaY <= 0.0 && scale <= 3.0 ==> r >= scale
    ensures 0.5 <= scale * WheelFactor(deltaY) <= 3.0 ==> r == scale * WheelFactor(deltaY)
  {
    Clamp(scale * WheelFactor(deltaY), 0.5, 3.0)
  }

  /** The 3-D phone's camera distance after one wheel step:
      `deltaY * 0.03` further, kept within [1.5, 10]. */
  function CameraDistance(prev: real, deltaY: real): (r: real)
    ensures 1.5 <= r <= 10.0
    ensures 1.5 <= prev + deltaY * 0.03 <= 10.0 ==> r == prev + deltaY * 0.03
    ensures deltaY >= 0.0 && prev <= 10.0 ==> r >= prev
    ensures deltaY <= 0.0 && prev >= 1.5 ==> r <= prev
  {
    Clamp(prev + deltaY * 0.03, 1.5, 10.0)
  }

  /** A flat drag: the press keeps the pointer's offset from the
      transform, and the move puts the transform at the pointer less that
      offset. */
  function DragOffset(t: Transform, clientX: real, clientY: real): (real, real) {
    (clientX - t.x, clientY - t.y)
  }

  function DragTo(t: Transform, offset: (real, real), clientX: real, clientY: real): (r: Transform)
    ensures r.scale == t.scale && r.rotation == t.rotation
  {
    t.(x := clientX - offset.0, y := clientY - offset.1)
  }

  /** The transform follows the pointer's motion since the press, and a
      pointer back at the press point puts it back. */
  lemma DragFollowsPointer(t: Transform, pressX: real, pressY: real, clientX: real, clientY: real)
    ensures var r := DragTo(t, DragOffset(t, pressX, pressY), clientX, clientY);
      r.x == t.x + (clientX - pressX) && r.y == t.y + (clientY - pressY)
    ensures DragTo(t, DragOffset(t, pressX, pressY), pressX, pressY) == t
  {
  }

  /** A flat rotation: the rotation at the press plus how far the
      pointer's angle about the centre has turned since. */
  datatype RotateStart = RotateStart(angle: real, startAngle: real)

  function RotateTo(t: Transform, start: RotateStart, pointerAngle: real): (r: Transform)
    ensures r.scale == t.scale && r.x == t.x && r.y == t.y
  {
    t.(rotation := start.angle + (pointerAngle - start.startAngle))
  }

  lemma RotateFollowsPointer(t: Transform, pressAngle: real, pointerAngle: real)
    ensures RotateTo(t, RotateStart(t.rotation, pressAngle), pointerAngle).rotation ==
      t.rotation + (pointerAngle - pressAngle)
    ensures RotateTo(t, RotateStart(t.rotation, pressAngle), pressAngle) == t
  {
  }

  /** The angle read-out `Math.round(((a % 360) + 360) % 360)`: always
      within [0, 360]. */
  function DisplayAngle(a: real): (r: int)
    ensures 0 <= r <= 360
  {
    Round(Rem(Rem(a, 360.0) + 360.0, 360.0))
  }

  /** An angle in [0, 360) is shown rounded. */
  lemma DisplayAngleOfTurn(a: real)
    requires 0.0 <= a < 360.0
    ensures DisplayAngle(a) == Round(a)
  {
    RemOfTurn(a);
    RemOfSecondTurn(a + 360.0);
  }

  /** An angle in (-360, 0) is shown as its positive equivalent. */
  lemma DisplayAngleOfNegative(a: real)
    requires -360.0 < a < 0.0
    ensures DisplayAngle(a) == Round(a + 360.0)
  {
    RemOfNegativeTurn(a);
    RemOfTurn(a + 360.0);
  }

  /** Near a full turn the read-out shows 360 rather than 0. */
  lemma DisplayAngleShows360()
    ensures DisplayAngle(359.75) == 360
  {
    DisplayAngleOfTurn(359.75);
  }

  lemma RemOfTurn(a: real)
    requires 0.0 <= a < 360.0
    ensures Rem(a, 360.0) == a
  {
    var r := Rem(a, 360.0);
    var q := (a - r) / 360.0;
    assert q.Floor as real == q;
    assert -1.0 < q < 1.0;
  }

  lemma RemOfSecondTurn(a: real)
    requires 360.0 <= a < 720.0
    ensures Rem(a, 360.0) == a - 360.0
  {
    var r := Rem(a, 360.0);
    var q := (a - r) / 360.0;
    assert q.Floor as real == q;
    assert 0.0 < q < 2.0;
  }

  lemma RemOfNegativeTurn(a: real)
    requires -360.0 < a < 0.0
    ensures Rem(a, 360.0) == a
  {
    var r := Rem(a, 360.0);
    var q := (a - r) / 360.0;
    assert q.Floor as real == q;
    assert -1.0 < q < 1.0;
  }

  /** A flat mock-up's transform as read from `modelState` (`scale || 1`,
      `rotation.z || 0`, `position.x || 0`, `position.y || 0`). */
  function FlatFromState(m: ModelState): (t: Transform)
    ensures m.rotation.None? ==> t.rotation == 0.0
    ensures m.position.None? ==> t.x == 0.0 && t.y == 0.0
  {
    Transform(OrNumber(m.scale, 1.0),
              if m.rotation.Some? then m.rotation.value.z else 0.0,
              if m.position.Some? then m.position.value.x else 0.0,
              if m.position.Some? then m.position.value.y else 0.0)
  }

  /** What a flat mock-up writes to `modelState`: its scale, its rotation
      about z and its position in the plane. */
  function FlatState(t: Transform): ModelState {
    ModelState(Some(t.scale), Some(Vec3(0.0, 0.0, t.rotation)), Some(Vec3(t.x, t.y, 0.0)), None)
  }

  /** A transform written to `modelState` reads back unchanged (a scale is
      never 0 once the wheel has clamped it). */
  lemma FlatStateRoundTrip(t: Transform)
    requires t.scale != 0.0
    ensures FlatFromState(FlatState(t)) == t
  {
  }

  /** The 3-D phone's initial rotation, position and camera distance as
      read from `modelState` (`|| 0` for each axis, `|| 3` for the
      distance). */
  function AxesOr(v: Option<Vec3>): (r: Vec3)
    ensures v.Some? ==> r == v.value
    ensures v.None? ==> r == Vec3(0.0, 0.0, 0.0)
  {
    if v.Some? then v.value else Vec3(0.0, 0.0, 0.0)
  }

  /** A part of a picture: `(x, y)` corner, width and height. */
  datatype Rect = Rect(x: real, y: real, w: real, h: real)

  predicate Inside(r: Rect, w: real, h: real) {
    0.0 <= r.x && 0.0 <= r.y && r.x + r.w <= w && r.y + r.h <= h
  }

  predicate Centred(r: Rect, w: real, h: real) {
    2.0 * r.x + r.w == w && 2.0 * r.y + r.h == h
  }

  /** How a screenshot is drawn on the screen canvas: the canvas size, the
      part of the image taken and where on the canvas it goes. */
  datatype Drawing = Drawing(canvasW: real, canvasH: real, source: Rect, target: Rect)

  lemma WiderThan(w: real, h: real, ratio: real)
    requires h > 0.0 && ratio > 0.0
    ensures w / h > ratio <==> w > h * ratio
    ensures w / ratio <= h <==> w <= h * ratio
  {
    assert w / h * h == w;
    assert w / ratio * ratio == w;
    if w / h > ratio {
      assert w / h * h > ratio * h;
    }
    if w > h * ratio {
      assert w / h > ratio;
    }
    if w / ratio <= h {
      assert w / ratio * ratio <= h * ratio;
    }
  }

  /** Cover: the canvas keeps the image's size and the part of the image
      drawn onto all of it is the largest centred part with the screen's
      aspect ratio. */
  function Cover(w: real, h: real, ratio: real): (d: Drawing)
    requires w > 0.0 && h > 0.0 && ratio > 0.0
    ensures d.canvasW == w && d.canvasH == h && d.target == Rect(0.0, 0.0, w, h)
    ensures d.source.w == d.source.h * ratio && d.source.w > 0.0 && d.source.h > 0.0
    ensures Inside(d.source, w, h) && Centred(d.source, w, h)
    ensures d.source.w == w || d.source.h == h
  {
    WiderThan(w, h, ratio);
    var imgRatio := w / h;
    if imgRatio > ratio then
      var drawWidth := h * ratio;
      Drawing(w, h, Rect((w - drawWidth) / 2.0, 0.0, drawWidth, h), Rect(0.0, 0.0, w, h))
    else
      var drawHeight := w / ratio;
      assert drawHeight * ratio == w;
      Drawing(w, h, Rect(0.0, (h - drawHeight) / 2.0, w, drawHeight), Rect(0.0, 0.0, w, h))
  }

  /** Contain: the canvas grows to the screen's aspect ratio around the
      whole image, which is drawn at its own size, centred, on black. */
  function Contain(w: real, h: real, ratio: real): (d: Drawing)
    requires w > 0.0 && h > 0.0 && ratio > 0.0
    ensures d.canvasW == d.canvasH * ratio
    ensures d.source == Rect(0.0, 0.0, w, h) && d.target.w == w && d.target.h == h
    ensures Inside(d.target, d.canvasW, d.canvasH) && Centred(d.target, d.canvasW, d.canvasH)
    ensures d.target.x == 0.0 || d.target.y == 0.0
  {
    WiderThan(w, h, ratio);
    var imgRatio := w / h;
    assert w / imgRatio == h;
    assert h * imgRatio == w;
    if imgRatio > ratio then
      var canvasHeight := w / ratio;
      assert canvasHeight * ratio == w;
      var drawHeight := w / imgRatio;
      Drawing(w, canvasHeight, Rect(0.0, 0.0, w, h), Rect(0.0, (canvasHeight - drawHeight) / 2.0, w, drawHeight))
    else
      var canvasWidth := h * ratio;
      var drawWidth := h * imgRatio;
      Drawing(canvasWidth, h, Rect(0.0, 0.0, w, h), Rect((canvasWidth - drawWidth) / 2.0, 0.0, drawWidth, h))
  }

  /** Fill: the image as it is. */
  function Fill(w: real, h: real): (d: Drawing)
    ensures d.source == d.target == Rect(0.0, 0.0, w, h) && d.canvasW == w && d.canvasH == h
  {
    Drawing(w, h, Rect(0.0, 0.0, w, h), Rect(0.0, 0.0, w, h))
  }

  /** An image already of the screen's shape is neither cropped nor
      padded. */
  lemma ScreenShapedImageUntouched(w: real, h: real, ratio: real)
    requires w > 0.0 && h > 0.0 && ratio > 0.0 && w == h * ratio
    ensures Cover(w, h, ratio).source == Rect(0.0, 0.0, w, h)
    ensures Contain(w, h, ratio).canvasW == w && Contain(w, h, ratio).canvasH == h
  {
    WiderThan(w, h, ratio);
    assert w / ratio == h;
  }
}
