/** The export frame: the outline of the exported area drawn over the
    canvas, moved by its handle and scaled by its corners. Its position and
    extra scale live in the design record of the editor state, written
    with `updateDesign`. Window sizes and pointer positions are parameters. */
module ExportFrame {
  import opened Wrappers
  import opened JsValue
  import opened JsNum
  import AppState

  /** `EXPORT_FRAME_MARGIN` and `EXPORT_FRAME_SCALE`. */
  const Margin: real := 100.0
  const FrameScale: real := 0.9

  datatype Corner = TL | TR | BL | BR

  /** How far a corner drag pushes the frame outwards: the pointer motion
      along the corner's outward diagonal. */
  function CornerFactor(c: Corner, dx: real, dy: real): real {
    match c
    case TL => -(dx + dy)
    case TR => dx - dy
    case BL => -dx + dy
    case BR => dx + dy
  }

  /** The pointer moved away from the frame's centre through corner `c`. */
  predicate Outward(c: Corner, dx: real, dy: real) {
    match c
    case TL => dx <= 0.0 && dy <= 0.0
    case TR => dx >= 0.0 && dy <= 0.0
    case BL => dx <= 0.0 && dy >= 0.0
    case BR => dx >= 0.0 && dy >= 0.0
  }

  function Abs(x: real): real { if x < 0.0 then -x else x }

  /** Dragging a corner outwards grows the frame by the whole distance
      moved along both axes; the reverse motion shrinks it by as much. */
  lemma OutwardGrows(c: Corner, dx: real, dy: real)
    requires Outward(c, dx, dy)
    ensures CornerFactor(c, dx, dy) == Abs(dx) + Abs(dy)
    ensures CornerFactor(c, -dx, -dy) == -(Abs(dx) + Abs(dy))
  {
  }

  /** The extra scale after a corner drag: one unit per 500 pixels of
      outward motion, kept within 0.1 and 3. */
  function NewScale(startScale: real, factor: real): (r: real)
    ensures 0.1 <= r <= 3.0
  {
    Clamp(startScale + factor / 500.0, 0.1, 3.0)
  }

  /** Further outwards never gives a smaller scale, and inside the bounds
      the scale follows the drag exactly. */
  lemma NewScaleMonotone(startScale: real, f1: real, f2: real)
    requires f1 <= f2
    ensures NewScale(startScale, f1) <= NewScale(startScale, f2)
    ensures 0.1 <= startScale + f1 / 500.0 <= 3.0 ==> NewScale(startScale, f1) == startScale + f1 / 500.0
  {
  }

  /** Where and how large the frame is drawn. */
  datatype Layout = Layout(x: real, y: real, width: real, height: real)

  /** `exportScale || 1`. */
  function ScaleOr(scale: Option<real>): real {
    if scale.Some? && scale.value != 0.0 then scale.value else 1.0
  }

  /** The frame for an export size (set and not zero): shrunk to fit the
      window less the margin and never enlarged, then to 90 %, then by the
      user's extra scale; placed at the stored position, or at the window's
      centre when none is stored. */
  function FrameLayout(exportWidth: real, exportHeight: real, exportX: Option<real>, exportY: Option<real>,
                       exportScale: Option<real>, innerWidth: real, innerHeight: real): Layout
    requires exportWidth != 0.0 && exportHeight != 0.0
  {
    var canvasWidth := innerWidth - Margin;
    var canvasHeight := innerHeight - Margin;
    var baseScale := Min(Min(canvasWidth / exportWidth, canvasHeight / exportHeight), 1.0);
    var finalScale := baseScale * FrameScale * ScaleOr(exportScale);
    Layout(if exportX.Some? then exportX.value else innerWidth / 2.0,
           if exportY.Some? then exportY.value else innerHeight / 2.0,
           exportWidth * finalScale, exportHeight * finalScale)
  }

  lemma MulAtMost(w: real, a: real, b: real)
    requires w > 0.0 && a <= b
    ensures w * a <= w * b
  {
  }

  lemma DivTimes(w: real, c: real)
    requires w > 0.0
    ensures w * (c / w) == c
  {
  }

  lemma Assoc(w: real, b: real, k: real)
    ensures w * (b * k) == (w * b) * k
  {
  }

  /** One side of the frame at the user's scale 1: at most 90 % of the room
      the window leaves for it and at most 90 % of the export size. */
  lemma SideFits(side: real, room: real, baseScale: real)
    requires side > 0.0 && baseScale <= room / side && baseScale <= 1.0
    ensures side * (baseScale * FrameScale) <= FrameScale * room
    ensures side * (baseScale * FrameScale) <= FrameScale * side
  {
    MulAtMost(side, baseScale, room / side);
    DivTimes(side, room);
    MulAtMost(side, baseScale, 1.0);
    Assoc(side, baseScale, FrameScale);
  }

  /** At the user's scale 1 the frame fits within 90 % of the available
      area, is never drawn larger than 90 % of the export size, and keeps
      the export's proportions. */
  lemma FitsAtScaleOne(exportWidth: real, exportHeight: real, exportX: Option<real>, exportY: Option<real>,
                       innerWidth: real, innerHeight: real)
    requires exportWidth > 0.0 && exportHeight > 0.0
    ensures var l := FrameLayout(exportWidth, exportHeight, exportX, exportY, None, innerWidth, innerHeight);
      l.width <= FrameScale * (innerWidth - Margin) && l.height <= FrameScale * (innerHeight - Margin) &&
      l.width <= FrameScale * exportWidth && l.height <= FrameScale * exportHeight &&
      l.width * exportHeight == l.height * exportWidth
  {
    var cw, ch := innerWidth - Margin, innerHeight - Margin;
    var baseScale := Min(Min(cw / exportWidth, ch / exportHeight), 1.0);
    assert baseScale * FrameScale * ScaleOr(None) == baseScale * FrameScale;
    SideFits(exportWidth, cw, baseScale);
    SideFits(exportHeight, ch, baseScale);
  }

  /** Without a stored position the frame is centred in the window. */
  lemma DefaultsToCentre(exportWidth: real, exportHeight: real, exportScale: Option<real>, innerWidth: real, innerHeight: real)
    requires exportWidth != 0.0 && exportHeight != 0.0
    ensures var l := FrameLayout(exportWidth, exportHeight, None, None, exportScale, innerWidth, innerHeight);
      l.x * 2.0 == innerWidth && l.y * 2.0 == innerHeight
  {
  }

  /** A design field the frame reads: its number, or `None` when it is
      `null` or was never set. The page itself tests only for `null`;
      `PositionAsWritten` below is that reading, and this one is the
      intended one that the rest of the module uses. */
  function DesignNumber(app: AppState.State, key: string): Option<real> {
    var v := Field(Get(app, "design"), key);
    if v.Number? then Some(v.n) else None
  }

  /** A coordinate as the page computes it: a number, or `NaN` once
      `undefined` has entered the arithmetic. */
  datatype Coord = At(v: real) | NaN

  /** `exportX !== null ? exportX : defaultX` as written: a field that was
      never set is `undefined`, not `null`, and is kept. */
  function PositionAsWritten(v: Value, centre: real): Coord {
    if v == Null then At(centre) else if v.Number? then At(v.n) else NaN
  }

  /** `clientX - currentX` at mousedown, as written. */
  function OffsetAsWritten(client: real, position: Coord): Coord {
    if position.At? then At(client - position.v) else NaN
  }

  /** The initial design given a custom export size, one side at a time as
      the two size inputs do. */
  function CustomSize(w: real, h: real): AppState.State {
    var sized := AppState.Step(AppState.Initial(), AppState.UpdateDesign, Obj(map["exportWidth" := Number(w)])).value;
    AppState.Step(sized, AppState.UpdateDesign, Obj(map["exportHeight" := Number(h)])).value
  }

  /** After a custom size the design holds both sides and no position. */
  lemma CustomSizeDesign(w: real, h: real)
    ensures var d := Get(CustomSize(w, h), "design");
      d.Obj? && "exportX" !in d.fields && "exportY" !in d.fields &&
      "exportWidth" in d.fields && d.fields["exportWidth"] == Number(w) &&
      "exportHeight" in d.fields && d.fields["exportHeight"] == Number(h)
  {
    var init := AppState.Initial();
    assert Props(Get(init, "design")).Keys == {"template", "colorScheme", "bgColor", "gradientColor"};
    SizedDesign(init, w, h);
  }

  /** Setting the two sides of a design with the initial keys. */
  lemma SizedDesign(s: AppState.State, w: real, h: real)
    requires Props(Get(s, "design")).Keys == {"template", "colorScheme", "bgColor", "gradientColor"}
    ensures var sized := AppState.Step(s, AppState.UpdateDesign, Obj(map["exportWidth" := Number(w)])).value;
      var d := Get(AppState.Step(sized, AppState.UpdateDesign, Obj(map["exportHeight" := Number(h)])).value, "design");
      d.Obj? && "exportX" !in d.fields && "exportY" !in d.fields &&
      "exportWidth" in d.fields && d.fields["exportWidth"] == Number(w) &&
      "exportHeight" in d.fields && d.fields["exportHeight"] == Number(h)
  {
    var first := Obj(map["exportWidth" := Number(w)]);
    var second := Obj(map["exportHeight" := Number(h)]);
    AppState.UpdateMergesRecord(s, AppState.UpdateDesign, first);
    var sized := AppState.Step(s, AppState.UpdateDesign, first).value;
    AppState.UpdateMergesRecord(sized, AppState.UpdateDesign, second);
    var d := AppState.Step(sized, AppState.UpdateDesign, second).value["design"].fields;
    var keys := {"template", "colorScheme", "bgColor", "gradientColor", "exportWidth", "exportHeight"};
    assert d.Keys == keys;
    NoPositionKey(keys);
  }

  /** No key of the sized design is a position: each differs from
      `exportX` and `exportY` in its length or its first or seventh
      character. */
  lemma NoPositionKey(keys: set<string>)
    requires keys == {"template", "colorScheme", "bgColor", "gradientColor", "exportWidth", "exportHeight"}
    ensures "exportX" !in keys && "exportY" !in keys
  {
    assert |"exportX"| == |"exportY"| == 7;
    assert |"template"| == 8 && |"colorScheme"| == 11 && |"gradientColor"| == 13;
    assert |"exportWidth"| == 11 && |"exportHeight"| == 12;
    assert "bgColor"[0] == 'b' && "exportX"[0] == 'e' && "exportY"[0] == 'e';
  }

  /** As written, a frame whose position was never stored is not centred:
      after the initial design takes a custom size the frame is shown, its
      position is `undefined` (so `left` becomes `undefinedpx`), and
      grabbing the handle gives a `NaN` offset, which the next mousemove
      stores as the position. */
  lemma UnsetPositionAsWritten(w: real, h: real, clientX: real, innerWidth: real)
    requires w != 0.0 && h != 0.0
    ensures var app := CustomSize(w, h);
      var x := PositionAsWritten(Field(Get(app, "design"), "exportX"), innerWidth / 2.0);
      Shown(app) && x == NaN && OffsetAsWritten(clientX, x) == NaN
  {
    CustomSizeDesign(w, h);
  }

  /** Read as intended, the same frame is centred in the window. */
  lemma UnsetPositionCentred(w: real, h: real, innerWidth: real, innerHeight: real)
    requires w != 0.0 && h != 0.0
    ensures var app := CustomSize(w, h);
      var l := FrameLayout(w, h, DesignNumber(app, "exportX"), DesignNumber(app, "exportY"), None, innerWidth, innerHeight);
      Shown(app) && l.x * 2.0 == innerWidth && l.y * 2.0 == innerHeight
  {
    CustomSizeDesign(w, h);
  }

  /** The frame is drawn only when the export width and height are set. */
  predicate Shown(app: AppState.State) {
    Truthy(Field(Get(app, "design"), "exportWidth")) && Truthy(Field(Get(app, "design"), "exportHeight"))
  }

  /** The pointer at mousedown: the pointer's offset from the frame for a
      move, the pointer itself and the starting scale for a resize. */
  datatype DragStart = DragStart(x: real, y: real, startScale: Option<real>)

  /** `updateDesign({ exportX, exportY })`. */
  function MovedTo(app: AppState.State, x: real, y: real): AppState.State {
    AppState.Step(app, AppState.UpdateDesign, Obj(map["exportX" := Number(x), "exportY" := Number(y)])).value
  }

  /** `updateDesign({ exportScale })`. */
  function ScaledTo(app: AppState.State, scale: real): AppState.State {
    AppState.Step(app, AppState.UpdateDesign, Obj(map["exportScale" := Number(scale)])).value
  }

  class Frame {
    var app: AppState.State
    var isDragging: bool
    var isResizing: bool
    var resizeCorner: Option<Corner>
    var dragStart: DragStart

    constructor(app: AppState.State)
      ensures this.app == app && !isDragging && !isResizing && resizeCorner == None
      ensures dragStart == DragStart(0.0, 0.0, None)
    {
      this.app := app;
      isDragging := false;
      isResizing := false;
      resizeCorner := None;
      dragStart := DragStart(0.0, 0.0, None);
    }

    /** `handleDragHandleMouseDown`: the offset of the pointer from the
        frame's position, the window's centre when none is stored. */
    method DragHandleMouseDown(clientX: real, clientY: real, innerWidth: real, innerHeight: real)
      modifies this
      ensures isDragging && isResizing == old(isResizing) && resizeCorner == old(resizeCorner) && app == old(app)
      ensures var x := DesignNumber(app, "exportX");
        var y := DesignNumber(app, "exportY");
        dragStart == DragStart(clientX - (if x.Some? then x.value else innerWidth / 2.0),
                               clientY - (if y.Some? then y.value else innerHeight / 2.0), None)
    {
      var x := DesignNumber(app, "exportX");
      var y := DesignNumber(app, "exportY");
      var currentX := if x.Some? then x.value else innerWidth / 2.0;
      var currentY := if y.Some? then y.value else innerHeight / 2.0;
      isDragging := true;
      dragStart := DragStart(clientX - currentX, clientY - currentY, None);
    }

    /** `handleResizeStart(corner)`: the pointer and the current extra scale. */
    method ResizeStart(corner: Corner, clientX: real, clientY: real)
      modifies this
      ensures isResizing && resizeCorner == Some(corner) && isDragging == old(isDragging) && app == old(app)
      ensures dragStart == DragStart(clientX, clientY, Some(ScaleOr(DesignNumber(app, "exportScale"))))
    {
      isResizing := true;
      resizeCorner := Some(corner);
      dragStart := DragStart(clientX, clientY, Some(ScaleOr(DesignNumber(app, "exportScale"))));
    }

    /** The window's mousemove: a move stores the pointer less the offset,
        a resize stores the clamped new scale; nothing else changes. */
    method MouseMove(clientX: real, clientY: real)
      requires !isDragging && isResizing && resizeCorner.Some? ==> dragStart.startScale.Some?
      modifies this
      ensures isDragging == old(isDragging) && isResizing == old(isResizing)
      ensures resizeCorner == old(resizeCorner) && dragStart == old(dragStart)
      ensures isDragging ==> app == MovedTo(old(app), clientX - dragStart.x, clientY - dragStart.y)
      ensures !isDragging && isResizing && resizeCorner.Some? ==>
        app == ScaledTo(old(app), NewScale(dragStart.startScale.value,
                                            CornerFactor(resizeCorner.value, clientX - dragStart.x, clientY - dragStart.y)))
      ensures !isDragging && !(isResizing && resizeCorner.Some?) ==> app == old(app)
    {
      var start := dragStart;
      if isDragging {
        var next := MovedTo(app, clientX - start.x, clientY - start.y);
        app := next;
      } else if isResizing && resizeCorner.Some? {
        var factor := CornerFactor(resizeCorner.value, clientX - start.x, clientY - start.y);
        var next := ScaledTo(app, NewScale(start.startScale.value, factor));
        app := next;
      }
    }

    /** The window's mouseup ends both gestures. */
    method MouseUp()
      modifies this
      ensures !isDragging && !isResizing && resizeCorner == None
      ensures app == old(app) && dragStart == old(dragStart)
    {
      isDragging := false;
      isResizing := false;
      resizeCorner := None;
    }
  }

  /** The design record after a move holds the new position and keeps
      every other design property. */
  lemma MovedToStores(app: AppState.State, x: real, y: real)
    ensures var design := Get(MovedTo(app, x, y), "design");
      DesignNumber(MovedTo(app, x, y), "exportX") == Some(x) &&
      DesignNumber(MovedTo(app, x, y), "exportY") == Some(y) &&
      design.Obj? &&
      (forall k :: k in Props(Get(app, "design")) && k != "exportX" && k != "exportY" ==>
         k in design.fields && design.fields[k] == Props(Get(app, "design"))[k]) &&
      AppState.OnlyChanged(app, MovedTo(app, x, y), "design")
  {
    AppState.UpdateMergesRecord(app, AppState.UpdateDesign, Obj(map["exportX" := Number(x), "exportY" := Number(y)]));
  }

  /** Grabbing the handle and letting the pointer come back to where it was
      grabbed leaves the frame where it was (at the centre when no position
      was stored). */
  method DragBack(frame: Frame, clientX: real, clientY: real, innerWidth: real, innerHeight: real)
    modifies frame
    ensures var x := DesignNumber(old(frame.app), "exportX");
      DesignNumber(frame.app, "exportX") == Some(if x.Some? then x.value else innerWidth / 2.0)
    ensures var y := DesignNumber(old(frame.app), "exportY");
      DesignNumber(frame.app, "exportY") == Some(if y.Some? then y.value else innerHeight / 2.0)
  {
    var before := frame.app;
    frame.DragHandleMouseDown(clientX, clientY, innerWidth, innerHeight);
    frame.MouseMove(clientX, clientY);
    MovedToStores(before, clientX - frame.dragStart.x, clientY - frame.dragStart.y);
  }
}
