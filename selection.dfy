/** The two selection overlays of the canvas: the rubber-band box drawn
    while the pointer drags over empty canvas, and the box around a
    multi-selection with its eight resize handles. Element rectangles come
    from the page and are parameters; the updates the resize sends to the
    editor state are recorded. */
module Selection {
  import opened Wrappers
  import opened JsNum
  import opened Pointer

  /** A box as the overlays draw it: corner and size. */
  datatype Box = Box(left: real, top: real, width: real, height: real)

  function Abs(x: real): real { if x < 0.0 then -x else x }

  predicate InBox(p: Point, b: Box) {
    b.left <= p.x <= b.left + b.width && b.top <= p.y <= b.top + b.height
  }

  /** `SelectionBox`: nothing when inactive or when an endpoint is missing;
      otherwise the box with the smaller coordinates as its corner and the
      distances as its size. */
  function SelectionRect(start: Option<Point>, end: Option<Point>, isActive: bool): (r: Option<Box>)
    ensures r.Some? <==> isActive && start.Some? && end.Some?
  {
    if !isActive || start.None? || end.None? then None
    else
      var s, e := start.value, end.value;
      Some(Box(Min(s.x, e.x), Min(s.y, e.y), Abs(e.x - s.x), Abs(e.y - s.y)))
  }

  /** The box is the smallest one holding both endpoints: its sizes are not
      negative, it holds both, and its far corner is the larger
      coordinates. */
  lemma SelectionSpansEnds(s: Point, e: Point)
    ensures var b := SelectionRect(Some(s), Some(e), true).value;
      b.width >= 0.0 && b.height >= 0.0 && InBox(s, b) && InBox(e, b) &&
      b.left == Min(s.x, e.x) && b.top == Min(s.y, e.y) &&
      b.left + b.width == Max(s.x, e.x) && b.top + b.height == Max(s.y, e.y)
  {
  }

  /** Dragging from either end gives the same box. */
  lemma SelectionSymmetric(s: Point, e: Point)
    ensures SelectionRect(Some(s), Some(e), true) == SelectionRect(Some(e), Some(s), true)
  {
  }

  /** A rectangle as `getBoundingClientRect()` reports it. */
  datatype Rect = Rect(left: real, top: real, right: real, bottom: real)

  predicate Encloses(outer: Rect, inner: Rect) {
    outer.left <= inner.left && outer.top <= inner.top &&
    inner.right <= outer.right && inner.bottom <= outer.bottom
  }

  /** The running bounds after one more found rectangle (`Math.min`/`Math.max`
      against the starting infinities for the first one). */
  function Extend(acc: Option<Rect>, r: Rect): Rect {
    match acc
    case None => r
    case Some(a) => Rect(Min(a.left, r.left), Min(a.top, r.top), Max(a.right, r.right), Max(a.bottom, r.bottom))
  }

  /** The bounds of the rectangles of the selected elements that were found
      on the page, in selection order; `None` when none was found. */
  function Union(found: seq<Option<Rect>>): Option<Rect>
    decreases |found|
  {
    if found == [] then None
    else
      var u := Union(found[..|found| - 1]);
      var last := found[|found| - 1];
      if last.None? then u else Some(Extend(u, last.value))
  }

  /** There are bounds exactly when some element was found. */
  lemma {:induction false} UnionNone(found: seq<Option<Rect>>)
    ensures Union(found).None? <==> forall i :: 0 <= i < |found| ==> found[i].None?
    decreases |found|
  {
    if found != [] {
      var init := found[..|found| - 1];
      UnionNone(init);
      assert forall i :: 0 <= i < |init| ==> init[i] == found[i];
    }
  }

  /** The bounds enclose every found rectangle. */
  lemma {:induction false} UnionEncloses(found: seq<Option<Rect>>, i: nat)
    requires i < |found| && found[i].Some?
    ensures Union(found).Some? && Encloses(Union(found).value, found[i].value)
    decreases |found|
  {
    var init := found[..|found| - 1];
    if i < |found| - 1 {
      assert init[i] == found[i];
      UnionEncloses(init, i);
    }
  }

  /** Each side of the bounds is a side of a found rectangle, so no smaller
      box encloses them all. */
  lemma {:induction false} UnionTight(found: seq<Option<Rect>>)
    requires Union(found).Some?
    ensures var u := Union(found).value;
      (exists i :: 0 <= i < |found| && found[i].Some? && found[i].value.left == u.left) &&
      (exists i :: 0 <= i < |found| && found[i].Some? && found[i].value.top == u.top) &&
      (exists i :: 0 <= i < |found| && found[i].Some? && found[i].value.right == u.right) &&
      (exists i :: 0 <= i < |found| && found[i].Some? && found[i].value.bottom == u.bottom)
    decreases |found|
  {
    var init := found[..|found| - 1];
    assert forall i :: 0 <= i < |init| ==> init[i] == found[i];
    if Union(init).Some? {
      UnionTight(init);
    }
  }

  function AsBox(r: Rect): Box {
    Box(r.left, r.top, r.right - r.left, r.bottom - r.top)
  }

  /** `calculateBounds()` over the rectangles found for the selected
      elements, one entry per element. */
  method CalculateBounds(found: seq<Option<Rect>>) returns (bounds: Option<Box>)
    ensures bounds.None? <==> Union(found).None?
    ensures bounds.Some? ==> bounds.value == AsBox(Union(found).value)
  {
    var minX, minY, maxX, maxY := 0.0, 0.0, 0.0, 0.0;
    var foundCount: nat := 0;
    for i := 0 to |found|
      invariant foundCount == 0 <==> Union(found[..i]).None?
      invariant foundCount > 0 ==> Union(found[..i]) == Some(Rect(minX, minY, maxX, maxY))
    {
      assert found[..i + 1][..i] == found[..i];
      match found[i]
      case None =>
      case Some(rect) =>
        if foundCount == 0 {
          minX, minY, maxX, maxY := rect.left, rect.top, rect.right, rect.bottom;
        } else {
          minX, minY := Min(minX, rect.left), Min(minY, rect.top);
          maxX, maxY := Max(maxX, rect.right), Max(maxY, rect.bottom);
        }
        foundCount := foundCount + 1;
    }
    assert found[..|found|] == found;
    if foundCount == 0 {
      return None;
    }
    bounds := Some(Box(minX, minY, maxX - minX, maxY - minY));
  }

  /** The box is drawn only for a selection of more than one element of
      which at least one was found. */
  method Shown(selectedCount: nat, found: seq<Option<Rect>>) returns (r: Option<Box>)
    ensures r.Some? <==> selectedCount > 1 && Union(found).Some?
    ensures r.Some? ==> r.value == AsBox(Union(found).value)
  {
    if selectedCount <= 1 {
      return None;
    }
    r := CalculateBounds(found);
  }

  /** The eight resize handles. */
  datatype Direction = NW | N | NE | E | SE | S | SW | W

  predicate DragsLeft(d: Direction) { d == NW || d == W || d == SW }
  predicate DragsRight(d: Direction) { d == NE || d == E || d == SE }
  predicate DragsTop(d: Direction) { d == NW || d == N || d == NE }
  predicate DragsBottom(d: Direction) { d == SW || d == S || d == SE }

  /** The new size, the scale factors and the anchor one pointer move gives. */
  datatype Resize = Resize(width: real, height: real, scaleX: real, scaleY: real, anchorX: real, anchorY: real)

  /** `handleResizeMove`'s switch: the dragged sides follow the pointer, at
      least 100 wide and 50 high, and the opposite sides are the anchor. */
  function ResizeFor(d: Direction, b: Box, dx: real, dy: real): (r: Resize)
    requires b.width > 0.0 && b.height > 0.0
  {
    var right, bottom := b.left + b.width, b.top + b.height;
    match d
    case NW =>
      var w, h := Max(100.0, b.width - dx), Max(50.0, b.height - dy);
      Resize(w, h, w / b.width, h / b.height, right, bottom)
    case N =>
      var h := Max(50.0, b.height - dy);
      Resize(b.width, h, 1.0, h / b.height, b.left, bottom)
    case NE =>
      var w, h := Max(100.0, b.width + dx), Max(50.0, b.height - dy);
      Resize(w, h, w / b.width, h / b.height, b.left, bottom)
    case E =>
      var w := Max(100.0, b.width + dx);
      Resize(w, b.height, w / b.width, 1.0, b.left, b.top)
    case SE =>
      var w, h := Max(100.0, b.width + dx), Max(50.0, b.height + dy);
      Resize(w, h, w / b.width, h / b.height, b.left, b.top)
    case S =>
      var h := Max(50.0, b.height + dy);
      Resize(b.width, h, 1.0, h / b.height, b.left, b.top)
    case SW =>
      var w, h := Max(100.0, b.width - dx), Max(50.0, b.height + dy);
      Resize(w, h, w / b.width, h / b.height, right, b.top)
    case W =>
      var w := Max(100.0, b.width - dx);
      Resize(w, b.height, w / b.width, 1.0, right, b.top)
  }

  /** A dragged side gives a width of at least 100 or a height of at least
      50, following the pointer when that is larger; an undragged one keeps
      the box's size and a scale of 1. */
  lemma ResizeFollowsPointer(d: Direction, b: Box, dx: real, dy: real)
    requires b.width > 0.0 && b.height > 0.0
    ensures var r := ResizeFor(d, b, dx, dy);
      (DragsLeft(d) ==> r.width == Max(100.0, b.width - dx)) &&
      (DragsRight(d) ==> r.width == Max(100.0, b.width + dx)) &&
      (DragsTop(d) ==> r.height == Max(50.0, b.height - dy)) &&
      (DragsBottom(d) ==> r.height == Max(50.0, b.height + dy)) &&
      (!DragsLeft(d) && !DragsRight(d) ==> r.width == b.width && r.scaleX == 1.0) &&
      (!DragsTop(d) && !DragsBottom(d) ==> r.height == b.height && r.scaleY == 1.0)
  {
  }

  /** Each scale factor is the new size over the old one. */
  lemma ResizeScales(d: Direction, b: Box, dx: real, dy: real)
    requires b.width > 0.0 && b.height > 0.0
    ensures var r := ResizeFor(d, b, dx, dy);
      r.scaleX * b.width == r.width && r.scaleY * b.height == r.height && r.scaleX > 0.0 && r.scaleY > 0.0
  {
    ResizeScalesX(d, b, dx, dy);
    ResizeScalesY(d, b, dx, dy);
  }

  lemma ResizeScalesX(d: Direction, b: Box, dx: real, dy: real)
    requires b.width > 0.0 && b.height > 0.0
    ensures var r := ResizeFor(d, b, dx, dy);
      r.scaleX * b.width == r.width && r.scaleX > 0.0
  {
    var r := ResizeFor(d, b, dx, dy);
    assert r.width > 0.0;
    assert (r.scaleX == 1.0 && r.width == b.width) || r.scaleX == r.width / b.width;
    AxisScale(r.scaleX, r.width, b.width);
  }

  lemma ResizeScalesY(d: Direction, b: Box, dx: real, dy: real)
    requires b.width > 0.0 && b.height > 0.0
    ensures var r := ResizeFor(d, b, dx, dy);
      r.scaleY * b.height == r.height && r.scaleY > 0.0
  {
    var r := ResizeFor(d, b, dx, dy);
    assert r.height > 0.0;
    assert (r.scaleY == 1.0 && r.height == b.height) || r.scaleY == r.height / b.height;
    AxisScale(r.scaleY, r.height, b.height);
  }

  /** A scale that is 1 for an unchanged side, or the new side over the
      old one, takes the old side to the new one. */
  lemma AxisScale(scale: real, side: real, start: real)
    requires side > 0.0 && start > 0.0
    requires (scale == 1.0 && side == start) || scale == side / start
    ensures scale * start == side && scale > 0.0
  {
    if scale != 1.0 || side != start {
      Ratio(side, start);
    }
  }

  lemma Ratio(x: real, y: real)
    requires x > 0.0 && y > 0.0
    ensures x / y * y == x && x / y > 0.0
  {
  }

  /** The anchor is the side or corner opposite the dragged handle. */
  lemma ResizeAnchorsOpposite(d: Direction, b: Box, dx: real, dy: real)
    requires b.width > 0.0 && b.height > 0.0
    ensures var r := ResizeFor(d, b, dx, dy);
      (r.anchorX == if DragsLeft(d) then b.left + b.width else b.left) &&
      (r.anchorY == if DragsTop(d) then b.top + b.height else b.top)
  {
  }

  /** Where a selected element was when the resize started. */
  datatype Target = Component | EditableElement
  datatype ElementData = ElementData(target: Target, id: string, left: real, top: real, width: real, height: real)

  /** One update the resize sends: `updateDynamicComponent` with a position
      and pixel sizes, or `updateElementStyle` with `left`/`top` and pixel
      sizes. */
  datatype Update = Update(target: Target, id: string, x: real, y: real, width: int, height: int)

  /** The element mapped about the anchor by the scale factors. */
  function Scaled(e: ElementData, r: Resize): Update {
    Update(e.target, e.id,
           r.anchorX + (e.left - r.anchorX) * r.scaleX,
           r.anchorY + (e.top - r.anchorY) * r.scaleY,
           Round(e.width * r.scaleX), Round(e.height * r.scaleY))
  }

  /** An element corner at the anchor stays where it is. */
  lemma AnchorFixed(e: ElementData, r: Resize)
    requires e.left == r.anchorX && e.top == r.anchorY
    ensures Scaled(e, r).x == e.left && Scaled(e, r).y == e.top
  {
  }

  /** The distances between elements scale by the same factors as the
      elements themselves. */
  lemma OffsetsScale(e: ElementData, f: ElementData, r: Resize)
    ensures Scaled(f, r).x - Scaled(e, r).x == (f.left - e.left) * r.scaleX
    ensures Scaled(f, r).y - Scaled(e, r).y == (f.top - e.top) * r.scaleY
  {
    assert (f.left - r.anchorX) * r.scaleX - (e.left - r.anchorX) * r.scaleX == (f.left - e.left) * r.scaleX;
    assert (f.top - r.anchorY) * r.scaleY - (e.top - r.anchorY) * r.scaleY == (f.top - e.top) * r.scaleY;
  }

  /** What the resize handle's mousedown records. */
  datatype ResizeStart = ResizeStart(direction: Direction, startX: real, startY: real, bounds: Box, elements: seq<ElementData>)

  /** The multi-selection box's resize state (`resizeStateRef.current`)
      and the size label it shows. */
  class MultiSelectionBox {
    var isResizing: bool
    var start: Option<ResizeStart>
    var currentSize: (int, int)
    /** The updates sent to the editor state so far. */
    var updates: seq<Update>

    constructor()
      ensures !isResizing && start == None && currentSize == (0, 0) && updates == []
    {
      isResizing := false;
      start := None;
      currentSize := (0, 0);
      updates := [];
    }

    /** `handleResizeMouseDown(direction)`: keeps the pointer, the bounds and
        the elements found on the page. */
    method ResizeMouseDown(direction: Direction, clientX: real, clientY: real, bounds: Box, elements: seq<ElementData>)
      modifies this
      ensures isResizing && start == Some(ResizeStart(direction, clientX, clientY, bounds, elements))
      ensures currentSize == old(currentSize) && updates == old(updates)
    {
      start := Some(ResizeStart(direction, clientX, clientY, bounds, elements));
      isResizing := true;
    }

    /** `handleResizeMove`: every element is sent its scaled place and size. */
    method ResizeMove(clientX: real, clientY: real)
      requires isResizing ==> start.Some? && start.value.bounds.width > 0.0 && start.value.bounds.height > 0.0
      modifies this
      ensures isResizing == old(isResizing) && start == old(start)
      ensures !isResizing ==> currentSize == old(currentSize) && updates == old(updates)
      ensures isResizing ==>
        var s := start.value;
        var r := ResizeFor(s.direction, s.bounds, clientX - s.startX, clientY - s.startY);
        currentSize == (Round(r.width), Round(r.height)) &&
        |updates| == |old(updates)| + |s.elements| && updates[..|old(updates)|] == old(updates) &&
        forall k :: 0 <= k < |s.elements| ==> updates[|old(updates)| + k] == Scaled(s.elements[k], r)
    {
      if !isResizing {
        return;
      }
      var s := start.value;
      var r := ResizeFor(s.direction, s.bounds, clientX - s.startX, clientY - s.startY);
      currentSize := (Round(r.width), Round(r.height));
      var before := updates;
      for k := 0 to |s.elements|
        invariant isResizing && start == Some(s) && currentSize == (Round(r.width), Round(r.height))
        invariant |updates| == |before| + k && updates[..|before|] == before
        invariant forall j :: 0 <= j < k ==> updates[|before| + j] == Scaled(s.elements[j], r)
      {
        updates := updates + [Scaled(s.elements[k], r)];
      }
    }

    /** The mouseup that ends the resize. */
    method ResizeMouseUp()
      modifies this
      ensures !isResizing && start == old(start) && currentSize == old(currentSize) && updates == old(updates)
    {
      isResizing := false;
    }
  }
}
