/** A component added to the canvas (`DynamicComponent`): its element id
    and styles, dragging it alone or with the other selected components,
    selecting it with a click, deleting it and editing its content. The
    editor state it reads is passed to each handler; what it changes is the
    list of context calls it makes. */
module DynamicComponent {
  import opened Wrappers
  import opened Text
  import opened JsValue
  import opened Pointer
  import opened ElementIds
  import opened EditorCalls

  /** A component as the editor state holds it. */
  datatype Component = Component(id: ComponentId, kind: string, content: string, position: Point,
                                 styles: Object, dataPath: Option<string>)

  /** `dynamicComponents-${id}-content`. */
  function ElementIdOf(c: Component): string {
    ComponentElementId(IdText(c.id))
  }

  /** `{ ...styles, ...(state.elementStyles?.[elementId] || {}) }`. */
  function MergedStyles(c: Component, elementStyles: map<string, Object>): (r: Object)
    ensures var own := if ElementIdOf(c) in elementStyles then elementStyles[ElementIdOf(c)] else map[];
      r.Keys == c.styles.Keys + own.Keys &&
      (forall k :: k in own ==> r[k] == own[k]) &&
      (forall k :: k in c.styles && k !in own ==> r[k] == c.styles[k])
  {
    Spread(c.styles, if ElementIdOf(c) in elementStyles then elementStyles[ElementIdOf(c)] else map[])
  }

  /** `state.dynamicComponents.find(c => c.id === n)`'s position. */
  function PositionOf(comps: seq<Component>, n: int): (r: Option<Point>)
    ensures r.Some? ==> exists k :: 0 <= k < |comps| && comps[k].id == NumId(n) && comps[k].position == r.value
    ensures r.None? ==> forall k :: 0 <= k < |comps| ==> comps[k].id != NumId(n)
  {
    if comps == [] then None
    else if comps[0].id == NumId(n) then Some(comps[0].position)
    else
      var r := PositionOf(comps[1..], n);
      assert forall k :: 0 < k < |comps| ==> comps[k] == comps[1..][k - 1];
      r
  }

  /** The start positions a multi-drag records: one per selected element id
      of the numeric form whose component exists. */
  function StartPositions(selected: seq<string>, comps: seq<Component>): map<int, Point>
    decreases |selected|
  {
    if selected == [] then map[]
    else StartOf(StartPositions(selected[..|selected| - 1], comps), NumericComponentId(selected[|selected| - 1]), comps)
  }

  /** The start positions with one more element's recorded: its component's
      position when the id is numbered and the component exists. */
  function StartOf(m: map<int, Point>, found: Option<int>, comps: seq<Component>): map<int, Point> {
    match found
    case None => m
    case Some(n) =>
      match PositionOf(comps, n)
      case None => m
      case Some(p) => m[n := p]
  }

  /** The component each selected element id names, when it has the numeric
      form. */
  function SelectedIds(selected: seq<string>): (r: seq<Option<int>>)
    ensures |r| == |selected| && forall i :: 0 <= i < |selected| ==> r[i] == NumericComponentId(selected[i])
    decreases |selected|
  {
    if selected == [] then []
    else SelectedIds(selected[..|selected| - 1]) + [NumericComponentId(selected[|selected| - 1])]
  }

  /** A start is recorded for exactly the selected numbered components that
      exist, and it is that component's position. */
  lemma {:induction false} StartPositionsRecord(selected: seq<string>, comps: seq<Component>)
    ensures forall n :: n in StartPositions(selected, comps) <==> Some(n) in SelectedIds(selected) && PositionOf(comps, n).Some?
    ensures forall n :: n in StartPositions(selected, comps) ==> StartPositions(selected, comps)[n] == PositionOf(comps, n).value
    decreases |selected|
  {
    if selected != [] {
      var init := selected[..|selected| - 1];
      StartPositionsRecord(init, comps);
      var found := NumericComponentId(selected[|selected| - 1]);
      assert StartPositions(selected, comps) == StartOf(StartPositions(init, comps), found, comps);
      assert SelectedIds(selected) == SelectedIds(init) + [found];
    }
  }

  /** The moves of a multi-drag by `(dx, dy)`: one per selected element id
      of the numeric form with a recorded start. */
  function MultiMoves(selected: seq<string>, starts: map<int, Point>, dx: real, dy: real): seq<Call>
    decreases |selected|
  {
    if selected == [] then []
    else MultiMoves(selected[..|selected| - 1], starts, dx, dy) + MoveOf(NumericComponentId(selected[|selected| - 1]), starts, dx, dy)
  }

  /** The move of one selected element: none unless its id has the numeric
      form and a start was recorded for that number. */
  function MoveOf(found: Option<int>, starts: map<int, Point>, dx: real, dy: real): seq<Call> {
    if found.Some? && found.value in starts
    then [MoveComponent(NumId(found.value), starts[found.value].x + dx, starts[found.value].y + dy)]
    else []
  }

  /** The `forEach` over the selection that moves each numbered component
      with a recorded start by `(dx, dy)`. */
  method SelectedMoves(selected: seq<string>, starts: map<int, Point>, dx: real, dy: real) returns (sent: seq<Call>)
    ensures sent == MultiMoves(selected, starts, dx, dy)
  {
    sent := [];
    for k := 0 to |selected|
      invariant sent == MultiMoves(selected[..k], starts, dx, dy)
    {
      var move := MoveSelected(selected[k], starts, dx, dy);
      sent := sent + move;
      MultiMovesSnoc(selected, starts, dx, dy, k);
    }
    assert selected[..|selected|] == selected;
  }

  /** The `forEach` callback: the element id's number, when it has the
      numeric form and a recorded start, is moved by `(dx, dy)`. */
  method MoveSelected(elementId: string, starts: map<int, Point>, dx: real, dy: real) returns (move: seq<Call>)
    ensures move == MoveOf(NumericComponentId(elementId), starts, dx, dy)
  {
    move := [];
    var found := NumericComponentId(elementId);
    if found.Some? && found.value in starts {
      var start := starts[found.value];
      move := [MoveComponent(NumId(found.value), start.x + dx, start.y + dy)];
    }
  }

  /** Taking one more selected element adds that element's move. */
  lemma MultiMovesSnoc(selected: seq<string>, starts: map<int, Point>, dx: real, dy: real, k: nat)
    requires k < |selected|
    ensures MultiMoves(selected[..k + 1], starts, dx, dy) ==
      MultiMoves(selected[..k], starts, dx, dy) + MoveOf(NumericComponentId(selected[k]), starts, dx, dy)
  {
    assert selected[..k + 1][..k] == selected[..k];
  }

  /** Every move of a multi-drag is a numbered component moved from its
      recorded start by the same `(dx, dy)`. */
  lemma {:induction false} MultiMovesSameDelta(selected: seq<string>, starts: map<int, Point>, dx: real, dy: real)
    ensures forall c | c in MultiMoves(selected, starts, dx, dy) ::
      c.MoveComponent? && c.component.NumId? && c.component.n in starts &&
      c.x == starts[c.component.n].x + dx && c.y == starts[c.component.n].y + dy
    decreases |selected|
  {
    if selected != [] {
      MultiMovesSameDelta(selected[..|selected| - 1], starts, dx, dy);
    }
  }

  /** A selected element whose component id is not all digits (such as
      `comp_1`) is neither moved by a multi-drag nor deleted by a
      multi-delete. */
  lemma NonNumericSkipped(selected: seq<string>, starts: map<int, Point>, dx: real, dy: real, id: string, i: nat)
    requires i < |id| && !IsDigit(id[i])
    ensures var s := selected + [ComponentElementId(id)];
      MultiMoves(s, starts, dx, dy) == MultiMoves(selected, starts, dx, dy) &&
      Deletes(s) == Deletes(selected)
  {
    NonNumericIdSkipped(id, i);
    var s := selected + [ComponentElementId(id)];
    assert s[..|s| - 1] == selected;
  }

  /** The deletions of a multi-delete: one per selected element id of the
      numeric form. */
  function Deletes(selected: seq<string>): seq<Call>
    decreases |selected|
  {
    if selected == [] then []
    else
      var ds := Deletes(selected[..|selected| - 1]);
      match NumericComponentId(selected[|selected| - 1])
      case None => ds
      case Some(n) => ds + [DeleteComponent(NumId(n))]
  }

  /** Some selected element id names component `n` in the numeric form. */
  ghost predicate SelectsNumbered(selected: seq<string>, n: int) {
    exists k :: 0 <= k < |selected| && NumericComponentId(selected[k]) == Some(n)
  }

  lemma SelectsNumberedSnoc(init: seq<string>, last: string, n: int)
    ensures SelectsNumbered(init + [last], n) <==> SelectsNumbered(init, n) || NumericComponentId(last) == Some(n)
  {
    var s := init + [last];
    if SelectsNumbered(init, n) {
      var k :| 0 <= k < |init| && NumericComponentId(init[k]) == Some(n);
      assert s[k] == init[k];
    }
    if NumericComponentId(last) == Some(n) {
      assert s[|init|] == last;
    }
    if SelectsNumbered(s, n) {
      var k :| 0 <= k < |s| && NumericComponentId(s[k]) == Some(n);
      if k < |init| {
        assert s[k] == init[k];
      }
    }
  }

  /** A multi-delete deletes exactly the numbered components selected. */
  lemma {:induction false} DeletesNumbered(selected: seq<string>, n: int)
    ensures DeleteComponent(NumId(n)) in Deletes(selected) <==> SelectsNumbered(selected, n)
    decreases |selected|
  {
    if selected != [] {
      var init, last := selected[..|selected| - 1], selected[|selected| - 1];
      assert selected == init + [last];
      DeletesNumbered(init, n);
      SelectsNumberedSnoc(init, last, n);
    }
  }

  /** The loop of `handleMouseDown` that records the start of every
      selected numbered component. */
  method RecordStarts(selected: seq<string>, comps: seq<Component>) returns (positions: map<int, Point>)
    ensures positions == StartPositions(selected, comps)
  {
    positions := map[];
    for i := 0 to |selected|
      invariant positions == StartPositions(selected[..i], comps)
    {
      positions := RecordStart(positions, selected[i], comps);
      assert selected[..i + 1][..i] == selected[..i];
    }
    assert selected[..|selected|] == selected;
  }

  /** One turn of that loop. */
  method RecordStart(positions: map<int, Point>, elementId: string, comps: seq<Component>) returns (next: map<int, Point>)
    ensures next == StartOf(positions, NumericComponentId(elementId), comps)
  {
    next := positions;
    var found := NumericComponentId(elementId);
    if found.Some? {
      var p := PositionOf(comps, found.value);
      if p.Some? {
        next := positions[found.value := p.value];
      }
    }
  }

  /** Where the press landed. */
  datatype PressTarget = OnControl | OnInput | OnContent

  class DynamicComponentView {
    const component: Component
    var isDragging: bool
    var dragOffset: Point
    var isEditing: bool
    var dragStartPos: Point
    var initialPositions: map<int, Point>
    /** The context calls made so far. */
    var calls: seq<Call>

    constructor(component: Component)
      ensures this.component == component && !isDragging && !isEditing && initialPositions == map[] && calls == []
    {
      this.component := component;
      isDragging := false;
      dragOffset := Point(0.0, 0.0);
      isEditing := false;
      dragStartPos := Point(0.0, 0.0);
      initialPositions := map[];
      calls := [];
    }

    /** `handleMouseDown`: a press on a control, on an input or while
        editing starts nothing; otherwise the drag keeps the pointer's
        offset from the component, and for a multi-selection that holds
        this component the start of every selected numbered component. */
    method MouseDown(target: PressTarget, clientX: real, clientY: real, selected: seq<string>, comps: seq<Component>)
      modifies this
      ensures calls == old(calls) && isEditing == old(isEditing)
      ensures target == OnControl || target == OnInput || isEditing ==>
        isDragging == old(isDragging) && dragOffset == old(dragOffset) &&
        dragStartPos == old(dragStartPos) && initialPositions == old(initialPositions)
      ensures target == OnContent && !isEditing ==>
        isDragging && dragStartPos == Point(clientX, clientY) &&
        dragOffset == Point(clientX - component.position.x, clientY - component.position.y) &&
        initialPositions == (if ElementIdOf(component) in selected && |selected| > 1 then StartPositions(selected, comps)
                             else old(initialPositions))
    {
      if target == OnControl || isEditing {
        return;
      }
      if target == OnInput {
        return;
      }
      isDragging := true;
      dragStartPos := Point(clientX, clientY);
      dragOffset := Point(clientX - component.position.x, clientY - component.position.y);
      if ElementIdOf(component) in selected && |selected| > 1 {
        var positions := RecordStarts(selected, comps);
        initialPositions := positions;
      }
    }

    /** `handleMouseMove` while dragging: a multi-selection holding this
        component moves every selected numbered component by the pointer's
        motion; otherwise this component goes to the pointer less the
        offset kept at mousedown. */
    method MouseMove(clientX: real, clientY: real, selected: seq<string>)
      modifies this
      ensures isDragging == old(isDragging) && dragOffset == old(dragOffset) && dragStartPos == old(dragStartPos)
      ensures initialPositions == old(initialPositions) && isEditing == old(isEditing)
      ensures !isDragging ==> calls == old(calls)
      ensures isDragging ==>
        calls == old(calls) +
          (if ElementIdOf(component) in selected && |selected| > 1
           then MultiMoves(selected, initialPositions, clientX - dragStartPos.x, clientY - dragStartPos.y)
           else [MoveComponent(component.id, clientX - dragOffset.x, clientY - dragOffset.y)])
    {
      if !isDragging {
        return;
      }
      var dx, dy := clientX - dragStartPos.x, clientY - dragStartPos.y;
      if ElementIdOf(component) in selected && |selected| > 1 {
        var sent := SelectedMoves(selected, initialPositions, dx, dy);
        calls := calls + sent;
      } else {
        calls := calls + [MoveComponent(component.id, clientX - dragOffset.x, clientY - dragOffset.y)];
      }
    }

    /** `handleMouseUp`: a release less than 5 pixels from the press selects
        the component (adding to the selection with Ctrl or Cmd). */
    method MouseUp(clientX: real, clientY: real, ctrlOrMeta: bool)
      modifies this
      ensures !isDragging && dragOffset == old(dragOffset) && dragStartPos == old(dragStartPos)
      ensures old(isDragging) && IsClick(dragStartPos, Point(clientX, clientY)) ==>
        calls == old(calls) + [SelectElement(ElementIdOf(component), ComponentPath(IdText(component.id)), ctrlOrMeta)]
      ensures !(old(isDragging) && IsClick(dragStartPos, Point(clientX, clientY))) ==> calls == old(calls)
    {
      if !isDragging {
        return;
      }
      if IsClick(dragStartPos, Point(clientX, clientY)) {
        calls := calls + [SelectElement(ElementIdOf(component), ComponentPath(IdText(component.id)), ctrlOrMeta)];
      }
      isDragging := false;
    }

    /** `handleDoubleClick`: text and component types enter editing; other
        types open the style panel. */
    method DoubleClick()
      modifies this
      ensures component.kind == "text" || component.kind == "component" ==> isEditing && calls == old(calls)
      ensures !(component.kind == "text" || component.kind == "component") ==>
        isEditing == old(isEditing) && calls == old(calls) + [SetCurrentPanel("style")]
      ensures isDragging == old(isDragging)
    {
      if component.kind == "text" || component.kind == "component" {
        isEditing := true;
      } else {
        calls := calls + [SetCurrentPanel("style")];
      }
    }

    /** `handleContentChange`: a component with a data path also updates the
        record property the path names; the content is updated either way. */
    method ContentChange(value: string)
      modifies this
      ensures var sync := if component.dataPath.Some? && component.dataPath.value != []
                          then RecordUpdate(component.dataPath.value, value) else [];
        calls == old(calls) + sync + [SetComponentContent(component.id, value)]
      ensures isEditing == old(isEditing) && isDragging == old(isDragging)
    {
      if component.dataPath.Some? && component.dataPath.value != [] {
        calls := calls + RecordUpdate(component.dataPath.value, value);
      }
      calls := calls + [SetComponentContent(component.id, value)];
    }

    /** `handleDelete`: with more than one element selected, this component
        among them, every selected numbered component is deleted and the
        selection cleared; otherwise only this component is deleted. */
    method Delete(selected: seq<string>)
      modifies this
      ensures ElementIdOf(component) in selected && |selected| > 1 ==>
        calls == old(calls) + Deletes(selected) + [ClearSelection]
      ensures !(ElementIdOf(component) in selected && |selected| > 1) ==>
        calls == old(calls) + [DeleteComponent(component.id)]
      ensures isDragging == old(isDragging)
    {
      if ElementIdOf(component) in selected && |selected| > 1 {
        var sent: seq<Call> := [];
        for k := 0 to |selected|
          invariant sent == Deletes(selected[..k])
        {
          assert selected[..k + 1][..k] == selected[..k];
          var found := NumericComponentId(selected[k]);
          if found.Some? {
            sent := sent + [DeleteComponent(NumId(found.value))];
          }
        }
        assert selected[..|selected|] == selected;
        calls := calls + sent + [ClearSelection];
      } else {
        calls := calls + [DeleteComponent(component.id)];
      }
    }
  }

  /** A single drag whose pointer comes back to where it was pressed puts
      the component back at its position. */
  method DragBack(view: DynamicComponentView, clientX: real, clientY: real, farX: real, farY: real)
    requires !view.isEditing
    modifies view
    ensures |view.calls| == |old(view.calls)| + 2
    ensures view.calls[|view.calls| - 1] == MoveComponent(view.component.id, view.component.position.x, view.component.position.y)
  {
    view.MouseDown(OnContent, clientX, clientY, [], []);
    view.MouseMove(farX, farY, []);
    view.MouseMove(clientX, clientY, []);
  }
}
