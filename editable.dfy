/** An editable element of the canvas (`Editable`): its id and position,
    dragging it alone or with the rest of a multi-selection, selecting it
    with a click, and deleting it. The editor state it reads (the element
    styles and the selection) is passed to each handler; what it changes
    is the list of context calls it makes. */
module Editable {
  import opened Wrappers
  import opened Text
  import opened Pointer
  import opened ElementIds
  import opened EditorCalls

  /** The stored style of an element as far as the canvas reads it: the
      numbers its `left`/`top` texts hold and its `display`. */
  datatype Placement = Placement(left: Option<real>, top: Option<real>, display: Option<string>)

  type Styles = map<string, Placement>

  /** `state.elementStyles?.[id] || {}`. */
  function StyleOf(styles: Styles, id: string): Placement {
    if id in styles then styles[id] else Placement(None, None, None)
  }

  /** An element whose style has `display: 'none'` is deleted and renders
      nothing. */
  predicate Deleted(styles: Styles, id: string) {
    StyleOf(styles, id).display == Some("none")
  }

  /** `getPosition()`: the stored `left`/`top` when both are set, otherwise
      the position the element was first rendered at. */
  function Position(styles: Styles, id: string, initial: Point): (p: Point)
    ensures StyleOf(styles, id).left.Some? && StyleOf(styles, id).top.Some? ==>
      p == Point(StyleOf(styles, id).left.value, StyleOf(styles, id).top.value)
    ensures StyleOf(styles, id).left.None? || StyleOf(styles, id).top.None? ==> p == initial
  {
    var st := StyleOf(styles, id);
    if st.left.Some? && st.top.Some? then Point(st.left.value, st.top.value) else initial
  }

  /** Where a multi-drag takes another element's start from: each of its
      stored `left` and `top`, 100 for one that is not stored. */
  function StartOffset(styles: Styles, id: string): Point {
    var st := StyleOf(styles, id);
    Point(if st.left.Some? then st.left.value else 100.0, if st.top.Some? then st.top.value else 100.0)
  }

  /** The start positions recorded for every selected element. */
  function Offsets(styles: Styles, selected: seq<string>): map<string, Point> {
    map e | e in selected :: StartOffset(styles, e)
  }

  /** The moves of a multi-drag by `(dx, dy)`: each selected element from
      its recorded start, `(0, 0)` when none was recorded. */
  function MultiMoves(selected: seq<string>, offsets: map<string, Point>, dx: real, dy: real): (r: seq<Call>)
    ensures |r| == |selected|
  {
    seq(|selected|, k requires 0 <= k < |selected| =>
      var o := if selected[k] in offsets then offsets[selected[k]] else Point(0.0, 0.0);
      UpdateElementStyle(selected[k], Place(o.x + dx, o.y + dy)))
  }

  /** Every element of a multi-drag moves by the same amount: the distance
      between two of them is the distance between their starts. */
  lemma MultiMoveKeepsLayout(selected: seq<string>, offsets: map<string, Point>, dx: real, dy: real, i: nat, j: nat)
    requires i < |selected| && j < |selected|
    requires selected[i] in offsets && selected[j] in offsets
    ensures var r := MultiMoves(selected, offsets, dx, dy);
      r[i].patch.left - r[j].patch.left == offsets[selected[i]].x - offsets[selected[j]].x &&
      r[i].patch.top - r[j].patch.top == offsets[selected[i]].y - offsets[selected[j]].y
  {
  }

  /** The hides of a multi-delete, one per selected element. */
  function Hides(selected: seq<string>): (r: seq<Call>)
    ensures |r| == |selected|
    ensures forall k :: 0 <= k < |selected| ==> r[k] == UpdateElementStyle(selected[k], Hide)
  {
    seq(|selected|, k requires 0 <= k < |selected| => UpdateElementStyle(selected[k], Hide))
  }

  /** The paths whose text is edited in place on a double click. */
  const TextPaths: seq<string> := ["appInfo.name", "appInfo.title", "appInfo.subtitle", "productHuntInfo.badge",
                                   "productHuntInfo.name", "productHuntInfo.tagline", "productHuntInfo.description"]

  /** Where the press landed. */
  datatype PressTarget = OnControl | OnInput | OnContent

  class EditableElement {
    const path: string
    /** The position passed in when the element was first rendered. */
    const initialPosition: Point
    var isDragging: bool
    var dragStartPos: Point
    var dragStartElementPos: Point
    var initialOffsets: map<string, Point>
    var isEditing: bool
    var hasInitialized: bool
    /** The context calls made so far. */
    var calls: seq<Call>

    /** The element id: the path with its dots replaced by dashes. */
    function Id(): string
      reads this
    {
      EditableId(path)
    }

    constructor(path: string, initialPosition: Point)
      ensures this.path == path && this.initialPosition == initialPosition
      ensures !isDragging && !isEditing && !hasInitialized && initialOffsets == map[] && calls == []
    {
      this.path := path;
      this.initialPosition := initialPosition;
      isDragging := false;
      dragStartPos := Point(0.0, 0.0);
      dragStartElementPos := Point(0.0, 0.0);
      initialOffsets := map[];
      isEditing := false;
      hasInitialized := false;
      calls := [];
    }

    /** The first-render effect: an element with no stored position stores
        the one it was rendered at, once. */
    method StoreInitialPosition(styles: Styles)
      modifies this
      ensures var st := StyleOf(styles, Id());
        if !old(hasInitialized) && st.left.None? && st.top.None? then
          hasInitialized && calls == old(calls) + [UpdateElementStyle(Id(), Place(initialPosition.x, initialPosition.y))]
        else hasInitialized == old(hasInitialized) && calls == old(calls)
      ensures isDragging == old(isDragging) && isEditing == old(isEditing)
    {
      var st := StyleOf(styles, Id());
      if !hasInitialized && st.left.None? && st.top.None? {
        hasInitialized := true;
        calls := calls + [UpdateElementStyle(Id(), Place(initialPosition.x, initialPosition.y))];
      }
    }

    /** `handleMouseDown`: a press on a control, on an input or while
        editing starts nothing; otherwise the drag starts from the pointer
        and the element's position, and for a multi-selection that holds
        this element every selected element's start is recorded. */
    method MouseDown(target: PressTarget, clientX: real, clientY: real, styles: Styles, selected: seq<string>)
      modifies this
      ensures calls == old(calls) && isEditing == old(isEditing) && hasInitialized == old(hasInitialized)
      ensures target == OnControl || target == OnInput || isEditing ==>
        isDragging == old(isDragging) && dragStartPos == old(dragStartPos) &&
        dragStartElementPos == old(dragStartElementPos) && initialOffsets == old(initialOffsets)
      ensures target == OnContent && !isEditing ==>
        isDragging && dragStartPos == Point(clientX, clientY) &&
        dragStartElementPos == Position(styles, Id(), initialPosition) &&
        initialOffsets == (if Id() in selected && |selected| > 1 then Offsets(styles, selected) else old(initialOffsets))
    {
      if target == OnControl || isEditing {
        return;
      }
      if target == OnInput {
        return;
      }
      var currentPos := Position(styles, Id(), initialPosition);
      isDragging := true;
      dragStartPos := Point(clientX, clientY);
      dragStartElementPos := currentPos;
      if Id() in selected && |selected| > 1 {
        var offsets: map<string, Point> := map[];
        for i := 0 to |selected|
          invariant offsets == Offsets(styles, selected[..i])
        {
          assert selected[..i + 1] == selected[..i] + [selected[i]];
          offsets := offsets[selected[i] := StartOffset(styles, selected[i])];
        }
        assert selected[..|selected|] == selected;
        initialOffsets := offsets;
      }
    }

    /** `handleMouseMove` while dragging: a multi-selection holding this
        element moves every selected element by the pointer's motion;
        otherwise this element moves to its start plus that motion. */
    method MouseMove(clientX: real, clientY: real, selected: seq<string>)
      modifies this
      ensures isDragging == old(isDragging) && dragStartPos == old(dragStartPos)
      ensures dragStartElementPos == old(dragStartElementPos) && initialOffsets == old(initialOffsets)
      ensures isEditing == old(isEditing) && hasInitialized == old(hasInitialized)
      ensures !isDragging ==> calls == old(calls)
      ensures isDragging ==>
        var dx, dy := clientX - dragStartPos.x, clientY - dragStartPos.y;
        calls == old(calls) +
          (if Id() in selected && |selected| > 1 then MultiMoves(selected, initialOffsets, dx, dy)
           else [UpdateElementStyle(Id(), Place(dragStartElementPos.x + dx, dragStartElementPos.y + dy))])
    {
      if !isDragging {
        return;
      }
      var dx, dy := clientX - dragStartPos.x, clientY - dragStartPos.y;
      if Id() in selected && |selected| > 1 {
        var moves := MultiMoves(selected, initialOffsets, dx, dy);
        var sent: seq<Call> := [];
        for k := 0 to |selected|
          invariant sent == moves[..k]
        {
          var o := if selected[k] in initialOffsets then initialOffsets[selected[k]] else Point(0.0, 0.0);
          sent := sent + [UpdateElementStyle(selected[k], Place(o.x + dx, o.y + dy))];
          assert moves[..k + 1] == moves[..k] + [moves[k]];
        }
        assert moves[..|selected|] == moves;
        calls := calls + sent;
      } else {
        calls := calls + [UpdateElementStyle(Id(), Place(dragStartElementPos.x + dx, dragStartElementPos.y + dy))];
      }
    }

    /** `handleMouseUp`: a release less than 5 pixels from the press selects
        the element (adding to the selection with Ctrl or Cmd); a longer
        drag selects nothing. The drag ends either way. */
    method MouseUp(clientX: real, clientY: real, ctrlOrMeta: bool)
      modifies this
      ensures !isDragging
      ensures old(isDragging) && IsClick(dragStartPos, Point(clientX, clientY)) ==>
        calls == old(calls) + [SelectElement(Id(), path, ctrlOrMeta)]
      ensures !(old(isDragging) && IsClick(dragStartPos, Point(clientX, clientY))) ==> calls == old(calls)
      ensures dragStartPos == old(dragStartPos) && initialOffsets == old(initialOffsets)
    {
      if !isDragging {
        return;
      }
      if IsClick(dragStartPos, Point(clientX, clientY)) {
        calls := calls + [SelectElement(Id(), path, ctrlOrMeta)];
      }
      isDragging := false;
    }

    /** `handleDelete`: with more than one element selected, this one among
        them, every selected element is hidden and the selection cleared;
        otherwise only this element is hidden. */
    method Delete(selected: seq<string>)
      modifies this
      ensures Id() in selected && |selected| > 1 ==> calls == old(calls) + Hides(selected) + [ClearSelection]
      ensures !(Id() in selected && |selected| > 1) ==> calls == old(calls) + [UpdateElementStyle(Id(), Hide)]
      ensures isDragging == old(isDragging)
    {
      if Id() in selected && |selected| > 1 {
        var sent: seq<Call> := [];
        for k := 0 to |selected|
          invariant sent == Hides(selected[..k])
        {
          sent := sent + [UpdateElementStyle(selected[k], Hide)];
        }
        assert selected[..|selected|] == selected;
        calls := calls + sent + [ClearSelection];
      } else {
        calls := calls + [UpdateElementStyle(Id(), Hide)];
      }
    }

    /** `handleDoubleClick`: a text element enters editing; any other opens
        the style panel. */
    method DoubleClick()
      modifies this
      ensures path in TextPaths ==> isEditing && calls == old(calls)
      ensures path !in TextPaths ==> isEditing == old(isEditing) && calls == old(calls) + [SetCurrentPanel("style")]
      ensures isDragging == old(isDragging)
    {
      if path in TextPaths {
        isEditing := true;
      } else {
        calls := calls + [SetCurrentPanel("style")];
      }
    }

    /** `handleContentChange`: the edited text goes to the record property
        the path names. */
    method ContentChange(value: string)
      modifies this
      ensures calls == old(calls) + RecordUpdate(path, value)
      ensures isEditing == old(isEditing) && isDragging == old(isDragging)
    {
      calls := calls + RecordUpdate(path, value);
    }

    /** `handleBlur`: editing ends. */
    method Blur()
      modifies this
      ensures !isEditing && calls == old(calls) && isDragging == old(isDragging)
    {
      isEditing := false;
    }
  }

  /** A single drag whose pointer comes back to where it was pressed
      stores the position the drag started from. */
  method DragThereAndBack(e: EditableElement, clientX: real, clientY: real, farX: real, farY: real, styles: Styles)
    requires !e.isEditing
    modifies e
    ensures |e.calls| == |old(e.calls)| + 2
    ensures e.calls[|e.calls| - 1] == UpdateElementStyle(e.Id(), Place(Position(styles, e.Id(), e.initialPosition).x,
                                                                         Position(styles, e.Id(), e.initialPosition).y))
  {
    e.MouseDown(OnContent, clientX, clientY, styles, []);
    e.MouseMove(farX, farY, []);
    e.MouseMove(clientX, clientY, []);
  }
}
