/** The drag-and-drop wrapper around each feature of the list: which half
    of an item the pointer is over, and which index a dropped item is moved
    to. The list itself is reordered by the `onReorder` callback, recorded
    here as the calls the wrapper makes. */
module DragReorder {
  import opened Wrappers
  import opened Text
  import opened JsNum

  /** The half of the hovered item: `'top'` or `'bottom'`. */
  datatype Half = Top | Bottom

  /** What `handleDragStart` writes into the drag's data transfer: the
      dragged item's index as text and the wrapper's drag type. */
  datatype Transfer = Transfer(text: string, dragType: string)

  /** One call `onReorder(draggedIndex, targetIndex)`; a dragged index that
      does not parse is `NaN`, here `None`. */
  datatype Reorder = Reorder(from: Option<int>, to: int)

  /** `handleDragOver`: the pointer is over the top half when its offset
      into the item is less than half the item's height. */
  function HalfAt(clientY: real, rectTop: real, height: real): (r: Half)
  {
    if clientY - rectTop < height / 2.0 then Top else Bottom
  }

  /** Moving the pointer down over an item never brings it back from the
      bottom half to the top half. */
  lemma HalfMonotone(y1: real, y2: real, rectTop: real, height: real)
    requires y1 <= y2
    ensures HalfAt(y1, rectTop, height) == Bottom ==> HalfAt(y2, rectTop, height) == Bottom
    ensures HalfAt(y2, rectTop, height) == Top ==> HalfAt(y1, rectTop, height) == Top
  {
  }

  /** The pointer is over the top half exactly when it is above the item's
      middle line. */
  lemma HalfSplitsAtMiddle(clientY: real, rectTop: real, height: real)
    ensures HalfAt(clientY, rectTop, height) == Top <==> clientY < rectTop + height / 2.0
  {
  }

  /** `handleDrop`'s target: the item's own index on the top half (or when
      no half was recorded), the next index on the bottom half, one less
      when the dragged item comes from above the target. */
  function TargetIndex(index: int, dragged: Option<int>, position: Option<Half>): int {
    var target := if position == Some(Bottom) then index + 1 else index;
    if dragged.Some? && dragged.value < target then target - 1 else target
  }

  /** Dropping an item on either half of itself gives its own index back,
      so the wrapper never reorders. */
  lemma SelfDropKeepsIndex(index: int, position: Option<Half>)
    ensures TargetIndex(index, Some(index), position) == index
  {
  }

  /** For an item dragged within a list of `n`, the target stays in the list. */
  lemma TargetInRange(n: nat, index: int, from: int, position: Option<Half>)
    requires 0 <= index < n && 0 <= from < n
    ensures 0 <= TargetIndex(index, Some(from), position) < n
  {
  }

  /** The list after removing the item at `from` and inserting it at `to`,
      the move `onReorder` stands for. */
  function Moved<T>(xs: seq<T>, from: nat, to: nat): (r: seq<T>)
    requires from < |xs| && to < |xs|
    ensures |r| == |xs| && r[to] == xs[from]
    ensures multiset(r) == multiset(xs)
  {
    var rest := xs[..from] + xs[from + 1..];
    assert xs == xs[..from] + [xs[from]] + xs[from + 1..];
    assert rest == rest[..to] + rest[to..];
    assert multiset(xs) == multiset(rest) + multiset{xs[from]} by {
      assert multiset(xs) == multiset(xs[..from]) + multiset{xs[from]} + multiset(xs[from + 1..]);
    }
    assert multiset(rest) == multiset(rest[..to]) + multiset(rest[to..]);
    rest[..to] + [xs[from]] + rest[to..]
  }

  /** With the target index `handleDrop` computes, the moved item lands
      directly above the item it was dropped on (top half) or directly
      below it (bottom half). */
  lemma MovedNextToTarget<T>(xs: seq<T>, from: nat, index: nat, position: Half)
    requires from < |xs| && index < |xs| && from != index
    ensures var t := TargetIndex(index, Some(from), Some(position));
      0 <= t < |xs| &&
      var r := Moved(xs, from, t);
      r[t] == xs[from] &&
      (position == Top ==> t + 1 < |xs| && r[t + 1] == xs[index]) &&
      (position == Bottom ==> t >= 1 && r[t - 1] == xs[index])
  {
    TargetInRange(|xs|, index, from, Some(position));
    if position == Top {
      MovedAboveTarget(xs, from, index);
    } else {
      MovedBelowTarget(xs, from, index);
    }
  }

  lemma MovedAboveTarget<T>(xs: seq<T>, from: nat, index: nat)
    requires from < |xs| && index < |xs| && from != index
    ensures var t := TargetIndex(index, Some(from), Some(Top));
      0 <= t && t + 1 < |xs| && Moved(xs, from, t)[t + 1] == xs[index]
  {
    var t := TargetIndex(index, Some(from), Some(Top));
    var rest := xs[..from] + xs[from + 1..];
    MovedAt(xs, from, t, t + 1);
    if from < index {
      assert rest[index - 1] == xs[index];
    } else {
      assert rest[index] == xs[index];
    }
  }

  lemma MovedBelowTarget<T>(xs: seq<T>, from: nat, index: nat)
    requires from < |xs| && index < |xs| && from != index
    ensures var t := TargetIndex(index, Some(from), Some(Bottom));
      1 <= t < |xs| && Moved(xs, from, t)[t - 1] == xs[index]
  {
    var t := TargetIndex(index, Some(from), Some(Bottom));
    var rest := xs[..from] + xs[from + 1..];
    MovedAt(xs, from, t, t - 1);
    if from < index {
      assert rest[index - 1] == xs[index];
    } else {
      assert rest[index] == xs[index];
    }
  }

  /** Every other position of the moved list holds the item of the list
      without `xs[from]` that comes before or after the insertion point. */
  lemma MovedAt<T>(xs: seq<T>, from: nat, to: nat, k: nat)
    requires from < |xs| && to < |xs| && k < |xs| && k != to
    ensures var rest := xs[..from] + xs[from + 1..];
      Moved(xs, from, to)[k] == if k < to then rest[k] else rest[k - 1]
  {
  }

  /** A feature item wrapped for dragging. `disabled` wrappers render the
      item without any drag handler, so every handler below requires an
      enabled wrapper. */
  class DraggableItem {
    const index: nat
    const dragType: string
    const disabled: bool
    /** Whether the list passed an `onReorder` callback. */
    const hasOnReorder: bool
    var isDragOver: bool
    var dragPosition: Option<Half>
    /** The `onReorder` calls made so far. */
    var reorders: seq<Reorder>

    constructor(index: nat, dragType: string, disabled: bool, hasOnReorder: bool)
      ensures this.index == index && this.dragType == dragType
      ensures this.disabled == disabled && this.hasOnReorder == hasOnReorder
      ensures !isDragOver && dragPosition == None && reorders == []
    {
      this.index := index;
      this.dragType := dragType;
      this.disabled := disabled;
      this.hasOnReorder := hasOnReorder;
      isDragOver := false;
      dragPosition := None;
      reorders := [];
    }

    /** `handleDragStart`: the transfer carries this item's index and type. */
    method DragStart() returns (t: Transfer)
      requires !disabled
      ensures ParseInt(t.text) == Some(index as int) && t.dragType == dragType
    {
      ParseIntOfNatToString(index);
      t := Transfer(NatToString(index), dragType);
    }

    /** `handleDragOver`: records the hovered half. */
    method DragOver(clientY: real, rectTop: real, height: real)
      requires !disabled
      modifies this
      ensures isDragOver && dragPosition == Some(HalfAt(clientY, rectTop, height))
      ensures reorders == old(reorders)
    {
      dragPosition := Some(HalfAt(clientY, rectTop, height));
      isDragOver := true;
    }

    /** `handleDragLeave`: clears the indicator only when the pointer really
        left the item (and not for one of its children). */
    method DragLeave(leftItem: bool)
      requires !disabled
      modifies this
      ensures leftItem ==> !isDragOver && dragPosition == None
      ensures !leftItem ==> isDragOver == old(isDragOver) && dragPosition == old(dragPosition)
      ensures reorders == old(reorders)
    {
      if leftItem {
        isDragOver := false;
        dragPosition := None;
      }
    }

    /** `handleDragEnd`: clears the indicator. */
    method DragEnd()
      requires !disabled
      modifies this
      ensures !isDragOver && dragPosition == None && reorders == old(reorders)
    {
      isDragOver := false;
      dragPosition := None;
    }

    /** `handleDrop`: a drop of another drag type only clears the indicator;
        otherwise `onReorder` is called when the target differs from the
        dragged index. */
    method Drop(t: Transfer)
      requires !disabled
      modifies this`isDragOver, this`dragPosition, this`reorders
      ensures !isDragOver && dragPosition == None
      ensures t.dragType != dragType ==> reorders == old(reorders)
      ensures t.dragType == dragType ==>
        var dragged := ParseInt(t.text);
        var target := TargetIndex(index, dragged, old(dragPosition));
        reorders == old(reorders) + (if dragged != Some(target) && hasOnReorder then [Reorder(dragged, target)] else [])
    {
      var dragged := ParseInt(t.text);
      var calls := reorders;
      if t.dragType == dragType {
        calls := ReorderCalls(dragged, dragPosition);
      }
      reorders := calls;
      isDragOver := false;
      dragPosition := None;
    }

    /** The `onReorder` calls once the item at `dragged` is dropped on the
        given half: one more when the target differs from it. */
    method ReorderCalls(dragged: Option<int>, position: Option<Half>) returns (calls: seq<Reorder>)
      ensures var target := TargetIndex(index, dragged, position);
        calls == reorders + (if dragged != Some(target) && hasOnReorder then [Reorder(dragged, target)] else [])
    {
      var target := index as int;
      if position == Some(Bottom) {
        target := index + 1;
      }
      if dragged.Some? && dragged.value < target {
        target := target - 1;
      }
      calls := reorders;
      if dragged != Some(target) && hasOnReorder {
        calls := calls + [Reorder(dragged, target)];
      }
    }
  }

  /** Dropping an item on itself, on whichever half, never calls
      `onReorder`. */
  method DropOnSelf(item: DraggableItem, position: Half)
    requires !item.disabled
    modifies item
    ensures item.reorders == old(item.reorders)
  {
    var t := item.DragStart();
    item.DragOver(if position == Top then 0.0 else 1.0, 0.0, 1.0);
    SelfDropKeepsIndex(item.index, Some(position));
    item.Drop(t);
  }

  /** Dropping an item of another list position, with the same drag type,
      calls `onReorder` once with the dragged index and the target that
      puts it next to this item. */
  method DropFromOther(source: DraggableItem, item: DraggableItem, clientY: real, rectTop: real, height: real)
    requires !source.disabled && !item.disabled && source != item
    requires source.dragType == item.dragType && source.index != item.index && item.hasOnReorder
    modifies item
    ensures var target := TargetIndex(item.index, Some(source.index), Some(HalfAt(clientY, rectTop, height)));
      source.index != target ==> item.reorders == old(item.reorders) + [Reorder(Some(source.index), target)]
  {
    var t := source.DragStart();
    item.DragOver(clientY, rectTop, height);
    item.Drop(t);
  }
}
