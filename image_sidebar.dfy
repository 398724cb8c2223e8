/** The image sidebar (`ImageSidebar`): which selected element counts as
    an image, reading style numbers, resizing with the aspect-ratio lock,
    flipping, rotating, and where a replacement image is stored. The
    element's styles are passed to each handler; what the sidebar changes
    is its lock and ratio and the list of context calls it makes. */
module ImageSidebar {
  import opened Wrappers
  import opened Text
  import opened JsNum
  import opened JsValue
  import opened ElementIds
  import opened EditorCalls
  import opened DynamicComponent

  /** `state.selectedElement`: the element id and its data path. */
  datatype Selected = Selected(id: string, element: Option<string>)

  /** `parseValue(value, default)`: a number as it is, the `parseInt` of a
      text (`'120px'` gives 120) or the default when that is `NaN`, and the
      default for anything else. */
  function ParseValue(v: Value, default: real): (r: real)
    ensures v.Number? ==> r == v.n
    ensures !v.Number? && !v.Str? ==> r == default
    ensures v.Str? && ParseInt(v.s).None? ==> r == default
  {
    match v
    case Number(n) => n
    case Str(s) => (match ParseInt(s) case Some(k) => k as real case None => default)
    case _ => default
  }

  /** A pixel length written by the sidebar reads back as its number. */
  lemma ParseValueOfPx(digits: string, default: real)
    requires |digits| >= 1 && AllDigits(digits) && digits[0] != '0'
    ensures ParseValue(Str(digits + "px"), default) == DecimalValue(digits) as real
  {
    var px := "px";
    assert px[0] == 'p' && !IsDigit(px[0]);
    ParseIntDecimalPrefix(digits, px);
    ParseValueOfParsed(digits + px, DecimalValue(digits), default);
  }

  lemma ParseValueOfParsed(s: string, k: int, default: real)
    requires ParseInt(s) == Some(k)
    ensures ParseValue(Str(s), default) == k as real
  {
  }

  /** The first component whose `String(c.id)` is `id`. */
  function FindByText(comps: seq<Component>, id: string): (r: Option<Component>)
    ensures r.Some? ==> IdText(r.value.id) == id
    ensures r.Some? ==> exists k :: 0 <= k < |comps| && comps[k] == r.value && (forall j :: 0 <= j < k ==> IdText(comps[j].id) != id)
    ensures r.None? ==> forall k :: 0 <= k < |comps| ==> IdText(comps[k].id) != id
  {
    if comps == [] then None
    else if IdText(comps[0].id) == id then Some(comps[0])
    else
      var r := FindByText(comps[1..], id);
      assert forall k :: 0 < k < |comps| ==> comps[k] == comps[1..][k - 1];
      r
  }

  /** `getDynamicComponent()`: the component a `dynamicComponents.<id>.content`
      path names. */
  function SelectedComponent(selected: Option<Selected>, comps: seq<Component>): (r: Option<Component>)
    ensures r.Some? ==> selected.Some? && ExtractComponentId(selected.value.element) == Some(IdText(r.value.id))
  {
    if selected.None? then None
    else match ExtractComponentId(selected.value.element)
      case None => None
      case Some(id) => FindByText(comps, id)
  }

  predicate ImageKind(c: Component) { c.kind == "image" || c.kind == "icon" }

  /** `isImageElement()`. A component path is decided by the component it
      names (none found: not an image); any other path by whether it
      contains `icon` or `image`. */
  function IsImageElement(selected: Option<Selected>, comps: seq<Component>): (r: bool)
    ensures selected.None? || selected.value.element.None? ==> !r
    ensures selected.Some? && ExtractComponentId(selected.value.element).Some? ==>
      (r <==> exists c :: SelectedComponent(selected, comps) == Some(c) && ImageKind(c))
    ensures selected.Some? && selected.value.element.Some? && !StartsWith(selected.value.element.value, PathPrefix) ==>
      (r <==> Contains(selected.value.element.value, "icon") || Contains(selected.value.element.value, "image"))
  {
    if selected.None? || selected.value.element.None? then false
    else
      var e := selected.value.element.value;
      var id := ExtractComponentId(selected.value.element);
      if StartsWith(e, PathPrefix) && id.Some? then
        match FindByText(comps, id.value)
        case Some(c) => ImageKind(c)
        case None => false
      else Contains(e, "icon") || Contains(e, "image")
  }

  /** An image component is an image whatever its id reads like. */
  lemma ImageComponentSelected(selected: Selected, comps: seq<Component>, k: nat)
    requires k < |comps| && ImageKind(comps[k]) && IdText(comps[k].id) != []
    requires forall j :: 0 <= j < k ==> IdText(comps[j].id) != IdText(comps[k].id)
    requires selected.element == Some(ComponentPath(IdText(comps[k].id)))
    ensures IsImageElement(Some(selected), comps)
  {
    ExtractRoundTrip(IdText(comps[k].id));
    var r := FindByText(comps, IdText(comps[k].id));
    if r.Some? {
      var i :| 0 <= i < |comps| && comps[i] == r.value && (forall j :: 0 <= j < i ==> IdText(comps[j].id) != IdText(comps[k].id));
      if i < k {
      } else if i > k {
      }
    }
  }

  /** A component path whose component does not exist is not an image,
      even when the id itself reads `image`. */
  lemma MissingComponentNotImage(selected: Selected, comps: seq<Component>)
    requires selected.element == Some(ComponentPath("image"))
    requires forall k :: 0 <= k < |comps| ==> IdText(comps[k].id) != "image"
    ensures !IsImageElement(Some(selected), comps)
  {
    ExtractRoundTrip("image");
  }

  /** The app icon (`appInfo.icon`) is an image. */
  lemma AppIconIsImage(selected: Selected, comps: seq<Component>)
    requires selected.element == Some("appInfo.icon")
    ensures IsImageElement(Some(selected), comps)
  {
    assert OccursAt("appInfo.icon", "icon", 8);
  }

  /** `currentStyles.transform || ''` for the text values a transform holds. */
  function TransformText(styles: Object): string {
    var t := Get(styles, "transform");
    if t.Str? then t.s else ""
  }

  /** `scaleX(-1)` / `scaleY(-1)` and `scaleX(1)` / `scaleY(1)`. */
  function FlipOn(axis: char): string { "scale" + [axis] + "(-1)" }

  function FlipOff(axis: char): string { "scale" + [axis] + "(1)" }

  /** A flip: the first `scale<axis>(-1)` becomes `scale<axis>(1)` if there
      is one, otherwise ` scale<axis>(-1)` is appended; the result is trimmed. */
  function Flip(t: string, axis: char): string {
    Trim(if Contains(t, FlipOn(axis)) then ReplaceFirst(t, FlipOn(axis), FlipOff(axis)) else t + " " + FlipOn(axis))
  }

  /** Text with no white space at either end. */
  predicate Trimmed(t: string) {
    t == [] || (!IsSpace(t[0]) && !IsSpace(t[|t| - 1]))
  }

  lemma TrimOfTrimmed(t: string)
    requires Trimmed(t)
    ensures Trim(t) == t
  {
  }

  lemma TrimOfSpaced(t: string)
    requires t != [] && Trimmed(t)
    ensures Trim(" " + t) == t
  {
    assert (" " + t)[1..] == t;
  }

  /** `on` appended to a trimmed transform: where it occurs first. */
  lemma FirstFlipAt(t: string, axis: char)
    requires axis == 'X' || axis == 'Y'
    requires !Contains(t, FlipOn(axis))
    ensures IndexOf(t + " " + FlipOn(axis), FlipOn(axis)) == |t| + 1
  {
    var on := FlipOn(axis);
    var s := t + " " + on;
    assert s[|t| + 1..] == on;
    assert OccursAt(s, on, |t| + 1);
    forall j | 0 <= j < |t| + 1
      ensures !OccursAt(s, on, j)
    {
      if j + |on| <= |t| {
        assert s[j..j + |on|] == t[j..j + |on|];
        assert !OccursAt(t, on, j);
      } else {
        assert s[|t|] == ' ';
        if j + |on| <= |s| {
          assert s[j..j + |on|][|t| - j] == s[|t|];
        }
      }
    }
  }

  /** Flipping a trimmed transform without the flip appends it. */
  lemma FlipAppends(t: string, axis: char)
    requires axis == 'X' || axis == 'Y'
    requires Trimmed(t) && !Contains(t, FlipOn(axis))
    ensures Flip(t, axis) == if t == [] then FlipOn(axis) else t + " " + FlipOn(axis)
  {
    if t == [] {
      TrimOfSpaced(FlipOn(axis));
    } else {
      TrimOfTrimmed(t + " " + FlipOn(axis));
    }
  }

  lemma FlipOfOn(axis: char)
    requires axis == 'X' || axis == 'Y'
    ensures Flip(FlipOn(axis), axis) == FlipOff(axis)
  {
    var on, off := FlipOn(axis), FlipOff(axis);
    assert on[0..|on|] == on;
    assert IndexFrom(on, on, 0) == 0;
    assert on[..0] + off + on[|on|..] == off;
    assert Contains(on, on) by {
      assert OccursAt(on, on, 0);
    }
    assert Trimmed(off);
    TrimOfTrimmed(off);
  }

  lemma FlipOfAppended(t: string, axis: char)
    requires axis == 'X' || axis == 'Y'
    requires t != [] && Trimmed(t) && !Contains(t, FlipOn(axis))
    ensures Flip(t + " " + FlipOn(axis), axis) == t + " " + FlipOff(axis)
  {
    var on, off := FlipOn(axis), FlipOff(axis);
    var s := t + " " + on;
    FirstFlipAt(t, axis);
    assert s[..|t| + 1] == t + " ";
    assert s[|t| + 1 + |on|..] == [];
    assert ReplaceFirst(s, on, off) == t + " " + off;
    TrimOfTrimmed(t + " " + off);
  }

  /** Flipping twice leaves the transform with the flip turned off
      (`scaleX(1)`) after it, rather than the transform it started from. */
  lemma FlipTwice(t: string, axis: char)
    requires axis == 'X' || axis == 'Y'
    requires Trimmed(t) && !Contains(t, FlipOn(axis))
    ensures Flip(Flip(t, axis), axis) == if t == [] then FlipOff(axis) else t + " " + FlipOff(axis)
  {
    FlipAppends(t, axis);
    if t == [] {
      FlipOfOn(axis);
    } else {
      FlipOfAppended(t, axis);
    }
  }

  /** `handleRotate(degrees)`: the new rotation, with JavaScript's
      sign-keeping remainder. */
  function NewRotation(styles: Object, degrees: real): (r: real)
    ensures -360.0 < r < 360.0
    ensures ParseValue(Get(styles, "rotation"), 0.0) + degrees >= 0.0 ==> r >= 0.0
  {
    Rem(ParseValue(Get(styles, "rotation"), 0.0) + degrees, 360.0)
  }

  /** Turning left from no rotation gives -90, not 270. */
  lemma RotateLeftFromNone(styles: Object)
    requires "rotation" !in styles
    ensures NewRotation(styles, -90.0) == -90.0
  {
    var r := NewRotation(styles, -90.0);
    var q := (-90.0 - r) / 360.0;
    assert q.Floor as real == q;
    assert -0.25 <= q < 0.75;
  }

  /** A full turn from 270 gives 0. */
  lemma RotateFullTurn(styles: Object)
    requires Get(styles, "rotation") == Number(270.0)
    ensures NewRotation(styles, 90.0) == 0.0
  {
    var r := NewRotation(styles, 90.0);
    var q := (360.0 - r) / 360.0;
    assert q.Floor as real == q;
    assert 0.0 < q <= 1.0;
  }

  /** The record property a component's data path links its image to:
      `iconImage` of `appInfo` or of `productHuntInfo`. */
  function LinkedIconUpdate(dataPath: Option<string>, url: string): (r: seq<Call>)
    ensures |r| <= 1
  {
    if dataPath.None? || dataPath.value == [] then []
    else
      var parts := Split(dataPath.value, '.');
      if parts[0] == "appInfo" && SecondPart(parts) == "iconImage" then [UpdateAppInfo("iconImage", url)]
      else if parts[0] == "productHuntInfo" && SecondPart(parts) == "iconImage" then [UpdateProductHuntInfo("iconImage", url)]
      else []
  }

  /** The record property an editable element's path stores an image in. */
  function PathUpdate(path: Option<string>, url: string): (r: seq<Call>)
    ensures |r| <= 1
  {
    if path.None? || path.value == [] then []
    else
      var parts := Split(path.value, '.');
      if parts[0] == "appInfo" && SecondPart(parts) == "icon" then [UpdateAppInfo("iconImage", url)]
      else if parts[0] == "appInfo" then [UpdateAppInfo(SecondPart(parts), url)]
      else if parts[0] == "productHuntInfo" && SecondPart(parts) == "icon" then [UpdateProductHuntInfo("iconImage", url)]
      else if parts[0] == "productHuntInfo" then [UpdateProductHuntInfo(SecondPart(parts), url)]
      else []
  }

  /** Where a replacement image goes: a component gets it as content, and
      also its linked `iconImage` record property; an editable element path
      `appInfo.icon` / `productHuntInfo.icon` stores it as `iconImage`,
      another property of those records under its own name. */
  function UploadCalls(selected: Selected, comps: seq<Component>, url: string): (r: seq<Call>)
    ensures |r| <= 2
    ensures SelectedComponent(Some(selected), comps).Some? ==>
      |r| >= 1 && r[0] == SetComponentContent(SelectedComponent(Some(selected), comps).value.id, url)
  {
    match SelectedComponent(Some(selected), comps)
    case Some(c) => [SetComponentContent(c.id, url)] + LinkedIconUpdate(c.dataPath, url)
    case None => PathUpdate(selected.element, url)
  }

  /** A new app icon is stored as `iconImage`; any other app property under
      its own name. */
  lemma UploadToAppInfo(selected: Selected, comps: seq<Component>, key: string, url: string)
    requires '.' !in key && key != []
    requires selected.element == Some("appInfo." + key)
    ensures UploadCalls(selected, comps, url) == [UpdateAppInfo(if key == "icon" then "iconImage" else key, url)]
  {
    SplitTwo("appInfo", key);
    assert PathUpdate(selected.element, url) == [UpdateAppInfo(if key == "icon" then "iconImage" else key, url)];
    assert !StartsWith("appInfo." + key, PathPrefix) by {
      assert ("appInfo." + key)[0] != PathPrefix[0];
    }
  }

  /** A component linked to `appInfo.<key>` or `productHuntInfo.<key>`
      gets the image as content, and the record gets it too exactly when
      the key is `iconImage`. */
  lemma UploadToLinkedComponent(selected: Selected, comps: seq<Component>, head: string, key: string, url: string)
    requires head == "appInfo" || head == "productHuntInfo"
    requires '.' !in key
    requires SelectedComponent(Some(selected), comps).Some?
    requires SelectedComponent(Some(selected), comps).value.dataPath == Some(head + "." + key)
    ensures var id := SelectedComponent(Some(selected), comps).value.id;
      UploadCalls(selected, comps, url) ==
        [SetComponentContent(id, url)] +
        (if key != "iconImage" then []
         else if head == "appInfo" then [UpdateAppInfo("iconImage", url)]
         else [UpdateProductHuntInfo("iconImage", url)])
  {
    SplitTwo(head, key);
  }

  /** The height the lock gives a typed width: the nearest whole number
      to width / ratio. */
  function LockedHeight(width: int, ratio: real): (h: int)
    requires ratio != 0.0
    ensures h as real - 0.5 <= width as real / ratio < h as real + 0.5
  {
    Round(width as real / ratio)
  }

  /** The width the lock gives a typed height: the nearest whole number
      to height * ratio. */
  function LockedWidth(height: int, ratio: real): (w: int)
    ensures w as real - 0.5 <= height as real * ratio < w as real + 0.5
  {
    Round(height as real * ratio)
  }

  /** A width 'k' times the one the ratio was taken from gets a height 'k'
      times as large. */
  lemma LockedWidthKeepsShape(w: int, h: int, k: int)
    requires w > 0 && h > 0 && k > 0
    ensures w as real / h as real > 0.0
    ensures LockedHeight(k * w, w as real / h as real) == k * h
  {
    assert (k * w) as real / (w as real / h as real) == (k * h) as real;
    RoundOfInt(k * h);
  }

  lemma LockedHeightKeepsShape(w: int, h: int, k: int)
    requires w > 0 && h > 0 && k > 0
    ensures LockedWidth(k * h, w as real / h as real) == k * w
  {
    assert (k * h) as real * (w as real / h as real) == (k * w) as real;
    RoundOfInt(k * w);
  }

  /** A typed width or height: `parseInt` of the text when that is a
      number above 0; anything else is ignored. */
  function TypedLength(text: string): (r: Option<int>)
    ensures r.Some? ==> r.value > 0 && ParseInt(text) == Some(r.value)
    ensures r.None? ==> ParseInt(text).None? || ParseInt(text).value <= 0
  {
    match ParseInt(text)
    case Some(n) => if n > 0 then Some(n) else None
    case None => None
  }

  /** A positive number typed in decimal is taken as it is. */
  lemma TypedLengthOfNat(n: nat)
    requires n > 0
    ensures TypedLength(NatToString(n)) == Some(n)
  {
    ParseIntOfNatToString(n);
  }

  /** The sidebar for one selected image element. */
  class ImageEditor {
    const elementId: string
    var aspectRatioLocked: bool
    var currentAspectRatio: real
    /** The context calls made so far. */
    var calls: seq<Call>

    constructor(elementId: string)
      ensures this.elementId == elementId && aspectRatioLocked && currentAspectRatio == 1.0 && calls == []
    {
      this.elementId := elementId;
      aspectRatioLocked := true;
      currentAspectRatio := 1.0;
      calls := [];
    }

    /** The aspect-ratio effect: for an image element whose width and
        height (100 when unreadable) are both nonzero, the ratio becomes
        their quotient. */
    method InitAspectRatio(styles: Object, isImage: bool)
      modifies this
      ensures aspectRatioLocked == old(aspectRatioLocked) && calls == old(calls)
      ensures var w, h := ParseValue(Get(styles, "width"), 100.0), ParseValue(Get(styles, "height"), 100.0);
        currentAspectRatio == if isImage && w != 0.0 && h != 0.0 then w / h else old(currentAspectRatio)
    {
      if !isImage {
        return;
      }
      var w := ParseValue(Get(styles, "width"), 100.0);
      var h := ParseValue(Get(styles, "height"), 100.0);
      if w != 0.0 && h != 0.0 {
        currentAspectRatio := w / h;
      }
    }

    /** The lock button: turning the lock on takes the ratio from the
        current width and height. */
    method ToggleLock(styles: Object)
      requires !aspectRatioLocked ==> ParseValue(Get(styles, "height"), 100.0) != 0.0
      modifies this
      ensures aspectRatioLocked == !old(aspectRatioLocked) && calls == old(calls)
      ensures aspectRatioLocked ==>
        currentAspectRatio == ParseValue(Get(styles, "width"), 100.0) / ParseValue(Get(styles, "height"), 100.0)
      ensures !aspectRatioLocked ==> currentAspectRatio == old(currentAspectRatio)
    {
      if !aspectRatioLocked {
        currentAspectRatio := ParseValue(Get(styles, "width"), 100.0) / ParseValue(Get(styles, "height"), 100.0);
      }
      aspectRatioLocked := !aspectRatioLocked;
    }

    /** `handleWidthChange`: a text that is not a positive integer is
        ignored. With the lock on (and a nonzero ratio) the height follows
        as the nearest whole number to width / ratio; otherwise only the
        width changes and the ratio is taken anew. */
    method WidthChange(newWidth: string, styles: Object)
      requires TypedLength(newWidth).Some? && !(aspectRatioLocked && currentAspectRatio != 0.0)
        ==> ParseValue(Get(styles, "height"), 100.0) != 0.0
      modifies this
      ensures aspectRatioLocked == old(aspectRatioLocked)
      ensures TypedLength(newWidth).None? ==> calls == old(calls) && currentAspectRatio == old(currentAspectRatio)
      ensures TypedLength(newWidth).Some? && aspectRatioLocked && old(currentAspectRatio) != 0.0 ==>
        currentAspectRatio == old(currentAspectRatio) &&
        calls == old(calls) + [UpdateElementStyle(elementId, Size(TypedLength(newWidth).value,
                                                                   LockedHeight(TypedLength(newWidth).value, old(currentAspectRatio))))]
      ensures TypedLength(newWidth).Some? && !(aspectRatioLocked && old(currentAspectRatio) != 0.0) ==>
        calls == old(calls) + [UpdateElementStyle(elementId, Width(TypedLength(newWidth).value))] &&
        currentAspectRatio == TypedLength(newWidth).value as real / ParseValue(Get(styles, "height"), 100.0)
    {
      var typed := TypedLength(newWidth);
      if typed.None? {
        return;
      }
      var width := typed.value;
      if aspectRatioLocked && currentAspectRatio != 0.0 {
        var newHeight := LockedHeight(width, currentAspectRatio);
        calls := calls + [UpdateElementStyle(elementId, Size(width, newHeight))];
      } else {
        calls := calls + [UpdateElementStyle(elementId, Width(width))];
        var currentHeight := ParseValue(Get(styles, "height"), 100.0);
        currentAspectRatio := width as real / currentHeight;
      }
    }

    /** `handleHeightChange`: the same with the roles swapped; the locked
        width is the nearest whole number to height * ratio. */
    method HeightChange(newHeight: string, styles: Object)
      modifies this
      ensures aspectRatioLocked == old(aspectRatioLocked)
      ensures TypedLength(newHeight).None? ==> calls == old(calls) && currentAspectRatio == old(currentAspectRatio)
      ensures TypedLength(newHeight).Some? && aspectRatioLocked && old(currentAspectRatio) != 0.0 ==>
        currentAspectRatio == old(currentAspectRatio) &&
        calls == old(calls) + [UpdateElementStyle(elementId, Size(LockedWidth(TypedLength(newHeight).value, old(currentAspectRatio)),
                                                                   TypedLength(newHeight).value))]
      ensures TypedLength(newHeight).Some? && !(aspectRatioLocked && old(currentAspectRatio) != 0.0) ==>
        calls == old(calls) + [UpdateElementStyle(elementId, Height(TypedLength(newHeight).value))] &&
        currentAspectRatio == ParseValue(Get(styles, "width"), 100.0) / TypedLength(newHeight).value as real
    {
      var typed := TypedLength(newHeight);
      if typed.None? {
        return;
      }
      var height := typed.value;
      if aspectRatioLocked && currentAspectRatio != 0.0 {
        var newWidth := LockedWidth(height, currentAspectRatio);
        calls := calls + [UpdateElementStyle(elementId, Size(newWidth, height))];
      } else {
        calls := calls + [UpdateElementStyle(elementId, Height(height))];
        var currentWidth := ParseValue(Get(styles, "width"), 100.0);
        currentAspectRatio := currentWidth / height as real;
      }
    }

    /** `handleFlipHorizontal` / `handleFlipVertical`. */
    method FlipTransform(styles: Object, axis: char)
      modifies this
      ensures aspectRatioLocked == old(aspectRatioLocked) && currentAspectRatio == old(currentAspectRatio)
      ensures calls == old(calls) + [UpdateElementStyle(elementId, Transform(Flip(TransformText(styles), axis)))]
    {
      calls := calls + [UpdateElementStyle(elementId, Transform(Flip(TransformText(styles), axis)))];
    }

    /** `handleRotate`: the rotation number, then the transform with the
        rotation put in front of what was there. */
    method Rotate(styles: Object, degrees: real)
      modifies this
      ensures aspectRatioLocked == old(aspectRatioLocked) && currentAspectRatio == old(currentAspectRatio)
      ensures calls == old(calls) + [UpdateElementStyle(elementId, Rotation(NewRotation(styles, degrees))),
                                     UpdateElementStyle(elementId, RotateTransform(NewRotation(styles, degrees), TransformText(styles)))]
    {
      var rotation := NewRotation(styles, degrees);
      calls := calls + [UpdateElementStyle(elementId, Rotation(rotation)),
                        UpdateElementStyle(elementId, RotateTransform(rotation, TransformText(styles)))];
    }
  }

  /** Taking the ratio from a `w` by `h` image, then typing a width `k`
      times `w` with the lock on, sets the height to `k` times `h`. */
  method ResizeKeepsShape(editor: ImageEditor, styles: Object, w: int, h: int, k: int)
    requires editor.aspectRatioLocked
    requires w > 0 && h > 0 && k > 0
    requires Get(styles, "width") == Number(w as real) && Get(styles, "height") == Number(h as real)
    modifies editor
    ensures editor.calls == old(editor.calls) + [UpdateElementStyle(editor.elementId, Size(k * w, k * h))]
  {
    var wide: nat := k * w;
    TypedLengthOfNat(wide);
    LockedWidthKeepsShape(w, h, k);
    var ratio := w as real / h as real;
    editor.InitAspectRatio(styles, true);
    assert editor.currentAspectRatio == ratio != 0.0;
    editor.WidthChange(NatToString(wide), styles);
    assert editor.calls == old(editor.calls) + [UpdateElementStyle(editor.elementId, Size(wide, LockedHeight(wide, ratio)))];
  }
}
