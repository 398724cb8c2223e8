/** The editor-context actions the canvas elements and the image sidebar
    call: style and component updates, deletions, selection, panels and
    the text records. Their reducer cases are not part of this model, so
    each handler's effect is the list of calls it makes, in order. */
module EditorCalls {
  import opened Text
  import opened JsNum

  /** A dynamic component's `id`: a number (the usual case) or a text such
      as `comp_…`. */
  datatype ComponentId = NumId(n: int) | TextId(s: string)

  /** `${id}` of a component id. */
  function IdText(id: ComponentId): string {
    match id
    case NumId(n) => IntText(n)
    case TextId(s) => s
  }

  /** What one `updateElementStyle(id, patch)` sets. A `left`/`top` pair is
      written as `${x}px`; width and height as `${n}px`; `RotateTransform`
      stands for the text `rotate(${r}deg) <rest>` trimmed, which prepends
      the rotation to the transform `rest` that was there. */
  datatype StylePatch =
    | Place(left: real, top: real)
    | Hide
    | Size(width: int, height: int)
    | Width(width: int)
    | Height(height: int)
    | Transform(transform: string)
    | Rotation(rotation: real)
    | RotateTransform(rotation: real, rest: string)

  datatype Call =
    | UpdateElementStyle(elementId: string, patch: StylePatch)
    | MoveComponent(component: ComponentId, x: real, y: real)
    | SetComponentContent(component: ComponentId, content: string)
    | DeleteComponent(component: ComponentId)
    | SelectElement(elementId: string, path: string, multi: bool)
    | ClearSelection
    | SetCurrentPanel(panel: string)
    | UpdateAppInfo(key: string, value: string)
    | UpdateProductHuntInfo(key: string, value: string)

  /** `{ [pathParts[1]]: value }`: a path without a second part names the
      property `undefined`. */
  function SecondPart(parts: seq<string>): string {
    if |parts| >= 2 then parts[1] else "undefined"
  }

  /** The record update a content edit makes for its data path:
      `updateAppInfo` for an `appInfo.` path, `updateProductHuntInfo` for a
      `productHuntInfo.` path, none otherwise. */
  function RecordUpdate(path: string, value: string): (r: seq<Call>)
    ensures |r| <= 1
  {
    var parts := Split(path, '.');
    if parts[0] == "appInfo" then [UpdateAppInfo(SecondPart(parts), value)]
    else if parts[0] == "productHuntInfo" then [UpdateProductHuntInfo(SecondPart(parts), value)]
    else []
  }

  lemma SplitTwo(head: string, key: string)
    requires '.' !in head && '.' !in key
    ensures Split(head + "." + key, '.') == [head, key]
  {
    var s := head + "." + key;
    assert s[|head|] == '.';
    assert s[..|head|] == head;
    assert '.' in s;
    var i := CharIndex(s, '.');
    assert i == |head|;
    assert s[i + 1..] == key;
  }

  /** A content edit on `appInfo.<key>` or `productHuntInfo.<key>` updates
      exactly that property of that record. */
  lemma RecordUpdateOfField(key: string, value: string)
    requires '.' !in key
    ensures RecordUpdate("appInfo." + key, value) == [UpdateAppInfo(key, value)]
    ensures RecordUpdate("productHuntInfo." + key, value) == [UpdateProductHuntInfo(key, value)]
  {
    AppInfoUpdateOfField(key, value);
    ListingUpdateOfField(key, value);
  }

  lemma AppInfoUpdateOfField(key: string, value: string)
    requires '.' !in key
    ensures RecordUpdate("appInfo." + key, value) == [UpdateAppInfo(key, value)]
  {
    var head := "appInfo";
    assert head + "." + key == "appInfo." + key;
    SplitTwo(head, key);
  }

  lemma ListingUpdateOfField(key: string, value: string)
    requires '.' !in key
    ensures RecordUpdate("productHuntInfo." + key, value) == [UpdateProductHuntInfo(key, value)]
  {
    var head := "productHuntInfo";
    assert head + "." + key == "productHuntInfo." + key;
    assert head != "appInfo" by { assert |head| != |"appInfo"|; }
    SplitTwo(head, key);
  }

  /** A path of another record updates no record. */
  lemma RecordUpdateOtherPath(head: string, key: string, value: string)
    requires '.' !in head && '.' !in key && head != "appInfo" && head != "productHuntInfo"
    ensures RecordUpdate(head + "." + key, value) == []
  {
    SplitTwo(head, key);
  }
}
