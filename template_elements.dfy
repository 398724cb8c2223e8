/** The canvas elements the layout templates produce, the bindings between
    an element and the field of the editor state it displays, and the
    horizontal centre the centred templates lay themselves out around. */
module TemplateElements {
  import opened Wrappers
  import opened JsValue

  /** A `dataPath` such as `appInfo.name`: the state record and the key. */
  datatype Path = Path(root: string, key: string)

  /** The path as the element stores it. */
  function PathText(p: Path): string {
    p.root + "." + p.key
  }

  datatype Kind = Icon | Text | Button

  /** A template element: its `type`, `content`, the optional button `icon`
      and `dataPath`, and its position. The generated `id` and the inline
      `styles` are not part of the model. */
  datatype Element = Element(
    kind: Kind,
    content: Value,
    icon: Option<string>,
    dataPath: Option<Path>,
    x: real,
    y: real)

  /** `getCenterX()`: half the window's inner width, or 600 where there is
      no window. */
  function CenterX(innerWidth: Option<real>): (c: real)
    ensures innerWidth.None? ==> c == 600.0
    ensures innerWidth.Some? ==> 2.0 * c == innerWidth.value
  {
    match innerWidth
    case None => 600.0
    case Some(w) => w / 2.0
  }

  /** `appInfo.iconImage || appInfo.icon`. */
  function IconContent(appInfo: Object): (v: Value)
    ensures Truthy(Get(appInfo, "iconImage")) ==> v == Get(appInfo, "iconImage")
    ensures !Truthy(Get(appInfo, "iconImage")) ==> v == Get(appInfo, "icon")
  {
    Or(Get(appInfo, "iconImage"), Get(appInfo, "icon"))
  }

  /** The icon element bound to `appInfo.iconImage`. */
  function IconElement(appInfo: Object, x: real, y: real): Element {
    Element(Icon, IconContent(appInfo), None, Some(Path("appInfo", "iconImage")), x, y)
  }

  /** A text element showing `record[key]`, bound to `root.key`. */
  function BoundText(record: Object, root: string, key: string, x: real, y: real): Element {
    Element(Text, Get(record, key), None, Some(Path(root, key)), x, y)
  }

  /** The store icon and label of a download flag. */
  function StoreIcon(flag: string): string {
    if flag == "showAppStore" then "appstore" else "googleplay"
  }

  function StoreLabel(flag: string): string {
    if flag == "showAppStore" then "App Store" else "Google Play"
  }

  /** `...(downloads[flag] ? [button] : [])`. */
  function StoreButton(downloads: Object, flag: string, x: real, y: real): (r: seq<Element>)
    ensures |r| <= 1
    ensures r != [] <==> Truthy(Get(downloads, flag))
  {
    if Truthy(Get(downloads, flag)) then
      [Element(Button, Str(StoreLabel(flag)), Some(StoreIcon(flag)), Some(Path("downloads", flag)), x, y)]
    else []
  }

  /** The record a path's root names. */
  function Record(appInfo: Object, productHuntInfo: Object, downloads: Object, root: string): Object {
    if root == "appInfo" then appInfo
    else if root == "productHuntInfo" then productHuntInfo
    else if root == "downloads" then downloads
    else map[]
  }

  /** An element shows what its binding reads: a text the value at its
      path, the icon the image or else the emoji, and a store button appears
      only while its download flag is on, with that store's icon and label. */
  predicate Bound(appInfo: Object, productHuntInfo: Object, downloads: Object, e: Element) {
    e.dataPath.Some? &&
    var p := e.dataPath.value;
    match e.kind
    case Icon => p == Path("appInfo", "iconImage") && e.content == IconContent(appInfo)
    case Text => e.content == Get(Record(appInfo, productHuntInfo, downloads, p.root), p.key)
    case Button =>
      p.root == "downloads" && (p.key == "showAppStore" || p.key == "showGooglePlay") &&
      Truthy(Get(downloads, p.key)) &&
      e.icon == Some(StoreIcon(p.key)) && e.content == Str(StoreLabel(p.key))
  }

  predicate AllBound(appInfo: Object, productHuntInfo: Object, downloads: Object, r: seq<Element>) {
    forall k :: 0 <= k < |r| ==> Bound(appInfo, productHuntInfo, downloads, r[k])
  }

  /** The store buttons the download flags switch on, App Store first. */
  function StorePaths(downloads: Object): seq<Option<Path>> {
    (if Truthy(Get(downloads, "showAppStore")) then [Some(Path("downloads", "showAppStore"))] else []) +
    (if Truthy(Get(downloads, "showGooglePlay")) then [Some(Path("downloads", "showGooglePlay"))] else [])
  }

  /** The bindings of a list of elements, in order. */
  function Paths(r: seq<Element>): (ps: seq<Option<Path>>)
    ensures |ps| == |r| && forall k :: 0 <= k < |r| ==> ps[k] == r[k].dataPath
  {
    if r == [] then [] else [r[0].dataPath] + Paths(r[1..])
  }

  lemma {:induction false} PathsConcat(a: seq<Element>, b: seq<Element>)
    ensures Paths(a + b) == Paths(a) + Paths(b)
  {
    var l, r := Paths(a + b), Paths(a) + Paths(b);
    assert |l| == |r|;
    forall k | 0 <= k < |l| ensures l[k] == r[k] {
      if k < |a| {
        assert (a + b)[k] == a[k];
      } else {
        assert (a + b)[k] == b[k - |a|];
      }
    }
  }

  /** `r2` is `r1` moved `d` to the right. */
  predicate Shifted(r1: seq<Element>, r2: seq<Element>, d: real) {
    |r1| == |r2| &&
    forall k :: 0 <= k < |r1| ==> r2[k] == r1[k].(x := r1[k].x + d)
  }

  /** The icon element shows the image or else the emoji it is bound to. */
  lemma IconBound(appInfo: Object, productHuntInfo: Object, downloads: Object, x: real, y: real)
    ensures Bound(appInfo, productHuntInfo, downloads, IconElement(appInfo, x, y))
  {
  }

  /** A text bound to `appInfo.key` shows that field. */
  lemma AppTextBound(appInfo: Object, productHuntInfo: Object, downloads: Object, key: string, x: real, y: real)
    ensures Bound(appInfo, productHuntInfo, downloads, BoundText(appInfo, "appInfo", key, x, y))
  {
  }

  /** A text bound to `productHuntInfo.key` shows that field. */
  lemma ListingTextBound(appInfo: Object, productHuntInfo: Object, downloads: Object, key: string, x: real, y: real)
    ensures Bound(appInfo, productHuntInfo, downloads, BoundText(productHuntInfo, "productHuntInfo", key, x, y))
  {
  }

  /** Four bound elements: their bindings in order, all of them bound. */
  lemma {:induction false} FourBound(appInfo: Object, productHuntInfo: Object, downloads: Object, r: seq<Element>)
    requires |r| == 4
    requires Bound(appInfo, productHuntInfo, downloads, r[0]) && Bound(appInfo, productHuntInfo, downloads, r[1])
    requires Bound(appInfo, productHuntInfo, downloads, r[2]) && Bound(appInfo, productHuntInfo, downloads, r[3])
    ensures AllBound(appInfo, productHuntInfo, downloads, r)
    ensures Paths(r) == [r[0].dataPath, r[1].dataPath, r[2].dataPath, r[3].dataPath]
  {
    var ps := Paths(r);
    assert |ps| == 4;
    assert ps[0] == r[0].dataPath && ps[1] == r[1].dataPath;
    assert ps[2] == r[2].dataPath && ps[3] == r[3].dataPath;
  }

  /** A store button is bound to its flag and shown exactly while the flag
      is on. */
  lemma StoreButtonShape(appInfo: Object, productHuntInfo: Object, downloads: Object, flag: string, x: real, y: real)
    requires flag == "showAppStore" || flag == "showGooglePlay"
    ensures var b := StoreButton(downloads, flag, x, y);
      Paths(b) == (if Truthy(Get(downloads, flag)) then [Some(Path("downloads", flag))] else []) &&
      AllBound(appInfo, productHuntInfo, downloads, b)
  {
  }

  /** Two lists of bound elements put together are all bound. */
  lemma AllBoundConcat(appInfo: Object, productHuntInfo: Object, downloads: Object, a: seq<Element>, b: seq<Element>)
    requires AllBound(appInfo, productHuntInfo, downloads, a) && AllBound(appInfo, productHuntInfo, downloads, b)
    ensures AllBound(appInfo, productHuntInfo, downloads, a + b)
  {
    var r := a + b;
    forall k | 0 <= k < |r| ensures Bound(appInfo, productHuntInfo, downloads, r[k]) {
      if k < |a| {
        assert r[k] == a[k];
      } else {
        assert r[k] == b[k - |a|];
      }
    }
  }

  /** Widening the window by `2d` moves the centre by `d`. */
  lemma CenterShift(w: real, d: real)
    ensures CenterX(Some(w + 2.0 * d)) == CenterX(Some(w)) + d
  {
  }
}
