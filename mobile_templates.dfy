/** The phone and desktop layouts: each lays out the app icon, the name,
    the title and the subtitle, then one button per download store that is
    switched on. */
module MobileTemplates {
  import opened Wrappers
  import opened JsValue
  import opened TemplateElements

  /** `classicTemplate(appInfo, downloads)`: text on the left. */
  function ClassicLayout(appInfo: Object, downloads: Object): seq<Element> {
    ClassicBase(appInfo) + StoreButtons(downloads, (100.0, 450.0), (280.0, 450.0))
  }

  function ClassicBase(appInfo: Object): seq<Element> {
    [ IconElement(appInfo, 100.0, 100.0),
      BoundText(appInfo, "appInfo", "name", 180.0, 115.0),
      BoundText(appInfo, "appInfo", "title", 100.0, 200.0),
      BoundText(appInfo, "appInfo", "subtitle", 100.0, 320.0) ]
  }

  /** `centerTemplate(appInfo, downloads)`: laid out around the centre. */
  function CenterLayout(appInfo: Object, downloads: Object, innerWidth: Option<real>): seq<Element> {
    var c := CenterX(innerWidth);
    CenterBase(appInfo, c) + StoreButtons(downloads, (c - 180.0, 450.0), (c, 450.0))
  }

  function CenterBase(appInfo: Object, c: real): seq<Element> {
    [ IconElement(appInfo, c - 50.0, 100.0),
      BoundText(appInfo, "appInfo", "name", c + 30.0, 115.0),
      BoundText(appInfo, "appInfo", "title", c - 200.0, 200.0),
      BoundText(appInfo, "appInfo", "subtitle", c - 200.0, 320.0) ]
  }

  /** `topBottomTemplate(appInfo, downloads)`: the name comes after the
      title and the subtitle. */
  function TopBottomLayout(appInfo: Object, downloads: Object, innerWidth: Option<real>): seq<Element> {
    var c := CenterX(innerWidth);
    TopBottomBase(appInfo, c) + StoreButtons(downloads, (c - 180.0, 480.0), (c, 480.0))
  }

  function TopBottomBase(appInfo: Object, c: real): seq<Element> {
    [ IconElement(appInfo, c - 300.0, 300.0),
      BoundText(appInfo, "appInfo", "title", c - 200.0, 310.0),
      BoundText(appInfo, "appInfo", "subtitle", c - 200.0, 370.0),
      BoundText(appInfo, "appInfo", "name", c + 200.0, 330.0) ]
  }

  /** `diagonalTemplate(appInfo, downloads)`. */
  function DiagonalLayout(appInfo: Object, downloads: Object): seq<Element> {
    DiagonalBase(appInfo) + StoreButtons(downloads, (100.0, 450.0), (280.0, 450.0))
  }

  function DiagonalBase(appInfo: Object): seq<Element> {
    [ IconElement(appInfo, 100.0, 100.0),
      BoundText(appInfo, "appInfo", "name", 180.0, 115.0),
      BoundText(appInfo, "appInfo", "title", 100.0, 200.0),
      BoundText(appInfo, "appInfo", "subtitle", 100.0, 320.0) ]
  }

  /** The App Store button at `a` and the Google Play button at `g`, each
      when its flag is on. */
  function StoreButtons(downloads: Object, a: (real, real), g: (real, real)): seq<Element> {
    StoreButton(downloads, "showAppStore", a.0, a.1) + StoreButton(downloads, "showGooglePlay", g.0, g.1)
  }

  /** The number of stores switched on. */
  function StoreCount(downloads: Object): (n: nat)
    ensures n <= 2
  {
    (if Truthy(Get(downloads, "showAppStore")) then 1 else 0) +
    (if Truthy(Get(downloads, "showGooglePlay")) then 1 else 0)
  }

  function AppPath(key: string): Option<Path> {
    Some(Path("appInfo", key))
  }

  /** Icon, name, title, subtitle. */
  function NameFirst(): seq<Option<Path>> {
    [AppPath("iconImage"), AppPath("name"), AppPath("title"), AppPath("subtitle")]
  }

  /** Icon, title, subtitle, name. */
  function NameLast(): seq<Option<Path>> {
    [AppPath("iconImage"), AppPath("title"), AppPath("subtitle"), AppPath("name")]
  }

  /** The store buttons: one per flag that is on, App Store first, each
      showing its store. */
  lemma StoreButtonsShape(appInfo: Object, productHuntInfo: Object, downloads: Object, a: (real, real), g: (real, real))
    ensures |StoreButtons(downloads, a, g)| == StoreCount(downloads)
    ensures Paths(StoreButtons(downloads, a, g)) == StorePaths(downloads)
    ensures AllBound(appInfo, productHuntInfo, downloads, StoreButtons(downloads, a, g))
  {
    var sa := StoreButton(downloads, "showAppStore", a.0, a.1);
    var sg := StoreButton(downloads, "showGooglePlay", g.0, g.1);
    StoreButtonShape(appInfo, productHuntInfo, downloads, "showAppStore", a.0, a.1);
    StoreButtonShape(appInfo, productHuntInfo, downloads, "showGooglePlay", g.0, g.1);
    PathsConcat(sa, sg);
    AllBoundConcat(appInfo, productHuntInfo, downloads, sa, sg);
    assert StoreButtons(downloads, a, g) == sa + sg;
  }

  lemma ClassicBaseShape(appInfo: Object, productHuntInfo: Object, downloads: Object)
    ensures Paths(ClassicBase(appInfo)) == NameFirst()
    ensures AllBound(appInfo, productHuntInfo, downloads, ClassicBase(appInfo))
  {
    var b := ClassicBase(appInfo);
    IconBound(appInfo, productHuntInfo, downloads, 100.0, 100.0);
    AppTextBound(appInfo, productHuntInfo, downloads, "name", 180.0, 115.0);
    AppTextBound(appInfo, productHuntInfo, downloads, "title", 100.0, 200.0);
    AppTextBound(appInfo, productHuntInfo, downloads, "subtitle", 100.0, 320.0);
    FourBound(appInfo, productHuntInfo, downloads, b);
  }

  lemma CenterBaseShape(appInfo: Object, productHuntInfo: Object, downloads: Object, c: real)
    ensures Paths(CenterBase(appInfo, c)) == NameFirst()
    ensures AllBound(appInfo, productHuntInfo, downloads, CenterBase(appInfo, c))
  {
    var b := CenterBase(appInfo, c);
    IconBound(appInfo, productHuntInfo, downloads, c - 50.0, 100.0);
    AppTextBound(appInfo, productHuntInfo, downloads, "name", c + 30.0, 115.0);
    AppTextBound(appInfo, productHuntInfo, downloads, "title", c - 200.0, 200.0);
    AppTextBound(appInfo, productHuntInfo, downloads, "subtitle", c - 200.0, 320.0);
    FourBound(appInfo, productHuntInfo, downloads, b);
  }

  lemma TopBottomBaseShape(appInfo: Object, productHuntInfo: Object, downloads: Object, c: real)
    ensures Paths(TopBottomBase(appInfo, c)) == NameLast()
    ensures AllBound(appInfo, productHuntInfo, downloads, TopBottomBase(appInfo, c))
  {
    var b := TopBottomBase(appInfo, c);
    IconBound(appInfo, productHuntInfo, downloads, c - 300.0, 300.0);
    AppTextBound(appInfo, productHuntInfo, downloads, "title", c - 200.0, 310.0);
    AppTextBound(appInfo, productHuntInfo, downloads, "subtitle", c - 200.0, 370.0);
    AppTextBound(appInfo, productHuntInfo, downloads, "name", c + 200.0, 330.0);
    FourBound(appInfo, productHuntInfo, downloads, b);
  }

  lemma DiagonalBaseShape(appInfo: Object, productHuntInfo: Object, downloads: Object)
    ensures Paths(DiagonalBase(appInfo)) == NameFirst()
    ensures AllBound(appInfo, productHuntInfo, downloads, DiagonalBase(appInfo))
  {
    var b := DiagonalBase(appInfo);
    IconBound(appInfo, productHuntInfo, downloads, 100.0, 100.0);
    AppTextBound(appInfo, productHuntInfo, downloads, "name", 180.0, 115.0);
    AppTextBound(appInfo, productHuntInfo, downloads, "title", 100.0, 200.0);
    AppTextBound(appInfo, productHuntInfo, downloads, "subtitle", 100.0, 320.0);
    FourBound(appInfo, productHuntInfo, downloads, b);
  }

  /** Bases and buttons put together. */
  lemma {:induction false} BaseAndButtons(base: seq<Element>, buttons: seq<Element>,
                                          appInfo: Object, productHuntInfo: Object, downloads: Object)
    requires AllBound(appInfo, productHuntInfo, downloads, base)
    requires AllBound(appInfo, productHuntInfo, downloads, buttons)
    ensures Paths(base + buttons) == Paths(base) + Paths(buttons)
    ensures AllBound(appInfo, productHuntInfo, downloads, base + buttons)
  {
    PathsConcat(base, buttons);
    var r := base + buttons;
    forall k | 0 <= k < |r| ensures Bound(appInfo, productHuntInfo, downloads, r[k]) {
      if k < |base| {
        assert r[k] == base[k];
      } else {
        assert r[k] == buttons[k - |base|];
      }
    }
  }

  /** The classic layout: icon, name, title, subtitle, then one button per
      store switched on; every element shows what its binding reads. */
  lemma ClassicShape(appInfo: Object, productHuntInfo: Object, downloads: Object)
    ensures |ClassicLayout(appInfo, downloads)| == 4 + StoreCount(downloads)
    ensures Paths(ClassicLayout(appInfo, downloads)) == NameFirst() + StorePaths(downloads)
    ensures AllBound(appInfo, productHuntInfo, downloads, ClassicLayout(appInfo, downloads))
  {
    var buttons := StoreButtons(downloads, (100.0, 450.0), (280.0, 450.0));
    StoreButtonsShape(appInfo, productHuntInfo, downloads, (100.0, 450.0), (280.0, 450.0));
    ClassicBaseShape(appInfo, productHuntInfo, downloads);
    BaseAndButtons(ClassicBase(appInfo), buttons, appInfo, productHuntInfo, downloads);
    assert |ClassicBase(appInfo)| == 4;
    assert ClassicLayout(appInfo, downloads) == ClassicBase(appInfo) + buttons;
  }

  /** The centre layout, in the same order. */
  lemma CenterShape(appInfo: Object, productHuntInfo: Object, downloads: Object, innerWidth: Option<real>)
    ensures |CenterLayout(appInfo, downloads, innerWidth)| == 4 + StoreCount(downloads)
    ensures Paths(CenterLayout(appInfo, downloads, innerWidth)) == NameFirst() + StorePaths(downloads)
    ensures AllBound(appInfo, productHuntInfo, downloads, CenterLayout(appInfo, downloads, innerWidth))
  {
    var c := CenterX(innerWidth);
    var buttons := StoreButtons(downloads, (c - 180.0, 450.0), (c, 450.0));
    StoreButtonsShape(appInfo, productHuntInfo, downloads, (c - 180.0, 450.0), (c, 450.0));
    CenterBaseShape(appInfo, productHuntInfo, downloads, c);
    BaseAndButtons(CenterBase(appInfo, c), buttons, appInfo, productHuntInfo, downloads);
    assert |CenterBase(appInfo, c)| == 4;
    assert CenterLayout(appInfo, downloads, innerWidth) == CenterBase(appInfo, c) + buttons;
  }

  /** The top-bottom layout puts the name after the title and subtitle. */
  lemma TopBottomShape(appInfo: Object, productHuntInfo: Object, downloads: Object, innerWidth: Option<real>)
    ensures |TopBottomLayout(appInfo, downloads, innerWidth)| == 4 + StoreCount(downloads)
    ensures Paths(TopBottomLayout(appInfo, downloads, innerWidth)) == NameLast() + StorePaths(downloads)
    ensures AllBound(appInfo, productHuntInfo, downloads, TopBottomLayout(appInfo, downloads, innerWidth))
  {
    var c := CenterX(innerWidth);
    var buttons := StoreButtons(downloads, (c - 180.0, 480.0), (c, 480.0));
    StoreButtonsShape(appInfo, productHuntInfo, downloads, (c - 180.0, 480.0), (c, 480.0));
    TopBottomBaseShape(appInfo, productHuntInfo, downloads, c);
    BaseAndButtons(TopBottomBase(appInfo, c), buttons, appInfo, productHuntInfo, downloads);
    assert |TopBottomBase(appInfo, c)| == 4;
    assert TopBottomLayout(appInfo, downloads, innerWidth) == TopBottomBase(appInfo, c) + buttons;
  }

  /** The diagonal layout, in the classic order. */
  lemma DiagonalShape(appInfo: Object, productHuntInfo: Object, downloads: Object)
    ensures |DiagonalLayout(appInfo, downloads)| == 4 + StoreCount(downloads)
    ensures Paths(DiagonalLayout(appInfo, downloads)) == NameFirst() + StorePaths(downloads)
    ensures AllBound(appInfo, productHuntInfo, downloads, DiagonalLayout(appInfo, downloads))
  {
    var buttons := StoreButtons(downloads, (100.0, 450.0), (280.0, 450.0));
    StoreButtonsShape(appInfo, productHuntInfo, downloads, (100.0, 450.0), (280.0, 450.0));
    DiagonalBaseShape(appInfo, productHuntInfo, downloads);
    BaseAndButtons(DiagonalBase(appInfo), buttons, appInfo, productHuntInfo, downloads);
    assert |DiagonalBase(appInfo)| == 4;
    assert DiagonalLayout(appInfo, downloads) == DiagonalBase(appInfo) + buttons;
  }

  /** The centred layouts follow the window: widening it by `2d` moves every
      element `d` to the right and nothing else. */
  lemma CenteredLayoutsFollowWindow(appInfo: Object, downloads: Object, w: real, d: real)
    ensures Shifted(CenterLayout(appInfo, downloads, Some(w)), CenterLayout(appInfo, downloads, Some(w + 2.0 * d)), d)
    ensures Shifted(TopBottomLayout(appInfo, downloads, Some(w)), TopBottomLayout(appInfo, downloads, Some(w + 2.0 * d)), d)
  {
    CenterShift(w, d);
  }

  /** Without a window the centre is 600: the centre layout's title starts
      at 400, the icon at 550. */
  lemma NoWindowCenter(appInfo: Object, downloads: Object)
    ensures CenterLayout(appInfo, downloads, None)[0].x == 550.0
    ensures CenterLayout(appInfo, downloads, None)[2].x == 400.0
  {
  }
}
