/** The configuration manager of the plain-JavaScript editor page: the
    configuration object, the text and colour inputs, `adjustBrightness`,
    the four colour schemes, template switching and the configuration
    panel. The page's DOM is reduced to the state the handlers write. */
module LegacyConfig {
  import opened Wrappers
  import opened Text
  import opened Hex
  import opened JsNum
  import opened JsValue

  /** `s.replace("#", "")`: a string pattern removes the first `#` only. */
  function RemoveFirstHash(s: string): (r: string)
    ensures '#' !in s ==> r == s
    ensures s != [] && s[0] == '#' ==> r == s[1..]
    ensures |r| == if '#' in s then |s| - 1 else |s|
  {
    if s == [] then []
    else if s[0] == '#' then s[1..]
    else [s[0]] + RemoveFirstHash(s[1..])
  }

  /** `(num >> 16, num >> 8 & 0xFF, num & 0xFF)` for `num = parseInt(hex, 16)`:
      the shifts work on the 32-bit signed value, and `NaN` counts as 0. */
  function Channels(hex: string): (c: (int, int, int))
    ensures -0x8000 <= c.0 < 0x8000 && 0 <= c.1 < 256 && 0 <= c.2 < 256
  {
    var n := ToInt32(ParseIntHex(RemoveFirstHash(hex)).GetOr(0));
    (n / 0x10000, n / 0x100 % 0x100, n % 0x100)
  }

  /** `c < 255 ? c < 1 ? 0 : c : 255`. */
  function ClampByte(c: int): (r: nat)
    ensures r <= 255
    ensures 0 <= c <= 255 ==> r == c
    ensures c < 0 ==> r == 0
    ensures c > 255 ==> r == 255
  {
    if c < 255 then (if c < 1 then 0 else c) else 255
  }

  /** Each channel moved by `Math.round(2.55 * percent)` and clamped to a byte. */
  function Adjusted(hex: string, percent: real): (c: (nat, nat, nat))
    ensures c.0 < 256 && c.1 < 256 && c.2 < 256
  {
    Shifted(Channels(hex), Round(2.55 * percent))
  }

  function Shifted(c: (int, int, int), amt: int): (r: (nat, nat, nat))
    ensures r.0 < 256 && r.1 < 256 && r.2 < 256
  {
    (ClampByte(c.0 + amt), ClampByte(c.1 + amt), ClampByte(c.2 + amt))
  }

  /** `adjustBrightness(hex, percent)`: `#` and the adjusted channels as six
      hex digits, written as `(0x1000000 + rgb).toString(16).slice(1)`. */
  function AdjustBrightness(hex: string, percent: real): string {
    var c := Adjusted(hex, percent);
    Render(c.0, c.1, c.2)
  }

  /** `"#" + (0x1000000 + R * 0x10000 + G * 0x100 + B).toString(16).slice(1)`:
      the leading `1` keeps the zeros of small channels. */
  function Render(r: nat, g: nat, b: nat): string {
    "#" + ToHexString(0x1000000 + r * 0x10000 + g * 0x100 + b)[1..]
  }

  /** The leading `1` of `0x1000000 + rgb` keeps the zeros of small channels:
      the result is `#` and each channel in exactly two digits. */
  lemma AdjustBrightnessDigits(hex: string, percent: real)
    ensures var c := Adjusted(hex, percent);
      AdjustBrightness(hex, percent) == HexColor(c.0, c.1, c.2)
  {
    var c := Adjusted(hex, percent);
    RenderDigits(c.0, c.1, c.2);
  }

  lemma RenderDigits(r: nat, g: nat, b: nat)
    requires r < 256 && g < 256 && b < 256
    ensures Render(r, g, b) == HexColor(r, g, b)
  {
    var v := Join(r, Join(g, b, 2), 4);
    RgbJoin(r, g, b);
    SevenDigits(v);
    ToHexFixedSplit(r, Join(g, b, 2), 2, 4);
    ToHexFixedSplit(g, b, 2, 2);
  }

  /** The number `adjustBrightness` renders, as three joined bytes. */
  lemma RgbJoin(r: nat, g: nat, b: nat)
    requires r < 256 && g < 256 && b < 256
    ensures Join(g, b, 2) < Pow16(4)
    ensures Join(r, Join(g, b, 2), 4) < Pow16(6)
    ensures 0x1000000 + r * 0x10000 + g * 0x100 + b == Join(1, Join(r, Join(g, b, 2), 4), 6)
  {
    Pow16Values();
  }

  /** `(0x1000000 + v).toString(16).slice(1)` is `v` in six digits. */
  lemma SevenDigits(v: nat)
    requires v < Pow16(6)
    ensures ToHexString(Join(1, v, 6))[1..] == ToHexFixed(v, 6)
  {
    Pow16Values();
    HexWidthExact(Join(1, v, 6), 7);
    ToHexFixedSplit(1, v, 1, 6);
  }

  /** The result is always a `#` and six lower-case hex digits. */
  lemma AdjustBrightnessFormat(hex: string, percent: real)
    ensures var r := AdjustBrightness(hex, percent);
      |r| == 7 && r[0] == '#' && AllLowerHex(r[1..])
  {
    var c := Adjusted(hex, percent);
    AdjustBrightnessDigits(hex, percent);
    HexColorDecodes(c.0, c.1, c.2);
  }

  /** Parsing the result back gives the adjusted channels. */
  lemma AdjustBrightnessDecodes(hex: string, percent: real)
    ensures var r := AdjustBrightness(hex, percent);
      var c := Adjusted(hex, percent);
      IsHexColor(r) && Pair(r[1..], 0) == c.0 && Pair(r[1..], 1) == c.1 && Pair(r[1..], 2) == c.2
  {
    var c := Adjusted(hex, percent);
    AdjustBrightnessDigits(hex, percent);
    HexColorDecodes(c.0, c.1, c.2);
  }

  /** A brighter percentage never darkens a channel. */
  lemma AdjustedMonotone(hex: string, p: real, q: real)
    requires p <= q
    ensures Adjusted(hex, p).0 <= Adjusted(hex, q).0
    ensures Adjusted(hex, p).1 <= Adjusted(hex, q).1
    ensures Adjusted(hex, p).2 <= Adjusted(hex, q).2
  {
    RoundMonotone(2.55 * p, 2.55 * q);
  }

  /** A colour that does not parse is taken as black. */
  lemma ChannelsOfNaN(hex: string)
    requires ParseIntHex(RemoveFirstHash(hex)) == None
    ensures Channels(hex) == (0, 0, 0)
  {
    assert ParseIntHex(RemoveFirstHash(hex)).GetOr(0) == 0;
    assert ToInt32(0) == 0;
  }

  /** The shifts and masks on a 24-bit value recover its three bytes. */
  lemma Bytes(num: int, hi: int, mid: int, lo: int)
    requires 0 <= hi < 256 && 0 <= mid < 256 && 0 <= lo < 256
    requires num == (hi * 0x100 + mid) * 0x100 + lo
    ensures num / 0x10000 == hi && num / 0x100 % 0x100 == mid && num % 0x100 == lo
  {
  }

  /** For `#rrggbb` (or `rrggbb`) the channels are the three digit pairs. */
  lemma ChannelsOfColor(hex: string, s: string)
    requires |s| == 6 && AllHex(s) && (hex == s || hex == "#" + s)
    ensures Channels(hex) == (Pair(s, 0), Pair(s, 1), Pair(s, 2))
  {
    HashRemoved(hex, s);
    ParseIntHexDigits(s);
    PairsValue(s);
    var num, hi, mid, lo := HexValue(s), Pair(s, 0), Pair(s, 1), Pair(s, 2);
    Bytes(num, hi, mid, lo);
    ChannelsOfValue(hex, num);
  }

  lemma HashRemoved(hex: string, s: string)
    requires AllHex(s) && (hex == s || hex == "#" + s)
    ensures RemoveFirstHash(hex) == s
  {
    if hex == s {
      assert forall i :: 0 <= i < |s| ==> s[i] != '#';
    }
  }

  lemma ChannelsOfValue(hex: string, num: nat)
    requires ParseIntHex(RemoveFirstHash(hex)) == Some(num) && num < 0x1000000
    ensures Channels(hex) == (num / 0x10000, num / 0x100 % 0x100, num % 0x100)
  {
  }

  /** `adjustBrightness(c, 0)` on a six-digit colour is the colour in lower case. */
  lemma AdjustBrightnessZero(hex: string, s: string)
    requires |s| == 6 && AllHex(s) && (hex == s || hex == "#" + s)
    ensures AdjustBrightness(hex, 0.0) == "#" + Lower(s)
  {
    ChannelsOfColor(hex, s);
    PairsValue(s);
    AdjustedZero(hex);
    var c := (Pair(s, 0), Pair(s, 1), Pair(s, 2));
    assert Adjusted(hex, 0.0) == c;
    RenderOf(hex, 0.0, c);
    RenderOfDigits(s);
  }

  lemma RenderOf(hex: string, percent: real, c: (nat, nat, nat))
    requires Adjusted(hex, percent) == c
    ensures AdjustBrightness(hex, percent) == Render(c.0, c.1, c.2)
  {
  }

  /** Moving by `Math.round(2.55 * 0) == 0` leaves in-range channels alone. */
  lemma AdjustedZero(hex: string)
    requires var c := Channels(hex); 0 <= c.0 < 256
    ensures var c := Channels(hex); Adjusted(hex, 0.0) == (c.0, c.1, c.2)
  {
    ZeroAmount();
    ShiftedZero(Channels(hex));
  }

  lemma ShiftedZero(c: (int, int, int))
    requires 0 <= c.0 < 256 && 0 <= c.1 < 256 && 0 <= c.2 < 256
    ensures Shifted(c, 0) == (c.0, c.1, c.2)
  {
  }

  lemma ZeroAmount()
    ensures Round(2.55 * 0.0) == 0
  {
    assert 2.55 * 0.0 == 0.0;
    RoundOfInt(0);
  }

  lemma RenderOfDigits(s: string)
    requires |s| == 6 && AllHex(s)
    ensures Pair(s, 0) < 256 && Pair(s, 1) < 256 && Pair(s, 2) < 256
    ensures Render(Pair(s, 0), Pair(s, 1), Pair(s, 2)) == "#" + Lower(s)
  {
    RenderDigits(Pair(s, 0), Pair(s, 1), Pair(s, 2));
    HexColorOfPairs(s);
  }

  /** A negative percentage darkens a six-digit colour channel by channel. */
  lemma AdjustedDarkens(hex: string, s: string, percent: real)
    requires |s| == 6 && AllHex(s) && (hex == s || hex == "#" + s)
    requires percent <= 0.0
    ensures var c := Adjusted(hex, percent);
      c.0 <= Pair(s, 0) && c.1 <= Pair(s, 1) && c.2 <= Pair(s, 2)
  {
    ChannelsOfColor(hex, s);
    RoundMonotone(2.55 * percent, 0.0);
    RoundOfInt(0);
  }

  /** The configuration the page starts from. */
  function DefaultConfig(): Object {
    map[
      "appName" := Str("Bompay"),
      "appIcon" := Str("B"),
      "mainTitle" := Str("Download Bompay today"),
      "subtitle" := Str("体验全新的支付方式，让生活更简单"),
      "appStoreLink" := Str("https://apps.apple.com/app/your-app"),
      "googlePlayLink" := Str("https://play.google.com/store/apps/details?id=your.app"),
      "modelPath" := Str("models/apple_iphone_15_pro_max_black.glb"),
      "primaryColor" := Str("#667eea"),
      "secondaryColor" := Str("#764ba2")
    ]
  }

  datatype Scheme = Scheme(primary: string, secondary: string)

  /** The colour-scheme table of `applyColorScheme`; `None` for any other name. */
  function ColorScheme(name: string): (r: Option<Scheme>)
    ensures r.Some? ==> r.value.secondary != []
  {
    if name == "blue" then Some(Scheme("#667eea", "#764ba2"))
    else if name == "purple" then Some(Scheme("#8B5CF6", "#A855F7"))
    else if name == "green" then Some(Scheme("#10B981", "#059669"))
    else if name == "orange" then Some(Scheme("#F97316", "#EA580C"))
    else None
  }

  /** Exactly the four named schemes exist, each a pair of `#rrggbb` colours. */
  lemma ColorSchemesWellFormed(name: string)
    ensures ColorScheme(name).Some? <==> name in ["blue", "purple", "green", "orange"]
    ensures ColorScheme(name).Some? ==>
      IsHexColor(ColorScheme(name).value.primary) && IsHexColor(ColorScheme(name).value.secondary)
  {
    if name == "blue" {
      HexColorLiteral("#667eea");
      HexColorLiteral("#764ba2");
    } else if name == "purple" {
      HexColorLiteral("#8B5CF6");
      HexColorLiteral("#A855F7");
    } else if name == "green" {
      HexColorLiteral("#10B981");
      HexColorLiteral("#059669");
    } else if name == "orange" {
      HexColorLiteral("#F97316");
      HexColorLiteral("#EA580C");
    }
  }

  lemma HexColorLiteral(c: string)
    requires |c| == 7 && c[0] == '#'
    requires IsHexDigit(c[1]) && IsHexDigit(c[2]) && IsHexDigit(c[3])
    requires IsHexDigit(c[4]) && IsHexDigit(c[5]) && IsHexDigit(c[6])
    ensures IsHexColor(c)
  {
  }

  /** The default colours are the blue scheme. */
  lemma DefaultIsBlue()
    ensures DefaultConfig()["primaryColor"] == Str(ColorScheme("blue").value.primary)
    ensures DefaultConfig()["secondaryColor"] == Str(ColorScheme("blue").value.secondary)
  {
  }

  /** `secondaryColor || adjustBrightness(primaryColor, -40)`. */
  function GradientEnd(primary: string, secondary: string): (end: string)
    ensures secondary != [] ==> end == secondary
    ensures secondary == [] ==> IsHexColor(end)
  {
    if secondary != [] then secondary
    else
      AdjustBrightnessFormat(primary, -40.0);
      AdjustBrightness(primary, -40.0)
  }

  /** With no second colour the gradient ends in a darker shade of the first. */
  lemma GradientEndDarker(primary: string, s: string)
    requires |s| == 6 && AllHex(s) && primary == "#" + s
    ensures var end := GradientEnd(primary, "");
      IsHexColor(end) &&
      Pair(end[1..], 0) <= Pair(s, 0) && Pair(end[1..], 1) <= Pair(s, 1) && Pair(end[1..], 2) <= Pair(s, 2)
  {
    AdjustBrightnessDecodes(primary, -40.0);
    AdjustedDarkens(primary, s, -40.0);
  }

  /** The fields whose inputs fall back to the old value when emptied. */
  predicate IsTextField(key: string) {
    key in ["appName", "mainTitle", "subtitle", "appStoreLink", "googlePlayLink"]
  }

  /** `this.config[key] = input || this.config[key]`. */
  function EditedText(config: Object, key: string, input: string): (r: Object)
    ensures key in r && r.Keys == config.Keys + {key}
    ensures forall k :: k in config && k != key ==> r[k] == config[k]
  {
    config[key := if input != [] then Str(input) else Get(config, key)]
  }

  /** Emptying an input keeps the configured text; typing replaces it. */
  lemma EditedTextFallsBack(config: Object, key: string, input: string)
    ensures input != [] ==> EditedText(config, key, input)[key] == Str(input)
    ensures input == [] && key in config ==> EditedText(config, key, input) == config
    ensures EditedText(EditedText(config, key, input), key, input) == EditedText(config, key, input)
  {
    if input == [] && key in config {
      assert config[key := config[key]] == config;
    }
  }

  /** The template classes `switchTemplate` removes before adding the new one. */
  function TemplateClasses(): set<string> {
    {"template-classic", "template-center", "template-minimal",
     "template-elegant", "template-light", "template-premium"}
  }

  /** The container's class list after `switchTemplate(template)`. */
  function SwitchedClasses(classes: set<string>, template: string): (r: set<string>)
    ensures "template-" + template in r
    ensures forall c :: c in classes && c !in TemplateClasses() ==> c in r
    ensures forall c :: c in r && c != "template-" + template ==> c in classes && c !in TemplateClasses()
  {
    classes - TemplateClasses() + {"template-" + template}
  }

  /** Switching twice is switching once to the second template, when that
      is one of the six the page knows. */
  lemma SwitchTemplateLastWins(classes: set<string>, t1: string, t2: string)
    requires "template-" + t1 in TemplateClasses()
    ensures SwitchedClasses(SwitchedClasses(classes, t1), t2) == SwitchedClasses(classes, t2)
  {
  }

  /** The parts of the page the manager's handlers write. */
  datatype Page = Page(
    /** The two colour stops of the `linear-gradient(135deg, ...)` background
        of the body and the phone screen; `None` while the stylesheet's
        own applies. */
    background: Option<(string, string)>,
    /** Text colour of the logo icon and the app-icon preview. */
    iconColor: Option<string>,
    /** Whether an uploaded image is the icon's background. */
    iconHasImage: bool,
    /** Values of the background and gradient colour inputs. */
    bgInput: string,
    gradientInput: string,
    /** The class list of the `.container` element. */
    containerClasses: set<string>,
    /** The highlighted toolbar tab. */
    activeTab: Option<string>,
    appStoreShown: bool,
    googlePlayShown: bool,
    /** Whether the page has a `.left-config-panel`. */
    hasPanel: bool)

  /** The page after `updateBackgroundColor(primary, secondary)`: the
      gradient runs from `primary` to `GradientEnd`, and the icons take
      `primary` as text colour unless an image covers them. */
  function Painted(page: Page, primary: string, secondary: string): (r: Page)
    ensures r.background == Some((primary, GradientEnd(primary, secondary)))
    ensures r.iconColor == if page.iconHasImage then page.iconColor else Some(primary)
    ensures r.(background := page.background, iconColor := page.iconColor) == page
  {
    page.(background := Some((primary, GradientEnd(primary, secondary))),
          iconColor := if page.iconHasImage then page.iconColor else Some(primary))
  }

  /** Repainting with the same colours changes nothing more. */
  lemma PaintedIdempotent(page: Page, primary: string, secondary: string)
    ensures Painted(Painted(page, primary, secondary), primary, secondary) == Painted(page, primary, secondary)
  {
  }

  datatype Store = AppStore | GooglePlay

  /** The editor page's configuration manager. */
  class ConfigManager {
    var config: Object
    /** `isConfigPanelVisible`. */
    var panelVisible: bool
    var page: Page

    /** A hidden panel has no highlighted tab, and only an existing panel
        can be hidden. */
    predicate Valid()
      reads this
    {
      && (!panelVisible ==> page.activeTab.None?)
      && (!page.hasPanel ==> panelVisible)
    }

    /** The constructor and `init`: the default configuration and a visible
        panel, on a page whose inputs, container classes and panel are given. */
    constructor(bgValue: string, gradientValue: string, classes: set<string>, hasPanel: bool)
      ensures Valid()
      ensures config == DefaultConfig() && panelVisible
      ensures page == Page(None, None, false, bgValue, gradientValue, classes, None, true, true, hasPanel)
    {
      config := DefaultConfig();
      panelVisible := true;
      page := Page(None, None, false, bgValue, gradientValue, classes, None, true, true, hasPanel);
    }

    /** `updateBackgroundColor(primary, secondary)`, `""` standing for a
        missing second colour. */
    method UpdateBackgroundColor(primary: string, secondary: string)
      requires Valid()
      modifies this
      ensures Valid()
      ensures page == Painted(old(page), primary, secondary)
      ensures config == old(config) && panelVisible == old(panelVisible)
    {
      page := Painted(page, primary, secondary);
    }

    /** The `input` handler of one of the five text fields. */
    method EditText(key: string, input: string)
      requires Valid() && IsTextField(key)
      modifies this
      ensures Valid()
      ensures config == EditedText(old(config), key, input)
      ensures page == old(page) && panelVisible == old(panelVisible)
    {
      config := EditedText(config, key, input);
    }

    /** The `input` handler of the background colour picker. */
    method InputBackground(color: string)
      requires Valid()
      modifies this
      ensures Valid()
      ensures page == Painted(old(page).(bgInput := color), color, old(page).gradientInput)
      ensures config == old(config)["primaryColor" := Str(color)]
      ensures panelVisible == old(panelVisible)
    {
      page := page.(bgInput := color);
      UpdateBackgroundColor(color, page.gradientInput);
      config := config["primaryColor" := Str(color)];
    }

    /** The `input` handler of the gradient colour picker. */
    method InputGradient(color: string)
      requires Valid()
      modifies this
      ensures Valid()
      ensures page == Painted(old(page).(gradientInput := color), old(page).bgInput, color)
      ensures config == old(config)["secondaryColor" := Str(color)]
      ensures panelVisible == old(panelVisible)
    {
      page := page.(gradientInput := color);
      UpdateBackgroundColor(page.bgInput, color);
      config := config["secondaryColor" := Str(color)];
    }

    /** The `change` handler of a store's checkbox. */
    method ShowStore(store: Store, checked: bool)
      requires Valid()
      modifies this
      ensures Valid()
      ensures page == if store == AppStore then old(page).(appStoreShown := checked)
                      else old(page).(googlePlayShown := checked)
      ensures config == old(config) && panelVisible == old(panelVisible)
    {
      if store == AppStore {
        page := page.(appStoreShown := checked);
      } else {
        page := page.(googlePlayShown := checked);
      }
    }

    /** `applyColorScheme(name)`: a known scheme paints the page, fills both
        colour inputs and stores both colours; any other name does nothing. */
    method ApplyColorScheme(name: string)
      requires Valid()
      modifies this
      ensures Valid()
      ensures ColorScheme(name).None? ==>
        config == old(config) && page == old(page) && panelVisible == old(panelVisible)
      ensures ColorScheme(name).Some? ==>
        var sc := ColorScheme(name).value;
        && page.background == Some((sc.primary, sc.secondary))
        && page == Painted(old(page), sc.primary, sc.secondary).(bgInput := sc.primary, gradientInput := sc.secondary)
        && config == old(config)["primaryColor" := Str(sc.primary)]["secondaryColor" := Str(sc.secondary)]
        && panelVisible == old(panelVisible)
    {
      var found := ColorScheme(name);
      if found.Some? {
        ApplyScheme(found.value);
      }
    }

    /** The body of `applyColorScheme` once the scheme is found. */
    method ApplyScheme(sc: Scheme)
      requires Valid() && sc.secondary != []
      modifies this
      ensures Valid()
      ensures page.background == Some((sc.primary, sc.secondary))
      ensures page == Painted(old(page), sc.primary, sc.secondary).(bgInput := sc.primary, gradientInput := sc.secondary)
      ensures config == old(config)["primaryColor" := Str(sc.primary)]["secondaryColor" := Str(sc.secondary)]
      ensures panelVisible == old(panelVisible)
    {
      UpdateBackgroundColor(sc.primary, sc.secondary);
      page := page.(bgInput := sc.primary, gradientInput := sc.secondary);
      config := config["primaryColor" := Str(sc.primary)]["secondaryColor" := Str(sc.secondary)];
    }

    /** `updateConfig(newConfig)`: a shallow merge in which the new values win. */
    method UpdateConfig(newConfig: Object)
      requires Valid()
      modifies this
      ensures Valid()
      ensures config == Spread(old(config), newConfig)
      ensures page == old(page) && panelVisible == old(panelVisible)
    {
      config := Spread(config, newConfig);
    }

    /** `switchTemplate(template)`. */
    method SwitchTemplate(template: string)
      requires Valid()
      modifies this
      ensures Valid()
      ensures page == old(page).(containerClasses := SwitchedClasses(old(page).containerClasses, template))
      ensures config == old(config) && panelVisible == old(panelVisible)
    {
      page := page.(containerClasses := SwitchedClasses(page.containerClasses, template));
    }

    /** `toggleConfigPanel()`: hiding also clears the highlighted tab;
        nothing happens on a page without the panel. */
    method TogglePanel()
      requires Valid()
      modifies this
      ensures Valid()
      ensures !old(page).hasPanel ==> panelVisible == old(panelVisible) && page == old(page)
      ensures old(page).hasPanel ==> panelVisible == !old(panelVisible)
      ensures old(page).hasPanel && old(panelVisible) ==> page == old(page).(activeTab := None)
      ensures old(page).hasPanel && !old(panelVisible) ==> page == old(page)
      ensures config == old(config)
    {
      if !page.hasPanel {
        return;
      }
      if panelVisible {
        panelVisible := false;
        page := page.(activeTab := None);
      } else {
        panelVisible := true;
      }
    }

    /** `showConfigPanel()`. */
    method ShowPanel()
      requires Valid()
      modifies this
      ensures Valid()
      ensures panelVisible == (old(panelVisible) || old(page).hasPanel)
      ensures page == old(page) && config == old(config)
    {
      if !page.hasPanel {
        return;
      }
      panelVisible := true;
    }

    /** The `click` handler of a toolbar tab: the panel is shown first when
        hidden, then the tab is highlighted. */
    method ClickTab(tab: string)
      requires Valid()
      modifies this
      ensures Valid()
      ensures panelVisible
      ensures page == old(page).(activeTab := Some(tab)) && config == old(config)
    {
      if !panelVisible {
        ShowPanel();
      }
      page := page.(activeTab := Some(tab));
    }
  }
}
