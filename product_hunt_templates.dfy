/** The Product Hunt layouts. The centre and top layouts show the app and
    its Product Hunt listing; the showcase layouts (Klavis, influencer,
    Scrumball, voice AI, speak-create-launch, Palify, Clips) are fixed
    mock-ups whose texts are written into the layout and read nothing from
    the editor state: each takes only the window width and has a fixed
    number of elements. */
module ProductHuntTemplates {
  import opened Wrappers
  import opened JsValue
  import opened TemplateElements

  /** A text whose content is written into the layout. */
  function Fixed(content: string, path: Option<Path>, x: real, y: real): Element {
    Element(Text, Str(content), None, path, x, y)
  }

  function Listing(key: string): Option<Path> {
    Some(Path("productHuntInfo", key))
  }

  /** `productHuntCenterTemplate(appInfo, productHuntInfo, downloads)`. */
  function CenterLayout(appInfo: Object, productHuntInfo: Object, downloads: Object, innerWidth: Option<real>): seq<Element> {
    var c := CenterX(innerWidth);
    CenterBase(appInfo, productHuntInfo, c) + StoreButton(downloads, "showAppStore", c - 85.0, 560.0)
  }

  function CenterBase(appInfo: Object, productHuntInfo: Object, c: real): seq<Element> {
    [ BoundText(productHuntInfo, "productHuntInfo", "badge", c - 55.0, 200.0),
      IconElement(appInfo, c - 80.0, 250.0),
      BoundText(appInfo, "appInfo", "name", c - 60.0, 420.0),
      BoundText(productHuntInfo, "productHuntInfo", "tagline", c - 180.0, 480.0) ]
  }

  /** `productHuntTopTemplate(appInfo, productHuntInfo)`. */
  function TopLayout(appInfo: Object, productHuntInfo: Object, innerWidth: Option<real>): seq<Element> {
    var c := CenterX(innerWidth);
    [ IconElement(appInfo, c - 75.0, 150.0),
      BoundText(appInfo, "appInfo", "name", c - 65.0, 330.0),
      BoundText(productHuntInfo, "productHuntInfo", "tagline", c - 210.0, 400.0),
      BoundText(productHuntInfo, "productHuntInfo", "description", c - 200.0, 460.0) ]
  }

  /** `klavisStrataTemplate`. */
  function KlavisLayout(innerWidth: Option<real>): (r: seq<Element>)
    ensures |r| == 5
  {
    var c := CenterX(innerWidth);
    [ Fixed("K Klavis AI", Listing("logo"), 100.0, 80.0),
      Fixed("Strata", Listing("badge"), c + 200.0, 85.0),
      Fixed("Built for Developers", Listing("title"), c - 220.0, 150.0),
      Fixed("Curl | Python | TypeScript", None, c - 120.0, 240.0),
      Fixed("import klavis\nclient = klavis.Client()\nresponse = client.generate()", None, c - 180.0, 300.0) ]
  }

  /** `influencerMarketingTemplate`. */
  function InfluencerLayout(innerWidth: Option<real>): (r: seq<Element>)
    ensures |r| == 6
  {
    var c := CenterX(innerWidth);
    [ Fixed("\U{8f6c}\U{5316}\U{7387}\n85%", None, 120.0, 150.0),
      Fixed("\U{89e6}\U{8fbe}\U{4eba}\U{6570}\n120M+", None, 120.0, 280.0),
      Fixed("AI Agent\nInfluencer Marketing", None, c - 120.0, 100.0),
      Fixed("Outreach\nSend in bulk", None, c - 120.0, 270.0),
      Fixed("Agent\n\U{1f916} AI", None, c + 140.0, 150.0),
      Fixed("\U{641c}\U{7d22}", None, c + 140.0, 280.0) ]
  }

  /** `scrumballTemplate`. */
  function ScrumballLayout(innerWidth: Option<real>): (r: seq<Element>)
    ensures |r| == 5
  {
    var c := CenterX(innerWidth);
    [ Fixed("Scrumball", Listing("title"), c - 100.0, 120.0),
      Fixed("Your 24/7 AI Team", Listing("subtitle"), c - 150.0, 200.0),
      Fixed("Brand\nStrategist", None, 100.0, 300.0),
      Fixed("Creator\nScout", None, c - 90.0, 290.0),
      Fixed("Outreach\nExpert", None, c + 120.0, 300.0) ]
  }

  /** `voiceAITemplate`. */
  function VoiceLayout(innerWidth: Option<real>): (r: seq<Element>)
    ensures |r| == 3
  {
    var c := CenterX(innerWidth);
    [ Fixed("Your Voice, Supercharged by AI", Listing("title"), c - 250.0, 120.0),
      Fixed("Instant audio transformation powered by AI", Listing("subtitle"), c - 200.0, 200.0),
      Fixed("\U{25b6}  \U{1f50a}  \U{ff5e}\U{ff5e}\U{ff5e}\U{ff5e}\U{ff5e}\U{ff5e}\U{ff5e}\U{ff5e}\U{ff5e}\U{ff5e}\nTell me what you want...",
        None, c - 220.0, 280.0) ]
  }

  /** `speakCreateLaunchTemplate`: its call-to-action is a button without a
      store icon. */
  function SpeakCreateLaunchLayout(innerWidth: Option<real>): (r: seq<Element>)
    ensures |r| == 5
  {
    var c := CenterX(innerWidth);
    [ Fixed("Speak. Create. Launch", Listing("title"), c - 200.0, 100.0),
      Fixed("AI-powered content creation", Listing("subtitle"), c - 180.0, 180.0),
      Element(Button, Str("Start Free Trial"), None, Listing("ctaButton"), c - 80.0, 240.0),
      Fixed("Audio Player\n\U{ff5e}\U{ff5e}\U{ff5e}\U{ff5e}\U{ff5e}\U{ff5e}", None, 150.0, 320.0),
      Fixed("Settings\n\U{25bc} Voice\n\U{25bc} Speed", None, c + 80.0, 320.0) ]
  }

  /** `palifyTemplate`. */
  function PalifyLayout(innerWidth: Option<real>): (r: seq<Element>)
    ensures |r| == 4
  {
    var c := CenterX(innerWidth);
    [ Fixed("Welcome to Palify", Listing("welcome"), 100.0, 80.0),
      Fixed("Your All-in-One Platform", Listing("title"), c - 200.0, 120.0),
      Fixed("\U{2630} \U{2699}\n\n\U{2501}\U{2501}\U{2501}\n\U{2501}\U{2501}\n\n\U{25ad}\U{25ad}\U{25ad}", None, 120.0, 220.0),
      Fixed("\U{2630} \U{2699}\n\n\U{25ad}\U{25ad}\U{25ad}\n\n\U{2501}\U{2501}\U{2501}\n\U{2501}\U{2501}", None, c + 60.0, 220.0) ]
  }

  /** `clipsTemplate`. */
  function ClipsLayout(innerWidth: Option<real>): (r: seq<Element>)
    ensures |r| == 6
  {
    var c := CenterX(innerWidth);
    [ Fixed("Clips", Listing("badge"), c - 120.0, 80.0),
      Fixed("Capture Every Moment", Listing("title"), c - 180.0, 110.0),
      Fixed("Show your creativity with stunning clips", Listing("subtitle"), c - 160.0, 180.0),
      Fixed("Create clips\n\U{25ad} \U{25ad}\n\U{25ad} \U{25ad}", None, 100.0, 250.0),
      Fixed("\n\n\U{2299}\n76%\nProcessing...", None, c - 80.0, 250.0),
      Fixed("Pose vintage\n\n\U{25ad}\U{25ad}\U{25ad}\U{25ad}\n\n\U{25c9} \U{25c9} \U{25c9}\n\U{2501}\U{2501}\U{2501}", None, c + 100.0, 250.0) ]
  }

  /** The centre layout: badge, icon, name and tagline, then an App Store
      button exactly when that store is switched on (Google Play is never
      shown); every element shows what its binding reads. */
  lemma CenterShape(appInfo: Object, productHuntInfo: Object, downloads: Object, innerWidth: Option<real>)
    ensures var r := CenterLayout(appInfo, productHuntInfo, downloads, innerWidth);
      |r| == (if Truthy(Get(downloads, "showAppStore")) then 5 else 4) &&
      Paths(r) == [Listing("badge"), Some(Path("appInfo", "iconImage")), Some(Path("appInfo", "name")), Listing("tagline")] +
        (if Truthy(Get(downloads, "showAppStore")) then [Some(Path("downloads", "showAppStore"))] else []) &&
      AllBound(appInfo, productHuntInfo, downloads, r)
  {
    var c := CenterX(innerWidth);
    var base := CenterBase(appInfo, productHuntInfo, c);
    var button := StoreButton(downloads, "showAppStore", c - 85.0, 560.0);
    CenterBaseShape(appInfo, productHuntInfo, downloads, c);
    StoreButtonShape(appInfo, productHuntInfo, downloads, "showAppStore", c - 85.0, 560.0);
    PathsConcat(base, button);
    AllBoundConcat(appInfo, productHuntInfo, downloads, base, button);
    assert |base| == 4;
    assert CenterLayout(appInfo, productHuntInfo, downloads, innerWidth) == base + button;
  }

  lemma CenterBaseShape(appInfo: Object, productHuntInfo: Object, downloads: Object, c: real)
    ensures Paths(CenterBase(appInfo, productHuntInfo, c)) ==
      [Listing("badge"), Some(Path("appInfo", "iconImage")), Some(Path("appInfo", "name")), Listing("tagline")]
    ensures AllBound(appInfo, productHuntInfo, downloads, CenterBase(appInfo, productHuntInfo, c))
  {
    var b := CenterBase(appInfo, productHuntInfo, c);
    ListingTextBound(appInfo, productHuntInfo, downloads, "badge", c - 55.0, 200.0);
    IconBound(appInfo, productHuntInfo, downloads, c - 80.0, 250.0);
    AppTextBound(appInfo, productHuntInfo, downloads, "name", c - 60.0, 420.0);
    ListingTextBound(appInfo, productHuntInfo, downloads, "tagline", c - 180.0, 480.0);
    FourBound(appInfo, productHuntInfo, downloads, b);
  }

  /** The top layout is icon, name, tagline and description, whatever the
      download flags, each showing what its binding reads. */
  lemma TopShape(appInfo: Object, productHuntInfo: Object, downloads: Object, innerWidth: Option<real>)
    ensures var r := TopLayout(appInfo, productHuntInfo, innerWidth);
      |r| == 4 &&
      Paths(r) == [Some(Path("appInfo", "iconImage")), Some(Path("appInfo", "name")), Listing("tagline"), Listing("description")] &&
      AllBound(appInfo, productHuntInfo, downloads, r)
  {
  }
}
