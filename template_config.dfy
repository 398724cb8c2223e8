/** The announcement themes (what a page says) and layout templates (how it
    lays it out): the templates that suit a theme, the content blocks a
    theme shows, and the look-up of a template by id. The plain table and
    the one with preview drawings list the same templates with the same
    suitable themes; they differ only in names and descriptions. */
module TemplateConfig {
  import opened Wrappers

  datatype Theme = Theme(
    id: string,
    name: string,
    icon: string,
    description: string,
    contentTypes: seq<string>,
    defaultTitle: string,
    defaultSubtitle: string)

  datatype Layout = Horizontal | Vertical | GridLayout

  datatype Template = Template(
    id: string,
    name: string,
    description: string,
    suitableThemes: seq<string>,
    layout: Layout)

  function Launch(): Theme {
    Theme("launch", "\U{5e94}\U{7528}\U{53d1}\U{5e03}", "Rocket",
      "APP\U{9996}\U{53d1}\U{3001}\U{4e0a}\U{7ebf}\U{5ba3}\U{4f20}",
      ["basic", "downloads"],
      "Postory\U{5168}\U{65b0}\U{4e0a}\U{7ebf}",
      "\U{521b}\U{9020}\U{4f60}\U{7684}\U{6545}\U{4e8b}\U{ff0c}\U{5206}\U{4eab}\U{4f60}\U{7684}\U{7cbe}\U{5f69}\U{ff0c}\U{5f00}\U{542f}\U{5168}\U{65b0}\U{7684}\U{521b}\U{4f5c}\U{4f53}\U{9a8c}")
  }

  function Feature(): Theme {
    Theme("feature", "\U{529f}\U{80fd}\U{4ecb}\U{7ecd}", "Sparkles",
      "\U{65b0}\U{529f}\U{80fd}\U{4e0a}\U{7ebf}\U{3001}\U{7248}\U{672c}\U{66f4}\U{65b0}",
      ["basic", "features", "downloads"],
      "Postory\U{529f}\U{80fd}\U{5347}\U{7ea7}",
      "\U{5168}\U{65b0}\U{521b}\U{4f5c}\U{5de5}\U{5177}\U{ff0c}\U{8ba9}\U{4f60}\U{7684}\U{6545}\U{4e8b}\U{66f4}\U{52a0}\U{751f}\U{52a8}\U{7cbe}\U{5f69}")
  }

  function Beta(): Theme {
    Theme("beta", "\U{5185}\U{6d4b}\U{9080}\U{8bf7}", "PartyPopper",
      "\U{5185}\U{6d4b}\U{9080}\U{8bf7}\U{3001}Beta\U{6d4b}\U{8bd5}",
      ["basic", "event", "downloads"],
      "Postory\U{5185}\U{6d4b}\U{9080}\U{8bf7}",
      "\U{9650}\U{91cf}\U{9080}\U{8bf7}\U{ff0c}\U{62a2}\U{5148}\U{4f53}\U{9a8c}\U{6700}\U{65b0}\U{529f}\U{80fd}\U{ff01}")
  }

  /** `themes`, in declaration order (both files declare the same table). */
  function Themes(): seq<Theme> {
    [Launch(), Feature(), Beta()]
  }

  /** `themes[themeId]`: the theme stored under that key. */
  function ThemeById(themeId: string): (r: Option<Theme>)
    ensures r.Some? <==> themeId in ThemeKeys()
    ensures r.Some? ==> r.value.id == themeId && r.value in Themes()
  {
    if themeId == "launch" then Some(Launch())
    else if themeId == "feature" then Some(Feature())
    else if themeId == "beta" then Some(Beta())
    else None
  }

  function ThemeKeys(): set<string> {
    {"launch", "feature", "beta"}
  }

  /** `templates` of the plain configuration, in declaration order. */
  function Templates(): seq<Template> {
    [ClassicTemplate(), CenterTemplate(), MinimalTemplate(), HeroTemplate(), GridTemplate()]
  }

  function ClassicTemplate(): Template {
    Template("classic", "\U{7ecf}\U{5178}\U{5e03}\U{5c40}",
      "\U{5de6}\U{53f3}\U{5bf9}\U{79f0}\U{ff0c}\U{7ecf}\U{5178}\U{5927}\U{6c14}",
      ["launch", "feature", "beta"], Horizontal)
  }

  function CenterTemplate(): Template {
    Template("center", "\U{5c45}\U{4e2d}\U{5e03}\U{5c40}",
      "\U{5185}\U{5bb9}\U{5c45}\U{4e2d}\U{ff0c}\U{7b80}\U{6d01}\U{660e}\U{4e86}",
      ["launch", "feature", "beta"], Vertical)
  }

  function MinimalTemplate(): Template {
    Template("minimal", "\U{6781}\U{7b80}\U{5e03}\U{5c40}",
      "\U{53bb}\U{9664}\U{5197}\U{4f59}\U{ff0c}\U{7a81}\U{51fa}\U{91cd}\U{70b9}",
      ["launch", "feature"], Horizontal)
  }

  function HeroTemplate(): Template {
    Template("hero", "\U{5927}\U{6807}\U{9898}\U{5e03}\U{5c40}",
      "\U{7a81}\U{51fa}\U{6807}\U{9898}\U{ff0c}\U{9707}\U{64bc}\U{89c6}\U{89c9}",
      ["launch", "beta"], Vertical)
  }

  function GridTemplate(): Template {
    Template("grid", "\U{7f51}\U{683c}\U{5e03}\U{5c40}",
      "\U{7f51}\U{683c}\U{6392}\U{5217}\U{ff0c}\U{4fe1}\U{606f}\U{4e30}\U{5bcc}",
      ["feature"], GridLayout)
  }

  /** `templates` of the configuration with preview drawings (the drawings
      themselves are markup and are not modelled). */
  function PreviewTemplates(): seq<Template> {
    [ Template("classic", "\U{5de6}\U{6587}\U{53f3}\U{56fe}",
        "\U{6587}\U{5b57}\U{5185}\U{5bb9}\U{5728}\U{5de6}\U{ff0c}\U{624b}\U{673a}\U{6f14}\U{793a}\U{5728}\U{53f3}",
        ["launch", "feature", "beta"], Horizontal),
      Template("center", "\U{5c45}\U{4e2d}\U{5e03}\U{5c40}",
        "\U{5185}\U{5bb9}\U{5c45}\U{4e2d}\U{ff0c}\U{7b80}\U{6d01}\U{660e}\U{4e86}",
        ["launch", "feature", "beta"], Vertical),
      Template("minimal", "\U{5de6}\U{56fe}\U{53f3}\U{6587}",
        "\U{624b}\U{673a}\U{6f14}\U{793a}\U{5728}\U{5de6}\U{ff0c}\U{6587}\U{5b57}\U{5185}\U{5bb9}\U{5728}\U{53f3}",
        ["launch", "feature"], Horizontal),
      Template("hero", "\U{5927}\U{6807}\U{9898}\U{5e03}\U{5c40}",
        "\U{7a81}\U{51fa}\U{6807}\U{9898}\U{ff0c}\U{9707}\U{64bc}\U{89c6}\U{89c9}",
        ["launch", "beta"], Vertical),
      Template("grid", "\U{7f51}\U{683c}\U{5e03}\U{5c40}",
        "\U{7f51}\U{683c}\U{6392}\U{5217}\U{ff0c}\U{4fe1}\U{606f}\U{4e30}\U{5bcc}",
        ["feature"], GridLayout) ]
  }

  /** `getTemplatesForTheme(themeId)`: `filter` over the table on
      `suitableThemes.includes(themeId)`. */
  function TemplatesForTheme(templates: seq<Template>, themeId: string): (r: seq<Template>)
    ensures |r| <= |templates|
  {
    if templates == [] then []
    else if themeId in templates[0].suitableThemes then
      [templates[0]] + TemplatesForTheme(templates[1..], themeId)
    else TemplatesForTheme(templates[1..], themeId)
  }

  /** The result holds exactly the templates whose suitable themes name the
      theme. */
  lemma {:induction false} TemplatesForThemeMembers(templates: seq<Template>, themeId: string)
    ensures forall t :: t in TemplatesForTheme(templates, themeId) <==> t in templates && themeId in t.suitableThemes
  {
    if templates != [] {
      TemplatesForThemeMembers(templates[1..], themeId);
      assert templates == [templates[0]] + templates[1..];
    }
  }

  /** The filter keeps the table order: it splits along any split of the
      table. */
  lemma {:induction false} TemplatesForThemeConcat(a: seq<Template>, b: seq<Template>, themeId: string)
    ensures TemplatesForTheme(a + b, themeId) == TemplatesForTheme(a, themeId) + TemplatesForTheme(b, themeId)
    decreases |a|
  {
    if a != [] {
      assert (a + b)[0] == a[0];
      assert (a + b)[1..] == a[1..] + b;
      TemplatesForThemeConcat(a[1..], b, themeId);
    } else {
      assert a + b == b;
    }
  }

  function Ids(templates: seq<Template>): (r: seq<string>)
    ensures |r| == |templates| && forall k :: 0 <= k < |r| ==> r[k] == templates[k].id
  {
    if templates == [] then [] else [templates[0].id] + Ids(templates[1..])
  }

  /** Both tables name the same templates, in the same order, for the same
      themes; so both files answer every theme alike, up to the names. */
  predicate SameSuitability(a: seq<Template>, b: seq<Template>) {
    |a| == |b| &&
    forall k :: 0 <= k < |a| ==>
      a[k].id == b[k].id && a[k].suitableThemes == b[k].suitableThemes && a[k].layout == b[k].layout
  }

  lemma TablesAgree()
    ensures SameSuitability(Templates(), PreviewTemplates())
  {
  }

  lemma {:induction false} SameSuitabilitySameIds(a: seq<Template>, b: seq<Template>, themeId: string)
    requires SameSuitability(a, b)
    ensures Ids(TemplatesForTheme(a, themeId)) == Ids(TemplatesForTheme(b, themeId))
    decreases |a|
  {
    if a != [] {
      SameSuitabilitySameIds(a[1..], b[1..], themeId);
    }
  }

  /** The filter looks at the first template, then at the rest. */
  lemma FilterHead(t: seq<Template>, themeId: string)
    requires t != []
    ensures TemplatesForTheme(t, themeId) == Keep(t[0], themeId) + TemplatesForTheme(t[1..], themeId)
  {
  }

  /** The filter over a table of five templates, one template at a time. */
  lemma FilterFive(t: seq<Template>, themeId: string)
    requires |t| == 5
    ensures TemplatesForTheme(t, themeId) ==
      Keep(t[0], themeId) + (Keep(t[1], themeId) + (Keep(t[2], themeId) + (Keep(t[3], themeId) + Keep(t[4], themeId))))
  {
    var k0, k1, k2, k3, k4 := Keep(t[0], themeId), Keep(t[1], themeId), Keep(t[2], themeId), Keep(t[3], themeId), Keep(t[4], themeId);
    FilterHead(t[4..], themeId);
    assert t[4..][1..] == [];
    var r4 := TemplatesForTheme(t[4..], themeId);
    assert r4 == k4;
    FilterHead(t[3..], themeId);
    assert t[3..][1..] == t[4..];
    var r3 := TemplatesForTheme(t[3..], themeId);
    assert r3 == k3 + k4;
    FilterHead(t[2..], themeId);
    assert t[2..][1..] == t[3..];
    var r2 := TemplatesForTheme(t[2..], themeId);
    assert r2 == k2 + (k3 + k4);
    FilterHead(t[1..], themeId);
    assert t[1..][1..] == t[2..];
    var r1 := TemplatesForTheme(t[1..], themeId);
    assert r1 == k1 + (k2 + (k3 + k4));
    FilterHead(t, themeId);
  }

  /** `[t]` when the template suits the theme, `[]` otherwise. */
  function Keep(t: Template, themeId: string): seq<Template> {
    if themeId in t.suitableThemes then [t] else []
  }

  lemma ThemeKeysDistinct()
    ensures "feature" != "launch" && "feature" != "beta" && "beta" != "launch"
  {
    assert "feature"[0] == 'f' && "launch"[0] == 'l' && "beta"[0] == 'b';
  }

  /** The suitable themes of the five templates, in table order. */
  predicate SuitabilityShape(t: seq<Template>) {
    |t| == 5 &&
    t[0].suitableThemes == ["launch", "feature", "beta"] &&
    t[1].suitableThemes == ["launch", "feature", "beta"] &&
    t[2].suitableThemes == ["launch", "feature"] &&
    t[3].suitableThemes == ["launch", "beta"] &&
    t[4].suitableThemes == ["feature"]
  }

  lemma TablesShape()
    ensures SuitabilityShape(Templates()) && SuitabilityShape(PreviewTemplates())
    ensures Ids(Templates()) == ["classic", "center", "minimal", "hero", "grid"]
    ensures Ids(PreviewTemplates()) == ["classic", "center", "minimal", "hero", "grid"]
  {
  }

  lemma FeatureOfShape(t: seq<Template>)
    requires SuitabilityShape(t)
    ensures Ids(TemplatesForTheme(t, "feature")) == [t[0].id, t[1].id, t[2].id, t[4].id]
  {
    ThemeKeysDistinct();
    FilterFive(t, "feature");
    assert Keep(t[3], "feature") == [];
    assert TemplatesForTheme(t, "feature") == [t[0], t[1], t[2], t[4]];
  }

  lemma BetaOfShape(t: seq<Template>)
    requires SuitabilityShape(t)
    ensures Ids(TemplatesForTheme(t, "beta")) == [t[0].id, t[1].id, t[3].id]
  {
    ThemeKeysDistinct();
    FilterFive(t, "beta");
    assert Keep(t[2], "beta") == [];
    assert Keep(t[4], "beta") == [];
    assert TemplatesForTheme(t, "beta") == [t[0], t[1], t[3]];
  }

  /** The templates of the `feature` theme are classic, center, minimal and
      grid, in that order, in both tables. */
  lemma FeatureTemplates()
    ensures Ids(TemplatesForTheme(Templates(), "feature")) == ["classic", "center", "minimal", "grid"]
    ensures Ids(TemplatesForTheme(PreviewTemplates(), "feature")) == ["classic", "center", "minimal", "grid"]
  {
    TablesShape();
    FeatureOfShape(Templates());
    FeatureOfShape(PreviewTemplates());
  }

  /** The templates of the `beta` theme are classic, center and hero, in
      both tables. */
  lemma BetaTemplates()
    ensures Ids(TemplatesForTheme(Templates(), "beta")) == ["classic", "center", "hero"]
    ensures Ids(TemplatesForTheme(PreviewTemplates(), "beta")) == ["classic", "center", "hero"]
  {
    TablesShape();
    BetaOfShape(Templates());
    BetaOfShape(PreviewTemplates());
  }

  /** Every suitable theme a template names is a key of `themes`. */
  lemma SuitableThemesKnown()
    ensures forall k, j :: 0 <= k < |Templates()| && 0 <= j < |Templates()[k].suitableThemes| ==>
      Templates()[k].suitableThemes[j] in ThemeKeys()
  {
  }

  /** So a theme id that is not a key gets no template, from either table. */
  lemma UnknownThemeNoTemplates(themeId: string)
    requires themeId !in ThemeKeys()
    ensures TemplatesForTheme(Templates(), themeId) == []
    ensures TemplatesForTheme(PreviewTemplates(), themeId) == []
  {
    SuitableThemesKnown();
    TablesAgree();
    TemplatesForThemeMembers(Templates(), themeId);
    SameSuitabilitySameIds(Templates(), PreviewTemplates(), themeId);
  }

  /** `getContentTypesForTheme(themeId)`: the theme's content blocks, and
      `['basic']` for a theme that is not in the table. */
  function ContentTypesForTheme(themeId: string): (r: seq<string>)
    ensures themeId !in ThemeKeys() ==> r == ["basic"]
    ensures themeId in ThemeKeys() ==> r == ThemeById(themeId).value.contentTypes
  {
    match ThemeById(themeId)
    case Some(theme) => theme.contentTypes
    case None => ["basic"]
  }

  /** Every theme shows the basic block first and ends with the download
      buttons, whatever the id. */
  lemma ContentTypesShape(themeId: string)
    ensures var r := ContentTypesForTheme(themeId);
      |r| >= 1 && r[0] == "basic" && (themeId in ThemeKeys() ==> r[|r| - 1] == "downloads")
  {
  }

  /** `getTemplateById(templateId)`: the template stored under that key,
      the classic one otherwise. */
  function TemplateById(templateId: string): (r: Template)
    ensures r in PreviewTemplates()
    ensures templateId in Ids(PreviewTemplates()) ==> r.id == templateId
    ensures templateId !in Ids(PreviewTemplates()) ==> r == PreviewTemplates()[0]
  {
    if templateId in Ids(PreviewTemplates()) then Lookup(PreviewTemplates(), templateId)
    else PreviewTemplates()[0]
  }

  /** The first template with that id. */
  function Lookup(templates: seq<Template>, templateId: string): (r: Template)
    requires templateId in Ids(templates)
    ensures r in templates && r.id == templateId
  {
    if templates[0].id == templateId then templates[0]
    else
      assert Ids(templates) == [templates[0].id] + Ids(templates[1..]);
      Lookup(templates[1..], templateId)
  }

  /** An id the table does not hold gets the classic template. */
  lemma UnknownTemplateIsClassic(templateId: string)
    requires templateId !in {"classic", "center", "minimal", "hero", "grid"}
    ensures TemplateById(templateId) == PreviewTemplates()[0]
    ensures TemplateById(templateId).id == "classic"
  {
    TablesShape();
  }
}
