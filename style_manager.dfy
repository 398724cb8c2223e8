/** The text style manager: the class names a text element gets from its
    variant (`app-name`, `title`, `subtitle`, `text`) and the template it
    sits in, the layout classes of the templates' wrappers, and the inline
    font style built from the typography settings. An argument the caller
    leaves out is passed here as its default: template `"default"`, custom
    class `""`. */
module StyleManager {
  import opened Wrappers
  import opened JsValue
  import opened Text

  /** `textVariantClasses[variant]`. */
  function VariantClass(variant: string): Option<string> {
    if variant == "app-name" then Some("")
    else if variant == "title" then Some("main-content-title")
    else if variant == "subtitle" then Some("main-content-subtitle")
    else if variant == "text" then Some("main-content-text")
    else None
  }

  /** `templateTextSizes[template]?.[variant]`. */
  function TemplateSize(template: string, variant: string): Option<string> {
    if template == "diagonal" then
      if variant == "title" then Some("text-5xl md:text-6xl font-black leading-tight")
      else if variant == "subtitle" then Some("text-xl leading-relaxed opacity-90")
      else if variant == "app-name" then Some("text-xl")
      else None
    else if template == "topBottom" then
      if variant == "title" then Some("text-3xl leading-tight mb-2")
      else if variant == "subtitle" then Some("text-lg leading-relaxed")
      else if variant == "app-name" then Some("text-2xl")
      else None
    else if template == "featureGrid" then
      if variant == "title" then Some("text-4xl leading-tight mb-8")
      else if variant == "subtitle" then Some("text-lg leading-relaxed mb-12")
      else if variant == "app-name" then Some("text-xl")
      else None
    else if template == "default" then
      if variant == "title" then Some("text-4xl leading-tight")
      else if variant == "subtitle" then Some("text-lg leading-relaxed")
      else if variant == "app-name" then Some("text-xl")
      else None
    else None
  }

  /** A word of `n` characters with no white space at either end. */
  lemma CleanWord(s: string, n: nat)
    requires |s| == n && n > 0 && !IsSpace(s[0]) && !IsSpace(s[n - 1])
    ensures Clean(s) && s != []
  {
  }

  /** Every base class is clean, and only the app name's is empty. */
  lemma VariantClassesClean(variant: string)
    ensures VariantClass(variant).Some? ==> Clean(VariantClass(variant).value)
    ensures variant in {"title", "subtitle", "text"} ==> VariantClass(variant).value != []
  {
    if variant == "title" {
      CleanWord("main-content-title", 18);
    } else if variant == "subtitle" {
      CleanWord("main-content-subtitle", 21);
    } else if variant == "text" {
      CleanWord("main-content-text", 17);
    }
  }

  /** Every size class in the table is a non-empty clean class list. */
  lemma TemplateSizesClean(template: string, variant: string)
    ensures TemplateSize(template, variant).Some? ==>
      Clean(TemplateSize(template, variant).value) && TemplateSize(template, variant).value != []
  {
    if template == "diagonal" {
      DiagonalSizesClean(variant);
    } else if template == "topBottom" {
      TopBottomSizesClean(variant);
    } else if template == "featureGrid" {
      FeatureGridSizesClean(variant);
    } else if template == "default" {
      DefaultSizesClean(variant);
    }
  }

  lemma DiagonalSizesClean(variant: string)
    ensures TemplateSize("diagonal", variant).Some? ==>
      Clean(TemplateSize("diagonal", variant).value) && TemplateSize("diagonal", variant).value != []
  {
    if variant == "title" { DiagonalTitleClean(); }
    else if variant == "subtitle" { CleanWord("text-xl leading-relaxed opacity-90", 34); }
    else if variant == "app-name" { CleanWord("text-xl", 7); }
  }

  /** The diagonal title's class list, split in two so that its first and
      last characters can be read off. */
  lemma DiagonalTitleClean()
    ensures Clean("text-5xl md:text-6xl font-black leading-tight")
  {
    var t := "text-5xl md:text-6xl font-black leading-tight";
    var u := "text-5xl md:text-6xl font-black";
    var v := " leading-tight";
    assert t == u + v;
    assert t[0] == u[0] && u[0] == 't';
    assert t[44] == v[13] && v[13] == 't';
    CleanWord(t, 45);
  }

  lemma TopBottomSizesClean(variant: string)
    ensures TemplateSize("topBottom", variant).Some? ==>
      Clean(TemplateSize("topBottom", variant).value) && TemplateSize("topBottom", variant).value != []
  {
    if variant == "title" { CleanWord("text-3xl leading-tight mb-2", 27); }
    else if variant == "subtitle" { CleanWord("text-lg leading-relaxed", 23); }
    else if variant == "app-name" { CleanWord("text-2xl", 8); }
  }

  lemma FeatureGridSizesClean(variant: string)
    ensures TemplateSize("featureGrid", variant).Some? ==>
      Clean(TemplateSize("featureGrid", variant).value) && TemplateSize("featureGrid", variant).value != []
  {
    if variant == "title" { CleanWord("text-4xl leading-tight mb-8", 27); }
    else if variant == "subtitle" { CleanWord("text-lg leading-relaxed mb-12", 29); }
    else if variant == "app-name" { CleanWord("text-xl", 7); }
  }

  lemma DefaultSizesClean(variant: string)
    ensures TemplateSize("default", variant).Some? ==>
      Clean(TemplateSize("default", variant).value) && TemplateSize("default", variant).value != []
  {
    if variant == "title" { CleanWord("text-4xl leading-tight", 22); }
    else if variant == "subtitle" { CleanWord("text-lg leading-relaxed", 23); }
    else if variant == "app-name" { CleanWord("text-xl", 7); }
  }

  /** `o || ''` on an optional class name: a missing or empty entry gives
      the empty string. */
  function OrEmpty(o: Option<string>): string {
    if o.Some? then o.value else ""
  }

  /** The size class: the template's own entry, the default template's entry
      when the template has none (or is unknown), and nothing otherwise. */
  function SizeClass(template: string, variant: string): (r: string)
    ensures r != [] ==> TemplateSize(template, variant) == Some(r) || TemplateSize("default", variant) == Some(r)
    ensures TemplateSize(template, variant).None? && TemplateSize("default", variant).None? ==> r == []
  {
    var own := OrEmpty(TemplateSize(template, variant));
    if own != [] then own else OrEmpty(TemplateSize("default", variant))
  }

  /** `getTextClass(variant, template, customClass)`: the base, size and
      custom classes, one space apart, with the outer spaces trimmed. */
  function TextClass(variant: string, template: string, customClass: string): (r: string)
    ensures Clean(r)
  {
    TrimClean(Joined(OrEmpty(VariantClass(variant)), SizeClass(template, variant), customClass));
    Trim(Joined(OrEmpty(VariantClass(variant)), SizeClass(template, variant), customClass))
  }

  /** No white space at either end. */
  predicate Clean(s: string) {
    s == [] || (!IsSpace(s[0]) && !IsSpace(s[|s| - 1]))
  }

  /** A space and the custom class after it, when there is one. */
  function Suffix(customClass: string): string {
    if customClass == [] then [] else " " + customClass
  }

  predicate AllSpace(w: string) {
    forall i :: 0 <= i < |w| ==> IsSpace(w[i])
  }

  /** Trimming leaves no white space at either end. */
  lemma TrimClean(s: string)
    ensures Clean(Trim(s))
  {
    var t := TrimStart(s);
    var r := TrimEnd(t);
    if r != [] {
      assert r[0] == t[0];
    }
  }

  lemma TrimOfClean(s: string)
    requires Clean(s)
    ensures Trim(s) == s
  {
  }

  /** Leading white space is dropped. */
  lemma {:induction false} TrimLeading(w: string, s: string)
    requires AllSpace(w)
    ensures Trim(w + s) == Trim(s)
    decreases |w|
  {
    if w != [] {
      assert (w + s)[1..] == w[1..] + s;
      TrimLeading(w[1..], s);
    } else {
      assert w + s == s;
    }
  }

  /** Trailing white space after a clean word is dropped. */
  lemma {:induction false} TrimTrailing(s: string, w: string)
    requires Clean(s) && s != []
    requires AllSpace(w)
    ensures Trim(s + w) == s
    decreases |w|
  {
    assert TrimStart(s + w) == s + w;
    if w != [] {
      var t := s + w;
      assert t[..|t| - 1] == s + w[..|w| - 1];
      TrimTrailing(s, w[..|w| - 1]);
    } else {
      assert s + w == s;
    }
  }

  /** Trimming removes the white space around a clean word, and only that. */
  lemma TrimAround(w1: string, x: string, w2: string)
    requires AllSpace(w1) && AllSpace(w2) && Clean(x)
    ensures Trim(w1 + x + w2) == x
  {
    assert w1 + x + w2 == w1 + (x + w2);
    TrimLeading(w1, x + w2);
    if x != [] {
      TrimTrailing(x, w2);
    } else {
      assert x + w2 == w2 + x;
      TrimLeading(w2, x);
    }
  }

  /** `${a} ${b} ${c}`. */
  function Joined(a: string, b: string, c: string): string {
    a + " " + b + " " + c
  }

  /** Two spaces and the custom class after them, when there is one: what
      follows the base class of plain text. */
  function DoubleSuffix(customClass: string): string {
    if customClass == [] then [] else "  " + customClass
  }

  /** A clean word followed by a clean custom class is clean. */
  lemma CleanSuffix(x: string, c: string)
    requires Clean(x) && Clean(c) && x != []
    ensures Clean(x + Suffix(c)) && x + Suffix(c) != []
    ensures Clean(x + DoubleSuffix(c)) && x + DoubleSuffix(c) != []
  {
    if c != [] {
      var t := x + Suffix(c);
      assert t[0] == x[0] && t[|t| - 1] == c[|c| - 1];
      var u := x + DoubleSuffix(c);
      assert u[0] == x[0] && u[|u| - 1] == c[|c| - 1];
    } else {
      assert x + Suffix(c) == x && x + DoubleSuffix(c) == x;
    }
  }

  /** `${base} ${size} ${custom}`.trim() for clean parts: the parts that are
      there, one space apart, except that an empty size class between a base
      and a custom class leaves two. */
  lemma JoinShape(a: string, b: string, c: string)
    requires Clean(a) && Clean(b) && Clean(c)
    ensures a != [] && b != [] ==> Trim(Joined(a, b, c)) == a + " " + b + Suffix(c)
    ensures a == [] && b != [] ==> Trim(Joined(a, b, c)) == b + Suffix(c)
    ensures a != [] && b == [] ==> Trim(Joined(a, b, c)) == a + DoubleSuffix(c)
    ensures a == [] && b == [] ==> Trim(Joined(a, b, c)) == c
  {
    if a != [] && b != [] {
      JoinBoth(a, b, c);
    } else if b != [] {
      JoinSizeOnly(b, c);
    } else if a != [] {
      JoinBaseOnly(a, c);
    } else {
      assert Joined(a, b, c) == "  " + c + "";
      TrimAround("  ", c, "");
    }
  }

  lemma JoinBoth(a: string, b: string, c: string)
    requires Clean(a) && Clean(b) && Clean(c) && a != [] && b != []
    ensures Trim(Joined(a, b, c)) == a + " " + b + Suffix(c)
  {
    var t := a + " " + b;
    var w := if c == [] then " " else "";
    assert Joined(a, b, c) == "" + (t + Suffix(c)) + w;
    assert t[0] == a[0] && t[|t| - 1] == b[|b| - 1];
    CleanSuffix(t, c);
    TrimAround("", t + Suffix(c), w);
  }

  lemma JoinSizeOnly(b: string, c: string)
    requires Clean(b) && Clean(c) && b != []
    ensures Trim(Joined("", b, c)) == b + Suffix(c)
  {
    var w := if c == [] then " " else "";
    assert Joined("", b, c) == " " + (b + Suffix(c)) + w;
    CleanSuffix(b, c);
    TrimAround(" ", b + Suffix(c), w);
  }

  lemma JoinBaseOnly(a: string, c: string)
    requires Clean(a) && Clean(c) && a != []
    ensures Trim(Joined(a, "", c)) == a + DoubleSuffix(c)
  {
    var w := if c == [] then "  " else "";
    assert Joined(a, "", c) == "" + (a + DoubleSuffix(c)) + w;
    CleanSuffix(a, c);
    TrimAround("", a + DoubleSuffix(c), w);
  }

  /** The class of a text in a template: for a title or subtitle the base
      class, one space and the size class; for the app name (whose base is
      empty) the size class alone; for plain text the base class; for an
      unknown variant nothing; then the custom class after one space, except
      after plain text, whose empty size class leaves two. */
  lemma TextClassShape(variant: string, template: string, customClass: string)
    requires Clean(customClass)
    ensures variant == "title" || variant == "subtitle" ==>
      TextClass(variant, template, customClass) ==
        VariantClass(variant).value + " " + SizeClass(template, variant) + Suffix(customClass)
    ensures variant == "app-name" ==>
      TextClass(variant, template, customClass) == SizeClass(template, variant) + Suffix(customClass)
    ensures variant == "text" ==>
      TextClass(variant, template, customClass) ==
        "main-content-text" + DoubleSuffix(customClass)
    ensures VariantClass(variant).None? ==> TextClass(variant, template, customClass) == customClass
  {
    SizeClassShape(template, variant);
    VariantClassesClean(variant);
    var base := OrEmpty(VariantClass(variant));
    var size := SizeClass(template, variant);
    JoinShape(base, size, customClass);
  }

  /** The templates `templateTextSizes` holds. */
  function SizeTemplates(): set<string> {
    {"diagonal", "topBottom", "featureGrid", "default"}
  }

  /** Every size class is a non-empty clean class list; a known template
      gives its own, an unknown one the default template's, and `text` or an
      unknown variant none at all. */
  lemma SizeClassShape(template: string, variant: string)
    ensures Clean(SizeClass(template, variant))
    ensures variant in {"title", "subtitle", "app-name"} ==> SizeClass(template, variant) != []
    ensures variant in {"title", "subtitle", "app-name"} && template in SizeTemplates() ==>
      TemplateSize(template, variant) == Some(SizeClass(template, variant))
    ensures template !in SizeTemplates() ==> SizeClass(template, variant) == SizeClass("default", variant)
    ensures variant !in {"title", "subtitle", "app-name"} ==> SizeClass(template, variant) == []
  {
    TemplateSizesClean(template, variant);
    TemplateSizesClean("default", variant);
  }

  /** Without a template or custom class the app name is `text-xl`, and
      so it is in a template the size table does not know. */
  lemma DefaultAppNameClass(template: string)
    requires template !in SizeTemplates()
    ensures TextClass("app-name", "default", "") == "text-xl"
    ensures TextClass("app-name", template, "") == "text-xl"
  {
    TextClassShape("app-name", "default", "");
    TextClassShape("app-name", template, "");
    SizeClassShape(template, "app-name");
  }

  /** `templateLayoutClasses[template]?.[element]`. */
  function LayoutEntry(template: string, element: string): Option<string> {
    if template == "diagonal" then
      if element == "container" then Some("flex flex-col h-full justify-between")
      else if element == "iconWrapper" then Some("flex items-end gap-3")
      else if element == "titleWrapper" then Some("space-y-4")
      else if element == "featureList" then Some("space-y-2 text-lg opacity-90 mt-6")
      else None
    else if template == "topBottom" then
      if element == "container" then Some("flex items-center gap-6 justify-center")
      else if element == "iconWrapper" then
        Some("w-20 h-20 rounded-3xl overflow-hidden bg-white/20 flex items-center justify-center text-3xl font-bold flex-shrink-0")
      else if element == "contentWrapper" then Some("flex-1 flex flex-col justify-center min-h-[80px]")
      else if element == "appNameWrapper" then Some("flex items-end h-20")
      else None
    else if template == "featureGrid" then
      if element == "container" then Some("")
      else if element == "iconWrapper" then Some("flex items-center justify-center gap-4 mb-8")
      else if element == "titleWrapper" then Some("")
      else None
    else None
  }

  /** `getLayoutClass(template, element)`: the table's entry, the empty
      string when there is none. */
  function LayoutClass(template: string, element: string): (r: string)
    ensures LayoutEntry(template, element).None? ==> r == []
    ensures LayoutEntry(template, element).Some? ==> r == LayoutEntry(template, element).value
  {
    OrEmpty(LayoutEntry(template, element))
  }

  /** An unknown template has no layout classes at all, and the feature
      grid's container and title wrapper carry none either. */
  lemma LayoutClassMissing(template: string, element: string)
    ensures template !in {"diagonal", "topBottom", "featureGrid"} ==> LayoutClass(template, element) == []
    ensures LayoutClass("featureGrid", "container") == [] && LayoutClass("featureGrid", "titleWrapper") == []
    ensures LayoutClass("diagonal", "contentWrapper") == [] && LayoutClass("topBottom", "titleWrapper") == []
  {
  }

  /** The typography key and default weight of a variant that has one. */
  function WeightOf(variant: string): Option<(string, real)> {
    if variant == "app-name" then Some(("appNameWeight", 600.0))
    else if variant == "title" then Some(("titleWeight", 700.0))
    else if variant == "subtitle" then Some(("subtitleWeight", 400.0))
    else None
  }

  /** `getTextStyle(variant, typography)`. */
  function TextStyle(variant: string, typography: Object): (r: Object)
    ensures WeightOf(variant).Some? ==> r.Keys == {"color", "fontFamily", "fontWeight"}
    ensures WeightOf(variant).None? ==> r.Keys == {"color", "fontFamily"}
  {
    var base := map[
      "color" := Or(Get(typography, "textColor"), Str("#ffffff")),
      "fontFamily" := Get(typography, "fontFamily")];
    match WeightOf(variant)
    case None => base
    case Some((key, weight)) => Spread(base, map["fontWeight" := Or(Get(typography, key), Number(weight))])
  }

  /** The colour is the configured text colour when it is set and white
      otherwise, the family is passed through, and a variant with a weight
      gets the configured weight when it is set and its default otherwise;
      colour and weight are never empty. */
  lemma TextStyleDefaults(variant: string, typography: Object)
    ensures var r := TextStyle(variant, typography);
      Truthy(r["color"]) &&
      (Truthy(Get(typography, "textColor")) ==> r["color"] == typography["textColor"]) &&
      (!Truthy(Get(typography, "textColor")) ==> r["color"] == Str("#ffffff")) &&
      r["fontFamily"] == Get(typography, "fontFamily")
    ensures WeightOf(variant).Some? ==>
      var (key, weight) := WeightOf(variant).value;
      var r := TextStyle(variant, typography);
      Truthy(r["fontWeight"]) &&
      (Truthy(Get(typography, key)) ==> r["fontWeight"] == typography[key]) &&
      (!Truthy(Get(typography, key)) ==> r["fontWeight"] == Number(weight))
  {
  }

  /** With no typography settings: white, no family, and the weights 600,
      700 and 400 for the app name, the title and the subtitle; plain text
      and unknown variants carry no weight. */
  lemma EmptyTypography()
    ensures TextStyle("app-name", map[]) == map["color" := Str("#ffffff"), "fontFamily" := Undefined, "fontWeight" := Number(600.0)]
    ensures TextStyle("title", map[]) == map["color" := Str("#ffffff"), "fontFamily" := Undefined, "fontWeight" := Number(700.0)]
    ensures TextStyle("subtitle", map[]) == map["color" := Str("#ffffff"), "fontFamily" := Undefined, "fontWeight" := Number(400.0)]
    ensures TextStyle("text", map[]) == map["color" := Str("#ffffff"), "fontFamily" := Undefined]
  {
  }

  /** Every variant shares the same colour and family. */
  lemma SameBaseStyle(v1: string, v2: string, typography: Object)
    ensures TextStyle(v1, typography)["color"] == TextStyle(v2, typography)["color"]
    ensures TextStyle(v1, typography)["fontFamily"] == TextStyle(v2, typography)["fontFamily"]
  {
  }
}
