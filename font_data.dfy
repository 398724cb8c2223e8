/** The font catalogue: the font list, look-ups by category and by id,
    the `@font-face` rule of a font, and the loader that adds each font's
    style element to the document once. */
module FontData {
  import opened Wrappers
  import opened Text

  datatype Font = Font(id: string, name: string, file: string, category: Group)

  /** The three values a font's `category` takes. */
  datatype Group = English | Sf | Chinese

  /** The category's key in `FONT_CATEGORIES`. */
  function GroupId(g: Group): string {
    match g
    case English => "english"
    case Sf => "sf"
    case Chinese => "chinese"
  }

  /** `FONT_LIST`: the English fonts, then the SF family, then the Chinese
      fonts. */
  function FontList(): seq<Font> {
    EnglishFonts() + SfFonts() + ChineseFonts()
  }

  /** The English fonts of `FONT_LIST`. */
  function EnglishFonts(): seq<Font> {
    [ Font("3disometric-black", "3disometric Black", "3disometric Black.ttf", English),
      Font("3disometric-bold", "3disometric Bold", "3disometric Bold.ttf", English),
      Font("arandelle", "Arandelle", "Arandelle.otf", English),
      Font("bosthonbrush", "Bosthonbrush", "Bosthonbrush.otf", English),
      Font("classinfont", "ClassInFont", "ClassInFont.otf", English),
      Font("donjose-raices", "Donjose Raices", "Donjose Raices.otf", English),
      Font("ephesis", "Ephesis", "Ephesis Regular.ttf", English),
      Font("high-summit", "High Summit", "High Summit.ttf", English),
      Font("lack-line", "Lack Line", "Lack Line Regular.otf", English),
      Font("poppins-extralight", "Poppins ExtraLight", "Poppins-ExtraLightItalic.otf", English),
      Font("poppins-thin", "Poppins Thin", "Poppins-ThinItalic.otf", English),
      Font("rubik", "Rubik Seacamouflage", "Rubik Seacamouflage Regular.ttf", English) ]
  }

  /** The SF family of `FONT_LIST`. */
  function SfFonts(): seq<Font> {
    [ Font("sf-compact-black", "SF Compact Black", "SF-Compact-Display-Black.otf", Sf),
      Font("sf-compact-bold", "SF Compact Bold", "SF-Compact-Display-Bold.otf", Sf),
      Font("sf-compact-heavy", "SF Compact Heavy", "SF-Compact-Display-Heavy.otf", Sf),
      Font("sf-compact-light", "SF Compact Light", "SF-Compact-Display-Light.otf", Sf),
      Font("sf-compact-medium", "SF Compact Medium", "SF-Compact-Display-Medium.otf", Sf),
      Font("sf-compact-regular", "SF Compact Regular", "SF-Compact-Display-Regular.otf", Sf),
      Font("sf-compact-semibold", "SF Compact Semibold", "SF-Compact-Display-Semibold.otf", Sf),
      Font("sf-compact-thin", "SF Compact Thin", "SF-Compact-Display-Thin.otf", Sf),
      Font("sf-compact-ultralight", "SF Compact Ultralight", "SF-Compact-Display-Ultralight.otf", Sf) ]
  }

  /** The Chinese fonts of `FONT_LIST`. */
  function ChineseFonts(): seq<Font> {
    [ Font("aa-thick-black", "Aa \U{539a}\U{5e95}\U{9ed1}", "Aa\U{539a}\U{5e95}\U{9ed1}.ttf", Chinese),
      Font("ngaan", "\U{523b}\U{77f3}\U{5f55}\U{989c}\U{4f53}", "I.Ngaan \U{523b}\U{77f3}\U{5f55}\U{989c}\U{4f53}.ttf", Chinese),
      Font("pencrane", "\U{523b}\U{77f3}\U{5f55}\U{94a2}\U{7b14}\U{9e64}\U{4f53}", "I.PenCrane\U{523b}\U{77f3}\U{5f55}\U{94a2}\U{7b14}\U{9e64}\U{4f53}.ttf", Chinese),
      Font("jf-openhuninn", "jf open \U{7c89}\U{5706}", "jf open\U{7c89}\U{5706}jf-openhuninn-1.0.ttf", Chinese),
      Font("leefont", "Leefont \U{8499}\U{9ed1}\U{4f53}", "Leefont\U{8499}\U{9ed1}\U{4f53}.ttf", Chinese) ]
  }

  datatype FontCategory = FontCategory(id: string, name: string, icon: string)

  /** `FONT_CATEGORIES` in declaration order. */
  function FontCategories(): seq<FontCategory> {
    [ FontCategory("english", "\U{82f1}\U{6587}\U{5b57}\U{4f53}", "A"),
      FontCategory("sf", "SF \U{5b57}\U{4f53}", "SF"),
      FontCategory("chinese", "\U{4e2d}\U{6587}\U{5b57}\U{4f53}", "\U{4e2d}") ]
  }

  /** `getFontsByCategory(categoryId)`: `filter` on the category. */
  function FontsByCategory(fonts: seq<Font>, categoryId: string): (r: seq<Font>)
    ensures |r| <= |fonts|
  {
    if fonts == [] then []
    else if GroupId(fonts[0].category) == categoryId then [fonts[0]] + FontsByCategory(fonts[1..], categoryId)
    else FontsByCategory(fonts[1..], categoryId)
  }

  /** The filter keeps exactly the fonts of that category. */
  lemma {:induction false} FontsByCategoryMembers(fonts: seq<Font>, categoryId: string)
    ensures forall f :: f in FontsByCategory(fonts, categoryId) <==> f in fonts && GroupId(f.category) == categoryId
  {
    if fonts != [] {
      FontsByCategoryMembers(fonts[1..], categoryId);
      assert fonts == [fonts[0]] + fonts[1..];
    }
  }

  /** The filter keeps the list order: the result is the list with the other
      categories' fonts removed, so it splits along any split of the list. */
  lemma {:induction false} FontsByCategoryConcat(a: seq<Font>, b: seq<Font>, categoryId: string)
    ensures FontsByCategory(a + b, categoryId) == FontsByCategory(a, categoryId) + FontsByCategory(b, categoryId)
    decreases |a|
  {
    if a != [] {
      assert (a + b)[0] == a[0];
      assert (a + b)[1..] == a[1..] + b;
      FontsByCategoryConcat(a[1..], b, categoryId);
    } else {
      assert a + b == b;
    }
  }

  /** `getFontById(fontId)`: `find`, the first font with that id. */
  function FontById(fonts: seq<Font>, fontId: string): (r: Option<Font>)
    ensures r.Some? ==> r.value.id == fontId && r.value in fonts
    ensures r.Some? ==> r.value == fonts[FirstIndex(fonts, fontId)]
    ensures r.None? ==> forall k :: 0 <= k < |fonts| ==> fonts[k].id != fontId
  {
    if fonts == [] then None
    else if fonts[0].id == fontId then Some(fonts[0])
    else FontById(fonts[1..], fontId)
  }

  /** The index of the first font with that id, `|fonts|` when none has it. */
  function FirstIndex(fonts: seq<Font>, fontId: string): (k: nat)
    ensures k <= |fonts|
    ensures forall j :: 0 <= j < k ==> fonts[j].id != fontId
    ensures k < |fonts| ==> fonts[k].id == fontId
  {
    if fonts == [] then 0
    else if fonts[0].id == fontId then 0
    else 1 + FirstIndex(fonts[1..], fontId)
  }

  /** The `format(...)` of a font file. */
  function Format(file: string): (f: string)
    ensures f == "opentype" <==> EndsWith(file, ".otf")
    ensures f == "truetype" <==> !EndsWith(file, ".otf")
  {
    if EndsWith(file, ".otf") then "opentype" else "truetype"
  }

  /** `generateFontFace(font)`: the rule text, with the family, the url
      under `/fonts/` and the format. */
  function GenerateFontFace(font: Font): string {
    FaceOpen() + FamilyDecl(font.name) + "\n      src: " + SourceDecl(font.file) + FaceClose()
  }

  function FaceOpen(): string {
    "\n    @font-face {\n      "
  }

  function FamilyDecl(name: string): string {
    "font-family: '" + name + "';"
  }

  function SourceDecl(file: string): string {
    "url('/fonts/" + file + "') format('" + Format(file) + "')"
  }

  function FaceClose(): string {
    ";\n      font-weight: normal;\n      font-style: normal;\n    }\n  "
  }

  /** The rule declares the font's name as the family and loads its file
      from `/fonts/` in the format of its extension. */
  lemma FontFaceNamesFile(font: Font)
    ensures Contains(GenerateFontFace(font), "font-family: '" + font.name + "';")
    ensures Contains(GenerateFontFace(font), "url('/fonts/" + font.file + "') format('" + Format(font.file) + "')")
  {
    var family, src := FamilyDecl(font.name), SourceDecl(font.file);
    var r := GenerateFontFace(font);
    assert r == FaceOpen() + family + ("\n      src: " + src + FaceClose());
    ContainsMiddle(FaceOpen(), family, "\n      src: " + src + FaceClose());
    assert r == (FaceOpen() + family + "\n      src: ") + src + FaceClose();
    ContainsMiddle(FaceOpen() + family + "\n      src: ", src, FaceClose());
  }

  lemma ContainsMiddle(a: string, b: string, c: string)
    ensures Contains(a + b + c, b)
  {
    assert (a + b + c)[|a|..|a| + |b|] == b;
    assert OccursAt(a + b + c, b, |a|);
  }

  /** Every font's category is a key of `FONT_CATEGORIES`. */
  lemma FontCategoriesKnown()
    ensures forall f :: f in FontList() ==>
      exists c :: 0 <= c < |FontCategories()| && FontCategories()[c].id == GroupId(f.category)
  {
    var cats := FontCategories();
    assert cats[0].id == GroupId(English) && cats[1].id == GroupId(Sf) && cats[2].id == GroupId(Chinese);
  }

  /** Each part of the list holds fonts of one category. */
  lemma GroupCategories()
    ensures InGroup(EnglishFonts(), English)
    ensures InGroup(SfFonts(), Sf)
    ensures InGroup(ChineseFonts(), Chinese)
  {
  }

  predicate InGroup(fonts: seq<Font>, g: Group) {
    forall k :: 0 <= k < |fonts| ==> fonts[k].category == g
  }

  predicate DistinctIds(fonts: seq<Font>) {
    forall j, k :: 0 <= j < k < |fonts| ==> fonts[j].id != fonts[k].id
  }

  /** No font of `a` shares its id with a font of `b`. */
  predicate IdsApart(a: seq<Font>, b: seq<Font>) {
    forall j, k :: 0 <= j < |a| && 0 <= k < |b| ==> a[j].id != b[k].id
  }

  lemma EnglishIdsDistinct()
    ensures DistinctIds(EnglishFonts())
  {
    var e := EnglishFonts();
    EnglishHeadDistinct();
    EnglishTailDistinct();
    EnglishHalvesApart();
    DistinctConcat(e[..6], e[6..]);
    assert e == e[..6] + e[6..];
  }

  lemma EnglishHeadDistinct()
    ensures DistinctIds(EnglishFonts()[..6])
  {
  }

  lemma EnglishTailDistinct()
    ensures DistinctIds(EnglishFonts()[6..])
  {
  }

  lemma EnglishHalvesApart()
    ensures IdsApart(EnglishFonts()[..6], EnglishFonts()[6..])
  {
  }

  lemma SfIdsDistinct()
    ensures DistinctIds(SfFonts())
  {
  }

  lemma ChineseIdsDistinct()
    ensures DistinctIds(ChineseFonts())
  {
  }

  lemma EnglishHeadSfApart()
    ensures IdsApart(EnglishFonts()[..6], SfFonts())
  {
  }

  lemma EnglishTailSfApart()
    ensures IdsApart(EnglishFonts()[6..], SfFonts())
  {
  }

  lemma EnglishChineseApart()
    ensures IdsApart(EnglishFonts(), ChineseFonts())
  {
  }

  lemma SfChineseApart()
    ensures IdsApart(SfFonts(), ChineseFonts())
  {
  }

  lemma {:induction false} ApartConcat(a: seq<Font>, b: seq<Font>, c: seq<Font>)
    requires IdsApart(a, c) && IdsApart(b, c)
    ensures IdsApart(a + b, c)
  {
    forall j, k | 0 <= j < |a + b| && 0 <= k < |c| ensures (a + b)[j].id != c[k].id {
      if j < |a| {
        assert (a + b)[j] == a[j];
      } else {
        assert (a + b)[j] == b[j - |a|];
      }
    }
  }

  lemma {:induction false} DistinctConcat(a: seq<Font>, b: seq<Font>)
    requires DistinctIds(a) && DistinctIds(b) && IdsApart(a, b)
    ensures DistinctIds(a + b)
  {
    var ab := a + b;
    forall j, k | 0 <= j < k < |ab| ensures ab[j].id != ab[k].id {
      if k < |a| {
        assert ab[j] == a[j] && ab[k] == a[k];
      } else if j >= |a| {
        assert ab[j] == b[j - |a|] && ab[k] == b[k - |a|];
      } else {
        assert ab[j] == a[j] && ab[k] == b[k - |a|];
      }
    }
  }

  /** Font ids are distinct. */
  lemma FontIdsDistinct()
    ensures DistinctIds(FontList())
  {
    var e, s, c := EnglishFonts(), SfFonts(), ChineseFonts();
    EnglishIdsDistinct();
    SfIdsDistinct();
    ChineseIdsDistinct();
    EnglishHeadSfApart();
    EnglishTailSfApart();
    EnglishChineseApart();
    SfChineseApart();
    assert e == e[..6] + e[6..];
    ApartConcat(e[..6], e[6..], s);
    DistinctConcat(e, s);
    ApartConcat(e, s, c);
    DistinctConcat(e + s, c);
  }

  /** English has 12 fonts, SF 9 and Chinese 5: every font is in exactly
      one category. */
  lemma CategorySizes()
    ensures |FontsByCategory(FontList(), "english")| == 12
    ensures |FontsByCategory(FontList(), "sf")| == 9
    ensures |FontsByCategory(FontList(), "chinese")| == 5
  {
    GroupCategories();
    PartitionSizes(EnglishFonts(), SfFonts(), ChineseFonts());
  }

  /** A list made of an English, an SF and a Chinese part splits back into
      those parts by category. */
  lemma PartitionSizes(e: seq<Font>, s: seq<Font>, c: seq<Font>)
    requires InGroup(e, English) && InGroup(s, Sf) && InGroup(c, Chinese)
    ensures FontsByCategory(e + s + c, "english") == e
    ensures FontsByCategory(e + s + c, "sf") == s
    ensures FontsByCategory(e + s + c, "chinese") == c
  {
    var en, sf, zh := GroupId(English), GroupId(Sf), GroupId(Chinese);
    assert en != sf && en != zh && sf != zh by {
      assert en[0] == 'e' && sf[0] == 's' && zh[0] == 'c';
    }
    AllOneCategory(e, English);
    AllOneCategory(s, Sf);
    AllOneCategory(c, Chinese);
    NoneOfOther(e, English, sf);
    NoneOfOther(e, English, zh);
    NoneOfOther(s, Sf, en);
    NoneOfOther(s, Sf, zh);
    NoneOfOther(c, Chinese, en);
    NoneOfOther(c, Chinese, sf);
    SplitCount(e, s, c, en);
    SplitCount(e, s, c, sf);
    SplitCount(e, s, c, zh);
  }

  lemma SplitCount(e: seq<Font>, s: seq<Font>, c: seq<Font>, categoryId: string)
    ensures FontsByCategory(e + s + c, categoryId) ==
      FontsByCategory(e, categoryId) + FontsByCategory(s, categoryId) + FontsByCategory(c, categoryId)
  {
    FontsByCategoryConcat(e + s, c, categoryId);
    FontsByCategoryConcat(e, s, categoryId);
  }

  /** A list of one category: the filter keeps all of it for that category
      and none of it for another. */
  lemma {:induction false} AllOneCategory(fonts: seq<Font>, g: Group)
    requires InGroup(fonts, g)
    ensures FontsByCategory(fonts, GroupId(g)) == fonts
  {
    if fonts != [] {
      AllOneCategory(fonts[1..], g);
    }
  }

  lemma {:induction false} NoneOfOther(fonts: seq<Font>, g: Group, other: string)
    requires InGroup(fonts, g) && other != GroupId(g)
    ensures FontsByCategory(fonts, other) == []
  {
    if fonts != [] {
      NoneOfOther(fonts[1..], g, other);
    }
  }

  /** A style element of the document head. */
  datatype StyleElement = StyleElement(id: string, textContent: string)

  /** The document head, as far as `loadFont` reads and writes it. */
  class FontHead {
    var elements: seq<StyleElement>

    /** No two elements share an id. */
    predicate Valid()
      reads this
    {
      forall j, k :: 0 <= j < k < |elements| ==> elements[j].id != elements[k].id
    }

    predicate HasId(id: string)
      reads this
    {
      exists k :: 0 <= k < |elements| && elements[k].id == id
    }

    constructor()
      ensures elements == [] && Valid()
    {
      elements := [];
    }

    /** `loadFont(font)`: nothing when an element `font-<id>` exists, and
        otherwise a new element carrying the font's rule. */
    method LoadFont(font: Font)
      requires Valid()
      modifies this
      ensures Valid() && HasId("font-" + font.id)
      ensures old(HasId("font-" + font.id)) ==> elements == old(elements)
      ensures !old(HasId("font-" + font.id)) ==>
        elements == old(elements) + [StyleElement("font-" + font.id, GenerateFontFace(font))]
    {
      var styleId := "font-" + font.id;
      var found := FindElement(styleId);
      if found {
        return;
      }
      elements := elements + [StyleElement(styleId, GenerateFontFace(font))];
      assert elements[|elements| - 1].id == styleId;
    }

    /** `document.getElementById(styleId)`, as a scan of the head. */
    method FindElement(id: string) returns (found: bool)
      ensures found <==> HasId(id)
    {
      var i := 0;
      while i < |elements|
        invariant 0 <= i <= |elements|
        invariant forall k :: 0 <= k < i ==> elements[k].id != id
      {
        if elements[i].id == id {
          return true;
        }
        i := i + 1;
      }
      return false;
    }
  }
}
