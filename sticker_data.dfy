/** The sticker catalogue: five categories of numbered SVG files, the
    sticker list of one category, the case-insensitive search over the
    catalogue and the category statistics. */
module StickerData {
  import opened Wrappers
  import opened Text

  /** One entry of `STICKER_CATEGORIES`; `filePattern(i)` is
      `stem_<i>.svg`. */
  datatype Category = Category(
    id: string,
    name: string,
    displayName: string,
    path: string,
    icon: string,
    count: nat,
    stem: string)

  /** `STICKER_CATEGORIES` in declaration order (`Object.values`). */
  function Categories(): seq<Category> {
    [ Category("arrows", "Arrows", "\U{7bad}\U{5934}", "/stickers/arrows/", "\U{27a1}\U{fe0f}", 185, "arrow"),
      Category("doodles", "Doodles", "\U{6d82}\U{9e26}", "/stickers/doodles/", "\U{270f}\U{fe0f}", 350, "doodle"),
      Category("illustrations", "Illustrations", "\U{63d2}\U{56fe}", "/stickers/illustrations/", "\U{1f3a8}", 54, "illustration"),
      Category("infographic", "Infographic", "\U{4fe1}\U{606f}\U{56fe}", "/stickers/infographic/", "\U{1f4ca}", 11, "infographic"),
      Category("underlines", "Underlines", "\U{4e0b}\U{5212}\U{7ebf}", "/stickers/underlines/", "\U{1f4cf}", 32, "underline") ]
  }

  /** `STICKER_CATEGORIES[categoryId]` in a table of categories: the first
      one with that id, absent when there is none. */
  function CategoryById(table: seq<Category>, categoryId: string): (c: Option<Category>)
    ensures c.Some? ==> c.value in table && c.value.id == categoryId
    ensures c.None? ==> forall k :: 0 <= k < |table| ==> table[k].id != categoryId
  {
    if table == [] then None
    else if table[0].id == categoryId then Some(table[0])
    else CategoryById(table[1..], categoryId)
  }

  /** Ids are keys of an object: no two categories share one. */
  predicate DistinctIds(table: seq<Category>) {
    forall j, k :: 0 <= j < k < |table| ==> table[j].id != table[k].id
  }

  /** In a table with distinct ids, every category is found by its id. */
  lemma {:induction false} FindsEach(table: seq<Category>, k: nat)
    requires DistinctIds(table) && k < |table|
    ensures CategoryById(table, table[k].id) == Some(table[k])
    decreases k
  {
    if k > 0 {
      assert table[0].id != table[k].id;
      FindsEach(table[1..], k - 1);
    }
  }

  /** `category.filePattern(i)`. */
  function FileName(c: Category, i: nat): string {
    c.stem + "_" + NatToString(i) + ".svg"
  }

  datatype Sticker = Sticker(
    id: string,
    categoryId: string,
    fileName: string,
    filePath: string,
    name: string,
    thumbnail: string)

  /** The `i`-th sticker (from 1) of a category. */
  function StickerAt(c: Category, categoryId: string, i: nat): Sticker {
    Sticker(categoryId + "_" + NatToString(i), categoryId, FileName(c, i),
      c.path + FileName(c, i), c.displayName + " " + NatToString(i), c.path + FileName(c, i))
  }

  /** What `getStickersInCategory` returns: nothing for an unknown id, and
      otherwise `count` stickers numbered from 1. */
  function StickersOf(table: seq<Category>, categoryId: string): (r: seq<Sticker>)
    ensures CategoryById(table, categoryId).None? ==> r == []
    ensures CategoryById(table, categoryId).Some? ==>
      |r| == CategoryById(table, categoryId).value.count &&
      forall k :: 0 <= k < |r| ==> r[k] == StickerAt(CategoryById(table, categoryId).value, categoryId, k + 1)
  {
    match CategoryById(table, categoryId)
    case None => []
    case Some(c) => seq(c.count, k requires 0 <= k => StickerAt(c, categoryId, k + 1))
  }

  /** `getStickersInCategory(categoryId)`: the `for` loop pushing one
      sticker per number. */
  method StickersInCategory(table: seq<Category>, categoryId: string) returns (stickers: seq<Sticker>)
    ensures stickers == StickersOf(table, categoryId)
  {
    var category := CategoryById(table, categoryId);
    if category.None? {
      return [];
    }
    var c := category.value;
    stickers := [];
    var i := 1;
    while i <= c.count
      invariant 1 <= i <= c.count + 1
      invariant |stickers| == i - 1
      invariant forall k :: 0 <= k < |stickers| ==> stickers[k] == StickerAt(c, categoryId, k + 1)
    {
      stickers := stickers + [StickerAt(c, categoryId, i)];
      i := i + 1;
    }
  }

  lemma PrefixCancel(p: string, x: string, y: string)
    requires p + x == p + y
    ensures x == y
  {
    assert x == (p + x)[|p|..];
    assert y == (p + y)[|p|..];
  }

  lemma SuffixCancel(x: string, y: string, q: string)
    requires x + q == y + q
    ensures x == y
  {
    assert x == (x + q)[..|x|];
    assert y == (y + q)[..|y|];
  }

  /** Different numbers give different ids and different file names. */
  lemma NumberedDistinct(c: Category, categoryId: string, i: nat, j: nat)
    requires i != j
    ensures StickerAt(c, categoryId, i).id != StickerAt(c, categoryId, j).id
    ensures StickerAt(c, categoryId, i).fileName != StickerAt(c, categoryId, j).fileName
  {
    var si, sj := NatToString(i), NatToString(j);
    if si == sj {
      NatToStringInjective(i, j);
    }
    var p := c.stem + "_";
    assert FileName(c, i) == (p + si) + ".svg" && FileName(c, j) == (p + sj) + ".svg";
    if FileName(c, i) == FileName(c, j) {
      SuffixCancel(p + si, p + sj, ".svg");
      PrefixCancel(p, si, sj);
    }
    if StickerAt(c, categoryId, i).id == StickerAt(c, categoryId, j).id {
      PrefixCancel(categoryId + "_", si, sj);
    }
  }

  /** The stickers of one category have pairwise distinct ids, and each
      file name appears once. */
  lemma StickerIdsDistinct(table: seq<Category>, categoryId: string)
    ensures var r := StickersOf(table, categoryId);
      forall j, k :: 0 <= j < k < |r| ==> r[j].id != r[k].id && r[j].fileName != r[k].fileName
  {
    var r := StickersOf(table, categoryId);
    forall j, k | 0 <= j < k < |r|
      ensures r[j].id != r[k].id && r[j].fileName != r[k].fileName
    {
      NumberedDistinct(CategoryById(table, categoryId).value, categoryId, j + 1, k + 1);
    }
  }

  /** The search condition: the query occurs in the name or the file name,
      ignoring case. */
  predicate Matches(s: Sticker, query: string) {
    Contains(Lower(s.name), Lower(query)) || Contains(Lower(s.fileName), Lower(query))
  }

  function Filter(stickers: seq<Sticker>, query: string): (r: seq<Sticker>)
    ensures forall x :: x in r ==> x in stickers && Matches(x, query)
    ensures forall x :: x in stickers && Matches(x, query) ==> x in r
  {
    if stickers == [] then []
    else if Matches(stickers[0], query) then [stickers[0]] + Filter(stickers[1..], query)
    else Filter(stickers[1..], query)
  }

  /** The categories searched: the one named (absent when unknown), or all
      of them when no category or the empty string is given. */
  function SearchedCategories(table: seq<Category>, categoryId: Option<string>): (cats: seq<Category>)
    ensures forall c :: c in cats ==> c in table
  {
    if categoryId.Some? && categoryId.value != [] then
      match CategoryById(table, categoryId.value)
      case None => []
      case Some(c) => [c]
    else table
  }

  /** The search result: the matching stickers of each searched category,
      category by category. */
  function SearchOver(table: seq<Category>, cats: seq<Category>, query: string): seq<Sticker> {
    if cats == [] then []
    else SearchOver(table, cats[..|cats| - 1], query) + Filter(StickersOf(table, cats[|cats| - 1].id), query)
  }

  /** `searchStickers(query, categoryId)`: `forEach` over the categories,
      pushing the filtered stickers of each. */
  method SearchStickers(table: seq<Category>, query: string, categoryId: Option<string>)
    returns (results: seq<Sticker>)
    ensures results == SearchOver(table, SearchedCategories(table, categoryId), query)
  {
    var categories := SearchedCategories(table, categoryId);
    results := [];
    var n := 0;
    while n < |categories|
      invariant 0 <= n <= |categories|
      invariant results == SearchOver(table, categories[..n], query)
    {
      var stickers := StickersInCategory(table, categories[n].id);
      var filtered := FilterStickers(stickers, query);
      assert categories[..n + 1][..n] == categories[..n];
      results := results + filtered;
      n := n + 1;
    }
    assert categories[..n] == categories;
  }

  /** `stickers.filter(...)` as a loop. */
  method FilterStickers(stickers: seq<Sticker>, query: string) returns (r: seq<Sticker>)
    ensures r == Filter(stickers, query)
  {
    r := [];
    var i := |stickers|;
    while i > 0
      invariant 0 <= i <= |stickers|
      invariant r == Filter(stickers[i..], query)
    {
      i := i - 1;
      assert stickers[i..][1..] == stickers[i + 1..];
      if Matches(stickers[i], query) {
        r := [stickers[i]] + r;
      }
    }
  }

  /** Every search result matches the query and belongs to one of the
      searched categories, where it is the sticker of its number. */
  lemma {:induction false} SearchSound(table: seq<Category>, cats: seq<Category>, query: string, x: Sticker)
    requires x in SearchOver(table, cats, query)
    ensures Matches(x, query)
    ensures exists k :: 0 <= k < |cats| && x in StickersOf(table, cats[k].id)
    decreases |cats|
  {
    var front := cats[..|cats| - 1];
    if x in SearchOver(table, front, query) {
      SearchSound(table, front, query, x);
      var k :| 0 <= k < |front| && x in StickersOf(table, front[k].id);
      assert cats[k] == front[k];
    } else {
      assert x in Filter(StickersOf(table, cats[|cats| - 1].id), query);
    }
  }

  /** Every matching sticker of a searched category is found. */
  lemma {:induction false} SearchComplete(table: seq<Category>, cats: seq<Category>, query: string, k: nat, x: Sticker)
    requires k < |cats| && x in StickersOf(table, cats[k].id) && Matches(x, query)
    ensures x in SearchOver(table, cats, query)
    decreases |cats|
  {
    if k < |cats| - 1 {
      SearchComplete(table, cats[..|cats| - 1], query, k, x);
    }
  }

  /** The empty query matches every sticker. */
  lemma EmptyQueryMatchesAll(x: Sticker)
    ensures Matches(x, "")
  {
    ContainsEmpty(Lower(x.name));
  }

  /** An unknown category id finds nothing. */
  lemma UnknownCategorySearch(table: seq<Category>, query: string, categoryId: string)
    requires categoryId != [] && CategoryById(table, categoryId).None?
    ensures SearchOver(table, SearchedCategories(table, Some(categoryId)), query) == []
  {
  }

  /** The sum of the counts, as `reduce` computes it from the left. */
  function SumCounts(cats: seq<Category>): nat {
    if cats == [] then 0 else SumCounts(cats[..|cats| - 1]) + cats[|cats| - 1].count
  }

  /** `getCategoryStats()`. */
  datatype CategoryStats = CategoryStats(
    totalCategories: nat,
    totalStickers: nat,
    categories: seq<(string, string, nat)>)

  function GetCategoryStats(): CategoryStats {
    var cats := Categories();
    CategoryStats(|cats|, SumCounts(cats),
      seq(|cats|, k requires 0 <= k < |cats| => (cats[k].id, cats[k].displayName, cats[k].count)))
  }

  /** The catalogue has 5 categories with distinct ids and 632 stickers. */
  lemma CategoryStatsTotals()
    ensures DistinctIds(Categories())
    ensures GetCategoryStats().totalCategories == 5
    ensures GetCategoryStats().totalStickers == 632
  {
    var cats := Categories();
    assert SumCounts(cats[..1]) == 185 by {
      assert cats[..1][..0] == [];
    }
    assert cats[..2][..1] == cats[..1];
    assert cats[..3][..2] == cats[..2];
    assert cats[..4][..3] == cats[..3];
    assert cats[..4] == cats[..|cats| - 1];
    assert SumCounts(cats[..2]) == 535;
    assert SumCounts(cats[..3]) == 589;
    assert SumCounts(cats[..4]) == 600;
  }

  /** The number of stickers listed over `cats`. */
  function ListedCount(table: seq<Category>, cats: seq<Category>): nat {
    if cats == [] then 0 else ListedCount(table, cats[..|cats| - 1]) + |StickersOf(table, cats[|cats| - 1].id)|
  }

  /** In a table with distinct ids, the sum of the counts is the number of
      stickers `getStickersInCategory` lists over all categories. */
  lemma {:induction false} SumCountsIsListed(table: seq<Category>, n: nat)
    requires DistinctIds(table) && n <= |table|
    ensures SumCounts(table[..n]) == ListedCount(table, table[..n])
    decreases n
  {
    if n > 0 {
      assert table[..n][..n - 1] == table[..n - 1];
      SumCountsIsListed(table, n - 1);
      FindsEach(table, n - 1);
    }
  }
}
