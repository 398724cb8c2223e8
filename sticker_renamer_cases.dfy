/** The asset renamer on particular directories: a folder already numbered
    `arrow_1.svg` .. `arrow_<n>.svg` is left as it is, name order puts
    `infographic_10.svg` before `infographic_2.svg`, and a `.svg` that is
    already called `temp_arrow_1.svg` is overwritten by the first phase. */
module StickerRenamerCases {
  import opened Wrappers
  import opened Text
  import opened Sorting
  import opened NaturalKeys
  import opened StickerSort
  import opened FolderMoves
  import opened StickerRenamer

  /** `arrow_1.svg` .. `arrow_<n>.svg`. */
  function ArrowNames(n: nat): (r: seq<string>)
    ensures |r| == n && forall k :: 0 <= k < n ==> r[k] == FinalName("arrow", k + 1)
  {
    seq(n, k requires 0 <= k < n => FinalName("arrow", k + 1))
  }

  /** The natural key of `arrow_<k>.svg` is `['arrow_', k, '.svg']`. */
  lemma ArrowKey(k: nat)
    ensures NaturalSortKey(FinalName("arrow", k)) == [Text(Lower("arrow_")), Num(k), Text(Lower(".svg"))]
  {
    assert FinalName("arrow", k) == "arrow_" + NatToString(k) + ".svg";
    KeyOfThree("arrow_", NatToString(k), ".svg");
    DecimalValueOfNatToString(k);
  }

  /** `arrow_2.svg` comes before `arrow_10.svg`: numbers compare by value. */
  lemma ArrowsInNumericOrder(i: nat, j: nat)
    ensures Before(Natural, FinalName("arrow", i), FinalName("arrow", j)) <==> i < j
  {
    ArrowKey(i);
    ArrowKey(j);
    NumberedKeyOrder(Lower("arrow_"), i, j, Lower(".svg"));
  }

  lemma ArrowNamesStrictlySorted(n: nat)
    ensures StrictlySorted(BeforeFn(Natural), ArrowNames(n))
  {
    var xs := ArrowNames(n);
    forall i, j | 0 <= i < j < n ensures BeforeFn(Natural)(xs[i], xs[j]) {
      ArrowsInNumericOrder(i + 1, j + 1);
    }
  }

  lemma ArrowNamesDistinct(n: nat)
    ensures Distinct(ArrowNames(n))
  {
    var xs := ArrowNames(n);
    forall i, j | 0 <= i < j < n ensures xs[i] != xs[j] {
      if xs[i] == xs[j] { FinalNameInjective("arrow", i + 1, j + 1); }
    }
  }

  /** When the `.svg` names are exactly `arrow_1.svg` .. `arrow_<n>.svg`,
      natural order lists them by number, whatever the listing order. */
  lemma ArrowsSortNumerically(listing: seq<string>, m: Folder, n: nat)
    requires ListsFolder(listing, m)
    requires forall x :: (x in m && IsSvg(x)) <==> x in ArrowNames(n)
    ensures SortedSvgs(Natural, listing) == ArrowNames(n)
  {
    var less := BeforeFn(Natural);
    var files := SortedSvgs(Natural, listing);
    BeforeIsStrictWeakOrder(Natural);
    SortByCorrect(less, SvgNames(listing));
    SortedSvgsFacts(Natural, listing, m);
    ArrowNamesStrictlySorted(n);
    ArrowNamesDistinct(n);
    DistinctSameElements(ArrowNames(n), files);
    SortedUnique(less, ArrowNames(n), files);
  }

  /** `rename_arrows` on a directory already numbered `arrow_1.svg` ..
      `arrow_<n>.svg` succeeds and every file keeps its name. */
  lemma ArrowsIdempotent(listing: seq<string>, m: Folder, n: nat)
    requires ListsFolder(listing, m)
    requires forall x :: (x in m && IsSvg(x)) <==> x in ArrowNames(n)
    ensures TwoPhase(m, SortedSvgs(Natural, listing), "arrow") == Some(m)
  {
    ArrowsSortNumerically(listing, m, n);
    var files := ArrowNames(n);
    ArrowNamesDistinct(n);
    forall k | 1 <= k <= n ensures TempName("arrow", k) !in m {
      NamesAreSvg("arrow", k);
      if TempName("arrow", k) in m {
        var j :| 0 <= j < n && files[j] == TempName("arrow", k);
        FinalNotTemp("arrow", j + 1, k);
      }
    }
    assert SafeToRename(m, files, "arrow");
    SafeTwoPhase(m, files, "arrow");
    MovedInPlace(m, FinalPlan(files, "arrow"), TwoPhase(m, files, "arrow").value);
  }

  /** `sorted` on plain names compares character by character, so
      `infographic_10.svg` comes before `infographic_2.svg`. */
  lemma InfographicTextOrder()
    ensures Before(ByName, FinalName("infographic", 10), FinalName("infographic", 2))
  {
    var p := "infographic_";
    assert NatToString(10) == "10";
    assert NatToString(2) == "2";
    assert FinalName("infographic", 10) == p + "10.svg";
    assert FinalName("infographic", 2) == p + "2.svg";
    StrLessCommonPrefix(p, "10.svg", "2.svg");
  }

  /** A `.svg` already named `temp_arrow_1.svg` that sorts second is replaced
      by the first file's rename: the first phase ends with a single file and
      the second phase fails on the missing `temp_arrow_1.svg`. */
  lemma TemporaryNameOverwritten()
    ensures var m: Folder := map["a.svg" := 1, TempName("arrow", 1) := 2];
      var listing := ["a.svg", TempName("arrow", 1)];
      && ListsFolder(listing, m)
      && SortedSvgs(Natural, listing) == listing
      && RunPlan(m, Phase1(listing, "arrow")) == Some(map[TempName("arrow", 2) := 1])
      && TwoPhase(m, listing, "arrow") == None
  {
    var a, t1, t2 := "a.svg", TempName("arrow", 1), TempName("arrow", 2);
    var m: Folder, m1: Folder := map[a := 1, t1 := 2], map[t2 := 1];
    DistinctNames(a, t1, t2);
    OverwriteOrder();
    OverwriteFirstPhase(a, t1, t2, m, m1);
    OverwriteSecondPhase(t1, t2, m1);
    OverwriteBothPhases(m, [a, t1], m1);
  }

  lemma DistinctNames(a: string, t1: string, t2: string)
    requires a == "a.svg" && t1 == TempName("arrow", 1) && t2 == TempName("arrow", 2)
    ensures a != t1 && a != t2 && t1 != t2
    ensures ListsFolder([a, t1], map[a := 1, t1 := 2])
  {
    assert a[0] == 'a' && t1[0] == 't' && t2[0] == 't';
    if t1 == t2 { TempNameInjective("arrow", 1, 2); }
  }

  lemma OverwriteBothPhases(m: Folder, files: seq<string>, m1: Folder)
    requires RunPlan(m, Phase1(files, "arrow")) == Some(m1)
    requires RunPlan(m1, Phase2(|files|, "arrow")) == None
    ensures TwoPhase(m, files, "arrow") == None
  {
  }

  /** The natural key of `temp_<prefix>_<i>.svg`. */
  lemma TempKey(prefix: string, i: nat)
    requires NoDigits(prefix)
    ensures NaturalSortKey(TempName(prefix, i))
      == [Text(Lower("temp_" + prefix + "_")), Num(i), Text(Lower(".svg"))]
  {
    var text := "temp_" + prefix + "_";
    assert TempName(prefix, i) == text + NatToString(i) + ".svg";
    assert NoDigits(text) by {
      forall j | 0 <= j < |text| ensures !IsDigit(text[j]) {
        if 5 <= j < 5 + |prefix| { assert text[j] == prefix[j - 5]; }
      }
    }
    KeyOfThree(text, NatToString(i), ".svg");
    DecimalValueOfNatToString(i);
  }

  lemma OverwriteOrder()
    ensures SortedSvgs(Natural, ["a.svg", TempName("arrow", 1)]) == ["a.svg", TempName("arrow", 1)]
  {
    var a, t1 := "a.svg", TempName("arrow", 1);
    NamesAreSvg("arrow", 1);
    PlainSvgName(a);
    SvgPair(a, t1);
    PlainPrefix("arrow");
    TempAfter("arrow", 1, a);
    SortByPair(BeforeFn(Natural), a, t1);
  }

  lemma PlainSvgName(a: string)
    requires a == "a.svg"
    ensures IsSvg(a) && NoDigits(a) && a != [] && LowerChar(a[0]) < 't'
  {
    assert a[|a| - 4..] == ".svg";
  }

  lemma PlainPrefix(prefix: string)
    requires prefix == "arrow"
    ensures NoDigits(prefix)
  {
  }

  /** A temporary name does not sort before a name without digits whose
      first letter comes before `t`: their keys differ in the first text. */
  lemma TempAfter(prefix: string, i: nat, name: string)
    requires NoDigits(prefix) && NoDigits(name) && name != [] && LowerChar(name[0]) < 't'
    ensures !Before(Natural, TempName(prefix, i), name)
  {
    KeyOfCaseFree(name);
    TempKey(prefix, i);
    var x := Lower("temp_" + prefix + "_");
    assert x[0] == 't';
    FirstCharAfter(x, Lower(name));
  }

  lemma FirstCharAfter(x: string, y: string)
    requires x != [] && y != [] && y[0] < x[0]
    ensures !StrLess(x, y) && Text(x) != Text(y)
  {
  }

  lemma SvgPair(a: string, b: string)
    requires IsSvg(a) && IsSvg(b)
    ensures SvgNames([a, b]) == [a, b]
  {
    assert [a, b][1..] == [b];
    assert [b][1..] == [];
    assert SvgNames([b]) == [b] + SvgNames([]);
  }

  lemma OverwriteFirstPhase(a: string, t1: string, t2: string, m: Folder, m2: Folder)
    requires t1 == TempName("arrow", 1) && t2 == TempName("arrow", 2)
    requires a != t1 && a != t2 && t1 != t2
    requires m == map[a := 1, t1 := 2] && m2 == map[t2 := 1]
    ensures RunPlan(m, Phase1([a, t1], "arrow")) == Some(m2)
  {
    var p1 := Phase1([a, t1], "arrow");
    assert p1 == [(a, t1), (t1, t2)];
    var m1: Folder := map[t1 := 1];
    assert m[a] == 1 && m - {a} == map[t1 := 2];
    assert map[t1 := 2][t1 := 1] == m1;
    assert RenameStep(m, a, t1) == Some(m1);
    assert m1 - {t1} == map[] && map[][t2 := 1] == m2;
    assert RenameStep(m1, t1, t2) == Some(m2);
    RunPlanExtend(m, p1, 0);
    RunPlanExtend(m, p1, 1);
    assert p1[..0] == [] && p1[..2] == p1;
  }

  lemma OverwriteSecondPhase(t1: string, t2: string, m: Folder)
    requires t1 == TempName("arrow", 1) && t1 != t2 && m == map[t2 := 1]
    ensures RunPlan(m, Phase2(2, "arrow")) == None
  {
    var p2 := Phase2(2, "arrow");
    RunPlanExtend(m, p2, 0);
    assert p2[..0] == [];
    RunPlanStuck(m, p2, 1);
  }
}
