/** The asset renamer: every `.svg` of a sticker directory is renamed, in
    sorted order, first to `temp_<prefix>_<i>.svg` and then to
    `<prefix>_<i>.svg`; a conformance check counts the `.svg` files and tests
    their names against `^<prefix>_\d+\.svg$`. The directory is a map from
    names to file identities. */
module StickerRenamer {
  import opened Wrappers
  import opened Text
  import opened Sorting
  import opened NaturalKeys
  import opened StickerSort
  import opened FolderMoves

  type FileId = nat
  type Folder = map<string, FileId>

  /** `Path(name).suffix == '.svg'`: the name ends in `.svg` and that dot is
      not its first character. */
  predicate IsSvg(name: string) {
    |name| > 4 && EndsWith(name, ".svg")
  }

  /** `[f for f in dir.iterdir() if f.suffix == '.svg']`, in listing order. */
  function SvgNames(listing: seq<string>): (r: seq<string>)
    ensures forall x :: x in r <==> x in listing && IsSvg(x)
  {
    if listing == [] then []
    else (if IsSvg(listing[0]) then [listing[0]] else []) + SvgNames(listing[1..])
  }

  lemma {:induction false} SvgNamesDistinct(listing: seq<string>)
    requires Distinct(listing)
    ensures Distinct(SvgNames(listing))
  {
    if listing != [] {
      SvgNamesDistinct(listing[1..]);
      assert listing[0] !in listing[1..];
    }
  }

  /** The listing a directory scan produces: each name of the folder once. */
  ghost predicate ListsFolder(listing: seq<string>, m: Folder) {
    Distinct(listing) && forall x :: x in listing <==> x in m
  }

  function SortedSvgs(o: Ordering, listing: seq<string>): seq<string> {
    SortBy(BeforeFn(o), SvgNames(listing))
  }

  /** The sorted `.svg` names are every `.svg` of the folder, each once. */
  lemma SortedSvgsFacts(o: Ordering, listing: seq<string>, m: Folder)
    requires ListsFolder(listing, m)
    ensures Distinct(SortedSvgs(o, listing))
    ensures forall x :: x in SortedSvgs(o, listing) <==> x in m && IsSvg(x)
  {
    BeforeIsStrictWeakOrder(o);
    SortByCorrect(BeforeFn(o), SvgNames(listing));
    SvgNamesDistinct(listing);
    PermutationDistinct(SvgNames(listing), SortedSvgs(o, listing));
    forall x ensures x in SortedSvgs(o, listing) <==> x in SvgNames(listing) {
      assert x in SortedSvgs(o, listing) <==> x in multiset(SortedSvgs(o, listing));
    }
  }

  /** `temp_<prefix>_<i>.svg`. */
  function TempName(prefix: string, i: nat): string {
    "temp_" + prefix + "_" + NatToString(i) + ".svg"
  }

  /** `<prefix>_<i>.svg`. */
  function FinalName(prefix: string, i: nat): string {
    prefix + "_" + NatToString(i) + ".svg"
  }

  /** Phase 1: the i-th file (from 0) goes to `temp_<prefix>_<i+1>.svg`. */
  function Phase1(files: seq<string>, prefix: string): (p: seq<(string, string)>)
    ensures |p| == |files|
    ensures forall k :: 0 <= k < |p| ==> p[k] == (files[k], TempName(prefix, k + 1))
  {
    seq(|files|, k requires 0 <= k < |files| => (files[k], TempName(prefix, k + 1)))
  }

  /** Phase 2: each temporary name goes to its final name. */
  function Phase2(n: nat, prefix: string): (p: seq<(string, string)>)
    ensures |p| == n
    ensures forall k :: 0 <= k < n ==> p[k] == (TempName(prefix, k + 1), FinalName(prefix, k + 1))
  {
    seq(n, k requires 0 <= k < n => (TempName(prefix, k + 1), FinalName(prefix, k + 1)))
  }

  /** Both phases in order; `None` when a rename meets a missing source. */
  function TwoPhase(m: Folder, files: seq<string>, prefix: string): Option<Folder> {
    match RunPlan(m, Phase1(files, prefix))
    case None => None
    case Some(m1) => RunPlan(m1, Phase2(|files|, prefix))
  }

  /** What the two phases are meant to do: each file straight to its final name. */
  function FinalPlan(files: seq<string>, prefix: string): (p: seq<(string, string)>)
    ensures |p| == |files|
    ensures forall k :: 0 <= k < |p| ==> p[k] == (files[k], FinalName(prefix, k + 1))
  {
    seq(|files|, k requires 0 <= k < |files| => (files[k], FinalName(prefix, k + 1)))
  }

  datatype RenameOutcome =
    | DirectoryMissing            // the directory does not exist: `None`
    | Renamed(count: nat)         // every rename succeeded: the `.svg` count
    | RenameFailed(name: string)  // a rename raised `FileNotFoundError`
    | Refused                     // the guarded version found a temporary name taken

  /** A sticker directory whose entries the renames update in place. */
  class StickerFolder {
    var present: bool
    var entries: Folder

    constructor (present: bool, entries: Folder)
      ensures this.present == present && this.entries == entries
    {
      this.present := present;
      this.entries := entries;
    }

    /** `Path.rename` on POSIX: the target is replaced if it exists. */
    method Rename(src: string, dst: string) returns (ok: bool)
      modifies this
      ensures present == old(present)
      ensures RenameStep(old(entries), src, dst) == if ok then Some(entries) else None
      ensures !ok ==> entries == old(entries)
    {
      if src in entries {
        entries := (entries - {src})[dst := entries[src]];
        ok := true;
      } else {
        ok := false;
      }
    }

    /** `rename_arrows` (natural order, prefix `arrow`) and
        `rename_infographic` (name order, prefix `infographic`). */
    method RenameAll(listing: seq<string>, o: Ordering, prefix: string) returns (r: RenameOutcome)
      requires present ==> ListsFolder(listing, entries)
      modifies this
      ensures present == old(present)
      ensures !present ==> r == DirectoryMissing && entries == old(entries)
      ensures present ==>
        match TwoPhase(old(entries), SortedSvgs(o, listing), prefix)
        case Some(m) => r == Renamed(|SortedSvgs(o, listing)|) && entries == m
        case None => r.RenameFailed?
    {
      if !present {
        return DirectoryMissing;
      }
      var files := SortedSvgs(o, listing);
      var ok, temps, failed := RenameToTemporary(files, prefix);
      if !ok {
        return RenameFailed(failed);
      }
      ok, failed := RenameToFinal(temps, prefix);
      if !ok {
        return RenameFailed(failed);
      }
      return Renamed(|files|);
    }

    /** The first loop: each file to its temporary name, recording
        `(temp_name, i)` in `temp_files`. */
    method RenameToTemporary(files: seq<string>, prefix: string)
      returns (ok: bool, temps: seq<(string, nat)>, failed: string)
      modifies this
      ensures present == old(present)
      ensures ok ==> RunPlan(old(entries), Phase1(files, prefix)) == Some(entries)
      ensures ok ==> |temps| == |files|
      ensures ok ==> forall k :: 0 <= k < |files| ==> temps[k] == (TempName(prefix, k + 1), k + 1)
      ensures !ok ==> RunPlan(old(entries), Phase1(files, prefix)) == None
    {
      var p1 := Phase1(files, prefix);
      temps := [];
      failed := "";
      var i := 0;
      while i < |files|
        invariant 0 <= i <= |files| && present == old(present)
        invariant RunPlan(old(entries), p1[..i]) == Some(entries)
        invariant |temps| == i
        invariant forall k :: 0 <= k < i ==> temps[k] == (TempName(prefix, k + 1), k + 1)
      {
        var tempName := TempName(prefix, i + 1);
        RunPlanExtend(old(entries), p1, i);
        var renamed := Rename(files[i], tempName);
        if !renamed {
          RunPlanStuck(old(entries), p1, i + 1);
          return false, temps, files[i];
        }
        temps := temps + [(tempName, i + 1)];
        i := i + 1;
      }
      assert p1[..i] == p1;
      ok := true;
    }

    /** The second loop: each recorded temporary name to `<prefix>_<i>.svg`. */
    method RenameToFinal(temps: seq<(string, nat)>, prefix: string) returns (ok: bool, failed: string)
      requires forall k :: 0 <= k < |temps| ==> temps[k] == (TempName(prefix, k + 1), k + 1)
      modifies this
      ensures present == old(present)
      ensures ok ==> RunPlan(old(entries), Phase2(|temps|, prefix)) == Some(entries)
      ensures !ok ==> RunPlan(old(entries), Phase2(|temps|, prefix)) == None
    {
      var p2 := Phase2(|temps|, prefix);
      failed := "";
      var j := 0;
      while j < |temps|
        invariant 0 <= j <= |temps| && present == old(present)
        invariant RunPlan(old(entries), p2[..j]) == Some(entries)
      {
        var (tempFile, n) := temps[j];
        RunPlanExtend(old(entries), p2, j);
        var renamed := Rename(tempFile, FinalName(prefix, n));
        if !renamed {
          RunPlanStuck(old(entries), p2, j + 1);
          return false, tempFile;
        }
        j := j + 1;
      }
      assert p2[..j] == p2;
      ok := true;
    }

    method RenameArrows(listing: seq<string>) returns (r: RenameOutcome)
      requires present ==> ListsFolder(listing, entries)
      modifies this
      ensures !present ==> r == DirectoryMissing && entries == old(entries)
      ensures present ==>
        match TwoPhase(old(entries), SortedSvgs(Natural, listing), "arrow")
        case Some(m) => r == Renamed(|SortedSvgs(Natural, listing)|) && entries == m
        case None => r.RenameFailed?
    {
      r := RenameAll(listing, Natural, "arrow");
    }

    method RenameInfographic(listing: seq<string>) returns (r: RenameOutcome)
      requires present ==> ListsFolder(listing, entries)
      modifies this
      ensures !present ==> r == DirectoryMissing && entries == old(entries)
      ensures present ==>
        match TwoPhase(old(entries), SortedSvgs(ByName, listing), "infographic")
        case Some(m) => r == Renamed(|SortedSvgs(ByName, listing)|) && entries == m
        case None => r.RenameFailed?
    {
      r := RenameAll(listing, ByName, "infographic");
    }

    /** The renamer with the check its first phase needs: when a temporary
        name is already taken nothing is renamed. It never fails part-way and
        never loses a file. */
    method RenameAllGuarded(listing: seq<string>, o: Ordering, prefix: string) returns (r: RenameOutcome)
      requires present ==> ListsFolder(listing, entries)
      requires prefix != [] && prefix[0] != 't'
      modifies this
      ensures !r.RenameFailed?
      ensures r == DirectoryMissing <==> !old(present)
      ensures r.Refused? ==> entries == old(entries)
      ensures r.Refused? <==> (old(present) &&
        exists k :: 1 <= k <= |SortedSvgs(o, listing)| && TempName(prefix, k) in old(entries))
      ensures r.Renamed? ==> r.count == |SortedSvgs(o, listing)|
      ensures r.Renamed? ==> Moved(old(entries), FinalPlan(SortedSvgs(o, listing), prefix), entries)
    {
      if present {
        var files := SortedSvgs(o, listing);
        if exists k | 1 <= k <= |files| :: TempName(prefix, k) in entries {
          return Refused;
        }
        SortedSvgsFacts(o, listing, entries);
        SafeTwoPhase(entries, files, prefix);
      }
      r := RenameAll(listing, o, prefix);
    }

    /** `check_category`: the `.svg` count (0 for a missing directory) and
        whether every `.svg` name matches `^<prefix>_\d+\.svg$`. */
    method CheckCategory(listing: seq<string>, prefix: string) returns (count: nat, conforms: Option<bool>)
      requires present ==> ListsFolder(listing, entries)
      ensures !present ==> count == 0 && conforms == None
      ensures present ==> count == |SvgNames(listing)|
      ensures present ==> conforms == Some(forall x :: x in entries && IsSvg(x) ==> MatchesNumbered(prefix, x))
    {
      if !present {
        return 0, None;
      }
      var files := SvgNames(listing);
      var allMatch := true;
      var i := 0;
      while i < |files|
        invariant 0 <= i <= |files|
        invariant allMatch <==> forall k :: 0 <= k < i ==> MatchesNumbered(prefix, files[k])
      {
        allMatch := allMatch && MatchesNumbered(prefix, files[i]);
        i := i + 1;
      }
      assert allMatch <==> forall x :: x in entries && IsSvg(x) ==> MatchesNumbered(prefix, x) by {
        if allMatch {
          forall x | x in entries && IsSvg(x) ensures MatchesNumbered(prefix, x) {
            assert x in files;
          }
        }
      }
      return |files|, Some(allMatch);
    }
  }

  /** `re.match(r'^<prefix>_\d+\.svg$', name)`: `$` also matches before a
      final newline. */
  predicate MatchesNumbered(prefix: string, name: string) {
    && StartsWith(name, prefix + "_")
    && var rest := name[|prefix| + 1..];
       var d := DecimalRun(rest);
       d > 0 && (rest[d..] == ".svg" || rest[d..] == ".svg\n")
  }

  // ---------------------------------------------------------------------
  // Names

  lemma MiddleEqual(a: string, x: string, y: string, b: string)
    requires a + x + b == a + y + b && |x| == |y|
    ensures x == y
  {
    assert x == (a + x + b)[|a|..|a| + |x|];
    assert y == (a + y + b)[|a|..|a| + |y|];
  }

  lemma TempNameInjective(prefix: string, i: nat, j: nat)
    requires TempName(prefix, i) == TempName(prefix, j)
    ensures i == j
  {
    var a := "temp_" + prefix + "_";
    assert TempName(prefix, i) == a + NatToString(i) + ".svg";
    assert TempName(prefix, j) == a + NatToString(j) + ".svg";
    MiddleEqual(a, NatToString(i), NatToString(j), ".svg");
    NatToStringInjective(i, j);
  }

  lemma FinalNameInjective(prefix: string, i: nat, j: nat)
    requires FinalName(prefix, i) == FinalName(prefix, j)
    ensures i == j
  {
    var a := prefix + "_";
    MiddleEqual(a, NatToString(i), NatToString(j), ".svg");
    NatToStringInjective(i, j);
  }

  /** A final name never starts with `t`, so it is no temporary name. */
  lemma FinalNotTemp(prefix: string, i: nat, j: nat)
    requires prefix != [] && prefix[0] != 't'
    ensures FinalName(prefix, i) != TempName(prefix, j)
  {
    assert FinalName(prefix, i)[0] == prefix[0];
    assert TempName(prefix, j)[0] == 't';
  }

  lemma NamesAreSvg(prefix: string, i: nat)
    ensures IsSvg(FinalName(prefix, i)) && IsSvg(TempName(prefix, i))
  {
    var f := FinalName(prefix, i);
    var t := TempName(prefix, i);
    assert f == (prefix + "_" + NatToString(i)) + ".svg";
    assert t == ("temp_" + prefix + "_" + NatToString(i)) + ".svg";
    assert f[|f| - 4..] == ".svg";
    assert t[|t| - 4..] == ".svg";
  }

  // ---------------------------------------------------------------------
  // The two phases

  /** The conditions under which the two phases do what they are meant to:
      the files are exactly the `.svg` names of the folder, each once, and
      no temporary name is taken. */
  ghost predicate SafeToRename(m: Folder, files: seq<string>, prefix: string) {
    && Distinct(files)
    && (forall x :: x in files <==> x in m && IsSvg(x))
    && (forall k :: 1 <= k <= |files| ==> TempName(prefix, k) !in m)
    && prefix != [] && prefix[0] != 't'
  }

  lemma Phase1Fresh(m: Folder, files: seq<string>, prefix: string)
    requires SafeToRename(m, files, prefix)
    ensures FreshMoves(m, Phase1(files, prefix))
  {
    var p := Phase1(files, prefix);
    forall i, j | 0 <= i < j < |p| ensures Targets(p)[i] != Targets(p)[j] {
      if Targets(p)[i] == Targets(p)[j] { TempNameInjective(prefix, i + 1, j + 1); }
    }
    forall i, j | 0 <= i < j < |p| ensures Sources(p)[i] != Sources(p)[j] {
      assert Sources(p)[i] == files[i] && Sources(p)[j] == files[j];
    }
  }

  lemma Phase2Fresh(m: Folder, files: seq<string>, prefix: string, m1: Folder)
    requires SafeToRename(m, files, prefix)
    requires Moved(m, Phase1(files, prefix), m1)
    ensures FreshMoves(m1, Phase2(|files|, prefix))
  {
    var p := Phase2(|files|, prefix);
    Phase2Distinct(|files|, prefix);
    forall k | 0 <= k < |p| ensures p[k].0 in m1 && p[k].1 !in m1 {
      Phase2Endpoints(m, files, prefix, m1, k);
    }
  }

  lemma Phase2Endpoints(m: Folder, files: seq<string>, prefix: string, m1: Folder, k: nat)
    requires SafeToRename(m, files, prefix)
    requires Moved(m, Phase1(files, prefix), m1)
    requires k < |files|
    ensures Phase2(|files|, prefix)[k].0 in m1 && Phase2(|files|, prefix)[k].1 !in m1
  {
    var p1 := Phase1(files, prefix);
    MovedTargetPresent(m, p1, m1, k);
    FinalNotInPhase1(m, files, prefix, m1, k + 1);
  }

  lemma MovedTargetPresent(m: Folder, plan: seq<(string, string)>, m1: Folder, k: nat)
    requires Moved(m, plan, m1) && k < |plan|
    ensures plan[k].1 in m1
  {
  }

  lemma Phase2Distinct(n: nat, prefix: string)
    ensures Distinct(Sources(Phase2(n, prefix))) && Distinct(Targets(Phase2(n, prefix)))
  {
    var p := Phase2(n, prefix);
    forall i, j | 0 <= i < j < |p| ensures Targets(p)[i] != Targets(p)[j] {
      if Targets(p)[i] == Targets(p)[j] { FinalNameInjective(prefix, i + 1, j + 1); }
    }
    forall i, j | 0 <= i < j < |p| ensures Sources(p)[i] != Sources(p)[j] {
      if Sources(p)[i] == Sources(p)[j] { TempNameInjective(prefix, i + 1, j + 1); }
    }
  }

  lemma FinalNotInPhase1(m: Folder, files: seq<string>, prefix: string, m1: Folder, i: nat)
    requires SafeToRename(m, files, prefix)
    requires Moved(m, Phase1(files, prefix), m1)
    ensures FinalName(prefix, i) !in m1
  {
    var f := FinalName(prefix, i);
    var p1 := Phase1(files, prefix);
    NamesAreSvg(prefix, i);
    assert Sources(p1) == files;
    if f in Targets(p1) {
      var k :| 0 <= k < |p1| && Targets(p1)[k] == f;
      FinalNotTemp(prefix, i, k + 1);
    }
  }

  /** With no temporary name taken, both phases succeed and move the i-th
      file to `<prefix>_<i>.svg`, leaving every other name as it was. */
  lemma SafeTwoPhase(m: Folder, files: seq<string>, prefix: string)
    requires SafeToRename(m, files, prefix)
    ensures TwoPhase(m, files, prefix).Some?
    ensures Moved(m, FinalPlan(files, prefix), TwoPhase(m, files, prefix).value)
  {
    var p1 := Phase1(files, prefix);
    var p2 := Phase2(|files|, prefix);
    Phase1Fresh(m, files, prefix);
    RunFreshMoves(m, p1);
    var m1 := RunPlan(m, p1).value;
    Phase2Fresh(m, files, prefix, m1);
    RunFreshMoves(m1, p2);
    var m2 := RunPlan(m1, p2).value;
    assert Sources(p2) == Targets(p1);
    ComposeMoves(m, p1, m1, p2, m2);
    assert Compose(p1, p2) == FinalPlan(files, prefix);
  }

  /** After a safe rename the same files are stored, each under one name;
      the i-th file in sorted order is `<prefix>_<i>.svg`; the `.svg` names
      are exactly `<prefix>_1.svg` .. `<prefix>_<n>.svg`; and every other
      name is untouched. */
  lemma SafeRenameResult(m: Folder, files: seq<string>, prefix: string)
    requires SafeToRename(m, files, prefix)
    ensures TwoPhase(m, files, prefix).Some?
    ensures var m' := TwoPhase(m, files, prefix).value;
      && m'.Values == m.Values
      && (Injective(m) ==> Injective(m'))
      && (forall k :: 0 <= k < |files| ==>
            FinalName(prefix, k + 1) in m' && m'[FinalName(prefix, k + 1)] == m[files[k]])
      && (forall y :: y in m' && IsSvg(y) ==> exists k :: 1 <= k <= |files| && y == FinalName(prefix, k))
      && (forall k :: 1 <= k <= |files| ==> FinalName(prefix, k) in m')
      && (forall x :: x in m && !IsSvg(x) ==> x in m' && m'[x] == m[x])
  {
    SafeTwoPhase(m, files, prefix);
    var p := FinalPlan(files, prefix);
    var m' := TwoPhase(m, files, prefix).value;
    FinalPlanDistinct(files, prefix);
    MovedPermutes(m, p, m');
    SvgNamesAreFinal(m, files, prefix, m');
    forall k | 1 <= k <= |files| ensures FinalName(prefix, k) in m' {
      assert p[k - 1].1 == FinalName(prefix, k);
    }
  }

  lemma FinalPlanDistinct(files: seq<string>, prefix: string)
    requires Distinct(files)
    ensures Distinct(Sources(FinalPlan(files, prefix)))
    ensures Distinct(Targets(FinalPlan(files, prefix)))
  {
    var p := FinalPlan(files, prefix);
    forall i, j | 0 <= i < j < |p| ensures Targets(p)[i] != Targets(p)[j] {
      if Targets(p)[i] == Targets(p)[j] { FinalNameInjective(prefix, i + 1, j + 1); }
    }
    forall i, j | 0 <= i < j < |p| ensures Sources(p)[i] != Sources(p)[j] {
      assert Sources(p)[i] == files[i] && Sources(p)[j] == files[j];
    }
  }

  /** Every `.svg` name left after the move is a final name, and every other
      name is untouched. */
  lemma SvgNamesAreFinal(m: Folder, files: seq<string>, prefix: string, m': Folder)
    requires SafeToRename(m, files, prefix)
    requires Moved(m, FinalPlan(files, prefix), m')
    ensures forall y :: y in m' && IsSvg(y) ==> exists k :: 1 <= k <= |files| && y == FinalName(prefix, k)
    ensures forall x :: x in m && !IsSvg(x) ==> x in m' && m'[x] == m[x]
  {
    var p := FinalPlan(files, prefix);
    forall y | y in m' && IsSvg(y) ensures exists k :: 1 <= k <= |files| && y == FinalName(prefix, k) {
      if y in m {
        SvgIsSource(m, files, prefix, y);
      }
      assert y in Targets(p);
      var k :| 0 <= k < |p| && Targets(p)[k] == y;
      assert y == FinalName(prefix, k + 1);
    }
    forall x | x in m && !IsSvg(x) ensures x in m' && m'[x] == m[x] {
      assert x !in Sources(p);
    }
  }

  /** Every `.svg` file of the folder is renamed by the plan. */
  lemma SvgIsSource(m: Folder, files: seq<string>, prefix: string, y: string)
    requires SafeToRename(m, files, prefix)
    requires y in m && IsSvg(y)
    ensures y in Sources(FinalPlan(files, prefix))
  {
    var k :| 0 <= k < |files| && files[k] == y;
    assert Sources(FinalPlan(files, prefix))[k] == y;
  }

  /** A final name matches the conformance pattern. */
  lemma FinalNameMatches(prefix: string, i: nat)
    ensures MatchesNumbered(prefix, FinalName(prefix, i))
  {
    var name := FinalName(prefix, i);
    var digits := NatToString(i);
    assert name == (prefix + "_") + (digits + ".svg");
    var rest := name[|prefix| + 1..];
    assert rest == digits + ".svg";
    DecimalRunOfDigits(digits, ".svg");
    assert rest[|digits|..] == ".svg";
  }

  /** After a safe rename the folder passes the conformance check. */
  lemma RenamedFolderConforms(m: Folder, files: seq<string>, prefix: string)
    requires SafeToRename(m, files, prefix)
    ensures TwoPhase(m, files, prefix).Some?
    ensures forall y :: y in TwoPhase(m, files, prefix).value && IsSvg(y) ==> MatchesNumbered(prefix, y)
  {
    SafeRenameResult(m, files, prefix);
    var m' := TwoPhase(m, files, prefix).value;
    forall y | y in m' && IsSvg(y) ensures MatchesNumbered(prefix, y) {
      var k :| 1 <= k <= |files| && y == FinalName(prefix, k);
      FinalNameMatches(prefix, k);
    }
  }
}
