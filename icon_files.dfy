/** The files the icon generator writes: the five bundle icons of
    `generate_all_icons`, the ten-entry iconset of `generate_real_icns` and
    the `icon.icns` built from it, and the icon list check of
    `verify_tauri_config`. Image data is abstracted to the side of each file;
    resampling, encoding and the `iconutil` run are not modelled (the
    outcome of `iconutil` is a parameter). */
module IconFiles {
  import opened Wrappers
  import opened Text
  import opened IconNames

  // ---------------------------------------------------------------------
  // Size tables (generate_all_icons, generate_real_icns) and config check

  /** The bundle files: 32x32, 128x128 and 128x128@2x PNGs, a 1024-pixel
      icon.png and a 256-pixel icon.ico, each with the side it is drawn at. */
  const RequiredIcons: seq<(nat, string)> := [
    (32, "32x32.png"), (128, "128x128.png"), (256, "128x128@2x.png"), (1024, "icon.png"), (256, "icon.ico")
  ]

  const IcnsSizes: seq<(nat, string)> := [
    (16, "icon_16x16.png"), (32, "icon_16x16@2x.png"),
    (32, "icon_32x32.png"), (64, "icon_32x32@2x.png"),
    (128, "icon_128x128.png"), (256, "icon_128x128@2x.png"),
    (256, "icon_256x256.png"), (512, "icon_256x256@2x.png"),
    (512, "icon_512x512.png"), (1024, "icon_512x512@2x.png")
  ]

  /** The nominal size of the i-th iconset entry. */
  function IcnsBase(i: nat): nat
    requires i < 10
  {
    [16, 32, 128, 256, 512][i / 2]
  }

  lemma IcnsEntryName(i: nat)
    requires i < 10
    ensures IcnsSizes[i].1 == IconsetName(IcnsBase(i), i % 2 == 1)
    ensures IcnsSizes[i].0 == if i % 2 == 1 then 2 * IcnsBase(i) else IcnsBase(i)
  {
    if i < 2 { IconsetNames16(); }
    else if i < 4 { IconsetNames32(); }
    else if i < 6 { IconsetNames128(); }
    else if i < 8 { IconsetNames256(); }
    else { IconsetNames512(); }
  }

  /** The iconset table has ten entries, and every entry's pixel side is the
      side its file name announces (N for `icon_NxN.png`, 2N for `@2x`). */
  lemma IcnsTableConsistent()
    ensures |IcnsSizes| == 10
    ensures forall i :: 0 <= i < |IcnsSizes| ==> IconsetSide(IcnsSizes[i].1) == Some(IcnsSizes[i].0)
  {
    forall i | 0 <= i < 10
      ensures IconsetSide(IcnsSizes[i].1) == Some(IcnsSizes[i].0)
    {
      IcnsEntryName(i);
      IconsetNameSide(IcnsBase(i), i % 2 == 1);
    }
  }

  // ---------------------------------------------------------------------
  // Writing the icon files (generate_all_icons, generate_real_icns)

  /** What a generated file holds: a PNG or ICO of some side, or an ICNS. */
  datatype IconFile = Png(side: nat) | Ico(side: nat) | Icns

  /** The file a table entry produces: ICO for a `.ico` name, PNG otherwise. */
  function EntryFile(entry: (nat, string)): IconFile
  {
    if EndsWith(entry.1, ".ico") then Ico(entry.0) else Png(entry.0)
  }

  /** `m` after storing the first `k` entries of `entries` in order (a later
      entry with the same key overwrites an earlier one). */
  function Overlay<K, V>(m: map<K, V>, entries: seq<(K, V)>, k: nat): map<K, V>
    requires k <= |entries|
  {
    if k == 0 then m else Overlay(m, entries, k - 1)[entries[k - 1].0 := entries[k - 1].1]
  }

  /** The files a size table describes, in table order. */
  function TableFiles(table: seq<(nat, string)>): (es: seq<(string, IconFile)>)
    ensures |es| == |table|
    ensures forall i :: 0 <= i < |table| ==> es[i] == (table[i].1, EntryFile(table[i]))
  {
    seq(|table|, i requires 0 <= i < |table| => (table[i].1, EntryFile(table[i])))
  }

  /** The directory after writing the first `k` entries of `table`. */
  function Written(files: map<string, IconFile>, table: seq<(nat, string)>, k: nat): map<string, IconFile>
    requires k <= |table|
  {
    Overlay(files, TableFiles(table), k)
  }

  /** The names among the first `k` entries that are analysed after writing:
      PNGs whose side is one of `sizes`. */
  function Analysed(table: seq<(nat, string)>, k: nat, pngOnly: bool, sizes: set<nat>): seq<string>
    requires k <= |table|
  {
    if k == 0 then []
    else
      var e := table[k - 1];
      Analysed(table, k - 1, pngOnly, sizes)
        + (if (!pngOnly || EndsWith(e.1, ".png")) && e.0 in sizes then [e.1] else [])
  }

  /** Storing entries adds exactly their keys. */
  lemma {:induction false} OverlayKeys<K, V>(m: map<K, V>, entries: seq<(K, V)>, k: nat)
    requires k <= |entries|
    ensures forall n :: n in Overlay(m, entries, k) <==> n in m || exists i :: 0 <= i < k && entries[i].0 == n
  {
    if k > 0 {
      OverlayKeys(m, entries, k - 1);
      forall n
        ensures n in Overlay(m, entries, k) <==> n in m || exists i :: 0 <= i < k && entries[i].0 == n
      {
        if n == entries[k - 1].0 {
          assert 0 <= k - 1 < k && entries[k - 1].0 == n;
        } else if exists i :: 0 <= i < k && entries[i].0 == n {
          var i :| 0 <= i < k && entries[i].0 == n;
          assert i < k - 1;
        }
      }
    }
  }

  /** Storing entries keeps the value of every key none of them names. */
  lemma {:induction false} OverlayKeeps<K, V>(m: map<K, V>, entries: seq<(K, V)>, k: nat, n: K)
    requires k <= |entries|
    requires n in m && forall i :: 0 <= i < k ==> entries[i].0 != n
    ensures n in Overlay(m, entries, k) && Overlay(m, entries, k)[n] == m[n]
  {
    if k > 0 {
      OverlayKeeps(m, entries, k - 1, n);
    }
  }

  /** Every stored key holds the value of one of its entries. */
  lemma {:induction false} OverlayValues<K, V>(m: map<K, V>, entries: seq<(K, V)>, k: nat, n: K)
    requires k <= |entries|
    requires n in Overlay(m, entries, k) && n !in m
    ensures exists i :: 0 <= i < k && entries[i] == (n, Overlay(m, entries, k)[n])
  {
    if n == entries[k - 1].0 {
      assert entries[k - 1] == (n, Overlay(m, entries, k)[n]);
    } else {
      OverlayValues(m, entries, k - 1, n);
      var i :| 0 <= i < k - 1 && entries[i] == (n, Overlay(m, entries, k - 1)[n]);
      assert entries[i] == (n, Overlay(m, entries, k)[n]);
    }
  }

  /** Writes the files of `table` in order into `files`, collecting the
      names handed to the transparency analysis. */
  method WriteTable(files: map<string, IconFile>, table: seq<(nat, string)>, pngOnly: bool, sizes: set<nat>)
    returns (written: map<string, IconFile>, analysed: seq<string>)
    ensures written == Written(files, table, |table|)
    ensures analysed == Analysed(table, |table|, pngOnly, sizes)
  {
    written := files;
    analysed := [];
    var i := 0;
    while i < |table|
      invariant 0 <= i <= |table|
      invariant written == Written(files, table, i)
      invariant analysed == Analysed(table, i, pngOnly, sizes)
    {
      var (size, name) := table[i];
      written := written[name := EntryFile(table[i])];
      if (!pngOnly || EndsWith(name, ".png")) && size in sizes {
        analysed := analysed + [name];
      }
      i := i + 1;
    }
  }

  /** The icons directory of the bundle and its temporary iconset. */
  class IconsDirectory {
    var icons: map<string, IconFile>
    var iconset: map<string, IconFile>
    var iconsetPresent: bool
    /** Names handed to the transparency analysis, in order. */
    var analysed: seq<string>

    constructor (existing: map<string, IconFile>)
      ensures icons == existing && iconset == map[] && !iconsetPresent && analysed == []
    {
      icons := existing;
      iconset := map[];
      iconsetPresent := false;
      analysed := [];
    }

    /** Writes the five bundle files, analysing the large PNGs. */
    method WriteRequiredIcons()
      modifies this
      ensures icons == Written(old(icons), RequiredIcons, |RequiredIcons|)
      ensures analysed == old(analysed) + Analysed(RequiredIcons, |RequiredIcons|, true, {256, 512, 1024})
      ensures iconset == old(iconset) && iconsetPresent == old(iconsetPresent)
    {
      var written, names := WriteTable(icons, RequiredIcons, true, {256, 512, 1024});
      icons := written;
      analysed := analysed + names;
    }

    /** Writes the ten iconset PNGs into the (created) iconset directory,
        analysing the 512 and 1024 pixel ones. */
    method WriteIconset()
      modifies this
      ensures iconsetPresent
      ensures iconset == Written(if old(iconsetPresent) then old(iconset) else map[], IcnsSizes, |IcnsSizes|)
      ensures analysed == old(analysed) + Analysed(IcnsSizes, |IcnsSizes|, false, {512, 1024})
      ensures icons == old(icons)
    {
      var start := if iconsetPresent then iconset else map[];
      var written, names := WriteTable(start, IcnsSizes, false, {512, 1024});
      iconset := written;
      iconsetPresent := true;
      analysed := analysed + names;
    }

    /** Replaces `icon.icns` using `iconutil`: the old file is removed first
        in every case; only a successful run writes the new one and removes
        the iconset directory. */
    method BuildIcns(outcome: IconutilOutcome)
      modifies this
      ensures outcome.Succeeded? ==> icons == (old(icons) - {"icon.icns"})["icon.icns" := Icns]
      ensures !outcome.Succeeded? ==> icons == old(icons) - {"icon.icns"}
      ensures iconsetPresent == (old(iconsetPresent) && !outcome.Succeeded?)
      ensures iconsetPresent ==> iconset == old(iconset)
      ensures analysed == old(analysed)
    {
      icons := icons - {"icon.icns"};
      if outcome.Succeeded? {
        icons := icons["icon.icns" := Icns];
        iconset := map[];
        iconsetPresent := false;
      }
    }
  }

  /** The result of running `iconutil`: exit status 0, another status, or
      the command not being installed. */
  datatype IconutilOutcome = Succeeded | Failed(stderr: string) | NotInstalled

  /** The bundle file names are distinct, so each file written is the one
      its entry describes. */
  lemma RequiredNamesDistinct()
    ensures forall i, j :: 0 <= i < j < |RequiredIcons| ==> RequiredIcons[i].1 != RequiredIcons[j].1
  {
    assert "32x32.png"[0] == '3' && "128x128.png"[0] == '1' && "128x128@2x.png"[0] == '1';
    assert "icon.png"[0] == 'i' && "icon.ico"[0] == 'i';
    assert |"128x128.png"| != |"128x128@2x.png"| && "icon.png"[5] != "icon.ico"[5];
  }

  /** The five bundle files are 32x32, 128x128 and 128x128@2x PNGs, a
      1024-pixel icon.png and a 256-pixel icon.ico. */
  lemma RequiredEntries()
    ensures TableFiles(RequiredIcons) == [("32x32.png", Png(32)), ("128x128.png", Png(128)),
      ("128x128@2x.png", Png(256)), ("icon.png", Png(1024)), ("icon.ico", Ico(256))]
  {
    assert EndsWith("icon.ico", ".ico");
    assert !EndsWith("icon.png", ".ico");
    assert !EndsWith("128x128@2x.png", ".ico");
    assert !EndsWith("32x32.png", ".ico") && !EndsWith("128x128.png", ".ico");
  }

  /** Of the bundle files, the 256 and 1024 pixel PNGs are analysed. */
  lemma RequiredIconsAnalysed()
    ensures Analysed(RequiredIcons, |RequiredIcons|, true, {256, 512, 1024}) == ["128x128@2x.png", "icon.png"]
  {
    var sizes: set<nat> := {256, 512, 1024};
    assert RequiredIcons[0].0 !in sizes && RequiredIcons[1].0 !in sizes;
    assert Analysed(RequiredIcons, 2, true, sizes) == [];
    assert EndsWith("128x128@2x.png", ".png");
    assert Analysed(RequiredIcons, 3, true, sizes) == ["128x128@2x.png"];
    assert EndsWith("icon.png", ".png");
    assert Analysed(RequiredIcons, 4, true, sizes) == ["128x128@2x.png", "icon.png"];
    assert !EndsWith("icon.ico", ".png");
  }

  /** Every iconset file written is a PNG whose side is the side its name
      announces, and the iconset holds exactly the table names. */
  lemma IconsetFiles()
    ensures var w := Written(map[], IcnsSizes, |IcnsSizes|);
      && (forall n :: n in w <==> exists i :: 0 <= i < |IcnsSizes| && IcnsSizes[i].1 == n)
      && forall n :: n in w ==> w[n].Png? && IconsetSide(n) == Some(w[n].side)
  {
    var es := TableFiles(IcnsSizes);
    var w := Overlay(map[], es, |IcnsSizes|);
    assert w == Written(map[], IcnsSizes, |IcnsSizes|);
    OverlayKeys(map[], es, |IcnsSizes|);
    assert forall n :: n in w <==> exists i :: 0 <= i < |IcnsSizes| && IcnsSizes[i].1 == n;
    forall n | n in w
      ensures w[n].Png? && IconsetSide(n) == Some(w[n].side)
    {
      IconsetFileAt(n);
    }
  }

  lemma IconsetFileAt(n: string)
    requires n in Written(map[], IcnsSizes, |IcnsSizes|)
    ensures var f := Written(map[], IcnsSizes, |IcnsSizes|)[n];
      f.Png? && IconsetSide(n) == Some(f.side)
  {
    var es := TableFiles(IcnsSizes);
    var w := Overlay(map[], es, |IcnsSizes|);
    OverlayValues(map[], es, |IcnsSizes|, n);
    var i :| 0 <= i < |IcnsSizes| && es[i] == (n, w[n]);
    IcnsEntryFile(i);
  }

  lemma IcnsEntryFile(i: nat)
    requires i < |IcnsSizes|
    ensures TableFiles(IcnsSizes)[i].1 == Png(IcnsSizes[i].0)
    ensures IconsetSide(IcnsSizes[i].1) == Some(IcnsSizes[i].0)
  {
    IcnsEntryName(i);
    IconsetNameNotIco(IcnsBase(i), i % 2 == 1);
    IconsetNameSide(IcnsBase(i), i % 2 == 1);
  }

  /** The three iconset entries of 512 and 1024 pixels are analysed. */
  lemma IconsetAnalysed()
    ensures Analysed(IcnsSizes, |IcnsSizes|, false, {512, 1024}) == [IcnsSizes[7].1, IcnsSizes[8].1, IcnsSizes[9].1]
  {
    var sizes: set<nat> := {512, 1024};
    AnalysedNone(IcnsSizes, 7, false, sizes);
  }

  lemma {:induction false} AnalysedNone(table: seq<(nat, string)>, k: nat, pngOnly: bool, sizes: set<nat>)
    requires k <= |table| && forall i :: 0 <= i < k ==> table[i].0 !in sizes
    ensures Analysed(table, k, pngOnly, sizes) == []
  {
    if k > 0 {
      AnalysedNone(table, k - 1, pngOnly, sizes);
    }
  }

  // ---------------------------------------------------------------------
  // verify_tauri_config

  /** A configured icon ending in `.icns` whose name does not contain
      `icon.icns` draws a warning. */
  predicate NonstandardIcns(icon: string) {
    EndsWith(icon, ".icns") && !Contains(icon, "icon.icns")
  }

  /** The warnings the icon list draws: one per listed icon that draws
      one, in list order, a repeated icon warned each time it is listed. */
  function Warnings(icons: seq<string>): (r: seq<string>)
    ensures |r| <= |icons|
    ensures forall w :: w in r <==> w in icons && NonstandardIcns(w)
  {
    if icons == [] then []
    else
      var init, last := icons[..|icons| - 1], icons[|icons| - 1];
      assert icons == init + [last];
      Warnings(init) + (if NonstandardIcns(last) then [last] else [])
  }

  /** The warnings of a list are those of its first part followed by those
      of the rest: the warnings keep the list's order. */
  lemma {:induction false} WarningsConcat(a: seq<string>, b: seq<string>)
    ensures Warnings(a + b) == Warnings(a) + Warnings(b)
    decreases |b|
  {
    if b == [] {
      assert a + b == a;
    } else {
      var init, last := b[..|b| - 1], b[|b| - 1];
      assert (a + b)[..|a + b| - 1] == a + init;
      assert (a + b)[|a + b| - 1] == last;
      WarningsConcat(a, init);
    }
  }

  /** An icon listed twice is warned about twice. */
  lemma RepeatedIconWarnedTwice()
    ensures Warnings(["icons/app.icns", "icons/app.icns"]) == ["icons/app.icns", "icons/app.icns"]
  {
    var w := "icons/app.icns";
    assert EndsWith(w, ".icns");
    assert !Contains(w, "icon.icns") by {
      forall k | 0 <= k <= |w| - |"icon.icns"| ensures !OccursAt(w, "icon.icns", k) {
        assert w[k] != 'i' || w[k + 4] != '.';
      }
    }
    assert [w, w][..1] == [w];
    var none: seq<string> := [];
    assert [w][..0] == none;
  }

  /** The icon list of `tauri.bundle.icon`, empty when any of the keys is
      absent; the warnings issued, in list order; and whether the list holds
      `icons/icon.icns`. */
  method VerifyTauriConfig(bundleIcons: Option<seq<string>>) returns (warned: seq<string>, hasIcns: bool)
    ensures var icons := bundleIcons.GetOr([]);
      && warned == Warnings(icons)
      && (hasIcns <==> "icons/icon.icns" in icons)
  {
    var icons := bundleIcons.GetOr([]);
    warned := [];
    var i := 0;
    while i < |icons|
      invariant 0 <= i <= |icons|
      invariant warned == Warnings(icons[..i])
    {
      assert icons[..i + 1][..i] == icons[..i];
      if NonstandardIcns(icons[i]) {
        warned := warned + [icons[i]];
      }
      i := i + 1;
    }
    assert icons[..i] == icons;
    hasIcns := "icons/icon.icns" in icons;
  }
}
