/** Iconset file names: `icon_NxN.png` for an N-pixel entry and
    `icon_NxN@2x.png` for its double-density twin, and reading the side back
    from such a name. */
module IconNames {
  import opened Wrappers
  import opened Text

  /** `NxN` at the start of `rest` (the same decimal N twice): N and what follows. */
  function LeadingDimensions(rest: string): Option<(nat, string)>
  {
    var n1 := DecimalRun(rest);
    if n1 == 0 || n1 >= |rest| || rest[n1] != 'x' then None
    else
      var rest2 := rest[n1 + 1..];
      var n2 := DecimalRun(rest2);
      if n2 != n1 || rest2[..n2] != rest[..n1] then None
      else Some((DecimalValue(rest[..n1]), rest2[n2..]))
  }

  /** The side an iconset file name announces: `icon_NxN.png` is N pixels,
      `icon_NxN@2x.png` is 2N; anything else announces nothing. */
  function IconsetSide(name: string): Option<nat>
  {
    if !StartsWith(name, "icon_") then None
    else match LeadingDimensions(name[5..])
      case None => None
      case Some((side, tail)) =>
        if tail == ".png" then Some(side)
        else if tail == "@2x.png" then Some(2 * side)
        else None
  }

  /** The file name of an iconset entry of nominal size N. */
  function IconsetName(n: nat, retina: bool): string
  {
    "icon_" + NatToString(n) + "x" + NatToString(n) + (if retina then "@2x.png" else ".png")
  }

  lemma LeadingDimensionsOf(d: string, tail: string)
    requires |d| >= 1 && AllDigits(d)
    requires tail == [] || !IsDigit(tail[0])
    ensures LeadingDimensions(d + "x" + d + tail) == Some((DecimalValue(d), tail))
  {
    FirstDimension(d, tail);
    DigitsThen(d, tail);
    LeadingDimensionsFrom(d + "x" + d + tail, d, d + tail, tail);
  }

  lemma FirstDimension(d: string, tail: string)
    requires |d| >= 1 && AllDigits(d)
    ensures var rest := d + "x" + d + tail;
      && |d| < |rest| && DecimalRun(rest) == |d|
      && rest[..|d|] == d && rest[|d|] == 'x' && rest[|d| + 1..] == d + tail
  {
    var rest2 := d + tail;
    var after := "x" + rest2;
    var rest := d + "x" + d + tail;
    assert rest == d + after;
    DigitsThen(d, after);
    assert rest[|d|..][1..] == after[1..] == rest2;
  }

  lemma LeadingDimensionsFrom(rest: string, d: string, rest2: string, tail: string)
    requires |d| >= 1 && |d| < |rest| && DecimalRun(rest) == |d|
    requires rest[..|d|] == d && rest[|d|] == 'x' && rest[|d| + 1..] == rest2
    requires DecimalRun(rest2) == |d| && rest2[..|d|] == d && rest2[|d|..] == tail
    ensures LeadingDimensions(rest) == Some((DecimalValue(d), tail))
  {
  }

  /** A digit run followed by a non-digit splits back into the two parts. */
  lemma DigitsThen(d: string, t: string)
    requires AllDigits(d)
    requires t == [] || !IsDigit(t[0])
    ensures DecimalRun(d + t) == |d|
    ensures (d + t)[..|d|] == d && (d + t)[|d|..] == t
  {
    DecimalRunOfDigits(d, t);
  }

  /** Reading an iconset name back gives N, or 2N for the `@2x` variant. */
  lemma IconsetNameSide(n: nat, retina: bool)
    ensures IconsetSide(IconsetName(n, retina)) == Some(if retina then 2 * n else n)
  {
    var tail := if retina then "@2x.png" else ".png";
    var d := NatToString(n);
    var rest := d + "x" + d + tail;
    LeadingDimensionsOf(d, tail);
    DecimalValueOfNatToString(n);
    var name := IconsetName(n, retina);
    IconsetNameSplit(n, retina);
    assert StartsWith(name, "icon_") && name[5..] == rest;
    assert LeadingDimensions(name[5..]) == Some((n, tail));
  }

  lemma IconsetNameSplit(n: nat, retina: bool)
    ensures var d := NatToString(n);
      IconsetName(n, retina) == "icon_" + (d + "x" + d + (if retina then "@2x.png" else ".png"))
  {
  }

  /** Iconset names are PNG names, never ICO names. */
  lemma IconsetNameNotIco(n: nat, retina: bool)
    ensures !EndsWith(IconsetName(n, retina), ".ico")
  {
    var name := IconsetName(n, retina);
    assert name[|name| - 4..] == ".png";
  }

  lemma IconsetNames16()
    ensures IconsetName(16, false) == "icon_16x16.png" && IconsetName(16, true) == "icon_16x16@2x.png"
  {
    assert NatToString(16) == "16" by {
      assert NatToString(1) == "1";
    }
  }

  lemma IconsetNames32()
    ensures IconsetName(32, false) == "icon_32x32.png" && IconsetName(32, true) == "icon_32x32@2x.png"
  {
    assert NatToString(32) == "32" by {
      assert NatToString(3) == "3";
    }
  }

  lemma IconsetNames128()
    ensures IconsetName(128, false) == "icon_128x128.png" && IconsetName(128, true) == "icon_128x128@2x.png"
  {
    assert NatToString(128) == "128" by {
      assert NatToString(1) == "1"; assert NatToString(12) == "12";
    }
  }

  lemma IconsetNames256()
    ensures IconsetName(256, false) == "icon_256x256.png" && IconsetName(256, true) == "icon_256x256@2x.png"
  {
    assert NatToString(256) == "256" by {
      assert NatToString(2) == "2"; assert NatToString(25) == "25";
    }
  }

  lemma IconsetNames512()
    ensures IconsetName(512, false) == "icon_512x512.png" && IconsetName(512, true) == "icon_512x512@2x.png"
  {
    assert NatToString(512) == "512" by {
      assert NatToString(5) == "5"; assert NatToString(51) == "51";
    }
  }
}
