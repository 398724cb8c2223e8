/** Hexadecimal digits: `parseInt(s, 16)` on digit strings, `n.toString(16)`
    and fixed-width zero-padded lower-case rendering, with the round trip
    between them. */
module Hex {
  import opened Text

  predicate IsHexDigit(c: char) { '0' <= c <= '9' || 'a' <= c <= 'f' || 'A' <= c <= 'F' }

  predicate IsLowerHexDigit(c: char) { '0' <= c <= '9' || 'a' <= c <= 'f' }

  predicate AllHex(s: string) { forall i :: 0 <= i < |s| ==> IsHexDigit(s[i]) }

  predicate AllLowerHex(s: string) { forall i :: 0 <= i < |s| ==> IsLowerHexDigit(s[i]) }

  function HexDigitValue(c: char): (d: nat)
    requires IsHexDigit(c)
    ensures d < 16
  {
    if '0' <= c <= '9' then c as int - '0' as int
    else if 'a' <= c <= 'f' then c as int - 'a' as int + 10
    else c as int - 'A' as int + 10
  }

  function HexChar(d: nat): (c: char)
    requires d < 16
    ensures IsLowerHexDigit(c) && IsHexDigit(c) && HexDigitValue(c) == d
  {
    if d < 10 then ('0' as int + d) as char else ('a' as int + d - 10) as char
  }

  /** Value of a string of hex digits. */
  function HexValue(s: string): nat
    requires AllHex(s)
  {
    if s == [] then 0 else HexValue(s[..|s| - 1]) * 16 + HexDigitValue(s[|s| - 1])
  }

  /** Length of the longest prefix of hex digits. */
  function HexRun(s: string): (n: nat)
    ensures n <= |s| && AllHex(s[..n])
    ensures n < |s| ==> !IsHexDigit(s[n])
  {
    if s != [] && IsHexDigit(s[0]) then
      var k := HexRun(s[1..]);
      assert s[..k + 1] == [s[0]] + s[1..][..k];
      1 + k
    else 0
  }

  function Pow16(w: nat): (p: nat)
    ensures p >= 1
  {
    if w == 0 then 1 else 16 * Pow16(w - 1)
  }

  lemma HexValueBound(s: string)
    requires AllHex(s)
    ensures HexValue(s) < Pow16(|s|)
  {
    if s != [] {
      HexValueBound(s[..|s| - 1]);
    }
  }

  /** `w` lower-case hex digits of `n`, zero-padded on the left. */
  function ToHexFixed(n: nat, w: nat): (r: string)
    ensures |r| == w && AllLowerHex(r) && AllHex(r)
  {
    if w == 0 then [] else ToHexFixed(n / 16, w - 1) + [HexChar(n % 16)]
  }

  /** Parsing a fixed-width rendering gives the number back whenever it fits. */
  lemma {:induction false} HexValueOfToHexFixed(n: nat, w: nat)
    requires n < Pow16(w)
    ensures HexValue(ToHexFixed(n, w)) == n
  {
    if w > 0 {
      var r := ToHexFixed(n, w);
      assert r[..|r| - 1] == ToHexFixed(n / 16, w - 1);
      HexValueOfToHexFixed(n / 16, w - 1);
    }
  }

  /** Fixed-width rendering of a parsed lower-case digit string is the string. */
  lemma {:induction false} ToHexFixedOfHexValue(s: string)
    requires AllLowerHex(s)
    ensures AllHex(s) && ToHexFixed(HexValue(s), |s|) == s
  {
    assert AllHex(s);
    if s != [] {
      var init := s[..|s| - 1];
      ToHexFixedOfHexValue(init);
      var c := s[|s| - 1];
      var d := HexDigitValue(c);
      assert HexChar(d) == c;
      var v := HexValue(init);
      assert HexValue(s) == v * 16 + d;
      DivMod16(v, d);
      assert s == init + [c];
    }
  }

  lemma DivMod16(a: nat, d: nat)
    requires d < 16
    ensures (a * 16 + d) / 16 == a && (a * 16 + d) % 16 == d
  {
  }

  /** Number of hex digits `n.toString(16)` produces. */
  function HexWidth(n: nat): (w: nat)
    ensures w >= 1 && n < Pow16(w)
  {
    if n < 16 then 1 else 1 + HexWidth(n / 16)
  }

  /** JavaScript `n.toString(16)` for a non-negative integer. */
  function ToHexString(n: nat): (r: string)
    ensures |r| >= 1 && AllLowerHex(r) && AllHex(r)
  {
    ToHexFixed(n, HexWidth(n))
  }

  lemma HexValueOfToHexString(n: nat)
    ensures HexValue(ToHexString(n)) == n
  {
    HexValueOfToHexFixed(n, HexWidth(n));
  }

  /** JavaScript `s.padStart(w, '0')`. */
  function PadStartZero(s: string, w: nat): (r: string)
    ensures |r| == if |s| >= w then |s| else w
    ensures |s| >= w ==> r == s
    decreases w - |s|
  {
    if |s| >= w then s else PadStartZero("0" + s, w)
  }

  /** `n.toString(16).padStart(w, '0')` is the fixed-width rendering. */
  lemma PadToHexString(n: nat, w: nat)
    ensures PadStartZero(ToHexString(n), w) == ToHexFixed(n, if HexWidth(n) >= w then HexWidth(n) else w)
  {
    if HexWidth(n) < w {
      PadWithZeros(n, HexWidth(n), w);
    }
  }

  lemma {:induction false} ToHexFixedLeadingZero(n: nat, w: nat)
    requires n < Pow16(w)
    ensures ToHexFixed(n, w + 1) == "0" + ToHexFixed(n, w)
  {
    if w == 0 {
      assert n == 0;
    } else {
      ToHexFixedLeadingZero(n / 16, w - 1);
    }
  }

  lemma {:induction false} PadWithZeros(n: nat, k: nat, w: nat)
    requires n < Pow16(k) && k <= w
    ensures PadStartZero(ToHexFixed(n, k), w) == ToHexFixed(n, w)
    decreases w - k
  {
    if k < w {
      ToHexFixedLeadingZero(n, k);
      assert Pow16(k) <= Pow16(k + 1);
      PadWithZeros(n, k + 1, w);
    }
  }

  /** A run of hex digits covers a string of hex digits. */
  lemma {:induction false} HexRunAll(s: string)
    requires AllHex(s)
    ensures HexRun(s) == |s|
  {
    if s != [] {
      HexRunAll(s[1..]);
    }
  }

  /** `hi * 16^w + lo`: the digits of `hi` followed by `w` digits of `lo`. */
  function Join(hi: nat, lo: nat, w: nat): nat {
    hi * Pow16(w) + lo
  }

  /** Rendering `Join(hi, lo, w)` in `k + w` digits puts `hi` in the first
      `k` digits and `lo` in the last `w`. */
  lemma {:induction false} ToHexFixedSplit(hi: nat, lo: nat, k: nat, w: nat)
    requires lo < Pow16(w)
    ensures ToHexFixed(Join(hi, lo, w), k + w) == ToHexFixed(hi, k) + ToHexFixed(lo, w)
  {
    if w > 0 {
      var a := Join(hi, lo / 16, w - 1);
      var d := lo % 16;
      JoinStep(hi, lo, w);
      DivMod16(a, d);
      ToHexFixedSplit(hi, lo / 16, k, w - 1);
      DivMod16(lo / 16, d);
    }
  }

  lemma JoinStep(hi: nat, lo: nat, w: nat)
    requires 0 < w && lo < Pow16(w)
    ensures lo / 16 < Pow16(w - 1)
    ensures Join(hi, lo, w) == Join(hi, lo / 16, w - 1) * 16 + lo % 16
  {
    var p := Pow16(w - 1);
    assert hi * Pow16(w) == hi * p * 16;
  }

  /** `n.toString(16)` has exactly `w` digits when `16^(w-1) <= n < 16^w`. */
  lemma {:induction false} HexWidthExact(n: nat, w: nat)
    requires w >= 1 && Pow16(w - 1) <= n < Pow16(w)
    ensures HexWidth(n) == w
  {
    if n >= 16 {
      assert w >= 2;
      var p := Pow16(w - 2);
      assert Pow16(w - 1) == 16 * p && Pow16(w) == 16 * Pow16(w - 1);
      assert p <= n / 16 < Pow16(w - 1);
      HexWidthExact(n / 16, w - 1);
    }
  }

  /** Lower-casing hex digits keeps their value. */
  lemma {:induction false} HexValueOfLower(s: string)
    requires AllHex(s)
    ensures AllLowerHex(Lower(s)) && AllHex(Lower(s))
    ensures HexValue(Lower(s)) == HexValue(s)
  {
    LowerKeepsHex(s);
    if s != [] {
      var init, last := s[..|s| - 1], s[|s| - 1];
      HexValueOfLower(init);
      var l := Lower(s);
      assert l[..|s| - 1] == Lower(init);
      LowerHexDigit(last);
      assert HexValue(l) == HexValue(Lower(init)) * 16 + HexDigitValue(LowerChar(last));
    }
  }

  /** Lower-casing hex digits gives lower-case hex digits. */
  lemma LowerKeepsHex(s: string)
    requires AllHex(s)
    ensures AllLowerHex(Lower(s)) && AllHex(Lower(s))
  {
    var l := Lower(s);
    forall i | 0 <= i < |l|
      ensures IsLowerHexDigit(l[i]) && IsHexDigit(l[i])
    {
      LowerHexDigit(s[i]);
    }
  }

  /** Lower-casing one hex digit keeps its value. */
  lemma LowerHexDigit(c: char)
    requires IsHexDigit(c)
    ensures IsLowerHexDigit(LowerChar(c)) && IsHexDigit(LowerChar(c))
    ensures HexDigitValue(LowerChar(c)) == HexDigitValue(c)
  {
  }

  /** `#` and six hex digits. */
  predicate IsHexColor(c: string) {
    |c| == 7 && c[0] == '#' && AllHex(c[1..])
  }

  /** The value of the `i`-th two-digit pair of six hex digits. */
  function Pair(s: string, i: nat): (v: nat)
    requires |s| == 6 && AllHex(s) && i < 3
    ensures v < 256
  {
    var d := if i == 0 then s[..2] else if i == 1 then s[2..4] else s[4..];
    HexValueBound(d);
    Pow16Values();
    HexValue(d)
  }

  lemma Pow16Values()
    ensures Pow16(2) == 0x100 && Pow16(4) == 0x10000
    ensures Pow16(6) == 0x1000000 && Pow16(7) == 0x10000000
  {
    assert Pow16(1) == 16;
    assert Pow16(2) == 0x100;
    assert Pow16(3) == 0x1000;
    assert Pow16(4) == 0x10000;
    assert Pow16(5) == 0x100000;
    assert Pow16(6) == 0x1000000;
  }

  /** The value of two digit strings side by side. */
  lemma {:induction false} HexValueConcat(a: string, b: string)
    requires AllHex(a) && AllHex(b)
    ensures AllHex(a + b) && HexValue(a + b) == HexValue(a) * Pow16(|b|) + HexValue(b)
  {
    assert AllHex(a + b);
    if b == [] {
      assert a + b == a;
    } else {
      var init := b[..|b| - 1];
      var d := HexDigitValue(b[|b| - 1]);
      assert (a + b)[..|a + b| - 1] == a + init;
      assert HexValue(a + b) == HexValue(a + init) * 16 + d;
      HexValueConcat(a, init);
      assert HexValue(b) == HexValue(init) * 16 + d;
      assert Pow16(|b|) == 16 * Pow16(|init|);
      ShiftDigit(HexValue(a), Pow16(|init|), HexValue(init), d);
    }
  }

  lemma ShiftDigit(x: int, p: int, y: int, d: int)
    ensures (x * p + y) * 16 + d == x * (16 * p) + (y * 16 + d)
  {
  }

  lemma PairsValue(s: string)
    requires |s| == 6 && AllHex(s)
    ensures Pair(s, 0) < 256 && Pair(s, 1) < 256 && Pair(s, 2) < 256
    ensures HexValue(s) == (Pair(s, 0) * 0x100 + Pair(s, 1)) * 0x100 + Pair(s, 2)
  {
    Pow16Values();
    var hi, mid, lo := s[..2], s[2..4], s[4..];
    assert s == s[..4] + lo && s[..4] == hi + mid;
    HexValueConcat(s[..4], lo);
    HexValueConcat(hi, mid);
    HexValueBound(lo);
    HexValueBound(mid);
    HexValueBound(hi);
  }

  lemma TwoDigits(x: string)
    requires |x| == 2 && AllHex(x)
    ensures ToHexFixed(HexValue(x), 2) == Lower(x)
  {
    HexValueOfLower(x);
    ToHexFixedOfHexValue(Lower(x));
  }

  lemma PairDigits(s: string)
    requires |s| == 6 && AllHex(s)
    ensures ToHexFixed(Pair(s, 0), 2) == Lower(s[..2])
    ensures ToHexFixed(Pair(s, 1), 2) == Lower(s[2..4])
    ensures ToHexFixed(Pair(s, 2), 2) == Lower(s[4..])
  {
    TwoDigits(s[..2]);
    TwoDigits(s[2..4]);
    TwoDigits(s[4..]);
  }

  lemma LowerPairs(s: string)
    requires |s| == 6
    ensures Lower(s) == Lower(s[..2]) + Lower(s[2..4]) + Lower(s[4..])
  {
    var hi, mid, lo := s[..2], s[2..4], s[4..];
    assert s == hi + mid + lo;
    LowerConcat(hi + mid, lo);
    LowerConcat(hi, mid);
  }

  /** `#` and the three bytes in two lower-case hex digits each. */
  function HexColor(r: nat, g: nat, b: nat): string {
    "#" + ToHexFixed(r, 2) + ToHexFixed(g, 2) + ToHexFixed(b, 2)
  }

  /** Reading the pairs of a rendered colour gives the bytes back. */
  lemma HexColorDecodes(r: nat, g: nat, b: nat)
    requires r < 256 && g < 256 && b < 256
    ensures var t := HexColor(r, g, b);
      IsHexColor(t) && AllLowerHex(t[1..]) &&
      Pair(t[1..], 0) == r && Pair(t[1..], 1) == g && Pair(t[1..], 2) == b
  {
    var t := HexColor(r, g, b);
    Pow16Values();
    assert t[1..][..2] == ToHexFixed(r, 2);
    assert t[1..][2..4] == ToHexFixed(g, 2);
    assert t[1..][4..] == ToHexFixed(b, 2);
    HexValueOfToHexFixed(r, 2);
    HexValueOfToHexFixed(g, 2);
    HexValueOfToHexFixed(b, 2);
  }

  /** Rendering the pairs of six hex digits gives them back in lower case. */
  lemma HexColorOfPairs(s: string)
    requires |s| == 6 && AllHex(s)
    ensures HexColor(Pair(s, 0), Pair(s, 1), Pair(s, 2)) == "#" + Lower(s)
  {
    PairDigits(s);
    LowerPairs(s);
  }
}
