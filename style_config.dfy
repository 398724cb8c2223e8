/** Colour helpers and style look-ups of the editor's style configuration:
    `hexToHsl`, `hslToHex`, the secondary-colour schemes, the style's
    gradient colour, and style and font-weight look-ups that fall back to
    the one defined style, `minimal`. */
module StyleConfig {
  import opened Wrappers
  import opened Text
  import opened Hex
  import opened JsNum

  /** `s.slice(a, b)` for `a <= b`: both ends cut to the length. */
  function Slice(s: string, a: nat, b: nat): (r: string)
    requires a <= b
    ensures b <= |s| ==> r == s[a..b]
  {
    var hi := if b <= |s| then b else |s|;
    var lo := if a <= hi then a else hi;
    s[lo..hi]
  }

  function Max3(a: real, b: real, c: real): real { Max(Max(a, b), c) }

  function Min3(a: real, b: real, c: real): real { Min(Min(a, b), c) }

  function Abs(x: real): real { if x < 0.0 then -x else x }

  /** `hexToHsl` before rounding, on channels scaled to fractions: hue as a
      fraction of a turn, then saturation and lightness. `None` where a
      denominator is zero (JavaScript carries on with `Infinity`). */
  function HslOf(r: real, g: real, b: real): Option<(real, real, real)> {
    var max := Max3(r, g, b);
    var min := Min3(r, g, b);
    var l := (max + min) / 2.0;
    if max == min then Some((0.0, 0.0, l))
    else
      var d := max - min;
      var den := if l > 0.5 then 2.0 - max - min else max + min;
      if den == 0.0 then None
      else
        var h := if max == r then (g - b) / d + (if g < b then 6.0 else 0.0)
                 else if max == g then (b - r) / d + 2.0
                 else (r - g) / d + 4.0;
        Some((h / 6.0, d / den, l))
  }

  /** `[Math.round(h * 360), Math.round(s * 100), Math.round(l * 100)]`
      for channels read as integers. */
  function HslOfChannels(r: int, g: int, b: int): Option<(int, int, int)> {
    match HslOf(r as real / 255.0, g as real / 255.0, b as real / 255.0)
    case None => None
    case Some((h, s, l)) => Some((Round(h * 360.0), Round(s * 100.0), Round(l * 100.0)))
  }

  /** `hexToHsl(hex)`: `parseInt` of the slices `[1, 3)`, `[3, 5)` and
      `[5, 7)` in base 16; `None` where one is `NaN`. */
  function HexToHsl(hex: string): Option<(int, int, int)> {
    var pr := ParseIntHex(Slice(hex, 1, 3));
    var pg := ParseIntHex(Slice(hex, 3, 5));
    var pb := ParseIntHex(Slice(hex, 5, 7));
    if pr.None? || pg.None? || pb.None? then None
    else HslOfChannels(pr.value, pg.value, pb.value)
  }

  /** `a / d` for `|a| <= d` lies in `[-1, 1]` and has the sign of `a`. */
  lemma DivBounds(a: real, d: real)
    requires d > 0.0 && -d <= a <= d
    ensures -1.0 <= a / d <= 1.0
    ensures a < 0.0 ==> a / d <= 0.0
    ensures a >= 0.0 ==> a / d >= 0.0
  {
    var q := a / d;
    assert q * d == a;
  }

  /** The hue sector formula gives a value in `[0, 6]`. */
  lemma HueInRange(r: real, g: real, b: real)
    requires Max3(r, g, b) != Min3(r, g, b)
    ensures var max := Max3(r, g, b);
      var d := max - Min3(r, g, b);
      var h := if max == r then (g - b) / d + (if g < b then 6.0 else 0.0)
               else if max == g then (b - r) / d + 2.0
               else (r - g) / d + 4.0;
      0.0 <= h <= 6.0
  {
    var max := Max3(r, g, b);
    var d := max - Min3(r, g, b);
    if max == r {
      DivBounds(g - b, d);
    } else if max == g {
      DivBounds(b - r, d);
    } else {
      DivBounds(r - g, d);
    }
  }

  /** Channels in `[0, 1]` give a hue, saturation and lightness in `[0, 1]`. */
  lemma HslOfInUnit(r: real, g: real, b: real)
    requires 0.0 <= r <= 1.0 && 0.0 <= g <= 1.0 && 0.0 <= b <= 1.0
    ensures HslOf(r, g, b).Some?
    ensures var (h, s, l) := HslOf(r, g, b).value;
      0.0 <= h <= 1.0 && 0.0 <= s <= 1.0 && 0.0 <= l <= 1.0
  {
    var max := Max3(r, g, b);
    var min := Min3(r, g, b);
    if max != min {
      var d := max - min;
      var l := (max + min) / 2.0;
      var den := if l > 0.5 then 2.0 - max - min else max + min;
      assert 0.0 < d <= den;
      DivBounds(d, den);
      HueInRange(r, g, b);
    }
  }

  lemma RoundInRange(x: real, hi: int)
    requires 0.0 <= x <= hi as real
    ensures 0 <= Round(x) <= hi
  {
    RoundMonotone(0.0, x);
    RoundMonotone(x, hi as real);
    RoundOfInt(0);
    RoundOfInt(hi);
  }

  lemma ChannelUnit(v: int)
    requires 0 <= v <= 255
    ensures 0.0 <= v as real / 255.0 <= 1.0
  {
  }

  /** Byte channels give `h` in `[0, 360]` and `s`, `l` in `[0, 100]`. */
  lemma HslOfChannelsRange(r: int, g: int, b: int)
    requires 0 <= r <= 255 && 0 <= g <= 255 && 0 <= b <= 255
    ensures HslOfChannels(r, g, b).Some?
    ensures var (h, s, l) := HslOfChannels(r, g, b).value;
      0 <= h <= 360 && 0 <= s <= 100 && 0 <= l <= 100
  {
    ChannelUnit(r);
    ChannelUnit(g);
    ChannelUnit(b);
    var r1, g1, b1 := r as real / 255.0, g as real / 255.0, b as real / 255.0;
    HslOfInUnit(r1, g1, b1);
    var (h, s, l) := HslOf(r1, g1, b1).value;
    RoundInRange(h * 360.0, 360);
    RoundInRange(s * 100.0, 100);
    RoundInRange(l * 100.0, 100);
  }

  /** For a `#rrggbb` colour, `hexToHsl` gives `h` in `[0, 360]` and `s`,
      `l` in `[0, 100]`. */
  lemma HexToHslRange(hex: string)
    requires IsHexColor(hex)
    ensures HexToHsl(hex).Some?
    ensures var (h, s, l) := HexToHsl(hex).value;
      0 <= h <= 360 && 0 <= s <= 100 && 0 <= l <= 100
  {
    var c := HexChannels(hex);
    HslOfChannelsRange(c.0, c.1, c.2);
  }

  /** The three channels `parseInt` reads from a `#rrggbb` colour are its
      digit pairs. */
  lemma HexChannels(hex: string) returns (c: (nat, nat, nat))
    requires IsHexColor(hex)
    ensures c == (Pair(hex[1..], 0), Pair(hex[1..], 1), Pair(hex[1..], 2))
    ensures c.0 < 256 && c.1 < 256 && c.2 < 256
    ensures HexToHsl(hex) == HslOfChannels(c.0, c.1, c.2)
  {
    var s := hex[1..];
    assert Slice(hex, 1, 3) == s[..2];
    assert Slice(hex, 3, 5) == s[2..4];
    assert Slice(hex, 5, 7) == s[4..];
    ParseIntHexDigits(s[..2]);
    ParseIntHexDigits(s[2..4]);
    ParseIntHexDigits(s[4..]);
    c := (Pair(s, 0), Pair(s, 1), Pair(s, 2));
  }

  /** A grey (`r == g == b`) has hue and saturation 0. */
  lemma GreyHasNoHue(v: int)
    ensures HslOfChannels(v, v, v).Some?
    ensures HslOfChannels(v, v, v).value.0 == 0 && HslOfChannels(v, v, v).value.1 == 0
  {
    RoundOfInt(0);
    assert 0.0 * 360.0 == 0.0 && 0.0 * 100.0 == 0.0;
  }

  /** The sector chain of `hslToHex`, `h` a fraction of a turn; outside
      `[0, 1)` no branch fires and all three stay 0. */
  function Sector(h: real, c: real, x: real): (real, real, real) {
    if 0.0 <= h < 1.0 / 6.0 then (c, x, 0.0)
    else if 1.0 / 6.0 <= h < 2.0 / 6.0 then (x, c, 0.0)
    else if 2.0 / 6.0 <= h < 3.0 / 6.0 then (0.0, c, x)
    else if 3.0 / 6.0 <= h < 4.0 / 6.0 then (0.0, x, c)
    else if 4.0 / 6.0 <= h < 5.0 / 6.0 then (x, 0.0, c)
    else if 5.0 / 6.0 <= h < 1.0 then (c, 0.0, x)
    else (0.0, 0.0, 0.0)
  }

  /** Chroma `c`, the second-largest component `x` and the offset `m` of
      `hslToHex(h, s, l)`. */
  function Chroma(h: real, s: real, l: real): (cxm: (real, real, real)) {
    var h1 := h / 360.0;
    var s1 := s / 100.0;
    var l1 := l / 100.0;
    var c := (1.0 - Abs(2.0 * l1 - 1.0)) * s1;
    var x := c * (1.0 - Abs(Rem(h1 * 6.0, 2.0) - 1.0));
    (c, x, l1 - c / 2.0)
  }

  /** The three channels `hslToHex` rounds. */
  function HslChannels(h: real, s: real, l: real): (int, int, int) {
    var (c, x, m) := Chroma(h, s, l);
    var (r, g, b) := Sector(h / 360.0, c, x);
    (Round((r + m) * 255.0), Round((g + m) * 255.0), Round((b + m) * 255.0))
  }

  /** `n.toString(16).padStart(2, '0')`; a negative number keeps its sign. */
  function Hex2(n: int): string {
    if n < 0 then PadStartZero("-" + ToHexString(-n), 2) else PadStartZero(ToHexString(n), 2)
  }

  /** `hslToHex(h, s, l)`. */
  function HslToHex(h: real, s: real, l: real): string {
    var (r, g, b) := HslChannels(h, s, l);
    "#" + Hex2(r) + Hex2(g) + Hex2(b)
  }

  /** With `s` and `l` in `[0, 100]`, `0 <= m` and `c + m <= 1`, and `x`
      lies in `[0, c]` whenever the hue is not negative. */
  lemma ChromaBounds(h: real, s: real, l: real)
    requires 0.0 <= s <= 100.0 && 0.0 <= l <= 100.0
    ensures var cxm := Chroma(h, s, l);
      0.0 <= cxm.0 && 0.0 <= cxm.2 && cxm.0 + cxm.2 <= 1.0 &&
      (h >= 0.0 ==> 0.0 <= cxm.1 <= cxm.0)
  {
    var l1 := l / 100.0;
    var k := 1.0 - Abs(2.0 * l1 - 1.0);
    var c := k * (s / 100.0);
    ChromaOffset(k, s / 100.0, l1);
    assert Chroma(h, s, l).0 == c && Chroma(h, s, l).2 == l1 - c / 2.0;
    if h >= 0.0 {
      SecondBound(h, c, Chroma(h, s, l).1);
    }
  }

  /** The second-largest component lies between 0 and the chroma. */
  lemma SecondBound(h: real, c: real, x: real)
    requires h >= 0.0 && c >= 0.0
    requires x == c * (1.0 - Abs(Rem(h / 360.0 * 6.0, 2.0) - 1.0))
    ensures 0.0 <= x <= c
  {
    var y := h / 360.0 * 6.0;
    assert h / 360.0 >= 0.0;
    SecondComponent(c, y);
  }

  lemma ChromaOffset(k: real, s1: real, l1: real)
    requires 0.0 <= s1 <= 1.0 && 0.0 <= l1 <= 1.0 && k == 1.0 - Abs(2.0 * l1 - 1.0)
    ensures 0.0 <= k * s1 && 0.0 <= l1 - k * s1 / 2.0 && k * s1 + (l1 - k * s1 / 2.0) <= 1.0
  {
    ScaleUnit(k, s1);
  }

  lemma SecondComponent(c: real, y: real)
    requires 0.0 <= c && 0.0 <= y
    ensures 0.0 <= c * (1.0 - Abs(Rem(y, 2.0) - 1.0)) <= c
  {
    ScaleUnit(c, 1.0 - Abs(Rem(y, 2.0) - 1.0));
  }

  /** `a * f` with `0 <= f <= 1` lies between 0 and `a`. */
  lemma ScaleUnit(a: real, f: real)
    requires 0.0 <= a && 0.0 <= f <= 1.0
    ensures 0.0 <= a * f <= a && 0.0 <= f * a <= a
  {
    assert a * (1.0 - f) >= 0.0;
  }

  /** With `s` and `l` in `[0, 100]`, every channel is a byte. */
  lemma HslChannelsInRange(h: real, s: real, l: real)
    requires 0.0 <= s <= 100.0 && 0.0 <= l <= 100.0
    ensures var (r, g, b) := HslChannels(h, s, l);
      0 <= r <= 255 && 0 <= g <= 255 && 0 <= b <= 255
  {
    ChromaBounds(h, s, l);
    var (c, x, m) := Chroma(h, s, l);
    var (r, g, b) := Sector(h / 360.0, c, x);
    if h < 0.0 {
      assert h / 360.0 < 0.0;
    }
    assert 0.0 <= r <= c && 0.0 <= g <= c && 0.0 <= b <= c;
    RoundInRange((r + m) * 255.0, 255);
    RoundInRange((g + m) * 255.0, 255);
    RoundInRange((b + m) * 255.0, 255);
  }

  lemma Hex2OfByte(n: int)
    requires 0 <= n < 256
    ensures Hex2(n) == ToHexFixed(n, 2)
  {
    if n >= 16 {
      assert HexWidth(n) == 1 + HexWidth(n / 16);
    }
    PadToHexString(n, 2);
  }

  /** With `s` and `l` in `[0, 100]`, `hslToHex` gives `#` and six
      lower-case hex digits whose pairs are the three channels. */
  lemma HslToHexFormat(h: real, s: real, l: real)
    requires 0.0 <= s <= 100.0 && 0.0 <= l <= 100.0
    ensures var (r, g, b) := HslChannels(h, s, l);
      var t := HslToHex(h, s, l);
      IsHexColor(t) && AllLowerHex(t[1..]) &&
      Pair(t[1..], 0) == r && Pair(t[1..], 1) == g && Pair(t[1..], 2) == b
  {
    HslChannelsInRange(h, s, l);
    var (r, g, b) := HslChannels(h, s, l);
    Hex2OfByte(r);
    Hex2OfByte(g);
    Hex2OfByte(b);
    assert HslToHex(h, s, l) == HexColor(r, g, b);
    HexColorDecodes(r, g, b);
  }

  /** A hue outside `[0, 360)` takes no sector branch: the colour is grey. */
  lemma HueOutsideTurnIsGrey(h: real, s: real, l: real)
    requires h < 0.0 || h >= 360.0
    ensures var (r, g, b) := HslChannels(h, s, l); r == g == b
  {
    assert h / 360.0 < 0.0 || h / 360.0 >= 1.0;
  }

  /** The hue, saturation and lightness of the three primaries. */
  lemma PrimariesToHsl()
    ensures HslOfChannels(255, 0, 0) == Some((0, 100, 50))
    ensures HslOfChannels(0, 255, 0) == Some((120, 100, 50))
    ensures HslOfChannels(0, 0, 255) == Some((240, 100, 50))
  {
    PrimaryFractionsToHsl();
    FullChannelsToHsl(255, 0, 0, 0.0, 0);
    FullChannelsToHsl(0, 255, 0, 1.0 / 3.0, 120);
    FullChannelsToHsl(0, 0, 255, 2.0 / 3.0, 240);
  }

  lemma PrimaryFractionsToHsl()
    ensures HslOf(1.0, 0.0, 0.0) == Some((0.0, 1.0, 0.5))
    ensures HslOf(0.0, 1.0, 0.0) == Some((1.0 / 3.0, 1.0, 0.5))
    ensures HslOf(0.0, 0.0, 1.0) == Some((2.0 / 3.0, 1.0, 0.5))
  {
    RedFractionToHsl();
    GreenFractionToHsl();
    BlueFractionToHsl();
  }

  lemma RedFractionToHsl()
    ensures HslOf(1.0, 0.0, 0.0) == Some((0.0, 1.0, 0.5))
  {
    assert Max3(1.0, 0.0, 0.0) == 1.0 && Min3(1.0, 0.0, 0.0) == 0.0;
  }

  lemma GreenFractionToHsl()
    ensures HslOf(0.0, 1.0, 0.0) == Some((1.0 / 3.0, 1.0, 0.5))
  {
    assert Max3(0.0, 1.0, 0.0) == 1.0 && Min3(0.0, 1.0, 0.0) == 0.0;
  }

  lemma BlueFractionToHsl()
    ensures HslOf(0.0, 0.0, 1.0) == Some((2.0 / 3.0, 1.0, 0.5))
  {
    assert Max3(0.0, 0.0, 1.0) == 1.0 && Min3(0.0, 0.0, 1.0) == 0.0;
  }

  /** Channels whose fractions have full saturation and half lightness
      give the rounded hue with 100 and 50. */
  lemma FullChannelsToHsl(r: int, g: int, b: int, h: real, hue: int)
    requires HslOf(r as real / 255.0, g as real / 255.0, b as real / 255.0) == Some((h, 1.0, 0.5))
    requires h * 360.0 == hue as real
    ensures HslOfChannels(r, g, b) == Some((hue, 100, 50))
  {
    RoundOfInt(hue);
    RoundOfInt(100);
    RoundOfInt(50);
  }

  /** At full saturation and half lightness the chroma is 1, the offset 0,
      and the second component 0 on the hues 0, 120 and 240. */
  lemma PrimaryChroma(h: real)
    requires h == 0.0 || h == 120.0 || h == 240.0
    ensures Chroma(h, 100.0, 50.0) == (1.0, 0.0, 0.0)
  {
    var y := h / 360.0 * 6.0;
    assert y == 0.0 || y == 2.0 || y == 4.0;
    RemOfEven(y);
  }

  lemma RemOfEven(y: real)
    requires y == 0.0 || y == 2.0 || y == 4.0
    ensures Rem(y, 2.0) == 0.0
  {
  }

  /** The hues 0, 120 and 240 at full saturation and half lightness are
      pure red, green and blue. */
  lemma HslToPrimaries()
    ensures HslChannels(0.0, 100.0, 50.0) == (255, 0, 0)
    ensures HslChannels(120.0, 100.0, 50.0) == (0, 255, 0)
    ensures HslChannels(240.0, 100.0, 50.0) == (0, 0, 255)
  {
    PrimaryChroma(0.0);
    PrimaryChroma(120.0);
    PrimaryChroma(240.0);
    RoundOfInt(0);
    RoundOfInt(255);
  }

  /** `0 <= a < 2b` wraps at most once. */
  lemma RemOnce(a: real, b: real)
    requires b > 0.0 && 0.0 <= a < 2.0 * b
    ensures Rem(a, b) == if a < b then a else a - b
  {
    var r := Rem(a, b);
    var q := (a - r) / b;
    assert q * b == a - r;
    QuotientRange(q, b, a - r);
    assert q.Floor as real == q;
    assert q == 0.0 || q == 1.0;
  }

  lemma QuotientRange(q: real, b: real, v: real)
    requires b > 0.0 && q * b == v && -b < v < 2.0 * b
    ensures -1.0 < q < 2.0
  {
    ScaleCompare(-1.0, q, b);
    ScaleCompare(q, 2.0, b);
  }

  lemma ScaleCompare(x: real, y: real, b: real)
    requires b > 0.0 && x * b < y * b
    ensures x < y
  {
    assert (y - x) * b > 0.0;
  }

  /** ---------- The hue 360 finding ---------- */

  /** `#ff0001` reads as hue 360, not 0: the rounding in `hexToHsl` lets a
      hue just below a full turn reach it. */
  lemma NearRedReadsAsFullTurn()
    ensures HexToHsl("#ff0001") == Some((360, 100, 50))
  {
    NearRedChannels();
    NearRedHsl();
  }

  lemma NearRedChannels()
    ensures HexToHsl("#ff0001") == HslOfChannels(255, 0, 1)
  {
    var c := HexChannels("#ff0001");
    assert "#ff0001"[1..] == "ff0001";
    PairsOfNearRed();
  }

  lemma NearRedHsl()
    ensures HslOfChannels(255, 0, 1) == Some((360, 100, 50))
  {
    var b := 1.0 / 255.0;
    var h := (0.0 - b) / 1.0 + 6.0;
    assert HslOf(1.0, 0.0, b) == Some((h / 6.0, 1.0, 0.5));
    assert h / 6.0 * 360.0 == 360.0 - 60.0 / 255.0;
    RoundOfInt(100);
    RoundOfInt(50);
  }

  lemma PairsOfNearRed()
    ensures Pair("ff0001", 0) == 255 && Pair("ff0001", 1) == 0 && Pair("ff0001", 2) == 1
  {
    var s := "ff0001";
    assert s[..2] == "ff" && s[2..4] == "00" && s[4..] == "01";
    HexPairValue("ff");
    HexPairValue("00");
    HexPairValue("01");
  }

  lemma HexPairValue(x: string)
    requires |x| == 2 && AllHex(x)
    ensures HexValue(x) == HexDigitValue(x[0]) * 16 + HexDigitValue(x[1])
  {
    var front := x[..1];
    assert front[..0] == [];
    assert HexValue(front) == HexValue(front[..0]) * 16 + HexDigitValue(x[0]);
    assert HexValue(x) == HexValue(front) * 16 + HexDigitValue(x[1]);
  }

  /** The chroma and offset of saturation 80 and lightness 65. */
  lemma ChromaOf8065(h: real)
    ensures Chroma(h, 80.0, 65.0).0 == 0.56 && Chroma(h, 80.0, 65.0).2 == 0.37
  {
  }

  /** As written, `hslToHex(360, 80, 65)` (the monochromatic secondary of
      `#ff0001`) is the grey `#5e5e5e`. */
  lemma FullTurnIsGrey()
    ensures HslChannels(360.0, 80.0, 65.0) == (94, 94, 94)
  {
    HueOutsideTurnIsGrey(360.0, 80.0, 65.0);
    ChromaOf8065(360.0);
    assert Sector(360.0 / 360.0, 0.56, Chroma(360.0, 80.0, 65.0).1) == (0.0, 0.0, 0.0);
    assert Round((0.0 + 0.37) * 255.0) == 94;
  }

  /** The hue taken modulo a full turn. */
  function WrapHue(h: real): (w: real)
    ensures 0.0 <= w < 360.0
    ensures 0.0 <= h < 360.0 ==> w == h
  {
    var n := (h / 360.0).Floor;
    WrapBounds(h, n);
    h - 360.0 * n as real
  }

  lemma WrapBounds(h: real, n: int)
    requires n == (h / 360.0).Floor
    ensures 0.0 <= h - 360.0 * n as real < 360.0
    ensures 0.0 <= h < 360.0 ==> n == 0
  {
    assert n as real <= h / 360.0 < n as real + 1.0;
  }

  /** `hslToHex` with the hue taken modulo 360, so that 360 is red again. */
  function HslChannelsWrapped(h: real, s: real, l: real): (int, int, int) {
    HslChannels(WrapHue(h), s, l)
  }

  /** The corrected conversion agrees with the original on `[0, 360)`. */
  lemma WrappedAgreesInTurn(h: real, s: real, l: real)
    requires 0.0 <= h < 360.0
    ensures HslChannelsWrapped(h, s, l) == HslChannels(h, s, l)
  {
  }

  /** The corrected conversion depends on the hue only modulo 360. */
  lemma WrappedPeriodic(h: real, s: real, l: real)
    ensures HslChannelsWrapped(h + 360.0, s, l) == HslChannelsWrapped(h, s, l)
  {
    var n := (h / 360.0).Floor;
    assert (h + 360.0) / 360.0 == h / 360.0 + 1.0;
    assert ((h + 360.0) / 360.0).Floor == n + 1;
  }

  /** Corrected, hue 360 at saturation 80 and lightness 65 is the red
      `(237, 94, 94)`, the colour hue 0 gives. */
  lemma FullTurnIsRedWhenWrapped()
    ensures HslChannelsWrapped(360.0, 80.0, 65.0) == (237, 94, 94)
    ensures HslChannelsWrapped(360.0, 80.0, 65.0) == HslChannels(0.0, 80.0, 65.0)
  {
    assert WrapHue(360.0) == 0.0 by {
      assert (360.0 / 360.0).Floor == 1;
    }
    ChromaOf8065(0.0);
    RemOfEven(0.0);
    assert Chroma(0.0, 80.0, 65.0).1 == 0.0;
    assert Round((0.56 + 0.37) * 255.0) == 237;
    assert Round((0.0 + 0.37) * 255.0) == 94;
  }

  /** ---------- Secondary and gradient colours ---------- */

  /** The hue rotation of each rotating scheme; `None` for
      `monochromatic` and for any name the switch does not list. */
  function HueOffset(scheme: string): (k: Option<int>)
    ensures k.Some? ==> 0 < k.value < 360
    ensures k.Some? <==> scheme in {"analogous", "complementary", "triadic", "split"}
  {
    if scheme == "analogous" then Some(30)
    else if scheme == "complementary" then Some(180)
    else if scheme == "triadic" then Some(120)
    else if scheme == "split" then Some(150)
    else None
  }

  /** `(h + k) % 360` as JavaScript computes it on a number. */
  function Rotate(h: real, k: int): real {
    Rem(h + k as real, 360.0)
  }

  /** The hue, saturation and lightness `generateSecondaryColor` hands to
      `hslToHex`: a rotated hue, or, for `monochromatic` and unknown
      schemes, saturation down 20 (at least 10) and lightness up 15 (at
      most 90). */
  function SecondaryHsl(scheme: string, h: real, s: real, l: real): (real, real, real) {
    match HueOffset(scheme)
    case Some(k) => (Rotate(h, k), s, l)
    case None => (h, Max(10.0, s - 20.0), Min(90.0, l + 15.0))
  }

  /** The colour `generateSecondaryColor` builds from a base colour's
      hue, saturation and lightness. */
  function SecondaryOf(hsl: (int, int, int), scheme: string): string {
    var (h2, s2, l2) := SecondaryHsl(scheme, hsl.0 as real, hsl.1 as real, hsl.2 as real);
    HslToHex(h2, s2, l2)
  }

  /** `generateSecondaryColor(baseColor, schemeType)`; `None` where the base
      colour does not parse. */
  function GenerateSecondaryColor(baseColor: string, scheme: string): Option<string> {
    match HexToHsl(baseColor)
    case None => None
    case Some(hsl) => Some(SecondaryOf(hsl, scheme))
  }

  /** A rotation of a hue in `[0, 360]` stays in `[0, 360)`. */
  lemma RotationInTurn(h: real, k: int)
    requires 0.0 <= h <= 360.0 && 0 < k < 360
    ensures 0.0 <= Rotate(h, k) < 360.0
    ensures Rotate(h, k) == if h + k as real < 360.0 then h + k as real else h + k as real - 360.0
  {
    RemOnce(h + k as real, 360.0);
  }

  /** Two complementary steps return to the hue taken modulo 360. */
  lemma ComplementaryTwice(h: real)
    requires 0.0 <= h <= 360.0
    ensures Rotate(Rotate(h, 180), 180) == WrapHue(h)
  {
    RotationInTurn(h, 180);
    RotationInTurn(Rotate(h, 180), 180);
    if h == 360.0 {
      assert (h / 360.0).Floor == 1;
    }
  }

  /** Three triadic steps return to the hue taken modulo 360. */
  lemma TriadicThrice(h: real)
    requires 0.0 <= h <= 360.0
    ensures Rotate(Rotate(Rotate(h, 120), 120), 120) == WrapHue(h)
  {
    RotationInTurn(h, 120);
    RotationInTurn(Rotate(h, 120), 120);
    RotationInTurn(Rotate(Rotate(h, 120), 120), 120);
    if h == 360.0 {
      assert (h / 360.0).Floor == 1;
    }
  }

  /** The monochromatic adjustment keeps saturation and lightness in
      `[0, 100]`, the saturation at least 10 and the lightness in
      `[15, 90]`; it lowers the saturation by at most 20 and raises the
      lightness by at most 15. */
  lemma MonochromaticRange(h: real, s: real, l: real)
    requires 0.0 <= s <= 100.0 && 0.0 <= l <= 100.0
    ensures var (h2, s2, l2) := SecondaryHsl("monochromatic", h, s, l);
      h2 == h && 10.0 <= s2 <= 100.0 && s - 20.0 <= s2 &&
      15.0 <= l2 <= 90.0 && l2 <= l + 15.0
  {
  }

  /** With saturation and lightness in `[0, 100]`, every scheme gives a
      lower-case `#rrggbb` colour. */
  lemma SecondaryOfFormat(hsl: (int, int, int), scheme: string)
    requires 0 <= hsl.1 <= 100 && 0 <= hsl.2 <= 100
    ensures IsHexColor(SecondaryOf(hsl, scheme)) && AllLowerHex(SecondaryOf(hsl, scheme)[1..])
  {
    var (h2, s2, l2) := SecondaryHsl(scheme, hsl.0 as real, hsl.1 as real, hsl.2 as real);
    HslToHexFormat(h2, s2, l2);
  }

  /** For a `#rrggbb` base colour, every scheme gives a `#rrggbb` colour in
      lower case. */
  lemma SecondaryFormat(baseColor: string, scheme: string)
    requires IsHexColor(baseColor)
    ensures GenerateSecondaryColor(baseColor, scheme).Some?
    ensures IsHexColor(GenerateSecondaryColor(baseColor, scheme).value)
    ensures AllLowerHex(GenerateSecondaryColor(baseColor, scheme).value[1..])
  {
    HexToHslRange(baseColor);
    SecondaryOfFormat(HexToHsl(baseColor).value, scheme);
  }

  /** The rotating schemes never reach hue 360 from a hue in `[0, 360]`, so
      on them the original conversion and the corrected one agree. */
  lemma RotatedSchemesUnaffected(h: int, s: real, l: real, scheme: string)
    requires 0 <= h <= 360 && HueOffset(scheme).Some?
    ensures var (h2, s2, l2) := SecondaryHsl(scheme, h as real, s, l);
      HslChannels(h2, s2, l2) == HslChannelsWrapped(h2, s2, l2)
  {
    RotationInTurn(h as real, HueOffset(scheme).value);
  }

  /** As written, the monochromatic secondary of `#ff0001` is the grey
      `#5e5e5e`; corrected it is the red `#ed5e5e`. */
  lemma MonochromaticNearRedIsGrey()
    ensures GenerateSecondaryColor("#ff0001", "monochromatic") == Some(HexColor(94, 94, 94))
    ensures SecondaryColorWrapped("#ff0001", "monochromatic") == Some(HexColor(237, 94, 94))
  {
    NearRedReadsAsFullTurn();
    assert SecondaryHsl("monochromatic", 360.0, 100.0, 50.0) == (360.0, 80.0, 65.0);
    assert GenerateSecondaryColor("#ff0001", "monochromatic") == Some(HslToHex(360.0, 80.0, 65.0));
    FullTurnIsGrey();
    FullTurnIsRedWhenWrapped();
    Hex2OfByte(94);
    Hex2OfByte(237);
  }

  /** `hslToHex` with the hue taken modulo 360. */
  function HslToHexWrapped(h: real, s: real, l: real): string {
    var (r, g, b) := HslChannelsWrapped(h, s, l);
    "#" + Hex2(r) + Hex2(g) + Hex2(b)
  }

  /** `generateSecondaryColor` on the corrected conversion. */
  function SecondaryColorWrapped(baseColor: string, scheme: string): Option<string> {
    match HexToHsl(baseColor)
    case None => None
    case Some(hsl) =>
      var (h2, s2, l2) := SecondaryHsl(scheme, hsl.0 as real, hsl.1 as real, hsl.2 as real);
      Some(HslToHexWrapped(h2, s2, l2))
  }

  /** A colour that is not grey keeps a hue under the corrected conversion:
      for hue 360, saturation above 0 and lightness strictly between 0 and
      100, red stays the largest channel. */
  lemma WrappedFullTurnIsNotGrey(s: real, l: real)
    requires 0.0 < s <= 100.0 && 0.0 < l < 100.0
    ensures var (r, g, b) := HslChannelsWrapped(360.0, s, l); g == b && r >= g
  {
    assert WrapHue(360.0) == 0.0 by {
      assert (360.0 / 360.0).Floor == 1;
    }
    ChromaBounds(0.0, s, l);
    RemOfEven(0.0);
    var (c, x, m) := Chroma(0.0, s, l);
    assert x == 0.0;
    RoundMonotone(m * 255.0, (c + m) * 255.0);
  }

  /** The colour settings of a style. */
  datatype ColorConfig = ColorConfig(
    gradientStrategy: string,
    gradientDirection: string,
    saturation: int,
    lightness: int)

  /** `styleColorConfigs`: only `minimal` is defined. */
  function StyleColorConfigs(): map<string, ColorConfig> {
    map["minimal" := ColorConfig("monochromatic", "135deg", -20, 15)]
  }

  /** `styleColorConfigs[styleId] || styleColorConfigs.minimal`. */
  function ColorConfigOf(styleId: string): (c: ColorConfig)
    ensures styleId in StyleColorConfigs() ==> c == StyleColorConfigs()[styleId]
    ensures styleId !in StyleColorConfigs() ==> c == StyleColorConfigs()["minimal"]
  {
    var configs := StyleColorConfigs();
    if styleId in configs then configs[styleId] else configs["minimal"]
  }

  /** The object `generateGradientColor` returns. */
  datatype Gradient = Gradient(gradientColor: string, direction: string)

  /** `Math.max(0, Math.min(100, x))`. */
  function Percent(x: real): real {
    Max(0.0, Min(100.0, x))
  }

  /** The gradient built from a base colour's hue, saturation and
      lightness: the style's saturation and lightness shifts, each clamped
      to `[0, 100]`, at the same hue. */
  function GradientOf(hsl: (int, int, int), config: ColorConfig): Gradient {
    Gradient(
      HslToHex(hsl.0 as real, Percent(hsl.1 as real + config.saturation as real),
               Percent(hsl.2 as real + config.lightness as real)),
      config.gradientDirection)
  }

  /** `generateGradientColor(baseColor, styleId)`; `None` where the base
      colour does not parse. */
  function GenerateGradientColor(baseColor: string, styleId: string): Option<Gradient> {
    match HexToHsl(baseColor)
    case None => None
    case Some(hsl) => Some(GradientOf(hsl, ColorConfigOf(styleId)))
  }

  /** `getGradientDirection(styleId)`. */
  function GradientDirection(styleId: string): string {
    ColorConfigOf(styleId).gradientDirection
  }

  /** Whatever the hue, saturation and lightness, the gradient colour is a
      lower-case `#rrggbb` colour: the clamps keep both in range. */
  lemma GradientOfFormat(hsl: (int, int, int), config: ColorConfig)
    ensures IsHexColor(GradientOf(hsl, config).gradientColor)
    ensures AllLowerHex(GradientOf(hsl, config).gradientColor[1..])
  {
    HslToHexIsColor(hsl.0 as real, Percent(hsl.1 as real + config.saturation as real),
                    Percent(hsl.2 as real + config.lightness as real));
  }

  lemma HslToHexIsColor(h: real, s: real, l: real)
    requires 0.0 <= s <= 100.0 && 0.0 <= l <= 100.0
    ensures IsHexColor(HslToHex(h, s, l)) && AllLowerHex(HslToHex(h, s, l)[1..])
  {
    HslToHexFormat(h, s, l);
  }

  /** Whatever the style, the gradient runs at 135 degrees, and every
      parsable base colour, not only a `#rrggbb` one, gives a lower-case
      `#rrggbb` gradient colour. */
  lemma GradientFormat(baseColor: string, styleId: string)
    ensures GradientDirection(styleId) == "135deg"
    ensures GenerateGradientColor(baseColor, styleId).Some? <==> HexToHsl(baseColor).Some?
    ensures GenerateGradientColor(baseColor, styleId).Some? ==>
      GenerateGradientColor(baseColor, styleId).value.direction == "135deg" &&
      IsHexColor(GenerateGradientColor(baseColor, styleId).value.gradientColor) &&
      AllLowerHex(GenerateGradientColor(baseColor, styleId).value.gradientColor[1..])
  {
    if HexToHsl(baseColor).Some? {
      GradientOfFormat(HexToHsl(baseColor).value, ColorConfigOf(styleId));
    }
  }

  /** Every style's gradient colour is the monochromatic secondary whenever
      neither clamp applies: saturation at least 30, lightness at most 75. */
  lemma GradientIsMonochromatic(hsl: (int, int, int), styleId: string)
    requires 30 <= hsl.1 <= 100 && 0 <= hsl.2 <= 75
    ensures GradientOf(hsl, ColorConfigOf(styleId)).gradientColor == SecondaryOf(hsl, "monochromatic")
  {
    var config := ColorConfigOf(styleId);
    ConfigShifts(styleId);
    GradientOfShift(hsl, config);
    SecondaryMonochromatic(hsl);
  }

  /** With the shifts every style uses and both clamps idle, the gradient is
      the base colour 20 less saturated and 15 lighter. */
  lemma GradientOfShift(hsl: (int, int, int), config: ColorConfig)
    requires 30 <= hsl.1 <= 100 && 0 <= hsl.2 <= 75
    requires config.saturation == -20 && config.lightness == 15
    ensures GradientOf(hsl, config).gradientColor == HslToHex(hsl.0 as real, hsl.1 as real - 20.0, hsl.2 as real + 15.0)
  {
    assert Percent(hsl.1 as real + config.saturation as real) == hsl.1 as real - 20.0;
    assert Percent(hsl.2 as real + config.lightness as real) == hsl.2 as real + 15.0;
  }

  /** With both clamps idle, the monochromatic secondary is the base colour
      20 less saturated and 15 lighter. */
  lemma SecondaryMonochromatic(hsl: (int, int, int))
    requires 30 <= hsl.1 <= 100 && 0 <= hsl.2 <= 75
    ensures SecondaryOf(hsl, "monochromatic") == HslToHex(hsl.0 as real, hsl.1 as real - 20.0, hsl.2 as real + 15.0)
  {
    assert "monochromatic" !in {"analogous", "complementary", "triadic", "split"} by {
      assert "monochromatic"[0] == 'm';
    }
    assert HueOffset("monochromatic").None?;
    var t := SecondaryHsl("monochromatic", hsl.0 as real, hsl.1 as real, hsl.2 as real);
    assert t == (hsl.0 as real, hsl.1 as real - 20.0, hsl.2 as real + 15.0);
    assert SecondaryOf(hsl, "monochromatic") == HslToHex(t.0, t.1, t.2);
  }

  /** Every style darkens the saturation by 20 and raises the lightness by 15. */
  lemma ConfigShifts(styleId: string)
    ensures ColorConfigOf(styleId).saturation == -20 && ColorConfigOf(styleId).lightness == 15
  {
  }

  /** ---------- Styles ---------- */

  /** A visual style: its names, font family, font weight per element and
      the class lists of its feature and event cards. */
  datatype Style = Style(
    id: string,
    name: string,
    icon: string,
    description: string,
    fontFamily: string,
    fontWeight: map<string, string>,
    featureCard: seq<(string, string)>,
    eventCard: seq<(string, string)>)

  function Minimal(): Style {
    Style("minimal", "\U{7b80}\U{7ea6}", "Minus", "\U{5e73}\U{9762}\U{8bbe}\U{8ba1}\U{ff0c}\U{7b80}\U{6d01}\U{5e72}\U{51c0}",
      "Inter, SF Pro Display, -apple-system, BlinkMacSystemFont, sans-serif",
      MinimalWeights(),
      [("background", "bg-white/5"), ("border", "border border-white/10"), ("padding", "p-4"),
          ("radius", "rounded-lg"), ("icon", "text-2xl"), ("title", "text-lg font-medium"),
          ("description", "text-sm text-white/80"), ("layout", "flex items-start gap-4")],
      [("background", "bg-white/5"), ("border", "border border-white/20"), ("padding", "p-6"),
          ("radius", "rounded-xl"), ("title", "text-2xl font-bold"), ("description", "text-lg"),
          ("discount", "text-4xl font-bold text-yellow-400")])
  }

  /** The font weights of `minimal`. */
  function MinimalWeights(): map<string, string> {
    map["title" := "600", "subtitle" := "400", "body" := "400"]
  }

  /** `styles`, keyed by id. */
  function Styles(): map<string, Style> {
    map["minimal" := Minimal()]
  }

  /** `getAllStyles()`: `Object.values(styles)` in insertion order. */
  function AllStyles(): seq<Style> {
    [Minimal()]
  }

  /** Every listed style is the one its id names, and every id is listed. */
  lemma AllStylesMatchesMap()
    ensures forall i :: 0 <= i < |AllStyles()| ==>
      AllStyles()[i].id in Styles() && Styles()[AllStyles()[i].id] == AllStyles()[i]
    ensures forall id :: id in Styles() ==> exists i :: 0 <= i < |AllStyles()| && AllStyles()[i].id == id
  {
    assert AllStyles()[0].id == "minimal";
  }

  /** `getStyleById(styleId)`: `styles[styleId] || styles.minimal`. */
  function StyleById(styleId: string): (st: Style)
    ensures styleId in Styles() ==> st == Styles()[styleId]
    ensures styleId !in Styles() ==> st == Minimal()
  {
    if styleId in Styles() then Styles()[styleId] else Minimal()
  }

  /** `getStyleFontStyles(styleId)`. */
  function FontStyles(styleId: string): (fs: (string, map<string, string>))
    ensures fs == (StyleById(styleId).fontFamily, StyleById(styleId).fontWeight)
  {
    var st := StyleById(styleId);
    (st.fontFamily, st.fontWeight)
  }

  /** `style.fontWeight[element] || style.fontWeight.body`: a missing or
      empty weight falls back to the body weight. */
  function WeightOf(weights: map<string, string>, element: string): (w: string)
    ensures element in weights && weights[element] != [] ==> w == weights[element]
    ensures !(element in weights && weights[element] != []) ==>
      w == (if "body" in weights then weights["body"] else [])
  {
    if element in weights && weights[element] != [] then weights[element]
    else if "body" in weights then weights["body"] else []
  }

  /** `getStyleFontClass(styleId, element)`. */
  function FontClass(styleId: string, element: string): (string, string) {
    var st := StyleById(styleId);
    (st.fontFamily, WeightOf(st.fontWeight, element))
  }

  /** Every style id falls back to `minimal`, and every element name other
      than `title` and `subtitle` gets the body weight. */
  lemma FontClassFallback(styleId: string, element: string)
    ensures FontClass(styleId, element).0 == Minimal().fontFamily
    ensures element == "title" ==> FontClass(styleId, element).1 == "600"
    ensures element != "title" ==> FontClass(styleId, element).1 == "400"
  {
  }

  /** `getStyleConfig(styleId)`: the style, the gradient direction and the
      three weights read by `parseInt`. */
  datatype FullStyle = FullStyle(
    style: Style,
    gradientDirection: string,
    titleWeight: Option<int>,
    subtitleWeight: Option<int>,
    bodyWeight: Option<int>)

  function StyleConfigOf(styleId: string): FullStyle {
    var st := StyleById(styleId);
    var w := st.fontWeight;
    FullStyle(st, ColorConfigOf(styleId).gradientDirection,
      ParseInt(if "title" in w then w["title"] else []),
      ParseInt(if "subtitle" in w then w["subtitle"] else []),
      ParseInt(if "body" in w then w["body"] else []))
  }

  /** Every style id gets the numeric weights 600, 400 and 400. */
  lemma StyleConfigWeights(styleId: string)
    ensures StyleConfigOf(styleId).style == StyleById(styleId)
    ensures StyleConfigOf(styleId).gradientDirection == GradientDirection(styleId)
    ensures StyleConfigOf(styleId).titleWeight == Some(600)
    ensures StyleConfigOf(styleId).subtitleWeight == Some(400)
    ensures StyleConfigOf(styleId).bodyWeight == Some(400)
  {
    var w := StyleById(styleId).fontWeight;
    assert w == MinimalWeights();
    assert w["title"] == [DigitChar(6), '0', '0'];
    assert w["subtitle"] == w["body"] == [DigitChar(4), '0', '0'];
    WeightLiteral(6);
    WeightLiteral(4);
  }

  /** The weight `"<d>00"` reads back as `d * 100`. */
  lemma WeightLiteral(d: nat)
    requires 1 <= d <= 9
    ensures ParseInt([DigitChar(d), '0', '0']) == Some(d * 100)
  {
    assert NatToString(d) == [DigitChar(d)];
    assert NatToString(d * 10) == [DigitChar(d), '0'];
    assert NatToString(d * 100) == [DigitChar(d), '0', '0'];
    ParseIntOfNatToString(d * 100);
  }

}
