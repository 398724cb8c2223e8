/** The JavaScript and Python numeric primitives the source relies on,
    over mathematical reals and integers: `Math.round`, `int()` truncation,
    the sign-keeping `%` of JavaScript, clamping and `parseInt`. */
module JsNum {
  import opened Wrappers
  import opened Text
  import opened Hex

  /** `Math.round`: the nearest integer, halves rounded towards +infinity. */
  function Round(x: real): (r: int)
    ensures r as real - 0.5 <= x < r as real + 0.5
  {
    (x + 0.5).Floor
  }

  lemma RoundOfInt(n: int)
    ensures Round(n as real) == n
  {
  }

  lemma RoundMonotone(x: real, y: real)
    requires x <= y
    ensures Round(x) <= Round(y)
  {
  }

  /** Python `int(x)` / JavaScript `Math.trunc`: drops the fraction towards zero. */
  function Trunc(x: real): (r: int)
    ensures x >= 0.0 ==> 0.0 <= r as real <= x < r as real + 1.0
    ensures x < 0.0 ==> r as real - 1.0 < x <= r as real <= 0.0
  {
    if x >= 0.0 then x.Floor else -((-x).Floor)
  }

  /** JavaScript `a % b`: the remainder keeps the sign of the dividend. */
  function Rem(a: real, b: real): (r: real)
    requires b > 0.0
    ensures ((a - r) / b).Floor as real == (a - r) / b
    ensures a >= 0.0 ==> 0.0 <= r < b
    ensures a < 0.0 ==> -b < r <= 0.0
  {
    RemBounds(a, b);
    a - Trunc(a / b) as real * b
  }

  lemma RemBounds(a: real, b: real)
    requires b > 0.0
    ensures var r := a - Trunc(a / b) as real * b;
      && (a - r) / b == Trunc(a / b) as real
      && (a >= 0.0 ==> 0.0 <= r < b)
      && (a < 0.0 ==> -b < r <= 0.0)
  {
    var q := a / b;
    var k := Trunc(q) as real;
    DivFacts(a, b);
    RemCore(a, b, q, k);
  }

  lemma RemCore(a: real, b: real, q: real, k: real)
    requires b > 0.0 && q * b == a
    requires a >= 0.0 ==> 0.0 <= q - k < 1.0
    requires a < 0.0 ==> -1.0 < q - k <= 0.0
    ensures a >= 0.0 ==> 0.0 <= a - k * b < b
    ensures a < 0.0 ==> -b < a - k * b <= 0.0
  {
    var f := q - k;
    Distrib(q, k, b);
    assert f * b == a - k * b;
    if a < 0.0 {
      NegScale(f, b);
    } else {
      PosScale(f, b);
    }
  }

  lemma DivFacts(a: real, b: real)
    requires b > 0.0
    ensures (a / b) * b == a
    ensures a < 0.0 <==> a / b < 0.0
  {
  }

  lemma Distrib(q: real, k: real, b: real)
    ensures (q - k) * b == q * b - k * b
  {
  }

  lemma NegScale(f: real, b: real)
    requires b > 0.0 && -1.0 < f <= 0.0
    ensures -b < f * b <= 0.0
  {
    assert (f + 1.0) * b > 0.0;
  }

  lemma PosScale(f: real, b: real)
    requires b > 0.0 && 0.0 <= f < 1.0
    ensures 0.0 <= f * b < b
  {
    assert (1.0 - f) * b > 0.0;
  }

  function Min(a: real, b: real): real { if a <= b then a else b }

  function Max(a: real, b: real): real { if a >= b then a else b }

  /** `Math.max(lo, Math.min(hi, x))`. */
  function Clamp(x: real, lo: real, hi: real): (r: real)
    requires lo <= hi
    ensures lo <= r <= hi
    ensures lo <= x <= hi ==> r == x
    ensures x < lo ==> r == lo
    ensures x > hi ==> r == hi
  {
    Max(lo, Min(hi, x))
  }

  /** The magnitude `parseInt` reads after the sign: with a `0x`/`0X`
      prefix the longest run of hex digits, otherwise the longest run of
      decimal digits; `None` when that run is empty. */
  function ParseMagnitude(u: string): (r: Option<nat>)
  {
    if |u| >= 2 && u[0] == '0' && (u[1] == 'x' || u[1] == 'X') then
      var body := u[2..];
      var n := HexRun(body);
      if n == 0 then None else Some(HexValue(body[..n]))
    else
      var n := DecimalRun(u);
      if n == 0 then None else Some(DecimalValue(u[..n]))
  }

  /** JavaScript `parseInt(s)` with no radix: leading white space, an optional
      sign, then the magnitude; anything after the digits is ignored. `None`
      stands for `NaN`. */
  function ParseInt(s: string): (r: Option<int>)
  {
    var t := TrimStart(s);
    var neg := t != [] && t[0] == '-';
    var u := if t != [] && (t[0] == '-' || t[0] == '+') then t[1..] else t;
    match ParseMagnitude(u)
    case None => None
    case Some(mag) => Some(if neg then -(mag as int) else mag as int)
  }

  /** `parseInt` reads a decimal prefix: digits followed by any suffix such as `px`. */
  lemma ParseIntDecimalPrefix(digits: string, suffix: string)
    requires |digits| >= 1 && AllDigits(digits) && digits[0] != '0'
    requires suffix == [] || !IsDigit(suffix[0])
    ensures ParseInt(digits + suffix) == Some(DecimalValue(digits))
  {
    var s := digits + suffix;
    MagnitudeOfDigits(digits, suffix);
    TrimStartOfDigit(s);
    ParseIntUnsigned(s, DecimalValue(digits));
  }

  lemma ParseIntUnsigned(s: string, v: nat)
    requires TrimStart(s) == s && s != [] && s[0] != '-' && s[0] != '+'
    requires ParseMagnitude(s) == Some(v)
    ensures ParseInt(s) == Some(v)
  {
  }

  lemma MagnitudeOfDigits(digits: string, suffix: string)
    requires |digits| >= 1 && AllDigits(digits) && digits[0] != '0'
    requires suffix == [] || !IsDigit(suffix[0])
    ensures var s := digits + suffix; s[0] == digits[0] && ParseMagnitude(s) == Some(DecimalValue(digits))
  {
    var s := digits + suffix;
    assert s[0] == digits[0];
    DecimalRunOfDigits(digits, suffix);
    assert s[..|digits|] == digits;
  }

  lemma TrimStartOfDigit(s: string)
    requires s != [] && IsDigit(s[0])
    ensures TrimStart(s) == s && s[0] != '-' && s[0] != '+'
  {
  }

  /** Text with no leading digit, sign or space (`auto`, `abc`) is `NaN`. */
  lemma ParseIntNoDigits(s: string)
    requires s != [] && !IsDigit(s[0]) && !IsSpace(s[0]) && s[0] != '-' && s[0] != '+'
    ensures ParseInt(s) == None
  {
  }

  /** JavaScript `parseInt(s, 16)`: leading white space, an optional sign,
      an optional `0x`/`0X`, then the longest run of hex digits; `None`
      stands for `NaN`. */
  function ParseIntHex(s: string): (r: Option<int>)
  {
    var t := TrimStart(s);
    var neg := t != [] && t[0] == '-';
    var u := if t != [] && (t[0] == '-' || t[0] == '+') then t[1..] else t;
    match HexMagnitude(u)
    case None => None
    case Some(v) => Some(if neg then -(v as int) else v as int)
  }

  /** After the sign: an optional `0x`/`0X`, then the value of the longest
      run of hex digits, `None` when that run is empty. */
  function HexMagnitude(u: string): (r: Option<nat>)
  {
    var body := if |u| >= 2 && u[0] == '0' && (u[1] == 'x' || u[1] == 'X') then u[2..] else u;
    var n := HexRun(body);
    if n == 0 then None else Some(HexValue(body[..n]))
  }

  /** A plain string of hex digits parses to its value. */
  lemma ParseIntHexDigits(s: string)
    requires s != [] && AllHex(s)
    ensures ParseIntHex(s) == Some(HexValue(s))
  {
    assert IsHexDigit(s[0]) && !IsSpace(s[0]);
    assert TrimStart(s) == s;
    assert |s| >= 2 ==> IsHexDigit(s[1]);
    HexRunAll(s);
    assert s[..|s|] == s;
    assert HexMagnitude(s) == Some(HexValue(s));
  }

  /** `String(n)` for an integer. */
  function IntText(n: int): string {
    if n < 0 then "-" + NatToString(-n) else NatToString(n)
  }

  /** `parseInt` of a plain string of decimal digits is its decimal value. */
  lemma ParseIntOfDigits(s: string)
    requires s != [] && AllDigits(s)
    ensures ParseInt(s) == Some(DecimalValue(s) as int)
  {
    TrimStartOfDigit(s);
    DecimalRunOfDigits(s, []);
    assert s + [] == s;
    assert s[..|s|] == s;
    assert ParseMagnitude(s) == Some(DecimalValue(s));
  }

  /** `parseInt` reads back the decimal text of a natural number. */
  lemma ParseIntOfNatToString(n: nat)
    ensures ParseInt(NatToString(n)) == Some(n)
  {
    ParseIntOfDigits(NatToString(n));
    DecimalValueOfNatToString(n);
  }

  /** The 32-bit signed integer bitwise operators work on (`ToInt32`). */
  function ToInt32(n: int): (r: int)
    ensures -0x8000_0000 <= r < 0x8000_0000
    ensures (r - n) % 0x1_0000_0000 == 0
    ensures -0x8000_0000 <= n < 0x8000_0000 ==> r == n
  {
    (n + 0x8000_0000) % 0x1_0000_0000 - 0x8000_0000
  }
}
