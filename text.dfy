/** String helpers shared by the model: the JavaScript/Python string
    operations the source uses, on `seq<char>`. Trimming skips JavaScript's
    white space; only ASCII letters are case-mapped and only ASCII digits
    are digits. */
module Text {

  predicate IsDigit(c: char) { '0' <= c <= '9' }

  predicate AllDigits(s: string) { forall i :: 0 <= i < |s| ==> IsDigit(s[i]) }

  predicate StartsWith(s: string, prefix: string) { prefix <= s }

  predicate EndsWith(s: string, suffix: string) {
    |suffix| <= |s| && s[|s| - |suffix|..] == suffix
  }

  /** JavaScript `s.includes(q)` / Python `q in s`. */
  predicate Contains(s: string, q: string) {
    exists i | 0 <= i <= |s| - |q| :: OccursAt(s, q, i)
  }

  predicate OccursAt(s: string, q: string, i: int) {
    0 <= i <= |s| - |q| && s[i..i + |q|] == q
  }

  lemma ContainsEmpty(s: string)
    ensures Contains(s, "")
  {
    assert OccursAt(s, "", 0);
  }

  lemma ContainsSelf(s: string)
    ensures Contains(s, s)
  {
    assert OccursAt(s, s, 0);
  }

  /** `s.indexOf(q, from)`: the first position at or after `from` where
      `q` occurs, or -1. */
  function IndexFrom(s: string, q: string, from: nat): (r: int)
    ensures r == -1 || (from <= r && OccursAt(s, q, r))
    ensures r == -1 ==> forall j :: from <= j ==> !OccursAt(s, q, j)
    ensures r >= 0 ==> forall j :: from <= j < r ==> !OccursAt(s, q, j)
    decreases |s| + 1 - from
  {
    if from + |q| > |s| then -1
    else if s[from..from + |q|] == q then from
    else IndexFrom(s, q, from + 1)
  }

  /** `s.indexOf(q)`. */
  function IndexOf(s: string, q: string): (r: int)
    ensures r == -1 <==> !Contains(s, q)
    ensures r >= 0 ==> OccursAt(s, q, r) && forall j :: 0 <= j < r ==> !OccursAt(s, q, j)
  {
    IndexFrom(s, q, 0)
  }

  /** `s.replace(a, b)` with a string pattern: only the first occurrence
      of `a` is replaced. */
  function ReplaceFirst(s: string, a: string, b: string): (r: string)
  {
    var k := IndexOf(s, a);
    if k < 0 then s else s[..k] + b + s[k + |a|..]
  }

  /** `s.split(c)` for a one-character separator: the pieces between the
      separators, `[s]` when there is none. */
  function Split(s: string, c: char): (r: seq<string>)
    ensures |r| >= 1
    ensures forall i :: 0 <= i < |r| ==> c !in r[i]
    decreases |s|
  {
    if c !in s then [s]
    else
      var i := CharIndex(s, c);
      [s[..i]] + Split(s[i + 1..], c)
  }

  /** The first position of `c` in `s`. */
  function CharIndex(s: string, c: char): (i: nat)
    requires c in s
    ensures i < |s| && s[i] == c && c !in s[..i]
  {
    if s[0] == c then 0
    else
      assert c in s[1..];
      var j := CharIndex(s[1..], c);
      assert s[..j + 1] == [s[0]] + s[1..][..j];
      j + 1
  }

  function LowerChar(c: char): char {
    if 'A' <= c <= 'Z' then (c as int - 'A' as int + 'a' as int) as char else c
  }

  /** `toLowerCase()` / `lower()` on ASCII letters. */
  function Lower(s: string): (r: string)
    ensures |r| == |s|
    ensures forall i :: 0 <= i < |s| ==> r[i] == LowerChar(s[i])
  {
    if s == [] then [] else [LowerChar(s[0])] + Lower(s[1..])
  }

  lemma LowerConcat(a: string, b: string)
    ensures Lower(a + b) == Lower(a) + Lower(b)
  {
  }

  /** Every occurrence of `a` replaced by `b` (`s.replace(/a/g, b)`). */
  function ReplaceAll(s: string, a: char, b: char): (r: string)
    ensures |r| == |s|
    ensures forall i :: 0 <= i < |s| ==> r[i] == (if s[i] == a then b else s[i])
  {
    if s == [] then [] else [if s[0] == a then b else s[0]] + ReplaceAll(s[1..], a, b)
  }

  /** JavaScript white space and line terminators, the characters `trim()`
      and `parseInt` skip: tab to carriage return, the space and no-break
      space, the Unicode space separators, the line and paragraph
      separators and the byte order mark. */
  predicate IsSpace(c: char) {
    ('\t' <= c <= '\r') || c == ' ' || c == 0xA0 as char || c == 0x1680 as char ||
    (0x2000 as char <= c <= 0x200A as char) || c == 0x2028 as char || c == 0x2029 as char ||
    c == 0x202F as char || c == 0x205F as char || c == 0x3000 as char || c == 0xFEFF as char
  }

  function TrimStart(s: string): (r: string)
    ensures |r| <= |s| && r == s[|s| - |r|..]
    ensures r == [] || !IsSpace(r[0])
    ensures forall i :: 0 <= i < |s| - |r| ==> IsSpace(s[i])
  {
    if s != [] && IsSpace(s[0]) then TrimStart(s[1..]) else s
  }

  function TrimEnd(s: string): (r: string)
    ensures |r| <= |s| && r == s[..|r|]
    ensures r == [] || !IsSpace(r[|r| - 1])
    ensures forall i :: |r| <= i < |s| ==> IsSpace(s[i])
  {
    if s != [] && IsSpace(s[|s| - 1]) then TrimEnd(s[..|s| - 1]) else s
  }

  /** Trimming the start of white space alone leaves nothing. */
  lemma {:induction false} TrimStartOfSpaces(s: string)
    requires forall i :: 0 <= i < |s| ==> IsSpace(s[i])
    ensures TrimStart(s) == []
  {
    if s != [] {
      TrimStartOfSpaces(s[1..]);
    }
  }

  /** `s.trim()`. */
  function Trim(s: string): string { TrimEnd(TrimStart(s)) }

  function DigitChar(d: nat): char
    requires d < 10
  {
    ('0' as int + d) as char
  }

  /** Decimal rendering of a natural number (`${n}`, `f'{n}'`, `str(n)`). */
  function NatToString(n: nat): (r: string)
    ensures |r| >= 1 && AllDigits(r)
    decreases n
  {
    if n < 10 then [DigitChar(n)] else NatToString(n / 10) + [DigitChar(n % 10)]
  }

  function DigitValue(c: char): nat
    requires IsDigit(c)
  {
    c as int - '0' as int
  }

  /** Value of a string of decimal digits (Python `int(text)` on such a string). */
  function DecimalValue(s: string): nat
    requires AllDigits(s)
  {
    if s == [] then 0 else DecimalValue(s[..|s| - 1]) * 10 + DigitValue(s[|s| - 1])
  }

  /** Reading the decimal rendering back gives the number. */
  lemma {:induction false} DecimalValueOfNatToString(n: nat)
    ensures DecimalValue(NatToString(n)) == n
    decreases n
  {
    var s := NatToString(n);
    if n < 10 {
      assert s[..0] == [];
    } else {
      DecimalValueOfNatToString(n / 10);
      assert s[..|s| - 1] == NatToString(n / 10);
    }
  }

  lemma NatToStringInjective(m: nat, n: nat)
    requires NatToString(m) == NatToString(n)
    ensures m == n
  {
    DecimalValueOfNatToString(m);
    DecimalValueOfNatToString(n);
  }

  /** Length of the longest prefix of decimal digits. */
  function DecimalRun(s: string): (n: nat)
    ensures n <= |s| && AllDigits(s[..n])
    ensures n < |s| ==> !IsDigit(s[n])
  {
    if s != [] && IsDigit(s[0]) then
      var k := DecimalRun(s[1..]);
      assert s[..k + 1] == [s[0]] + s[1..][..k];
      1 + k
    else 0
  }

  /** Digits followed by a non-digit: the run is exactly the digits. */
  lemma {:induction false} DecimalRunOfDigits(digits: string, suffix: string)
    requires AllDigits(digits)
    requires suffix == [] || !IsDigit(suffix[0])
    ensures DecimalRun(digits + suffix) == |digits|
  {
    if digits != [] {
      assert (digits + suffix)[1..] == digits[1..] + suffix;
      DecimalRunOfDigits(digits[1..], suffix);
    }
  }

  /** Regrouping a concatenation of three sequences. */
  lemma ConcatAssoc<T>(a: seq<T>, b: seq<T>, c: seq<T>)
    ensures a + (b + c) == (a + b) + c
  {
  }
}
