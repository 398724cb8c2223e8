/** The natural-sort key of the asset renamer: a file name is split at its
    runs of decimal digits (`re.split('([0-9]+)', s)`), every digit run
    becomes its integer value and every other part is lower-cased. Keys are
    compared the way Python compares lists: element by element, numbers by
    value and text by code point. */
module NaturalKeys {
  import opened Text

  predicate NoDigits(s: string) { forall i :: 0 <= i < |s| ==> !IsDigit(s[i]) }

  /** Length of the longest prefix free of decimal digits. */
  function NonDigitRun(s: string): (n: nat)
    ensures n <= |s| && NoDigits(s[..n])
    ensures n < |s| ==> IsDigit(s[n])
  {
    if s != [] && !IsDigit(s[0]) then
      var k := NonDigitRun(s[1..]);
      assert s[..k + 1] == [s[0]] + s[1..][..k];
      1 + k
    else 0
  }

  lemma {:induction false} NonDigitRunOf(text: string, rest: string)
    requires NoDigits(text)
    requires rest == [] || IsDigit(rest[0])
    ensures NonDigitRun(text + rest) == |text|
  {
    if text != [] {
      assert (text + rest)[1..] == text[1..] + rest;
      NonDigitRunOf(text[1..], rest);
    }
  }

  /** A part at an odd position is a digit run, one at an even position is text. */
  predicate WellSplit(parts: seq<string>) {
    && |parts| % 2 == 1
    && (forall i :: 0 <= i < |parts| && i % 2 == 0 ==> NoDigits(parts[i]))
    && (forall i :: 0 <= i < |parts| && i % 2 == 1 ==> parts[i] != [] && AllDigits(parts[i]))
  }

  function Join(parts: seq<string>): string {
    if parts == [] then [] else parts[0] + Join(parts[1..])
  }

  /** `re.split('([0-9]+)', s)`: text, digits, text, ..., text, where a text
      part may be empty only at either end. */
  function DigitSplit(s: string): (parts: seq<string>)
    ensures |parts| >= 1
    decreases |s|
  {
    var t := NonDigitRun(s);
    if t == |s| then [s]
    else
      var rest := s[t..];
      var d := DecimalRun(rest);
      [s[..t], rest[..d]] + DigitSplit(rest[d..])
  }

  /** Middle text parts are never empty: adjacent digit runs are one run. */
  predicate Canonical(parts: seq<string>) {
    forall i :: 0 < i < |parts| - 1 && i % 2 == 0 ==> parts[i] != []
  }

  lemma {:induction false} DigitSplitShape(s: string)
    ensures WellSplit(DigitSplit(s)) && Canonical(DigitSplit(s))
    decreases |s|
  {
    var t := NonDigitRun(s);
    if t == |s| {
      assert s[..t] == s;
    } else {
      var rest := s[t..];
      var d := DecimalRun(rest);
      var tail := DigitSplit(rest[d..]);
      DigitSplitShape(rest[d..]);
      DigitSplitHead(rest[d..]);
      SplitPrepend(s[..t], rest[..d], tail);
    }
  }

  /** The first part is empty only when it is the whole (empty) name. */
  lemma DigitSplitHead(s: string)
    requires s == [] || !IsDigit(s[0])
    ensures DigitSplit(s)[0] == [] ==> |DigitSplit(s)| == 1
  {
  }

  lemma SplitPrepend(text: string, digits: string, tail: seq<string>)
    requires NoDigits(text) && digits != [] && AllDigits(digits)
    requires WellSplit(tail) && Canonical(tail)
    requires tail[0] == [] ==> |tail| == 1
    ensures WellSplit([text, digits] + tail) && Canonical([text, digits] + tail)
  {
    var p := [text, digits] + tail;
    forall i | 0 <= i < |p| && i % 2 == 0
      ensures NoDigits(p[i])
    {
      if i >= 2 { assert p[i] == tail[i - 2]; }
    }
    forall i | 0 <= i < |p| && i % 2 == 1
      ensures p[i] != [] && AllDigits(p[i])
    {
      if i >= 2 { assert p[i] == tail[i - 2]; }
    }
    forall i | 0 < i < |p| - 1 && i % 2 == 0
      ensures p[i] != []
    {
      assert p[i] == tail[i - 2];
    }
  }

  /** One step of the split: the leading text, the digit run after it, and
      the split of what follows. */
  lemma DigitSplitStep(s: string, t: nat, d: nat)
    requires t == NonDigitRun(s) < |s|
    requires d == DecimalRun(s[t..])
    ensures DigitSplit(s) == [s[..t], s[t..][..d]] + DigitSplit(s[t..][d..])
  {
  }

  lemma Reassemble(s: string, t: nat, d: nat)
    requires t <= |s| && d <= |s| - t
    ensures s == s[..t] + (s[t..][..d] + s[t..][d..])
  {
    assert s[t..] == s[t..][..d] + s[t..][d..];
  }

  /** Joining the parts gives back the name: the split loses nothing. */
  lemma {:induction false} DigitSplitJoins(s: string)
    ensures Join(DigitSplit(s)) == s
    decreases |s|
  {
    var t := NonDigitRun(s);
    if t == |s| {
      assert s[..t] == s;
      assert Join([s]) == s + Join([]);
    } else {
      var rest := s[t..];
      var d := DecimalRun(rest);
      DigitSplitStep(s, t, d);
      DigitSplitJoins(rest[d..]);
      JoinTwo(s[..t], rest[..d], DigitSplit(rest[d..]));
      Reassemble(s, t, d);
    }
  }

  lemma JoinTwo(a: string, b: string, tail: seq<string>)
    ensures Join([a, b] + tail) == a + (b + Join(tail))
  {
    var p := [a, b] + tail;
    assert p[1..] == [b] + tail;
    assert p[1..][1..] == tail;
  }

  /** A name made of a digit-free text, one digit run and a digit-free suffix
      splits into exactly those three parts. */
  lemma DigitSplitThree(text: string, digits: string, suffix: string)
    requires NoDigits(text) && NoDigits(suffix)
    requires digits != [] && AllDigits(digits)
    ensures DigitSplit(text + digits + suffix) == [text, digits, suffix]
  {
    var s := text + digits + suffix;
    NonDigitRunOf(text, digits + suffix);
    assert s == text + (digits + suffix);
    var rest := s[|text|..];
    assert rest == digits + suffix;
    DecimalRunOfDigits(digits, suffix);
    assert rest[..|digits|] == digits;
    assert rest[|digits|..] == suffix;
    NonDigitRunOf(suffix, []);
    assert suffix + [] == suffix;
    assert s[..|text|] == text;
  }

  datatype Token = Num(value: nat) | Text(text: string)

  /** `[int(t) if t.isdigit() else t.lower() for t in re.split(...)]`. */
  function NaturalSortKey(s: string): (key: seq<Token>)
    ensures |key| % 2 == 1
    ensures forall i :: 0 <= i < |key| ==> (key[i].Num? <==> i % 2 == 1)
  {
    var parts := DigitSplit(s);
    DigitSplitShape(s);
    seq(|parts|, i requires 0 <= i < |parts| => TokenOf(parts[i]))
  }

  /** One element of the key: `int(t) if t.isdigit() else t.lower()`. */
  function TokenOf(part: string): Token {
    if part != [] && AllDigits(part) then Num(DecimalValue(part)) else Text(Lower(part))
  }

  lemma TokenOfText(part: string)
    requires NoDigits(part)
    ensures TokenOf(part) == Text(Lower(part))
  {
    if part != [] { assert !IsDigit(part[0]); }
  }

  lemma KeyOfThree(text: string, digits: string, suffix: string)
    requires NoDigits(text) && NoDigits(suffix)
    requires digits != [] && AllDigits(digits)
    ensures NaturalSortKey(text + digits + suffix)
      == [Text(Lower(text)), Num(DecimalValue(digits)), Text(Lower(suffix))]
  {
    DigitSplitThree(text, digits, suffix);
    TokenOfText(text);
    TokenOfText(suffix);
  }

  /** Key of a name with no upper-case letter and no digit is the name itself. */
  lemma KeyOfCaseFree(s: string)
    requires NoDigits(s)
    ensures NaturalSortKey(s) == [Text(Lower(s))]
  {
    NonDigitRunOf(s, []);
    assert s + [] == s;
    assert s[..|s|] == s;
    TokenOfText(s);
  }

  /** Lower-casing the name first changes nothing: text comparison ignores case. */
  lemma KeyIgnoresCase(s: string)
    ensures NaturalSortKey(Lower(s)) == NaturalSortKey(s)
  {
    DigitSplitLower(s);
    var p := DigitSplit(s);
    var q := DigitSplit(Lower(s));
    forall i | 0 <= i < |p|
      ensures TokenOf(q[i]) == TokenOf(p[i])
    {
      TokenOfLower(p[i]);
    }
    DigitSplitShape(s);
    DigitSplitShape(Lower(s));
  }

  lemma TokenOfLower(part: string)
    ensures TokenOf(Lower(part)) == TokenOf(part)
  {
    if part != [] && AllDigits(part) {
      assert Lower(part) == part;
    } else {
      LowerIdempotent(part);
      if part != [] {
        var j :| 0 <= j < |part| && !IsDigit(part[j]);
        assert !IsDigit(Lower(part)[j]);
      }
    }
  }

  lemma LowerIdempotent(s: string)
    ensures Lower(Lower(s)) == Lower(s)
  {
  }

  lemma LowerPrefix(s: string, n: nat)
    requires n <= |s|
    ensures Lower(s)[..n] == Lower(s[..n])
  {
  }

  lemma LowerSuffix(s: string, n: nat)
    requires n <= |s|
    ensures Lower(s)[n..] == Lower(s[n..])
  {
  }

  lemma {:induction false} NonDigitRunLower(s: string)
    ensures NonDigitRun(Lower(s)) == NonDigitRun(s)
  {
    if s != [] {
      LowerSuffix(s, 1);
      NonDigitRunLower(s[1..]);
    }
  }

  lemma {:induction false} DecimalRunLower(s: string)
    ensures DecimalRun(Lower(s)) == DecimalRun(s)
  {
    if s != [] {
      LowerSuffix(s, 1);
      DecimalRunLower(s[1..]);
    }
  }

  predicate LowerParts(q: seq<string>, p: seq<string>) {
    |q| == |p| && forall i :: 0 <= i < |p| ==> q[i] == Lower(p[i])
  }

  lemma LowerPartsPrepend(a: string, b: string, tail: seq<string>, ltail: seq<string>)
    requires LowerParts(ltail, tail)
    ensures LowerParts([Lower(a), Lower(b)] + ltail, [a, b] + tail)
  {
    var q := [Lower(a), Lower(b)] + ltail;
    var p := [a, b] + tail;
    forall i | 2 <= i < |p| ensures q[i] == Lower(p[i]) {
      assert q[i] == ltail[i - 2] && p[i] == tail[i - 2];
    }
  }

  /** Lower-casing commutes with the split. */
  lemma {:induction false} DigitSplitLower(s: string)
    ensures LowerParts(DigitSplit(Lower(s)), DigitSplit(s))
    decreases |s|
  {
    var l := Lower(s);
    var t := NonDigitRun(s);
    NonDigitRunLower(s);
    if t == |s| {
      assert DigitSplit(l) == [l];
    } else {
      var rest := s[t..];
      var lrest := l[t..];
      LowerSuffix(s, t);
      var d := DecimalRun(rest);
      DecimalRunLower(rest);
      DigitSplitStep(s, t, d);
      DigitSplitStep(l, t, d);
      LowerPrefix(s, t);
      LowerPrefix(rest, d);
      LowerSuffix(rest, d);
      DigitSplitLower(rest[d..]);
      LowerPartsPrepend(s[..t], rest[..d], DigitSplit(rest[d..]), DigitSplit(lrest[d..]));
    }
  }

  /** Python `a < b` on strings: code-point order, a proper prefix first. */
  predicate StrLess(a: string, b: string) {
    if a == [] then b != []
    else if b == [] then false
    else if a[0] != b[0] then a[0] < b[0]
    else StrLess(a[1..], b[1..])
  }

  /** Keys of two names compare a number with a number and a text with a
      text at every position; a mixed pair never arises and is ordered
      number first only to keep the order total. */
  predicate TokenLess(x: Token, y: Token) {
    match (x, y)
    case (Num(a), Num(b)) => a < b
    case (Text(a), Text(b)) => StrLess(a, b)
    case (Num(_), Text(_)) => true
    case (Text(_), Num(_)) => false
  }

  /** Python `a < b` on the key lists. */
  predicate KeyLess(a: seq<Token>, b: seq<Token>) {
    if a == [] then b != []
    else if b == [] then false
    else if a[0] != b[0] then TokenLess(a[0], b[0])
    else KeyLess(a[1..], b[1..])
  }

  lemma {:induction false} StrLessIrreflexive(a: string)
    ensures !StrLess(a, a)
  {
    if a != [] { StrLessIrreflexive(a[1..]); }
  }

  lemma {:induction false} StrLessTransitive(a: string, b: string, c: string)
    requires StrLess(a, b) && StrLess(b, c)
    ensures StrLess(a, c)
  {
    if a != [] && a[0] == b[0] && b[0] == c[0] {
      StrLessTransitive(a[1..], b[1..], c[1..]);
    }
  }

  lemma {:induction false} StrLessTotal(a: string, b: string)
    requires a != b
    ensures StrLess(a, b) || StrLess(b, a)
  {
    if a != [] && b != [] && a[0] == b[0] {
      assert a == [a[0]] + a[1..] && b == [b[0]] + b[1..];
      StrLessTotal(a[1..], b[1..]);
    }
  }

  /** A shared prefix does not decide the comparison. */
  lemma {:induction false} StrLessCommonPrefix(p: string, a: string, b: string)
    ensures StrLess(p + a, p + b) == StrLess(a, b)
  {
    if p != [] {
      assert (p + a)[0] == p[0] == (p + b)[0];
      assert (p + a)[1..] == p[1..] + a && (p + b)[1..] == p[1..] + b;
      assert StrLess(p + a, p + b) == StrLess(p[1..] + a, p[1..] + b);
      StrLessCommonPrefix(p[1..], a, b);
    } else {
      assert p + a == a && p + b == b;
    }
  }

  lemma TokenLessIrreflexive(x: Token)
    ensures !TokenLess(x, x)
  {
    if x.Text? { StrLessIrreflexive(x.text); }
  }

  lemma TokenLessTransitive(x: Token, y: Token, z: Token)
    requires TokenLess(x, y) && TokenLess(y, z)
    ensures TokenLess(x, z)
  {
    if x.Text? && y.Text? && z.Text? { StrLessTransitive(x.text, y.text, z.text); }
  }

  lemma TokenLessTotal(x: Token, y: Token)
    requires x != y
    ensures TokenLess(x, y) || TokenLess(y, x)
  {
    if x.Text? && y.Text? { StrLessTotal(x.text, y.text); }
  }

  lemma {:induction false} KeyLessIrreflexive(a: seq<Token>)
    ensures !KeyLess(a, a)
  {
    if a != [] { KeyLessIrreflexive(a[1..]); }
  }

  lemma {:induction false} KeyLessTransitive(a: seq<Token>, b: seq<Token>, c: seq<Token>)
    requires KeyLess(a, b) && KeyLess(b, c)
    ensures KeyLess(a, c)
  {
    if a != [] && b != [] && c != [] {
      if a[0] == b[0] && b[0] == c[0] {
        KeyLessTransitive(a[1..], b[1..], c[1..]);
      } else if a[0] != b[0] && b[0] != c[0] {
        TokenLessTransitive(a[0], b[0], c[0]);
        if a[0] == c[0] { TokenLessIrreflexive(a[0]); }
      }
    }
  }

  lemma {:induction false} KeyLessTotal(a: seq<Token>, b: seq<Token>)
    requires a != b
    ensures KeyLess(a, b) || KeyLess(b, a)
  {
    if a != [] && b != [] {
      if a[0] == b[0] {
        assert a == [a[0]] + a[1..] && b == [b[0]] + b[1..];
        KeyLessTotal(a[1..], b[1..]);
      } else {
        TokenLessTotal(a[0], b[0]);
      }
    }
  }

  /** Two names of the same numbered family order by their numbers:
      `arrow_2` comes before `arrow_10`. */
  lemma NumberedKeyOrder(text: string, m: nat, n: nat, suffix: string)
    ensures KeyLess([Text(text), Num(m), Text(suffix)], [Text(text), Num(n), Text(suffix)]) <==> m < n
  {
    var a := [Text(text), Num(m), Text(suffix)];
    var b := [Text(text), Num(n), Text(suffix)];
    assert a[1..] == [Num(m), Text(suffix)] && b[1..] == [Num(n), Text(suffix)];
    if m == n {
      KeyLessIrreflexive(a);
    }
  }
}
