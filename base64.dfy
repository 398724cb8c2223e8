/** Base64 as the browser's `atob` and `btoa` use it: the standard
    alphabet, `=` padding on encoding, and leftover bits of a short final
    group dropped on decoding. Text here is already free of white space
    and padding; `ProjectStore.Atob` removes those first. */
module Base64 {

  type Byte = b: int | 0 <= b < 256

  predicate IsBase64Char(c: char) {
    ('A' <= c <= 'Z') || ('a' <= c <= 'z') || ('0' <= c <= '9') || c == '+' || c == '/'
  }

  predicate AllBase64(s: string) {
    forall i :: 0 <= i < |s| ==> IsBase64Char(s[i])
  }

  /** The character of a six-bit value. */
  function CharOf(v: nat): (c: char)
    requires v < 64
    ensures IsBase64Char(c)
  {
    if v < 26 then ('A' as int + v) as char
    else if v < 52 then ('a' as int + (v - 26)) as char
    else if v < 62 then ('0' as int + (v - 52)) as char
    else if v == 62 then '+'
    else '/'
  }

  /** The six-bit value of a character of the alphabet. */
  function ValueOf(c: char): (v: nat)
    requires IsBase64Char(c)
    ensures v < 64 && CharOf(v) == c
  {
    if 'A' <= c <= 'Z' then c as int - 'A' as int
    else if 'a' <= c <= 'z' then c as int - 'a' as int + 26
    else if '0' <= c <= '9' then c as int - '0' as int + 52
    else if c == '+' then 62
    else 63
  }

  lemma ValueOfCharOf(v: nat)
    requires v < 64
    ensures ValueOf(CharOf(v)) == v
  {
  }

  /** The six-bit values of a byte string: four per three bytes, and two
      or three for a final group of one or two bytes (low bits zero). */
  function Sextets(b: seq<Byte>): (r: seq<nat>)
    ensures AllSextets(r)
    ensures |r| % 4 == (if |b| % 3 == 0 then 0 else |b| % 3 + 1)
    decreases |b|
  {
    if |b| == 0 then []
    else if |b| == 1 then [b[0] / 4, b[0] % 4 * 16]
    else if |b| == 2 then [b[0] / 4, b[0] % 4 * 16 + b[1] / 16, b[1] % 16 * 4]
    else [b[0] / 4, b[0] % 4 * 16 + b[1] / 16, b[1] % 16 * 4 + b[2] / 64, b[2] % 64] + Sextets(b[3..])
  }

  predicate AllSextets(s: seq<nat>) {
    forall i :: 0 <= i < |s| ==> s[i] < 64
  }

  /** The bytes of a sequence of six-bit values; the bits left over by a
      short final group are dropped. */
  function Bytes(s: seq<nat>): (r: seq<Byte>)
    requires |s| % 4 != 1 && AllSextets(s)
    decreases |s|
  {
    if |s| == 0 then []
    else if |s| == 2 then [s[0] * 4 + s[1] / 16]
    else if |s| == 3 then [s[0] * 4 + s[1] / 16, s[1] % 16 * 16 + s[2] / 4]
    else [s[0] * 4 + s[1] / 16, s[1] % 16 * 16 + s[2] / 4, s[2] % 4 * 64 + s[3]] + Bytes(s[4..])
  }

  /** The characters of six-bit values. */
  function Chars(s: seq<nat>): (r: string)
    requires AllSextets(s)
    ensures |r| == |s| && AllBase64(r)
  {
    seq(|s|, i requires 0 <= i < |s| => CharOf(s[i]))
  }

  /** The six-bit values of characters of the alphabet. */
  function Values(e: string): (r: seq<nat>)
    requires AllBase64(e)
    ensures |r| == |e| && AllSextets(r)
  {
    seq(|e|, i requires 0 <= i < |e| => ValueOf(e[i]))
  }

  /** The unpadded encoding. */
  function Encode(b: seq<Byte>): (r: string)
    ensures AllBase64(r)
    ensures |r| % 4 == (if |b| % 3 == 0 then 0 else |b| % 3 + 1)
  {
    Chars(Sextets(b))
  }

  /** The `=` signs that complete the last group of four. */
  function Padding(n: nat): string {
    if n % 3 == 1 then "==" else if n % 3 == 2 then "=" else ""
  }

  /** `btoa` of a byte string. */
  function Btoa(b: seq<Byte>): string {
    Encode(b) + Padding(|b|)
  }

  /** Decoding text of the alphabet whose length is not one more than a
      multiple of four. */
  function Decode(e: string): (r: seq<Byte>)
    requires |e| % 4 != 1 && AllBase64(e)
  {
    Bytes(Values(e))
  }

  /** Reading characters back gives the values they were written from. */
  lemma ValuesOfChars(s: seq<nat>)
    requires AllSextets(s)
    ensures Values(Chars(s)) == s
  {
    var v := Values(Chars(s));
    forall i | 0 <= i < |s|
      ensures v[i] == s[i]
    {
      ValueOfCharOf(s[i]);
    }
  }

  /** Packing bytes into six-bit values and back loses nothing. */
  lemma {:induction false} BytesOfSextets(b: seq<Byte>)
    ensures Bytes(Sextets(b)) == b
    decreases |b|
  {
    if |b| >= 3 {
      var g := [b[0] / 4, b[0] % 4 * 16 + b[1] / 16, b[1] % 16 * 4 + b[2] / 64, b[2] % 64];
      var rest := Sextets(b[3..]);
      var s := g + rest;
      assert Sextets(b) == s;
      assert s[0] == g[0] && s[1] == g[1] && s[2] == g[2] && s[3] == g[3] && s[4..] == rest;
      BytesOfSextets(b[3..]);
      assert b == [b[0], b[1], b[2]] + b[3..];
    }
  }

  /** Decoding undoes encoding, for every byte string. */
  lemma DecodeEncode(b: seq<Byte>)
    ensures Decode(Encode(b)) == b
  {
    ValuesOfChars(Sextets(b));
    BytesOfSextets(b);
  }
}
