/** What both editors do around a page capture: setting the inline
    `display` of a list of elements, and the time stamp in a download's
    name. */
module PageCapture {
  import opened Text

  /** The inline `display` of the page's elements after setting it to
      `value` on every one of `selectors` that is on the page. */
  function WithDisplay(display: map<string, string>, selectors: seq<string>, value: string): (r: map<string, string>)
    ensures r.Keys == display.Keys
  {
    map k | k in display :: if k in selectors then value else display[k]
  }

  /** The time part of a download's name: the first 19 characters of the
      ISO time (`toISOString().slice(0, 19)`), with dashes for colons. */
  function Stamp(iso: string): string {
    ReplaceAll(if |iso| <= 19 then iso else iso[..19], ':', '-')
  }

  /** `selectors.forEach(s => { const e = document.querySelector(s);
      if (e) e.style.display = value; })`. */
  method ApplyDisplay(display: map<string, string>, selectors: seq<string>, value: string)
    returns (r: map<string, string>)
    ensures r == WithDisplay(display, selectors, value)
  {
    r := display;
    var i := 0;
    while i < |selectors|
      invariant 0 <= i <= |selectors|
      invariant r == WithDisplay(display, selectors[..i], value)
    {
      if selectors[i] in r {
        r := r[selectors[i] := value];
      }
      assert selectors[..i + 1] == selectors[..i] + [selectors[i]];
      i := i + 1;
    }
    assert selectors[..i] == selectors;
  }

  /** One more element of the list set. */
  lemma WithDisplayStep(display: map<string, string>, selectors: seq<string>, i: nat, value: string)
    requires i < |selectors|
    ensures var before := WithDisplay(display, selectors[..i], value);
      WithDisplay(display, selectors[..i + 1], value) ==
        if selectors[i] in display then before[selectors[i] := value] else before
  {
    assert selectors[..i + 1] == selectors[..i] + [selectors[i]];
  }

  /** Setting the same elements twice leaves the second value. */
  lemma WithDisplayTwice(display: map<string, string>, selectors: seq<string>, first: string, second: string)
    ensures WithDisplay(WithDisplay(display, selectors, first), selectors, second) == WithDisplay(display, selectors, second)
  {
  }

  /** The time part has no colon and at most 19 characters. */
  lemma StampShape(iso: string)
    ensures var t := Stamp(iso);
      ':' !in t && |t| == (if |iso| <= 19 then |iso| else 19)
  {
    var t := Stamp(iso);
    forall i | 0 <= i < |t|
      ensures t[i] != ':'
    {
    }
  }
}
