/** The ids the canvas components give their elements and read back: an
    editable element's id from its state path, a dynamic component's
    element id from the component id, and the three patterns that take
    the component id out of an element id or path again. */
module ElementIds {
  import opened Wrappers
  import opened Text
  import opened JsNum

  const ComponentPrefix: string := "dynamicComponents-"
  const ComponentSuffix: string := "-content"
  const PathPrefix: string := "dynamicComponents."
  const PathSuffix: string := ".content"

  /** `path.replace(/\./g, '-')`: an editable element's id. */
  function EditableId(path: string): (r: string)
    ensures |r| == |path| && '.' !in r
    ensures forall i :: 0 <= i < |path| && path[i] != '.' ==> r[i] == path[i]
  {
    ReplaceAll(path, '.', '-')
  }

  /** Paths that differ only in where they have dots and dashes share an id:
      `a.b` and `a-b` are the same element for the style store. */
  lemma EditableIdMergesDotsAndDashes(p: string, q: string)
    requires |p| == |q|
    requires forall i :: 0 <= i < |p| ==> p[i] == q[i] || (p[i] in ".-" && q[i] in ".-")
    ensures EditableId(p) == EditableId(q)
  {
  }

  /** `dynamicComponents-${id}-content`: a component's element id. */
  function ComponentElementId(id: string): string {
    ComponentPrefix + id + ComponentSuffix
  }

  /** `dynamicComponents.${id}.content`: a component's content path. */
  function ComponentPath(id: string): string {
    PathPrefix + id + PathSuffix
  }

  /** The text an anchored pattern `^prefix(.+)suffix$` captures: what lies
      between the prefix and the suffix, when that is not empty. */
  function Between(s: string, prefix: string, suffix: string): (r: Option<string>)
    ensures r.Some? ==> r.value != [] && s == prefix + r.value + suffix
  {
    if |s| >= |prefix| + |suffix| + 1 && StartsWith(s, prefix) && EndsWith(s, suffix) then
      var mid := s[|prefix|..|s| - |suffix|];
      assert s == s[..|prefix|] + mid + s[|s| - |suffix|..];
      Some(mid)
    else None
  }

  /** The capture is the only one: wrapping any non-empty text in the prefix
      and the suffix and matching gives that text back. */
  lemma BetweenOfWrapped(prefix: string, mid: string, suffix: string)
    requires mid != []
    ensures Between(prefix + mid + suffix, prefix, suffix) == Some(mid)
  {
    var s := prefix + mid + suffix;
    assert s[..|prefix|] == prefix;
    assert s[|s| - |suffix|..] == suffix;
    assert s[|prefix|..|s| - |suffix|] == mid;
  }

  /** `id.match(/^dynamicComponents-(.+)-content$/)`, the selection box's
      test for a dynamic component. */
  function AnyComponentId(elementId: string): (r: Option<string>)
    ensures r.Some? ==> elementId == ComponentElementId(r.value)
  {
    Between(elementId, ComponentPrefix, ComponentSuffix)
  }

  /** `id.match(/^dynamicComponents-(\d+)-content$/)` followed by
      `parseInt(match[1])`: only all-digit component ids are recognised. */
  function NumericComponentId(elementId: string): (r: Option<int>)
  {
    match Between(elementId, ComponentPrefix, ComponentSuffix)
    case Some(m) =>
      if AllDigits(m) then ParseInt(m) else None
    case None => None
  }

  /** `extractComponentId(element)`: the text between `dynamicComponents.`
      and `.content` of a path, dots included; `null` for a missing path or
      one that does not match. */
  function ExtractComponentId(element: Option<string>): (r: Option<string>)
    ensures r.Some? ==> element.Some? && element.value == ComponentPath(r.value)
  {
    if element.None? then None else Between(element.value, PathPrefix, PathSuffix)
  }

  /** The element id of a numbered component reads back as its number. */
  lemma NumericIdRoundTrip(n: nat)
    ensures NumericComponentId(ComponentElementId(NatToString(n))) == Some(n)
    ensures AnyComponentId(ComponentElementId(NatToString(n))) == Some(NatToString(n))
  {
    BetweenOfWrapped(ComponentPrefix, NatToString(n), ComponentSuffix);
    ParseIntOfNatToString(n);
  }

  /** A component id with a non-digit (such as `comp_1`) is recognised by
      the selection box but not by the numeric pattern. */
  lemma NonNumericIdSkipped(id: string, i: nat)
    requires i < |id| && !IsDigit(id[i])
    ensures NumericComponentId(ComponentElementId(id)) == None
    ensures AnyComponentId(ComponentElementId(id)) == Some(id)
  {
    BetweenOfWrapped(ComponentPrefix, id, ComponentSuffix);
  }

  /** A component path reads back as its id, even when the id holds dots. */
  lemma ExtractRoundTrip(id: string)
    requires id != []
    ensures ExtractComponentId(Some(ComponentPath(id))) == Some(id)
  {
    BetweenOfWrapped(PathPrefix, id, PathSuffix);
  }

  /** No path, or the bare prefix and suffix with nothing between, gives no id. */
  lemma ExtractRefuses()
    ensures ExtractComponentId(None) == None
    ensures ExtractComponentId(Some(PathPrefix + PathSuffix)) == None
  {
  }
}
