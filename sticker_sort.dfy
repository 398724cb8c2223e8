/** The two orders the asset renamer sorts by, and Python's stable
    `sorted(...)` over them: `rename_arrows` sorts by the natural-sort key,
    `rename_infographic` by the plain file name. */
module StickerSort {
  import opened NaturalKeys
  import opened Sorting

  datatype Ordering = Natural | ByName

  /** `key(a) < key(b)` for the ordering's key. */
  predicate Before(o: Ordering, a: string, b: string) {
    match o
    case Natural => KeyLess(NaturalSortKey(a), NaturalSortKey(b))
    case ByName => StrLess(a, b)
  }

  /** Neither name sorts before the other: their keys are equal. */
  predicate SameRank(o: Ordering, a: string, b: string) {
    match o
    case Natural => NaturalSortKey(a) == NaturalSortKey(b)
    case ByName => a == b
  }

  lemma BeforeIrreflexive(o: Ordering, a: string)
    ensures !Before(o, a, a)
  {
    match o
    case Natural => KeyLessIrreflexive(NaturalSortKey(a));
    case ByName => StrLessIrreflexive(a);
  }

  lemma BeforeTransitive(o: Ordering, a: string, b: string, c: string)
    requires Before(o, a, b) && Before(o, b, c)
    ensures Before(o, a, c)
  {
    match o
    case Natural => KeyLessTransitive(NaturalSortKey(a), NaturalSortKey(b), NaturalSortKey(c));
    case ByName => StrLessTransitive(a, b, c);
  }

  lemma BeforeTotal(o: Ordering, a: string, b: string)
    ensures Before(o, a, b) || Before(o, b, a) || SameRank(o, a, b)
  {
    match o
    case Natural =>
      if NaturalSortKey(a) != NaturalSortKey(b) {
        KeyLessTotal(NaturalSortKey(a), NaturalSortKey(b));
      }
    case ByName =>
      if a != b { StrLessTotal(a, b); }
  }

  /** `a` may stay in front of `b`: `b < a` does not hold. */
  predicate Le(o: Ordering, a: string, b: string) {
    !Before(o, b, a)
  }

  lemma LeTotal(o: Ordering, a: string, b: string)
    ensures Le(o, a, b) || Le(o, b, a)
  {
    if Before(o, a, b) && Before(o, b, a) {
      BeforeTransitive(o, a, b, a);
      BeforeIrreflexive(o, a);
    }
  }

  lemma LeTransitive(o: Ordering, a: string, b: string, c: string)
    requires Le(o, a, b) && Le(o, b, c)
    ensures Le(o, a, c)
  {
    if Before(o, c, a) {
      BeforeTotal(o, a, b);
      if Before(o, a, b) {
        BeforeTransitive(o, c, a, b);
      }
    }
  }

  /** The ordering as the `key=` comparison handed to `sorted`. */
  function BeforeFn(o: Ordering): (string, string) -> bool {
    (a, b) => Before(o, a, b)
  }

  lemma BeforeIsStrictWeakOrder(o: Ordering)
    ensures StrictWeakOrder(BeforeFn(o))
  {
    var less := BeforeFn(o);
    forall a ensures !less(a, a) {
      BeforeIrreflexive(o, a);
    }
    forall a, b, c | less(a, b) && less(b, c) ensures less(a, c) {
      BeforeTransitive(o, a, b, c);
    }
    forall a, b, c | !less(b, a) && !less(c, b) ensures !less(c, a) {
      LeTransitive(o, a, b, c);
    }
  }
}
