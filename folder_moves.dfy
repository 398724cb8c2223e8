/** A directory as a map from names to file identities, and a sequence of
    POSIX renames inside it. A rename replaces an existing target and fails
    when its source is missing. */
module FolderMoves {
  import opened Wrappers
  import opened Sorting

  /** `os.rename(src, dst)` within one directory. */
  function RenameStep<K, V>(m: map<K, V>, src: K, dst: K): (r: Option<map<K, V>>)
    ensures r.Some? <==> src in m
  {
    if src in m then Some((m - {src})[dst := m[src]]) else None
  }

  /** The renames of `plan` performed in order; `None` once one fails. */
  function RunPlan<K, V>(m: map<K, V>, plan: seq<(K, K)>): Option<map<K, V>>
    decreases |plan|
  {
    if plan == [] then Some(m)
    else match RunPlan(m, plan[..|plan| - 1])
      case None => None
      case Some(m') => RenameStep(m', plan[|plan| - 1].0, plan[|plan| - 1].1)
  }

  lemma RunPlanExtend<K, V>(m: map<K, V>, plan: seq<(K, K)>, i: nat)
    requires i < |plan|
    ensures RunPlan(m, plan[..i + 1]) ==
      match RunPlan(m, plan[..i])
      case None => None
      case Some(m') => RenameStep(m', plan[i].0, plan[i].1)
  {
    assert plan[..i + 1][..i] == plan[..i];
  }

  /** Once a rename has failed, the rest of the plan does not run. */
  lemma {:induction false} RunPlanStuck<K, V>(m: map<K, V>, plan: seq<(K, K)>, i: nat)
    requires i <= |plan| && RunPlan(m, plan[..i]) == None
    ensures RunPlan(m, plan) == None
    decreases |plan| - i
  {
    if i < |plan| {
      RunPlanExtend(m, plan, i);
      RunPlanStuck(m, plan, i + 1);
    } else {
      assert plan[..i] == plan;
    }
  }

  function Sources<K>(plan: seq<(K, K)>): (r: seq<K>)
    ensures |r| == |plan| && forall k :: 0 <= k < |plan| ==> r[k] == plan[k].0
  {
    seq(|plan|, k requires 0 <= k < |plan| => plan[k].0)
  }

  function Targets<K>(plan: seq<(K, K)>): (r: seq<K>)
    ensures |r| == |plan| && forall k :: 0 <= k < |plan| ==> r[k] == plan[k].1
  {
    seq(|plan|, k requires 0 <= k < |plan| => plan[k].1)
  }

  /** Every source exists, no target exists yet, and no name is used twice. */
  predicate FreshMoves<K, V>(m: map<K, V>, plan: seq<(K, K)>) {
    && Distinct(Sources(plan))
    && Distinct(Targets(plan))
    && (forall k :: 0 <= k < |plan| ==> plan[k].0 in m && plan[k].1 !in m)
  }

  /** `m'` is `m` with the file under each source now under its target, and
      every other name as it was. */
  predicate Moved<K, V(==)>(m: map<K, V>, plan: seq<(K, K)>, m': map<K, V>) {
    && (forall k :: 0 <= k < |plan| ==>
          plan[k].0 in m && plan[k].1 in m' && m'[plan[k].1] == m[plan[k].0])
    && (forall x :: x in m && x !in Sources(plan) ==> x in m' && m'[x] == m[x])
    && (forall x :: x in m' ==> (x in m && x !in Sources(plan)) || x in Targets(plan))
  }

  /** Fresh renames all succeed and move exactly the named files. */
  lemma {:induction false} RunFreshMoves<K, V>(m: map<K, V>, plan: seq<(K, K)>)
    requires FreshMoves(m, plan)
    ensures RunPlan(m, plan).Some?
    ensures Moved(m, plan, RunPlan(m, plan).value)
    decreases |plan|
  {
    if plan != [] {
      var n := |plan| - 1;
      var front := plan[..n];
      FreshPrefix(m, plan, n);
      RunFreshMoves(m, front);
      var m1 := RunPlan(m, front).value;
      MovedStep(m, plan, m1);
    }
  }

  lemma FreshPrefix<K, V>(m: map<K, V>, plan: seq<(K, K)>, n: nat)
    requires FreshMoves(m, plan) && n <= |plan|
    ensures FreshMoves(m, plan[..n])
  {
    assert Sources(plan[..n]) == Sources(plan)[..n];
    assert Targets(plan[..n]) == Targets(plan)[..n];
  }

  lemma MovedStep<K, V>(m: map<K, V>, plan: seq<(K, K)>, m1: map<K, V>)
    requires FreshMoves(m, plan) && plan != []
    requires RunPlan(m, plan[..|plan| - 1]) == Some(m1)
    requires Moved(m, plan[..|plan| - 1], m1)
    ensures RunPlan(m, plan) == RenameStep(m1, plan[|plan| - 1].0, plan[|plan| - 1].1)
    ensures RenameStep(m1, plan[|plan| - 1].0, plan[|plan| - 1].1).Some?
    ensures Moved(m, plan, RenameStep(m1, plan[|plan| - 1].0, plan[|plan| - 1].1).value)
  {
    var n := |plan| - 1;
    var front := plan[..n];
    var (src, dst) := plan[n];
    LastIsNew(m, plan);
    assert plan == front + [(src, dst)];
    MovedAppend(m, front, m1, src, dst);
  }

  /** The last move's source and target are used by no earlier move. */
  lemma LastIsNew<K, V>(m: map<K, V>, plan: seq<(K, K)>)
    requires FreshMoves(m, plan) && plan != []
    ensures plan[|plan| - 1].0 !in Sources(plan[..|plan| - 1])
    ensures plan[|plan| - 1].1 !in Targets(plan[..|plan| - 1])
    ensures plan[|plan| - 1].0 !in Targets(plan[..|plan| - 1])
    ensures plan[|plan| - 1].0 in m && plan[|plan| - 1].1 !in m
  {
    var n := |plan| - 1;
    assert Sources(plan[..n]) == Sources(plan)[..n];
    assert Targets(plan[..n]) == Targets(plan)[..n];
  }

  lemma MovedAppend<K, V>(m: map<K, V>, front: seq<(K, K)>, m1: map<K, V>, src: K, dst: K)
    requires Moved(m, front, m1)
    requires src in m && src !in Sources(front) && src !in Targets(front)
    requires dst !in m && dst !in Targets(front)
    ensures src in m1 && dst !in m1
    ensures Moved(m, front + [(src, dst)], (m1 - {src})[dst := m1[src]])
  {
    var plan := front + [(src, dst)];
    var m2 := (m1 - {src})[dst := m1[src]];
    assert Sources(plan) == Sources(front) + [src];
    assert Targets(plan) == Targets(front) + [dst];
    forall k | 0 <= k < |front|
      ensures plan[k].1 in m2 && m2[plan[k].1] == m[plan[k].0]
    {
      assert plan[k] == front[k];
      assert front[k].1 != dst;
      assert front[k].1 != src;
    }
  }

  /** Two rounds of fresh renames, the second taking every target of the first
      to a final name, amount to one round from the original names. */
  lemma ComposeMoves<K, V>(m: map<K, V>, p1: seq<(K, K)>, m1: map<K, V>, p2: seq<(K, K)>, m2: map<K, V>)
    requires Moved(m, p1, m1) && Moved(m1, p2, m2)
    requires Sources(p2) == Targets(p1)
    requires forall k :: 0 <= k < |p1| ==> p1[k].1 !in m
    ensures Moved(m, Compose(p1, p2), m2)
  {
    var p := Compose(p1, p2);
    assert Sources(p) == Sources(p1);
    assert Targets(p) == Targets(p2);
    forall x | x in m && x !in Sources(p)
      ensures x in m2 && m2[x] == m[x]
    {
      assert x !in Targets(p1);
    }
  }

  /** The single rename from each first-round source to its final name. */
  function Compose<K>(p1: seq<(K, K)>, p2: seq<(K, K)>): (p: seq<(K, K)>)
    requires |p1| == |p2|
    ensures |p| == |p1| && forall k :: 0 <= k < |p| ==> p[k] == (p1[k].0, p2[k].1)
  {
    seq(|p1|, k requires 0 <= k < |p1| => (p1[k].0, p2[k].1))
  }

  /** A plan whose every rename keeps the name changes nothing. */
  lemma MovedInPlace<K, V>(m: map<K, V>, plan: seq<(K, K)>, m': map<K, V>)
    requires Moved(m, plan, m')
    requires forall k :: 0 <= k < |plan| ==> plan[k].0 == plan[k].1
    ensures m' == m
  {
    forall x | x in m ensures x in m' && m'[x] == m[x] {
      if x in Sources(plan) {
        var k :| 0 <= k < |plan| && plan[k].0 == x;
      }
    }
    forall y | y in m' ensures y in m {
      if y in Targets(plan) {
        var k :| 0 <= k < |plan| && plan[k].1 == y;
      }
    }
  }

  predicate Injective<K, V(==)>(m: map<K, V>) {
    forall x, y :: x in m && y in m && x != y ==> m[x] != m[y]
  }

  /** Renames only move files between names: the same identities are stored
      afterwards, each still under exactly one name. */
  lemma MovedPermutes<K, V>(m: map<K, V>, plan: seq<(K, K)>, m': map<K, V>)
    requires Moved(m, plan, m') && Distinct(Sources(plan)) && Distinct(Targets(plan))
    ensures m'.Values == m.Values
    ensures Injective(m) ==> Injective(m')
  {
    forall v | v in m.Values ensures v in m'.Values {
      var x :| x in m && m[x] == v;
      if x in Sources(plan) {
        var k :| 0 <= k < |plan| && plan[k].0 == x;
        assert m'[plan[k].1] == v;
      } else {
        assert m'[x] == v;
      }
    }
    forall v | v in m'.Values ensures v in m.Values {
      var y :| y in m' && m'[y] == v;
      if y in Targets(plan) {
        var k :| 0 <= k < |plan| && plan[k].1 == y;
        assert m[plan[k].0] == v;
      } else {
        assert m[y] == v;
      }
    }
    if Injective(m) {
      forall x, y | x in m' && y in m' && x != y
        ensures m'[x] != m'[y]
      {
        var a := Origin(m, plan, m', x);
        var b := Origin(m, plan, m', y);
      }
    }
  }

  /** The name a stored file had before the renames. */
  ghost function Origin<K, V>(m: map<K, V>, plan: seq<(K, K)>, m': map<K, V>, y: K): (x: K)
    requires Moved(m, plan, m') && y in m'
    ensures x in m && m[x] == m'[y]
    ensures y in Targets(plan) ==> exists k :: 0 <= k < |plan| && plan[k].1 == y && plan[k].0 == x
    ensures y !in Targets(plan) ==> x == y && y !in Sources(plan)
  {
    if y in Targets(plan) then
      var k :| 0 <= k < |plan| && plan[k].1 == y;
      plan[k].0
    else y
  }
}
