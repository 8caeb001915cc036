/** Shared vocabulary: optional column values and counting facts about finite sets. */
module Base {

  /** A nullable database column. */
  datatype Option<+T> = None | Some(value: T)

  function Max(x: int, y: int): (m: int)
    ensures m >= x && m >= y && (m == x || m == y)
  {
    if x >= y then x else y
  }

  /** Every two distinct members of `ids` are at least `gap` apart in time. */
  ghost predicate Spaced<T(!new)>(ids: set<T>, time: map<T, int>, gap: int)
    requires ids <= time.Keys
  {
    forall i, j | i in ids && j in ids && i != j :: time[i] - time[j] >= gap || time[j] - time[i] >= gap
  }

  /** A finite, non-empty set has a member that is latest. */
  lemma {:induction false} LatestExists<T>(ids: set<T>, time: map<T, int>) returns (m: T)
    requires ids != {} && ids <= time.Keys
    ensures m in ids && forall i | i in ids :: time[i] <= time[m]
  {
    m :| m in ids;
    var rest := ids - {m};
    if rest == {} {
      forall i | i in ids ensures time[i] <= time[m] {
        assert i == m || i in rest;
      }
    } else {
      var r := LatestExists(rest, time);
      var best := if time[r] > time[m] then r else m;
      assert forall i | i in ids :: i == m || i in rest;
      m := best;
    }
  }

  /** In a spaced set every other member is at least one gap before the latest. */
  lemma GapBeforeLatest<T(!new)>(ids: set<T>, time: map<T, int>, gap: nat, m: T)
    requires ids <= time.Keys && Spaced(ids, time, gap) && m in ids && forall i | i in ids :: time[i] <= time[m]
    ensures forall i | i in ids - {m} :: time[i] <= time[m] - gap
  {
    forall i | i in ids - {m} ensures time[i] <= time[m] - gap {
      assert i in ids && i != m;
    }
  }

  lemma OneMoreGap(n: nat, gap: nat)
    ensures n * gap + gap == (n + 1) * gap
  {
  }

  /** Members `gap` apart that all lie in [lo, lo + len]: the gaps between them fit into `len`. */
  lemma {:induction false} SpacedBound<T(!new)>(ids: set<T>, time: map<T, int>, lo: int, len: int, gap: nat)
    requires ids != {} && ids <= time.Keys && Spaced(ids, time, gap)
    requires forall i | i in ids :: lo <= time[i] <= lo + len
    ensures (|ids| - 1) * gap <= len
    decreases |ids|
  {
    var m := LatestExists(ids, time);
    var rest := ids - {m};
    assert |ids| == |rest| + 1;
    if rest == {} {
      assert (|ids| - 1) * gap == 0;
    } else {
      GapBeforeLatest(ids, time, gap, m);
      SpacedBound(rest, time, lo, len - gap, gap);
      OneMoreGap(|rest| - 1, gap);
    }
  }

  /** A subset is no larger than the set that contains it. */
  lemma {:induction false} SubsetSize<T>(a: set<T>, b: set<T>)
    requires a <= b
    ensures |a| <= |b|
  {
    if a != {} {
      var x :| x in a;
      SubsetSize(a - {x}, b - {x});
    }
  }

  /** There is always an unused identifier. */
  lemma {:induction false} FreshNat(used: set<nat>) returns (n: nat)
    ensures n !in used
  {
    if used == {} {
      n := 0;
    } else {
      var time := map u | u in used :: u as int;
      var m := LatestExists(used, time);
      n := m + 1;
      forall u | u in used ensures u != n { assert time[u] <= time[m]; }
    }
  }
}
