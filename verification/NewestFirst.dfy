/** Stable sorting, newest first: what `sort((a, b) => when(b) - when(a))` does. */
module NewestFirst {

  ghost predicate Sorted<T>(key: T -> int, ts: seq<T>) {
    forall i, j :: 0 <= i < j < |ts| ==> key(ts[i]) >= key(ts[j])
  }

  function Insert<T>(key: T -> int, ts: seq<T>, t: T): (r: seq<T>)
    ensures multiset(r) == multiset(ts) + multiset{t}
  {
    if ts == [] || key(ts[|ts| - 1]) >= key(t) then
      ts + [t]
    else
      var before, last := ts[..|ts| - 1], ts[|ts| - 1];
      assert ts == before + [last];
      Insert(key, before, t) + [last]
  }

  function Sort<T>(key: T -> int, ts: seq<T>): (r: seq<T>)
    ensures multiset(r) == multiset(ts)
  {
    if ts == [] then
      []
    else
      assert ts == ts[..|ts| - 1] + [ts[|ts| - 1]];
      Insert(key, Sort(key, ts[..|ts| - 1]), ts[|ts| - 1])
  }

  /** The elements with one key, in their order. */
  function AtKey<T>(key: T -> int, ts: seq<T>, k: int): seq<T> {
    if ts == [] then []
    else AtKey(key, ts[..|ts| - 1], k) + (if key(ts[|ts| - 1]) == k then [ts[|ts| - 1]] else [])
  }

  lemma AtKeyAppend<T>(key: T -> int, ts: seq<T>, t: T, k: int)
    ensures AtKey(key, ts + [t], k) == AtKey(key, ts, k) + (if key(t) == k then [t] else [])
  {
    assert (ts + [t])[..|ts|] == ts;
  }

  lemma {:induction false} InsertStaysSorted<T>(key: T -> int, ts: seq<T>, t: T)
    requires Sorted(key, ts)
    ensures Sorted(key, Insert(key, ts, t))
  {
    if ts != [] && key(ts[|ts| - 1]) < key(t) {
      var before, last := ts[..|ts| - 1], ts[|ts| - 1];
      InsertStaysSorted(key, before, t);
      var inserted := Insert(key, before, t);
      forall i | 0 <= i < |inserted|
        ensures key(inserted[i]) >= key(last)
      {
        assert inserted[i] in multiset(inserted);
        assert inserted[i] in before || inserted[i] == t;
      }
    }
  }

  /** The new element goes behind those of its own key. */
  lemma {:induction false} InsertGoesLast<T>(key: T -> int, ts: seq<T>, t: T, k: int)
    ensures AtKey(key, Insert(key, ts, t), k) == AtKey(key, ts, k) + (if key(t) == k then [t] else [])
  {
    if ts == [] || key(ts[|ts| - 1]) >= key(t) {
      AtKeyAppend(key, ts, t, k);
    } else {
      var before, last := ts[..|ts| - 1], ts[|ts| - 1];
      InsertGoesLast(key, before, t, k);
      AtKeyAppend(key, Insert(key, before, t), last, k);
      if key(last) == k {
        assert AtKey(key, Insert(key, before, t), k) == AtKey(key, before, k);
      }
    }
  }

  /** Sorted newest first, nothing lost or added, and ties keep their order. */
  lemma {:induction false} SortIsStable<T>(key: T -> int, ts: seq<T>, k: int)
    ensures Sorted(key, Sort(key, ts))
    ensures AtKey(key, Sort(key, ts), k) == AtKey(key, ts, k)
  {
    if ts != [] {
      SortIsStable(key, ts[..|ts| - 1], k);
      InsertStaysSorted(key, Sort(key, ts[..|ts| - 1]), ts[|ts| - 1]);
      InsertGoesLast(key, Sort(key, ts[..|ts| - 1]), ts[|ts| - 1], k);
    }
  }

  // ---- Sums do not depend on the order --------------------------------------

  function Sum<T>(f: T -> int, ts: seq<T>): int {
    if ts == [] then 0 else Sum(f, ts[..|ts| - 1]) + f(ts[|ts| - 1])
  }

  lemma SumAppend<T>(f: T -> int, ts: seq<T>, t: T)
    ensures Sum(f, ts + [t]) == Sum(f, ts) + f(t)
  {
    assert (ts + [t])[..|ts|] == ts;
  }

  lemma {:induction false} SumConcat<T>(f: T -> int, ts: seq<T>, us: seq<T>)
    ensures Sum(f, ts + us) == Sum(f, ts) + Sum(f, us)
  {
    if us == [] {
      assert ts + us == ts;
    } else {
      SumConcat(f, ts, us[..|us| - 1]);
      assert (ts + us)[..|ts + us| - 1] == ts + us[..|us| - 1];
    }
  }

  lemma {:induction false} InsertAdds<T>(key: T -> int, f: T -> int, ts: seq<T>, t: T)
    ensures Sum(f, Insert(key, ts, t)) == Sum(f, ts) + f(t)
  {
    if ts == [] || key(ts[|ts| - 1]) >= key(t) {
      SumAppend(f, ts, t);
    } else {
      InsertAdds(key, f, ts[..|ts| - 1], t);
      SumAppend(f, Insert(key, ts[..|ts| - 1], t), ts[|ts| - 1]);
    }
  }

  lemma {:induction false} SortKeepsSum<T>(key: T -> int, f: T -> int, ts: seq<T>)
    ensures Sum(f, Sort(key, ts)) == Sum(f, ts)
  {
    if ts != [] {
      SortKeepsSum(key, f, ts[..|ts| - 1]);
      InsertAdds(key, f, Sort(key, ts[..|ts| - 1]), ts[|ts| - 1]);
    }
  }
}
