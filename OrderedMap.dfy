/** `TMap` keyed by names, as the commandlets use it: entries are only ever
    added, never removed, so the map is an association list in insertion
    order (the order its iteration visits). */
module OrderedMap {
  import opened Wrappers

  type Entries<V> = seq<(string, V)>

  /** The names of the entries, in order. */
  function Keys<V>(m: Entries<V>): (r: seq<string>)
    ensures |r| == |m|
    ensures forall i :: 0 <= i < |m| ==> r[i] == m[i].0
  {
    seq(|m|, i requires 0 <= i < |m| => m[i].0)
  }

  /** No name has two entries. */
  predicate UniqueKeys<V>(m: Entries<V>) {
    forall i, j :: 0 <= i < j < |m| ==> m[i].0 != m[j].0
  }

  /** The position of the entry named `k` (`Contains` and `operator[]`). */
  function Find<V>(m: Entries<V>, k: string): (r: Option<nat>)
    ensures r.Some? ==> r.value < |m| && m[r.value].0 == k
    ensures r.Some? ==> forall i :: 0 <= i < r.value ==> m[i].0 != k
    ensures r.None? <==> forall i :: 0 <= i < |m| ==> m[i].0 != k
    decreases |m|
  {
    if |m| == 0 then None
    else if m[|m| - 1].0 == k && Find(m[..|m| - 1], k).None? then Some(|m| - 1)
    else Find(m[..|m| - 1], k)
  }

  /** The value stored under `k`, if any. */
  function Get<V>(m: Entries<V>, k: string): (r: Option<V>)
    ensures r.None? <==> k !in Keys(m)
    ensures r.Some? ==> (k, r.value) in m
  {
    match Find(m, k)
    case None => None
    case Some(i) => Some(m[i].1)
  }

  /** `Add(k, v)`: overwrites the value of an existing entry in place, and
      appends a new entry otherwise (`PutEntries` and `PutGet` state what
      this means). */
  function Put<V>(m: Entries<V>, k: string, v: V): Entries<V>
  {
    match Find(m, k)
    case None => m + [(k, v)]
    case Some(i) => m[i := (k, v)]
  }

  /** After `Put` the names keep their order and gain `k` at the end only
      when it is new; every entry under another name stays where it was;
      `k` is stored with `v`. */
  lemma PutEntries<V>(m: Entries<V>, k: string, v: V)
    ensures Keys(Put(m, k, v)) == if k in Keys(m) then Keys(m) else Keys(m) + [k]
    ensures forall i :: 0 <= i < |m| && m[i].0 != k ==> Put(m, k, v)[i] == m[i]
    ensures (k, v) in Put(m, k, v)
  {
    if Find(m, k).Some? {
      assert Keys(Put(m, k, v)) == Keys(m);
    } else {
      assert Keys(Put(m, k, v)) == Keys(m) + [k];
    }
  }

  /** `Find` looks at the names alone. */
  lemma {:induction false} FindSameKeys<V>(a: Entries<V>, b: Entries<V>, k: string)
    requires Keys(a) == Keys(b)
    ensures Find(a, k) == Find(b, k)
    decreases |a|
  {
    if |a| > 0 {
      assert Keys(a[..|a| - 1]) == Keys(b[..|b| - 1]);
      FindSameKeys(a[..|a| - 1], b[..|b| - 1], k);
      assert a[|a| - 1].0 == Keys(a)[|a| - 1] == b[|b| - 1].0;
    }
  }

  /** An appended entry is found only when no earlier one is. */
  lemma FindAppend<V>(m: Entries<V>, x: (string, V), k: string)
    ensures Find(m + [x], k) == if Find(m, k).Some? then Find(m, k) else if x.0 == k then Some(|m|) else None
  {
    assert (m + [x])[..|m|] == m;
  }

  /** After `Put`, `k` maps to `v`, every other name keeps its value, and
      names stay unique. */
  lemma PutGet<V>(m: Entries<V>, k: string, v: V)
    requires UniqueKeys(m)
    ensures UniqueKeys(Put(m, k, v))
    ensures Get(Put(m, k, v), k) == Some(v)
    ensures forall k' :: k' != k ==> Get(Put(m, k, v), k') == Get(m, k')
    ensures Keys(Put(m, k, v)) == if k in Keys(m) then Keys(m) else Keys(m) + [k]
  {
    var r := Put(m, k, v);
    if Find(m, k).None? {
      assert r == m + [(k, v)];
      forall k'
        ensures Find(r, k') == if k' == k then Some(|m|) else Find(m, k')
      {
        FindAppend(m, (k, v), k');
      }
      assert Keys(r) == Keys(m) + [k];
      forall k' | k' != k
        ensures Get(r, k') == Get(m, k')
      {
        if Find(m, k').Some? {
          assert r[Find(m, k').value] == m[Find(m, k').value];
        }
      }
    } else {
      var i := Find(m, k).value;
      assert r == m[i := (k, v)];
      assert Keys(r) == Keys(m);
      forall k'
        ensures Find(r, k') == Find(m, k')
      {
        FindSameKeys(r, m, k');
      }
      forall k' | k' != k
        ensures Get(r, k') == Get(m, k')
      {
        if Find(m, k').Some? {
          assert Find(m, k').value != i;
        }
      }
      forall a, b | 0 <= a < b < |r|
        ensures r[a].0 != r[b].0
      {
        assert Keys(r)[a] == Keys(m)[a] && Keys(r)[b] == Keys(m)[b];
      }
    }
  }

  /** Storing twice under one name keeps only the second value, at the
      position the first store chose (`Add` followed by `operator[]`). */
  lemma PutPut<V>(m: Entries<V>, k: string, v1: V, v2: V)
    ensures Put(Put(m, k, v1), k, v2) == Put(m, k, v2)
  {
    if Find(m, k).None? {
      assert Find(m + [(k, v1)], k) == Some(|m|);
    } else {
      var i := Find(m, k).value;
      assert m[i := (k, v1)][i].0 == k;
    }
  }
}
