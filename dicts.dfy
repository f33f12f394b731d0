/** Python dicts with string keys, as their entries in insertion order.
    `d[k] = v` replaces the value in place for a present key and appends a new key;
    `d.update(e)` does that for each entry of `e` in order. */
module Dicts {
  import opened Wrappers

  type Dict<V> = seq<(string, V)>

  function Keys<V>(d: Dict<V>): (ks: seq<string>)
    ensures |ks| == |d| && forall i :: 0 <= i < |d| ==> ks[i] == d[i].0
  {
    if |d| == 0 then [] else [d[0].0] + Keys(d[1..])
  }

  /** Every key appears once, as in every dict Python builds. */
  predicate DistinctKeys<V>(d: Dict<V>) {
    forall i, j :: 0 <= i < j < |d| ==> d[i].0 != d[j].0
  }

  /** `d.get(k)`. */
  function Get<V>(d: Dict<V>, k: string): (r: Option<V>)
    ensures r.None? <==> k !in Keys(d)
    ensures r.Some? ==> (k, r.value) in d
  {
    if |d| == 0 then None
    else if d[0].0 == k then Some(d[0].1)
    else Get(d[1..], k)
  }

  /** `d[k] = v`. */
  function Put<V>(d: Dict<V>, k: string, v: V): Dict<V> {
    if |d| == 0 then [(k, v)]
    else if d[0].0 == k then [(k, v)] + d[1..]
    else [d[0]] + Put(d[1..], k, v)
  }

  /** `d.update(e)`. */
  function Update<V>(d: Dict<V>, e: Dict<V>): Dict<V>
    decreases |e|
  {
    if |e| == 0 then d else Update(Put(d, e[0].0, e[0].1), e[1..])
  }

  /** After `d[k] = v` the key `k` reads `v` and every other key reads what it read before. */
  lemma {:induction false} PutGet<V>(d: Dict<V>, k: string, v: V, k': string)
    ensures Get(Put(d, k, v), k') == if k' == k then Some(v) else Get(d, k')
  {
    if |d| > 0 && d[0].0 != k {
      PutGet(d[1..], k, v, k');
    }
  }

  /** `d[k] = v` keeps every existing key where it was and appends `k` only when it is new. */
  lemma {:induction false} PutKeys<V>(d: Dict<V>, k: string, v: V)
    ensures Keys(Put(d, k, v)) == if k in Keys(d) then Keys(d) else Keys(d) + [k]
  {
    if |d| > 0 {
      if d[0].0 != k {
        PutKeys(d[1..], k, v);
      } else {
        assert Put(d, k, v)[1..] == d[1..];
      }
    }
  }

  /** `d[k] = v` keeps the keys distinct. */
  lemma PutDistinct<V>(d: Dict<V>, k: string, v: V)
    requires DistinctKeys(d)
    ensures DistinctKeys(Put(d, k, v))
  {
    PutKeys(d, k, v);
    var p := Put(d, k, v);
    forall i, j | 0 <= i < j < |p| ensures p[i].0 != p[j].0 {
      assert Keys(p)[i] == p[i].0 && Keys(p)[j] == p[j].0;
      if j < |d| {
        assert Keys(d)[i] == d[i].0 && Keys(d)[j] == d[j].0;
      } else {
        assert Keys(d)[i] == d[i].0;
      }
    }
  }

  /** `d.update(e)` for an `e` with distinct keys: a key of `e` reads its value in `e`
      (the per-call value wins), every other key reads what it read in `d`. */
  lemma {:induction false} UpdateGet<V>(d: Dict<V>, e: Dict<V>, k: string)
    requires DistinctKeys(e)
    ensures Get(Update(d, e), k) == if k in Keys(e) then Get(e, k) else Get(d, k)
    decreases |e|
  {
    if |e| > 0 {
      UpdateGet(Put(d, e[0].0, e[0].1), e[1..], k);
      PutGet(d, e[0].0, e[0].1, k);
      if k == e[0].0 {
        assert k !in Keys(e[1..]) by {
          forall i | 0 <= i < |e[1..]| ensures Keys(e[1..])[i] != k {
            assert e[1..][i] == e[i + 1];
          }
        }
      }
    }
  }

  /** `d.update(e)` keeps the keys of `d` in front, in their order, and holds exactly the keys of both. */
  lemma {:induction false} UpdateKeys<V>(d: Dict<V>, e: Dict<V>)
    ensures Keys(d) <= Keys(Update(d, e))
    ensures forall k :: k in Keys(Update(d, e)) <==> k in Keys(d) || k in Keys(e)
    decreases |e|
  {
    if |e| > 0 {
      PutKeys(d, e[0].0, e[0].1);
      UpdateKeys(Put(d, e[0].0, e[0].1), e[1..]);
    }
  }

  /** `d.update(e)` keeps the keys distinct. */
  lemma {:induction false} UpdateDistinct<V>(d: Dict<V>, e: Dict<V>)
    requires DistinctKeys(d)
    ensures DistinctKeys(Update(d, e))
    decreases |e|
  {
    if |e| > 0 {
      PutDistinct(d, e[0].0, e[0].1);
      UpdateDistinct(Put(d, e[0].0, e[0].1), e[1..]);
    }
  }

  /** `del d[k]`, for a key that may be absent. */
  function Remove<V>(d: Dict<V>, k: string): Dict<V> {
    if |d| == 0 then []
    else if d[0].0 == k then d[1..]
    else [d[0]] + Remove(d[1..], k)
  }

  /** On a dict with distinct keys, `del d[k]` makes `k` absent, leaves every other key
      reading what it read, keeps the keys distinct and keeps only entries `d` had. */
  lemma RemoveGet<V>(d: Dict<V>, k: string, k': string)
    requires DistinctKeys(d)
    ensures Get(Remove(d, k), k') == if k' == k then None else Get(d, k')
    ensures DistinctKeys(Remove(d, k))
    ensures forall e :: e in Remove(d, k) ==> e in d && e.0 != k
  {
    RemoveLookup(d, k, k');
    RemoveDistinct(d, k);
    RemoveEntries(d, k);
  }

  /** Dropping the first entry keeps the keys distinct. */
  lemma TailDistinct<V>(d: Dict<V>)
    requires |d| > 0 && DistinctKeys(d)
    ensures DistinctKeys(d[1..]) && d[0].0 !in Keys(d[1..])
  {
    forall i | 0 <= i < |d[1..]| ensures d[1..][i] == d[i + 1] {
    }
  }

  lemma {:induction false} RemoveLookup<V>(d: Dict<V>, k: string, k': string)
    requires DistinctKeys(d)
    ensures Get(Remove(d, k), k') == if k' == k then None else Get(d, k')
  {
    if |d| > 0 {
      TailDistinct(d);
      if d[0].0 != k {
        RemoveLookup(d[1..], k, k');
        assert ([d[0]] + Remove(d[1..], k))[1..] == Remove(d[1..], k);
      }
    }
  }

  lemma {:induction false} RemoveEntries<V>(d: Dict<V>, k: string)
    requires DistinctKeys(d)
    ensures forall e :: e in Remove(d, k) ==> e in d && e.0 != k
  {
    if |d| > 0 {
      TailDistinct(d);
      if d[0].0 == k {
        forall e | e in d[1..] ensures e.0 != k {
          var m :| 0 <= m < |d[1..]| && d[1..][m] == e;
          assert Keys(d[1..])[m] == e.0;
        }
      } else {
        RemoveEntries(d[1..], k);
      }
    }
  }

  lemma {:induction false} RemoveDistinct<V>(d: Dict<V>, k: string)
    requires DistinctKeys(d)
    ensures DistinctKeys(Remove(d, k))
  {
    if |d| > 0 {
      TailDistinct(d);
      if d[0].0 != k {
        var t := Remove(d[1..], k);
        RemoveDistinct(d[1..], k);
        assert forall e :: e in t ==> e.0 != d[0].0 by {
          RemoveEntries(d[1..], k);
          forall e | e in t ensures e.0 != d[0].0 {
            EntryKey(d[1..], e);
          }
        }
        ConsDistinct(d[0], t);
      }
    }
  }

  /** The key of an entry is among the keys. */
  lemma EntryKey<V>(d: Dict<V>, e: (string, V))
    requires e in d
    ensures e.0 in Keys(d)
  {
    var m :| 0 <= m < |d| && d[m] == e;
    assert Keys(d)[m] == e.0;
  }

  /** Putting an entry whose key the dict lacks in front keeps the keys distinct. */
  lemma ConsDistinct<V>(e: (string, V), d: Dict<V>)
    requires DistinctKeys(d) && forall x :: x in d ==> x.0 != e.0
    ensures DistinctKeys([e] + d)
  {
    var r := [e] + d;
    forall i, j | 0 <= i < j < |r| ensures r[i].0 != r[j].0 {
      assert r[j] == d[j - 1] && d[j - 1] in d;
      if i > 0 {
        assert r[i] == d[i - 1];
      }
    }
  }

  /** Adding an absent key appends its entry. */
  lemma {:induction false} PutAbsent<V>(d: Dict<V>, k: string, v: V)
    requires k !in Keys(d)
    ensures Put(d, k, v) == d + [(k, v)]
  {
    if |d| > 0 {
      assert Keys(d[1..]) == Keys(d)[1..];
      PutAbsent(d[1..], k, v);
      assert d == [d[0]] + d[1..];
    }
  }

  /** `del` of an absent key changes nothing. */
  lemma {:induction false} RemoveAbsent<V>(d: Dict<V>, k: string)
    requires k !in Keys(d)
    ensures Remove(d, k) == d
  {
    if |d| > 0 {
      assert Keys(d[1..]) == Keys(d)[1..];
      RemoveAbsent(d[1..], k);
    }
  }

  /** `k` is a key of `d` exactly when some entry carries it. */
  lemma KeysIn<V>(d: Dict<V>, k: string)
    ensures k in Keys(d) <==> exists e :: e in d && e.0 == k
  {
    if k in Keys(d) {
      var i :| 0 <= i < |d| && Keys(d)[i] == k;
      assert d[i] in d;
    }
    if exists e :: e in d && e.0 == k {
      var e :| e in d && e.0 == k;
      var i :| 0 <= i < |d| && d[i] == e;
      assert Keys(d)[i] == k;
    }
  }

  /** Appending an entry appends its key. */
  lemma KeysAppend<V>(d: Dict<V>, k: string, v: V)
    ensures Keys(d + [(k, v)]) == Keys(d) + [k]
  {
  }
}
