/** Python dictionaries as the model sees them: the entries in insertion order. Order matters
    here because listings, section formatting and broadcast results follow it. */
module Dicts {
  import opened Wrappers

  type Dict<V> = seq<(string, V)>

  function Keys<V>(d: Dict<V>): (ks: seq<string>)
    ensures |ks| == |d| && forall i :: 0 <= i < |d| ==> ks[i] == d[i].0
  {
    if |d| == 0 then [] else [d[0].0] + Keys(d[1..])
  }

  function Values<V>(d: Dict<V>): (vs: seq<V>)
    ensures |vs| == |d| && forall i :: 0 <= i < |d| ==> vs[i] == d[i].1
  {
    seq(|d|, i requires 0 <= i < |d| => d[i].1)
  }

  /** No key occurs twice, as in every Python dict. */
  predicate DistinctKeys<V>(d: Dict<V>) {
    forall i, j :: 0 <= i < j < |d| ==> d[i].0 != d[j].0
  }

  /** `k in d`. */
  predicate HasKey<V>(d: Dict<V>, k: string) {
    k in Keys(d)
  }

  /** `d.get(k)`: the value stored under `k`, if any. */
  function Get<V>(d: Dict<V>, k: string): (r: Option<V>)
    ensures r.None? <==> !HasKey(d, k)
  {
    if |d| == 0 then None
    else if d[0].0 == k then Some(d[0].1)
    else
      assert Keys(d) == [d[0].0] + Keys(d[1..]);
      Get(d[1..], k)
  }

  /** A value found under `k` comes from an entry for `k`. */
  lemma {:induction false} GetIn<V>(d: Dict<V>, k: string)
    ensures Get(d, k).Some? ==> (k, Get(d, k).value) in d
  {
    if |d| > 0 && d[0].0 != k {
      GetIn(d[1..], k);
    }
  }

  /** `d.get(k, default)`. */
  function GetOr<V>(d: Dict<V>, k: string, default: V): V {
    Get(d, k).GetOr(default)
  }

  /** In a dict with distinct keys, looking up the key of an entry finds that entry's value. */
  lemma {:induction false} GetAt<V>(d: Dict<V>, i: nat)
    requires DistinctKeys(d) && i < |d|
    ensures Get(d, d[i].0) == Some(d[i].1)
  {
    if i > 0 {
      assert DistinctKeys(d[1..]);
      GetAt(d[1..], i - 1);
    }
  }

  /** Distinct keys read off the key sequence alone. */
  lemma DistinctKeysOfKeySeq<V>(d: Dict<V>, ks: seq<string>)
    requires Keys(d) == ks && forall i, j :: 0 <= i < j < |ks| ==> ks[i] != ks[j]
    ensures DistinctKeys(d)
  {
    assert forall i :: 0 <= i < |d| ==> d[i].0 == ks[i];
  }

  /** `d[k] = v`: an existing key keeps its place and takes the new value; a new key goes last. */
  function Put<V>(d: Dict<V>, k: string, v: V): Dict<V> {
    if |d| == 0 then [(k, v)]
    else if d[0].0 == k then [(k, v)] + d[1..]
    else [d[0]] + Put(d[1..], k, v)
  }

  lemma {:induction false} PutGet<V>(d: Dict<V>, k: string, v: V, k': string)
    ensures Get(Put(d, k, v), k') == if k' == k then Some(v) else Get(d, k')
  {
    if |d| > 0 && d[0].0 != k {
      PutGet(d[1..], k, v, k');
    }
  }

  /** `PutGet` for every key at once. */
  lemma PutGetAll<V>(d: Dict<V>, k: string, v: V)
    ensures forall k' :: Get(Put(d, k, v), k') == if k' == k then Some(v) else Get(d, k')
  {
    forall k' ensures Get(Put(d, k, v), k') == if k' == k then Some(v) else Get(d, k') {
      PutGet(d, k, v, k');
    }
  }

  lemma {:induction false} PutKeys<V>(d: Dict<V>, k: string, v: V)
    ensures Keys(Put(d, k, v)) == if HasKey(d, k) then Keys(d) else Keys(d) + [k]
  {
    if |d| > 0 && d[0].0 != k {
      PutKeys(d[1..], k, v);
      assert HasKey(d, k) == HasKey(d[1..], k);
      assert Put(d, k, v)[1..] == Put(d[1..], k, v);
    } else if |d| > 0 {
      assert Put(d, k, v)[1..] == d[1..];
    }
  }

  /** Writing a key already present replaces its entry where it stands. */
  lemma {:induction false} PutExisting<V>(d: Dict<V>, k: string, v: V)
    requires DistinctKeys(d) && HasKey(d, k)
    ensures |Put(d, k, v)| == |d|
    ensures forall i :: 0 <= i < |d| ==> Put(d, k, v)[i] == if d[i].0 == k then (k, v) else d[i]
  {
    if d[0].0 == k {
      assert forall i :: 0 < i < |d| ==> d[i].0 != k;
    } else {
      assert DistinctKeys(d[1..]);
      assert Keys(d) == [d[0].0] + Keys(d[1..]);
      PutExisting(d[1..], k, v);
    }
  }

  /** Writing a new key appends its entry. */
  lemma {:induction false} PutNew<V>(d: Dict<V>, k: string, v: V)
    requires !HasKey(d, k)
    ensures Put(d, k, v) == d + [(k, v)]
  {
    if |d| > 0 {
      assert Keys(d) == [d[0].0] + Keys(d[1..]);
      PutNew(d[1..], k, v);
      assert d == [d[0]] + d[1..];
    }
  }

  /** Every entry after `d[k] = v` is `(k, v)` or an entry of `d`. */
  lemma {:induction false} PutEntry<V>(d: Dict<V>, k: string, v: V, e: (string, V))
    requires e in Put(d, k, v)
    ensures e == (k, v) || e in d
  {
    if |d| > 0 && d[0].0 != k && e != d[0] {
      PutEntry(d[1..], k, v, e);
    }
  }

  /** Distinct keys depend only on the key sequence. */
  lemma DistinctKeysOfKeys<V>(d: Dict<V>, e: Dict<V>)
    requires Keys(d) == Keys(e)
    ensures DistinctKeys(d) <==> DistinctKeys(e)
  {
    assert forall i :: 0 <= i < |d| ==> d[i].0 == Keys(d)[i] == e[i].0;
  }

  lemma PutDistinct<V>(d: Dict<V>, k: string, v: V)
    requires DistinctKeys(d)
    ensures DistinctKeys(Put(d, k, v))
  {
    var r := Put(d, k, v);
    PutKeys(d, k, v);
    if !HasKey(d, k) {
      forall i, j | 0 <= i < j < |r| ensures r[i].0 != r[j].0 {
        assert r[i].0 == Keys(r)[i] && r[j].0 == Keys(r)[j];
      }
    } else {
      DistinctKeysOfKeys(d, r);
    }
  }

  /** `del d[k]` (or `d.pop(k, None)`): the entry for `k` goes; every other stays, in order. */
  function Remove<V>(d: Dict<V>, k: string): Dict<V> {
    if |d| == 0 then []
    else if d[0].0 == k then d[1..]
    else [d[0]] + Remove(d[1..], k)
  }

  lemma {:induction false} RemoveKeys<V>(d: Dict<V>, k: string)
    requires DistinctKeys(d)
    ensures forall k' :: k' in Keys(Remove(d, k)) <==> k' in Keys(d) && k' != k
    ensures DistinctKeys(Remove(d, k))
    ensures |Remove(d, k)| == if HasKey(d, k) then |d| - 1 else |d|
  {
    if |d| > 0 {
      assert DistinctKeys(d[1..]);
      if d[0].0 == k {
        assert k !in Keys(d[1..]);
      } else {
        RemoveKeys(d[1..], k);
        var r := Remove(d, k);
        assert Keys(r) == [d[0].0] + Keys(Remove(d[1..], k));
        assert d[0].0 !in Keys(d[1..]);
        forall i, j | 0 <= i < j < |r| ensures r[i].0 != r[j].0 {
          if i == 0 {
            assert r[j].0 == Keys(r)[j] && Keys(r)[j] in Keys(Remove(d[1..], k));
          } else {
            assert r[i] == Remove(d[1..], k)[i - 1] && r[j] == Remove(d[1..], k)[j - 1];
          }
        }
      }
    }
  }

  lemma {:induction false} RemoveGet<V>(d: Dict<V>, k: string, k': string)
    requires k' != k
    ensures Get(Remove(d, k), k') == Get(d, k')
  {
    if |d| > 0 && d[0].0 != k {
      RemoveGet(d[1..], k, k');
    }
  }

  /** Removing a present key takes exactly one occurrence of it out of the key multiset. */
  lemma {:induction false} RemoveMultiset<V>(d: Dict<V>, k: string)
    requires HasKey(d, k)
    ensures multiset(Keys(Remove(d, k))) + multiset{k} == multiset(Keys(d))
  {
    assert Keys(d) == [d[0].0] + Keys(d[1..]);
    if d[0].0 != k {
      RemoveMultiset(d[1..], k);
      assert Keys(Remove(d, k)) == [d[0].0] + Keys(Remove(d[1..], k));
    }
  }

  /** Every entry left after a removal was an entry before it. */
  lemma {:induction false} RemoveEntry<V>(d: Dict<V>, k: string, e: (string, V))
    requires e in Remove(d, k)
    ensures e in d
  {
    if |d| > 0 && d[0].0 != k && e != d[0] {
      RemoveEntry(d[1..], k, e);
    }
  }
}
