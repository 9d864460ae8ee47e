/**
 * JavaScript plain objects as ordered dictionaries: a sequence of
 * (key, value) entries in insertion order, which is the order that
 * `Object.entries` reports and that `obj[key] = value` preserves.
 */
module Dict {
  import opened Wrappers

  type Dict<V> = seq<(string, V)>

  function Keys<V>(d: Dict<V>): (ks: seq<string>)
    ensures |ks| == |d|
    ensures forall i :: 0 <= i < |d| ==> ks[i] == d[i].0
  {
    seq(|d|, i requires 0 <= i < |d| => d[i].0)
  }

  predicate HasKey<V>(d: Dict<V>, k: string) {
    exists i :: 0 <= i < |d| && d[i].0 == k
  }

  /** Every key occurs once, as in any JavaScript object. */
  predicate UniqueKeys<V>(d: Dict<V>) {
    forall i, j :: 0 <= i < j < |d| ==> d[i].0 != d[j].0
  }

  /** `d[k]`, or None when `k` is not a key. */
  function Get<V>(d: Dict<V>, k: string): (r: Option<V>)
    ensures r.Some? <==> HasKey(d, k)
    ensures r.Some? ==> exists i :: 0 <= i < |d| && d[i] == (k, r.value)
  {
    if d == [] then None
    else if d[0].0 == k then Some(d[0].1)
    else
      var r := Get(d[1..], k);
      assert r.Some? ==> exists i :: 0 <= i < |d| - 1 && d[1..][i] == (k, r.value);
      r
  }

  /** `d[k] = v`: an existing key keeps its position, a new key is appended. */
  function Put<V>(d: Dict<V>, k: string, v: V): Dict<V>
  {
    if d == [] then [(k, v)]
    else if d[0].0 == k then [(k, v)] + d[1..]
    else [d[0]] + Put(d[1..], k, v)
  }

  lemma KeysCons<V>(x: (string, V), d: Dict<V>)
    ensures Keys([x] + d) == [x.0] + Keys(d)
  {
  }

  lemma HasKeyCons<V>(x: (string, V), d: Dict<V>, k: string)
    ensures HasKey([x] + d, k) <==> x.0 == k || HasKey(d, k)
  {
    var e := [x] + d;
    assert e[0] == x;
    if x.0 == k {
      assert e[0].0 == k;
    }
    if HasKey(d, k) {
      var i :| 0 <= i < |d| && d[i].0 == k;
      assert e[i + 1].0 == k;
    }
    if HasKey(e, k) && x.0 != k {
      var i :| 0 <= i < |e| && e[i].0 == k;
      assert d[i - 1].0 == k;
    }
  }

  lemma {:induction false} PutKeys<V>(d: Dict<V>, k: string, v: V)
    ensures Keys(Put(d, k, v)) == if HasKey(d, k) then Keys(d) else Keys(d) + [k]
  {
    if d == [] {
      assert !HasKey(d, k);
    } else {
      assert d == [d[0]] + d[1..];
      HasKeyCons(d[0], d[1..], k);
      KeysCons(d[0], d[1..]);
      if d[0].0 == k {
        KeysCons((k, v), d[1..]);
      } else {
        PutKeys(d[1..], k, v);
        KeysCons(d[0], Put(d[1..], k, v));
      }
    }
  }

  lemma {:induction false} GetPut<V>(d: Dict<V>, k: string, v: V, k': string)
    ensures Get(Put(d, k, v), k') == if k' == k then Some(v) else Get(d, k')
  {
    if d != [] && d[0].0 != k {
      GetPut(d[1..], k, v, k');
    }
  }

  lemma {:induction false} PutUnique<V>(d: Dict<V>, k: string, v: V)
    requires UniqueKeys(d)
    ensures UniqueKeys(Put(d, k, v))
  {
    var r := Put(d, k, v);
    var ks := Keys(r);
    PutKeys(d, k, v);
    if HasKey(d, k) {
      assert ks == Keys(d);
    } else {
      assert ks == Keys(d) + [k];
      forall i | 0 <= i < |d| ensures r[i].0 != k {
        assert r[i].0 == ks[i] == d[i].0;
      }
    }
    forall i, j | 0 <= i < j < |r| ensures r[i].0 != r[j].0 {
      assert r[i].0 == ks[i] && r[j].0 == ks[j];
    }
  }

  /** In a dictionary with unique keys, the entry at position i is what Get finds. */
  lemma {:induction false} GetAt<V>(d: Dict<V>, i: nat)
    requires UniqueKeys(d) && i < |d|
    ensures Get(d, d[i].0) == Some(d[i].1)
  {
    if i > 0 {
      assert UniqueKeys(d[1..]);
      GetAt(d[1..], i - 1);
    }
  }

  /** Assigning a key the dictionary lacks appends the entry at the end. */
  lemma {:induction false} PutAbsent<V>(d: Dict<V>, k: string, v: V)
    requires !HasKey(d, k)
    ensures Put(d, k, v) == d + [(k, v)]
  {
    if d != [] {
      HasKeyCons(d[0], d[1..], k);
      assert d == [d[0]] + d[1..];
      PutAbsent(d[1..], k, v);
    }
  }

  /** Every entry after `d[k] = v` is an entry of d or (k, v) itself. */
  lemma {:induction false} PutValues<V>(d: Dict<V>, k: string, v: V)
    ensures forall e :: e in Put(d, k, v) ==> e in d || e == (k, v)
  {
    if d != [] && d[0].0 != k {
      PutValues(d[1..], k, v);
    }
  }
}
