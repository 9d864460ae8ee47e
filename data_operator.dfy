/**
 * The data operations of src/lib/dataOperator.ts: the JSON-like values a
 * `Data` object holds, `mergeData` (lodash `mergeWith` with "the later
 * array wins"), `collectData`, `processData` and `getValues`.
 */
module DataOperator {
  import opened Wrappers
  import opened Dict

  /**
   * A value stored in a `Data` object. Helper functions are opaque: only
   * their identity is kept. A JavaScript number is a double; it is kept as
   * an exact `real`, since no operation here computes on numbers.
   */
  datatype Value =
    | Null
    | Bool(b: bool)
    | Num(n: real)
    | Str(s: string)
    | Func(id: string)
    | Arr(items: seq<Value>)
    | Obj(fields: Dict<Value>)

  /** `Data`: a plain object, its entries in insertion order. */
  type Record = Dict<Value>

  /**
   * What `mergeWith` stores under a key whose new value is `v` and whose
   * previous value is `prev`: two plain objects merge recursively, any
   * other new value (an array through the customizer, a scalar, a
   * function or an object over a non-object) replaces the old one.
   */
  function Combine(prev: Option<Value>, v: Value): Value
    decreases v, if v.Obj? then |v.fields| + 1 else 0
  {
    match prev
    case Some(Obj(f)) => if v.Obj? then Obj(MergeFrom(f, v, 0)) else v
    case _ => v
  }

  /** The in-place merge of the entries of `overlay` from position i on into `base`. */
  function MergeFrom(base: Record, overlay: Value, i: nat): Record
    requires overlay.Obj? && i <= |overlay.fields|
    decreases overlay, |overlay.fields| - i
  {
    if i == |overlay.fields| then base
    else
      var k := overlay.fields[i].0;
      MergeFrom(Put(base, k, Combine(Get(base, k), overlay.fields[i].1)), overlay, i + 1)
  }

  /**
   * `mergeData(from, to)`: the state of `from` after `_.mergeWith(from, to, …)`.
   * Merging into a valid object (unique keys) gives a valid object.
   */
  function MergeRecord(from: Record, to: Record): (r: Record)
    ensures UniqueKeys(from) ==> UniqueKeys(r)
  {
    if UniqueKeys(from) then MergeFromUnique(from, Obj(to), 0); MergeFrom(from, Obj(to), 0)
    else MergeFrom(from, Obj(to), 0)
  }

  lemma {:induction false} NotLater(d: Record, i: nat, k: string)
    requires UniqueKeys(d) && i < |d| && d[i].0 == k
    ensures !HasKey(d[i + 1..], k)
  {
  }

  lemma {:induction false} MergeFromGet(base: Record, overlay: Value, i: nat, k: string)
    requires overlay.Obj? && i <= |overlay.fields| && UniqueKeys(overlay.fields)
    ensures Get(MergeFrom(base, overlay, i), k) ==
      match Get(overlay.fields[i..], k)
      case None => Get(base, k)
      case Some(v) => Some(Combine(Get(base, k), v))
    decreases |overlay.fields| - i
  {
    var f := overlay.fields;
    if i < |f| {
      var k0 := f[i].0;
      var next := Put(base, k0, Combine(Get(base, k0), f[i].1));
      MergeFromGet(next, overlay, i + 1, k);
      GetPut(base, k0, Combine(Get(base, k0), f[i].1), k);
      assert f[i..][1..] == f[i + 1..];
      if k == k0 {
        NotLater(f, i, k);
      }
    }
  }

  /**
   * Key by key: a key only in `from` keeps its value, a key only in `to`
   * takes `to`'s value, and a key in both takes `Combine` of the two.
   */
  lemma MergeGet(from: Record, to: Record, k: string)
    requires UniqueKeys(to)
    ensures Get(MergeRecord(from, to), k) ==
      match Get(to, k)
      case None => Get(from, k)
      case Some(v) => Some(Combine(Get(from, k), v))
  {
    MergeFromGet(from, Obj(to), 0, k);
    assert to[0..] == to;
  }

  /** An array in `to` is stored as it is, never concatenated with `from`'s value. */
  lemma ArrayWins(from: Record, to: Record, k: string, items: seq<Value>)
    requires UniqueKeys(to) && Get(to, k) == Some(Arr(items))
    ensures Get(MergeRecord(from, to), k) == Some(Arr(items))
  {
    MergeGet(from, to, k);
  }

  /** Where both sides hold plain objects under k, the result holds their merge. */
  lemma ObjectsMerge(from: Record, to: Record, k: string, f: Record, g: Record)
    requires UniqueKeys(to) && Get(from, k) == Some(Obj(f)) && Get(to, k) == Some(Obj(g))
    ensures Get(MergeRecord(from, to), k) == Some(Obj(MergeRecord(f, g)))
  {
    MergeGet(from, to, k);
  }

  /** Where `to` holds anything but a plain object under k, that value wins. */
  lemma NonObjectWins(from: Record, to: Record, k: string, v: Value)
    requires UniqueKeys(to) && Get(to, k) == Some(v) && !v.Obj?
    ensures Get(MergeRecord(from, to), k) == Some(v)
  {
    MergeGet(from, to, k);
  }

  /** The keys of the result are the keys of either side. */
  lemma MergeHasKey(from: Record, to: Record, k: string)
    requires UniqueKeys(to)
    ensures HasKey(MergeRecord(from, to), k) <==> HasKey(from, k) || HasKey(to, k)
  {
    MergeGet(from, to, k);
  }

  lemma {:induction false} MergeFromKeepsKeys(base: Record, overlay: Value, i: nat, k: string)
    requires overlay.Obj? && i <= |overlay.fields|
    requires HasKey(base, k) || HasKey(overlay.fields[i..], k)
    ensures HasKey(MergeFrom(base, overlay, i), k)
    decreases |overlay.fields| - i
  {
    var f := overlay.fields;
    if i < |f| {
      var k0 := f[i].0;
      var v := Combine(Get(base, k0), f[i].1);
      GetPut(base, k0, v, k);
      if k != k0 && !HasKey(base, k) {
        var j :| 0 <= j < |f[i..]| && f[i..][j].0 == k;
        assert f[i + 1..][j - 1] == f[i..][j];
      }
      MergeFromKeepsKeys(Put(base, k0, v), overlay, i + 1, k);
    }
  }

  /** Every key of either side is a key of the merge, whatever the keys' multiplicity. */
  lemma MergeKeepsKeys(from: Record, to: Record, k: string)
    requires HasKey(from, k) || HasKey(to, k)
    ensures HasKey(MergeRecord(from, to), k)
  {
    assert to[0..] == to;
    MergeFromKeepsKeys(from, Obj(to), 0, k);
  }

  lemma {:induction false} MergeFromKeysPrefix(base: Record, overlay: Value, i: nat)
    requires overlay.Obj? && i <= |overlay.fields|
    ensures var ks := Keys(MergeFrom(base, overlay, i)); |Keys(base)| <= |ks| && ks[..|base|] == Keys(base)
    decreases |overlay.fields| - i
  {
    if i < |overlay.fields| {
      var k := overlay.fields[i].0;
      var v := Combine(Get(base, k), overlay.fields[i].1);
      PutKeys(base, k, v);
      MergeFromKeysPrefix(Put(base, k, v), overlay, i + 1);
      var ks := Keys(MergeFrom(Put(base, k, v), overlay, i + 1));
      assert ks[..|base|] == ks[..|Put(base, k, v)|][..|base|];
    }
  }

  /** The keys of `from` keep their positions; new keys come after them. */
  lemma MergeKeysPrefix(from: Record, to: Record)
    ensures var ks := Keys(MergeRecord(from, to)); |from| <= |ks| && ks[..|from|] == Keys(from)
  {
    MergeFromKeysPrefix(from, Obj(to), 0);
  }

  lemma {:induction false} MergeFromUnique(base: Record, overlay: Value, i: nat)
    requires overlay.Obj? && i <= |overlay.fields| && UniqueKeys(base)
    ensures UniqueKeys(MergeFrom(base, overlay, i))
    decreases |overlay.fields| - i
  {
    if i < |overlay.fields| {
      var k := overlay.fields[i].0;
      var v := Combine(Get(base, k), overlay.fields[i].1);
      PutUnique(base, k, v);
      MergeFromUnique(Put(base, k, v), overlay, i + 1);
    }
  }

  lemma {:induction false} MergeFromFresh(x: Record, i: nat)
    requires UniqueKeys(x) && i <= |x|
    ensures MergeFrom(x[..i], Obj(x), i) == x
    decreases |x| - i
  {
    if i < |x| {
      var k := x[i].0;
      assert !HasKey(x[..i], k);
      PutAbsent(x[..i], k, x[i].1);
      assert x[..i] + [(k, x[i].1)] == x[..i + 1];
      MergeFromFresh(x, i + 1);
    } else {
      assert x[..i] == x;
    }
  }

  /** Identity laws: `mergeData({}, x)` and `mergeData(x, {})` are both x. */
  lemma MergeIdentity(x: Record)
    requires UniqueKeys(x)
    ensures MergeRecord([], x) == x
    ensures MergeRecord(x, []) == x
  {
    MergeFromFresh(x, 0);
    assert x[..0] == [];
  }

  /**
   * The fetched records of `Promise.all(paths.map(dataFetcher))`, in path
   * order; the first failing fetch in path order fails the whole.
   */
  function FetchAll(paths: seq<string>, fetch: string -> Result<Record>): (r: Result<seq<Record>>)
    ensures r.Ok? ==> |r.value| == |paths| && forall i :: 0 <= i < |paths| ==> fetch(paths[i]) == Ok(r.value[i])
    ensures r.Fail? <==> exists i :: 0 <= i < |paths| && fetch(paths[i]).Fail?
    ensures r.Fail? ==> exists i :: 0 <= i < |paths| && fetch(paths[i]) == Fail(r.error)
  {
    if paths == [] then Ok([])
    else
      var n := |paths| - 1;
      match FetchAll(paths[..n], fetch)
      case Fail(e) => Fail(e)
      case Ok(prev) =>
        match fetch(paths[n])
        case Fail(e) => Fail(e)
        case Ok(x) => Ok(prev + [x])
  }

  /** The left fold of `mergeData` over the records, starting from `{}`. */
  function MergeAll(items: seq<Record>): Record {
    if items == [] then [] else MergeRecord(MergeAll(items[..|items| - 1]), items[|items| - 1])
  }

  /** What `collectData(paths, dataFetcher)` settles to. */
  function Collect(paths: seq<string>, fetch: string -> Result<Record>): (r: Result<Record>)
    ensures r.Ok? ==> UniqueKeys(r.value)
  {
    match FetchAll(paths, fetch)
    case Fail(e) => Fail(e)
    case Ok(items) => MergeAllUnique(items); Ok(MergeAll(items))
  }

  /**
   * `collectData`: fetch every path, then fold `mergeData` over the
   * records in path order, reassigning `base`.
   */
  method CollectData(paths: seq<string>, fetch: string -> Result<Record>) returns (r: Result<Record>)
    ensures r == Collect(paths, fetch)
  {
    var items: seq<Record> := [];
    var i := 0;
    while i < |paths|
      invariant i <= |paths|
      invariant FetchAll(paths[..i], fetch) == Ok(items)
    {
      assert paths[..i + 1][..i] == paths[..i];
      var x := fetch(paths[i]);
      if x.Fail? {
        FetchAllPrefixFails(paths, i + 1, fetch);
        assert paths[..i + 1] == paths[..i + 1];
        return Fail(x.error);
      }
      items := items + [x.value];
      i := i + 1;
    }
    assert paths[..i] == paths;
    var base: Record := [];
    var j := 0;
    while j < |items|
      invariant j <= |items|
      invariant base == MergeAll(items[..j])
    {
      assert items[..j + 1][..j] == items[..j];
      base := MergeRecord(base, items[j]);
      j := j + 1;
    }
    assert items[..j] == items;
    return Ok(base);
  }

  /** Once a prefix of the paths fails, the whole fetch fails with the same error. */
  lemma {:induction false} FetchAllPrefixFails(paths: seq<string>, i: nat, fetch: string -> Result<Record>)
    requires i <= |paths| && FetchAll(paths[..i], fetch).Fail?
    ensures FetchAll(paths, fetch) == FetchAll(paths[..i], fetch)
    decreases |paths| - i
  {
    if i < |paths| {
      assert paths[..i + 1][..i] == paths[..i];
      FetchAllPrefixFails(paths, i + 1, fetch);
    } else {
      assert paths[..i] == paths;
    }
  }

  /** `collectData([])` is `{}`, and one failing fetch fails the whole collection. */
  lemma CollectFailure(paths: seq<string>, fetch: string -> Result<Record>)
    ensures paths == [] ==> Collect(paths, fetch) == Ok([])
    ensures Collect(paths, fetch).Fail? <==> exists i :: 0 <= i < |paths| && fetch(paths[i]).Fail?
  {
  }

  lemma {:induction false} MergeAllUnique(items: seq<Record>)
    ensures UniqueKeys(MergeAll(items))
  {
    if items != [] {
      MergeAllUnique(items[..|items| - 1]);
    }
  }

  /** A key is in the collected record exactly when some fetched record has it. */
  lemma {:induction false} MergeAllHasKey(items: seq<Record>, k: string)
    requires forall i :: 0 <= i < |items| ==> UniqueKeys(items[i])
    ensures HasKey(MergeAll(items), k) <==> exists i :: 0 <= i < |items| && HasKey(items[i], k)
  {
    if items != [] {
      var n := |items| - 1;
      MergeAllHasKey(items[..n], k);
      MergeHasKey(MergeAll(items[..n]), items[n], k);
      assert forall i :: 0 <= i < n ==> items[..n][i] == items[i];
    }
  }

  /**
   * Later files win: when the last record holding key k holds a value
   * that is not a plain object, that value is the collected one.
   */
  lemma {:induction false} MergeAllLastWins(items: seq<Record>, k: string, j: nat, v: Value)
    requires forall i :: 0 <= i < |items| ==> UniqueKeys(items[i])
    requires j < |items| && Get(items[j], k) == Some(v) && !v.Obj?
    requires forall i :: j < i < |items| ==> !HasKey(items[i], k)
    ensures Get(MergeAll(items), k) == Some(v)
  {
    var n := |items| - 1;
    if n == j {
      NonObjectWins(MergeAll(items[..n]), items[n], k, v);
    } else {
      MergeAllLastWins(items[..n], k, j, v);
      MergeGet(MergeAll(items[..n]), items[n], k);
    }
  }

  /** Later files win, for any fetcher whose records have unique keys. */
  lemma CollectLaterWins(paths: seq<string>, fetch: string -> Result<Record>, k: string, j: nat, v: Value)
    requires forall p :: fetch(p).Ok? ==> UniqueKeys(fetch(p).value)
    requires Collect(paths, fetch).Ok?
    requires j < |paths| && Get(fetch(paths[j]).value, k) == Some(v) && !v.Obj?
    requires forall i :: j < i < |paths| ==> !HasKey(fetch(paths[i]).value, k)
    ensures Get(Collect(paths, fetch).value, k) == Some(v)
  {
    var items := FetchAll(paths, fetch).value;
    assert forall i :: 0 <= i < |items| ==> fetch(paths[i]) == Ok(items[i]);
    MergeAllLastWins(items, k, j, v);
  }

  /** The collection of tests/lib/dataOperator.test.ts:40-43: {a:1,b:2}, {b:3,c:4}, {}. */
  lemma CollectExample()
    ensures MergeAll([[("a", Num(1.0)), ("b", Num(2.0))], [("b", Num(3.0)), ("c", Num(4.0))], []])
         == [("a", Num(1.0)), ("b", Num(3.0)), ("c", Num(4.0))]
  {
    var x := [("a", Num(1.0)), ("b", Num(2.0))];
    var y := [("b", Num(3.0)), ("c", Num(4.0))];
    var items := [x, y, []];
    assert items[..2][..1] == [x];
    assert items[..2] == [x, y];
    assert items[..1] == [x];
    assert items[..0] == [];
    MergeIdentity(x);
    var x1 := Put(x, "b", Num(3.0));
    assert x1 == [("a", Num(1.0)), ("b", Num(3.0))];
    assert MergeFrom(x, Obj(y), 0) == MergeFrom(x1, Obj(y), 1);
    PutAbsent(x1, "c", Num(4.0));
    var x2 := Put(x1, "c", Num(4.0));
    assert MergeFrom(x1, Obj(y), 1) == MergeFrom(x2, Obj(y), 2) == x2;
    MergeIdentity(x2);
    assert MergeAll([x]) == x;
    assert MergeAll([x, y]) == x2;
  }

  /**
   * `processData(data, processer)`: the processor's message for every
   * entry, in entry order; the first failing call in entry order fails
   * the whole.
   */
  function ProcessAll<V>(data: Dict<V>, process: (string, V) -> Result<string>): (r: Result<seq<string>>)
    ensures r.Ok? ==> |r.value| == |data|
    ensures r.Ok? ==> forall i :: 0 <= i < |data| ==> process(data[i].0, data[i].1) == Ok(r.value[i])
    ensures r.Fail? <==> exists i :: 0 <= i < |data| && process(data[i].0, data[i].1).Fail?
  {
    if data == [] then Ok([])
    else
      var n := |data| - 1;
      match ProcessAll(data[..n], process)
      case Fail(e) => Fail(e)
      case Ok(prev) =>
        match process(data[n].0, data[n].1)
        case Fail(e) => Fail(e)
        case Ok(m) => Ok(prev + [m])
  }

  /** `getValues(data)`: the entry values in entry order. */
  function GetValues<V>(data: Dict<V>): (vs: seq<V>)
    ensures |vs| == |data|
    ensures forall i :: 0 <= i < |data| ==> vs[i] == data[i].1
  {
    seq(|data|, i requires 0 <= i < |data| => data[i].1)
  }
}
