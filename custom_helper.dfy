/**
 * src/lib/customHelper.ts: loading helper functions from user modules and
 * registering them into a Handlebars environment.
 */
module CustomHelper {
  import opened Wrappers
  import opened Dict
  import opened Paths
  import opened DataOperator
  import opened Hbs

  /** The function-valued entries of a module's exports, in export order. */
  function FunctionExports(exports: Record): (r: Record)
    ensures forall i :: 0 <= i < |r| ==> r[i].1.Func?
    ensures forall e :: e in r <==> e in exports && e.1.Func?
    ensures |r| <= |exports|
  {
    if exports == [] then []
    else
      var n := |exports| - 1;
      var prev := FunctionExports(exports[..n]);
      assert exports == exports[..n] + [exports[n]];
      if exports[n].1.Func? then prev + [exports[n]] else prev
  }

  /** Filtering keeps a module's keys unique. */
  lemma {:induction false} FunctionExportsUnique(exports: Record)
    requires UniqueKeys(exports)
    ensures UniqueKeys(FunctionExports(exports))
  {
    if exports != [] {
      var n := |exports| - 1;
      assert UniqueKeys(exports[..n]);
      FunctionExportsUnique(exports[..n]);
      var prev := FunctionExports(exports[..n]);
      forall i | 0 <= i < |prev| ensures prev[i].0 != exports[n].0 {
        assert prev[i] in exports[..n];
      }
    }
  }

  /**
   * `helpersDataFetcher(path)`: the module at the resolved path is loaded
   * by `load` (dynamic `import()`), and only its function exports are kept.
   */
  function HelpersFetch(load: string -> Result<Record>, path: string): (r: Result<Record>)
    ensures r.Ok? <==> load(Resolve(path)).Ok?
    ensures r.Ok? ==> r.value == FunctionExports(load(Resolve(path)).value)
  {
    match load(Resolve(path))
    case Fail(e) => Fail(e)
    case Ok(exports) => Ok(FunctionExports(exports))
  }

  /** `helpersDataFetcher` as the value handed to `collectData`. */
  function HelpersFetcher(load: string -> Result<Record>): string -> Result<Record> {
    path => HelpersFetch(load, path)
  }

  /** `collectHelpers(paths)`. */
  function CollectHelpers(load: string -> Result<Record>, paths: seq<string>): Result<Record> {
    Collect(paths, HelpersFetcher(load))
  }

  lemma {:induction false} MergeAllFunctions(items: seq<Record>)
    requires forall i, j :: 0 <= i < |items| && 0 <= j < |items[i]| ==> items[i][j].1.Func?
    ensures forall j :: 0 <= j < |MergeAll(items)| ==> MergeAll(items)[j].1.Func?
  {
    if items != [] {
      var n := |items| - 1;
      MergeAllFunctions(items[..n]);
      MergeFunctions(MergeAll(items[..n]), items[n]);
    }
  }

  lemma MergeFunctions(from: Record, to: Record)
    requires forall j :: 0 <= j < |from| ==> from[j].1.Func?
    requires forall j :: 0 <= j < |to| ==> to[j].1.Func?
    ensures forall j :: 0 <= j < |MergeRecord(from, to)| ==> MergeRecord(from, to)[j].1.Func?
  {
    MergeFromFunctions(from, Obj(to), 0);
  }

  lemma {:induction false} MergeFromFunctions(base: Record, overlay: Value, i: nat)
    requires overlay.Obj? && i <= |overlay.fields|
    requires forall j :: 0 <= j < |base| ==> base[j].1.Func?
    requires forall j :: 0 <= j < |overlay.fields| ==> overlay.fields[j].1.Func?
    ensures forall j :: 0 <= j < |MergeFrom(base, overlay, i)| ==> MergeFrom(base, overlay, i)[j].1.Func?
    decreases |overlay.fields| - i
  {
    if i < |overlay.fields| {
      var k := overlay.fields[i].0;
      var v := overlay.fields[i].1;
      assert Combine(Get(base, k), v) == v;
      PutValues(base, k, v);
      var next := Put(base, k, v);
      assert forall j :: 0 <= j < |next| ==> next[j] in next;
      assert forall e :: e in base ==> e.1.Func?;
      MergeFromFunctions(Put(base, k, v), overlay, i + 1);
    }
  }

  /**
   * The collected helpers are all functions, and a name is collected
   * exactly when some module exports a function under it.
   */
  lemma CollectedHelpers(load: string -> Result<Record>, paths: seq<string>, name: string)
    requires forall p :: load(p).Ok? ==> UniqueKeys(load(p).value)
    requires CollectHelpers(load, paths).Ok?
    ensures var r := CollectHelpers(load, paths).value;
      (forall j :: 0 <= j < |r| ==> r[j].1.Func?) &&
      (HasKey(r, name) <==> exists i :: 0 <= i < |paths| && HasKey(FunctionExports(load(Resolve(paths[i])).value), name))
  {
    var fetch := HelpersFetcher(load);
    var items := FetchAll(paths, fetch).value;
    forall i | 0 <= i < |items| ensures UniqueKeys(items[i]) {
      FunctionExportsUnique(load(Resolve(paths[i])).value);
    }
    MergeAllFunctions(items);
    MergeAllHasKey(items, name);
  }

  /** `registerHelperProcesserFactory(hbs)(name, fn)`: registers and resolves to the name. */
  method RegisterHelperProcesser(hbs: Instance, name: string, fn: Value) returns (msg: string)
    requires fn.Func?
    modifies hbs
    ensures hbs.helpers == old(hbs.helpers)[name := UserFn(fn.id)]
    ensures msg == name
  {
    hbs.RegisterHelper(name, UserFn(fn.id));
    msg := name;
  }

  /** The helper table after registering every entry of `data`, in entry order. */
  function Registered(table: map<string, HelperFn>, data: Record): map<string, HelperFn>
    requires forall i :: 0 <= i < |data| ==> data[i].1.Func?
  {
    if data == [] then table
    else
      var n := |data| - 1;
      Registered(table, data[..n])[data[n].0 := UserFn(data[n].1.id)]
  }

  /**
   * With unique names, every entry of `data` ends up registered with its
   * own function, and every other name keeps its previous helper.
   */
  lemma {:induction false} RegisteredLookup(table: map<string, HelperFn>, data: Record, name: string)
    requires forall i :: 0 <= i < |data| ==> data[i].1.Func?
    requires UniqueKeys(data)
    ensures HasKey(data, name) ==> name in Registered(table, data) && Registered(table, data)[name] == UserFn(Get(data, name).value.id)
    ensures !HasKey(data, name) ==> (name in Registered(table, data) <==> name in table)
    ensures !HasKey(data, name) && name in table ==> Registered(table, data)[name] == table[name]
  {
    if data != [] {
      var n := |data| - 1;
      assert UniqueKeys(data[..n]);
      RegisteredLookup(table, data[..n], name);
      assert data == data[..n] + [data[n]];
      HasKeyCons(data[n], [], name);
      if name == data[n].0 {
        GetAt(data, n);
        assert !HasKey(data[..n], name);
      } else {
        GetSkipLast(data, name);
      }
    }
  }

  /** Looking up a key other than the last entry's ignores that entry. */
  lemma {:induction false} GetSkipLast(d: Record, k: string)
    requires d != [] && d[|d| - 1].0 != k
    ensures Get(d, k) == Get(d[..|d| - 1], k)
  {
    if |d| > 1 && d[0].0 != k {
      assert d[1..][..|d| - 2] == d[..|d| - 1][1..];
      GetSkipLast(d[1..], k);
    }
  }

  /**
   * `processRegisterHelpersFactory(hbs)(data)`: registers every entry into
   * `hbs` alone and resolves to the names in entry order.
   */
  method ProcessRegisterHelpers(hbs: Instance, data: Record) returns (names: seq<string>)
    requires forall i :: 0 <= i < |data| ==> data[i].1.Func?
    modifies hbs
    ensures names == Keys(data)
    ensures hbs.helpers == Registered(old(hbs.helpers), data)
  {
    names := [];
    var i := 0;
    while i < |data|
      invariant i <= |data|
      invariant names == Keys(data[..i])
      invariant hbs.helpers == Registered(old(hbs.helpers), data[..i])
    {
      assert data[..i + 1][..i] == data[..i];
      var msg := RegisterHelperProcesser(hbs, data[i].0, data[i].1);
      names := names + [msg];
      i := i + 1;
    }
    assert data[..i] == data;
  }
}
