/**
 * src/lib/preload.ts: the module-level list `PRELOADS` of preloaded
 * template texts, and the record-shaped helpers `collectPreloads` and
 * `joinPreloaded` that other modules call.
 */
module Preload {
  import opened Wrappers
  import opened Dict
  import opened Strings
  import opened DataOperator
  import opened FileSys

  /** The texts of the reads that succeed, in path order. */
  function Successful(t: Tree, paths: seq<string>): seq<string> {
    if paths == [] then []
    else
      var n := |paths| - 1;
      match ReadText(t, paths[n])
      case Ok(c) => Successful(t, paths[..n]) + [c]
      case Fail(_) => Successful(t, paths[..n])
  }

  /** The outcome of the whole call: the first failing read, in path order. */
  function FirstFailure(t: Tree, paths: seq<string>): Result<()> {
    if paths == [] then Ok(())
    else
      var n := |paths| - 1;
      match FirstFailure(t, paths[..n])
      case Fail(e) => Fail(e)
      case Ok(_) =>
        match ReadText(t, paths[n])
        case Fail(e) => Fail(e)
        case Ok(_) => Ok(())
  }

  /** One read operation per path, in path order. */
  function Reads(paths: seq<string>): (r: seq<Op>)
    ensures |r| == |paths| && forall i :: 0 <= i < |paths| ==> r[i] == ReadOp(paths[i])
  {
    seq(|paths|, i requires 0 <= i < |paths| => ReadOp(paths[i]))
  }

  predicate AllReadable(t: Tree, paths: seq<string>) {
    forall i :: 0 <= i < |paths| ==> ReadText(t, paths[i]).Ok?
  }

  /** `setPreloads` rejects exactly when some read fails, with the error of a failing read. */
  lemma {:induction false} FirstFailureIff(t: Tree, paths: seq<string>)
    ensures FirstFailure(t, paths).Ok? <==> AllReadable(t, paths)
    ensures FirstFailure(t, paths).Fail? ==>
      exists i :: 0 <= i < |paths| && ReadText(t, paths[i]) == Fail(FirstFailure(t, paths).error)
  {
    if paths != [] {
      var n := |paths| - 1;
      FirstFailureIff(t, paths[..n]);
      assert forall i :: 0 <= i < n ==> paths[..n][i] == paths[i];
    }
  }

  /** When every read succeeds there is one text per path, repeated paths included. */
  lemma {:induction false} SuccessfulAll(t: Tree, paths: seq<string>)
    requires AllReadable(t, paths)
    ensures |Successful(t, paths)| == |paths|
    ensures forall i :: 0 <= i < |paths| ==> ReadText(t, paths[i]) == Ok(Successful(t, paths)[i])
  {
    if paths != [] {
      var n := |paths| - 1;
      assert forall i :: 0 <= i < n ==> paths[..n][i] == paths[i];
      SuccessfulAll(t, paths[..n]);
    }
  }

  /** `PRELOADS`; one object stands for the module. */
  class PreloadStore {
    var fragments: seq<string>

    /** Module initialisation runs `initPreloads` once. */
    constructor()
      ensures fragments == []
    {
      fragments := [];
    }

    /** `initPreloads`: forget every fragment, so the preload text is ''. */
    method InitPreloads()
      modifies this
      ensures fragments == [] && Concat(fragments) == ""
    {
      fragments := [];
    }

    /** `getPreload`: the fragments joined with no separator; the list is left alone. */
    method GetPreload() returns (s: string)
      ensures s == Concat(fragments)
    {
      s := Concat(fragments);
    }

    /**
     * `setPreloads`: read every path and push each text that was read;
     * the call rejects when a read fails, and texts already pushed stay.
     */
    method SetPreloads(fs: FileSystem, paths: seq<string>) returns (r: Result<()>)
      modifies this, fs
      ensures fragments == old(fragments) + Successful(old(fs.tree), paths)
      ensures Concat(fragments) == Concat(old(fragments)) + Concat(Successful(old(fs.tree), paths))
      ensures r == FirstFailure(old(fs.tree), paths)
      ensures fs.tree == old(fs.tree) && fs.log == old(fs.log) + Reads(paths)
    {
      ghost var t0 := fs.tree;
      ghost var log0 := fs.log;
      ghost var before := fragments;
      r := Ok(());
      for i := 0 to |paths|
        invariant fragments == before + Successful(t0, paths[..i])
        invariant r == FirstFailure(t0, paths[..i])
        invariant fs.tree == t0 && fs.log == log0 + Reads(paths[..i])
      {
        assert paths[..i + 1][..i] == paths[..i];
        var c := fs.ReadFile(paths[i]);
        if c.Ok? {
          fragments := fragments + [c.value];
        } else if r.Ok? {
          r := Fail(c.error);
        }
        assert Reads(paths[..i + 1]) == Reads(paths[..i]) + [ReadOp(paths[i])];
      }
      assert paths[..|paths|] == paths;
      ConcatAppend(before, Successful(t0, paths));
    }
  }

  /** `preloadDataFetcher(path)`: the one-entry record from the path to its text. */
  function PreloadFetch(t: Tree, path: string): (r: Result<Record>)
    ensures r.Ok? <==> ReadText(t, path).Ok?
    ensures r.Ok? ==> r.value == [(path, Str(ReadText(t, path).value))]
    ensures r.Fail? ==> r == Fail(ReadText(t, path).error)
  {
    match ReadText(t, path)
    case Fail(e) => Fail(e)
    case Ok(c) => Ok([(path, Str(c))])
  }

  /** The preload fetcher as the value handed to `collectData`. */
  function PreloadFetcher(t: Tree): string -> Result<Record> {
    path => PreloadFetch(t, path)
  }

  /** `collectPreloads(paths)`: rejects exactly when some preload cannot be read. */
  function CollectPreloads(t: Tree, paths: seq<string>): (r: Result<Record>)
    ensures r.Fail? <==> exists i :: 0 <= i < |paths| && ReadText(t, paths[i]).Fail?
  {
    CollectFailure(paths, PreloadFetcher(t));
    Collect(paths, PreloadFetcher(t))
  }

  /** The text of every string value, in entry order. */
  function Texts(d: Record): (r: seq<string>)
    ensures |r| == |d|
    ensures forall i :: 0 <= i < |d| && d[i].1.Str? ==> r[i] == d[i].1.s
  {
    seq(|d|, i requires 0 <= i < |d| => if d[i].1.Str? then d[i].1.s else "")
  }

  /** `joinPreloaded(data)`: the text values joined in entry order, as `join('')` does. */
  function JoinPreloaded(data: Record): (r: string)
    ensures r == Concat(Texts(data))
  {
    if data == [] then ""
    else
      var n := |data| - 1;
      assert Texts(data)[..n] == Texts(data[..n]);
      JoinPreloaded(data[..n]) + (if data[n].1.Str? then data[n].1.s else "")
  }

  /** The record each path's text under its path, in path order. */
  function PreloadEntries(paths: seq<string>, texts: seq<string>): (r: Record)
    requires |paths| == |texts|
    ensures |r| == |paths| && forall i :: 0 <= i < |paths| ==> r[i] == (paths[i], Str(texts[i]))
  {
    seq(|paths|, i requires 0 <= i < |paths| => (paths[i], Str(texts[i])))
  }

  /** Folding one-entry records with distinct keys lines the entries up in order. */
  lemma {:induction false} MergeAllSingletons(items: seq<Record>, paths: seq<string>, texts: seq<string>)
    requires |items| == |paths| == |texts| && NoDup(paths)
    requires forall i :: 0 <= i < |items| ==> items[i] == [(paths[i], Str(texts[i]))]
    ensures MergeAll(items) == PreloadEntries(paths, texts)
  {
    if items != [] {
      var n := |items| - 1;
      assert forall i, j :: 0 <= i < j < n ==> paths[..n][i] == paths[i] && paths[..n][j] == paths[j];
      MergeAllSingletons(items[..n], paths[..n], texts[..n]);
      var prev := PreloadEntries(paths[..n], texts[..n]);
      var k := paths[n];
      var v := Str(texts[n]);
      assert MergeRecord(prev, items[n]) == MergeFrom(Put(prev, k, Combine(Get(prev, k), v)), Obj(items[n]), 1);
      PutAbsent(prev, k, v);
      assert prev + [(k, v)] == PreloadEntries(paths, texts);
    }
  }

  /**
   * The contract callers rely on: when every read succeeds and no path
   * repeats, `collectPreloads` maps each path to its text, in path order.
   */
  lemma CollectPreloadsEntries(t: Tree, paths: seq<string>)
    requires AllReadable(t, paths) && NoDup(paths)
    ensures |Successful(t, paths)| == |paths|
    ensures CollectPreloads(t, paths) == Ok(PreloadEntries(paths, Successful(t, paths)))
  {
    SuccessfulAll(t, paths);
    var fetch := PreloadFetcher(t);
    var items := FetchAll(paths, fetch);
    CollectFailure(paths, fetch);
    MergeAllSingletons(items.value, paths, Successful(t, paths));
  }

  /**
   * Repeated paths included, every path collected maps to its own text,
   * and the collected record has no other key.
   */
  lemma {:induction false} CollectPreloadsGet(t: Tree, paths: seq<string>, k: string)
    requires CollectPreloads(t, paths).Ok?
    ensures UniqueKeys(CollectPreloads(t, paths).value)
    ensures HasKey(CollectPreloads(t, paths).value, k) <==> k in paths
    ensures k in paths ==> ReadText(t, k).Ok? && Get(CollectPreloads(t, paths).value, k) == Some(Str(ReadText(t, k).value))
    decreases |paths|
  {
    var fetch := PreloadFetcher(t);
    var items := FetchAll(paths, fetch).value;
    MergeAllUnique(items);
    if paths != [] {
      var n := |paths| - 1;
      assert FetchAll(paths[..n], fetch).Ok?;
      var prev := FetchAll(paths[..n], fetch).value;
      assert items == prev + [items[n]];
      assert items[..n] == prev;
      CollectPreloadsGet(t, paths[..n], k);
      assert items[n] == [(paths[n], Str(ReadText(t, paths[n]).value))];
      MergeGet(MergeAll(prev), items[n], k);
      assert k in paths <==> k in paths[..n] || k == paths[n] by {
        assert paths == paths[..n] + [paths[n]];
      }
    }
  }

  /** Joining such a record gives the texts concatenated in path order. */
  lemma {:induction false} JoinPreloadedEntries(paths: seq<string>, texts: seq<string>)
    requires |paths| == |texts|
    ensures JoinPreloaded(PreloadEntries(paths, texts)) == Concat(texts)
  {
    if paths != [] {
      var n := |paths| - 1;
      JoinPreloadedEntries(paths[..n], texts[..n]);
      assert PreloadEntries(paths, texts)[..n] == PreloadEntries(paths[..n], texts[..n]);
    }
  }

  /**
   * So collecting and joining the preloads of distinct readable paths
   * gives what `setPreloads` followed by `getPreload` gives on a fresh list.
   */
  lemma CollectThenJoin(t: Tree, paths: seq<string>)
    requires AllReadable(t, paths) && NoDup(paths)
    ensures CollectPreloads(t, paths).Ok?
    ensures JoinPreloaded(CollectPreloads(t, paths).value) == Concat(Successful(t, paths))
  {
    CollectPreloadsEntries(t, paths);
    SuccessfulAll(t, paths);
    JoinPreloadedEntries(paths, Successful(t, paths));
  }

  /** `joinPreloaded` of tests/lib/preload.test.ts:63-64: an empty text adds nothing. */
  lemma JoinPreloadedExample(e1: string, e2: string)
    ensures JoinPreloaded([("path/to/empty.txt", Str("")), ("path/to/valid1.txt", Str(e1)),
                           ("path/to/valid2.txt", Str(e2))]) == e1 + e2
  {
    var d := [("path/to/empty.txt", Str("")), ("path/to/valid1.txt", Str(e1)), ("path/to/valid2.txt", Str(e2))];
    assert d[..2][..1] == d[..1];
    assert d[..1][..0] == [];
    assert JoinPreloaded(d[..1]) == "";
    assert JoinPreloaded(d[..2]) == e1;
  }
}
