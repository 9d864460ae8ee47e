/**
 * src/bin/cliUtil.ts: the helpers the command line uses on its options:
 * `getStringArray`, `resolveGlobs` (with the glob matcher given as a
 * parameter) and `getPrefixPath`.
 */
module CliUtil {
  import opened Wrappers
  import opened Strings
  import opened Paths
  import opened DataOperator

  /** The string elements of an array, in order. */
  function StringsOf(items: seq<Value>): (r: seq<string>)
    ensures |r| <= |items|
  {
    if items == [] then []
    else
      var n := |items| - 1;
      StringsOf(items[..n]) + (if items[n].Str? then [items[n].s] else [])
  }

  /** A string is kept exactly when the array holds it. */
  lemma {:induction false} StringsOfMembers(items: seq<Value>)
    ensures forall s :: s in StringsOf(items) <==> Str(s) in items
    decreases |items|
  {
    if items != [] {
      var n := |items| - 1;
      StringsOfMembers(items[..n]);
      assert items == items[..n] + [items[n]];
    }
  }

  /** Filtering keeps the order: the strings of a concatenation are the strings of each part, in turn. */
  lemma {:induction false} StringsOfAppend(a: seq<Value>, b: seq<Value>)
    ensures StringsOf(a + b) == StringsOf(a) + StringsOf(b)
    decreases |b|
  {
    if b != [] {
      var n := |b| - 1;
      assert (a + b)[..|a + b| - 1] == a + b[..n];
      StringsOfAppend(a, b[..n]);
    } else {
      assert a + b == a;
    }
  }

  /**
   * `getStringArray(value)`: an array gives its string elements, a string
   * gives itself alone, anything else (a plain object, null, a boolean, a
   * number, a function) gives nothing.
   */
  function GetStringArray(v: Value): (r: seq<string>)
    ensures v.Str? ==> r == [v.s]
    ensures v.Arr? ==> forall s :: s in r <==> Str(s) in v.items
    ensures !v.Str? && !v.Arr? ==> r == []
  {
    match v
    case Arr(items) => StringsOfMembers(items); StringsOf(items)
    case Str(s) => [s]
    case _ => []
  }

  /** An array of strings comes back whole and in order. */
  lemma GetStringArrayOfStrings(items: seq<Value>)
    requires forall i :: 0 <= i < |items| ==> items[i].Str?
    ensures |GetStringArray(Arr(items))| == |items|
    ensures forall i :: 0 <= i < |items| ==> GetStringArray(Arr(items))[i] == items[i].s
  {
    StringsOfStrings(items);
  }

  lemma {:induction false} StringsOfStrings(items: seq<Value>)
    requires forall i :: 0 <= i < |items| ==> items[i].Str?
    ensures |StringsOf(items)| == |items|
    ensures forall i :: 0 <= i < |items| ==> StringsOf(items)[i] == items[i].s
    decreases |items|
  {
    if items != [] {
      var n := |items| - 1;
      var prev := items[..n];
      StringsOfStrings(prev);
      var r := StringsOf(items);
      assert r == StringsOf(prev) + [items[n].s];
      forall i | 0 <= i < |items|
        ensures r[i] == items[i].s
      {
        if i < n {
          assert r[i] == StringsOf(prev)[i] && prev[i] == items[i];
        }
      }
    }
  }

  /** tests/bin/cilUtil.test.ts:33-34: only the one string survives. */
  lemma GetStringArrayMixed()
    ensures GetStringArray(Arr([Str("value-0"), Bool(true), Null, Func("f"), Obj([])])) == ["value-0"]
  {
    var items := [Str("value-0"), Bool(true), Null, Func("f"), Obj([])];
    StringsOfAppend([Str("value-0")], items[1..]);
    assert items == [Str("value-0")] + items[1..];
    StringsOfNone(items[1..]);
  }

  /** A sequence without strings has no string elements. */
  lemma {:induction false} StringsOfNone(items: seq<Value>)
    requires forall i :: 0 <= i < |items| ==> !items[i].Str?
    ensures StringsOf(items) == []
    decreases |items|
  {
    if items != [] {
      StringsOfNone(items[..|items| - 1]);
    }
  }

  /** The glob matcher `fg(pattern)`: the matched paths, or the matcher's own error. */
  type Glob = string -> Result<seq<string>>

  /** One pattern: the matcher's paths, and a RuntimeError when it matches nothing. */
  function GlobOne(fg: Glob, globPath: string): (r: Result<seq<string>>)
    ensures r.Ok? <==> fg(globPath).Ok? && fg(globPath).value != []
    ensures r.Ok? ==> r.value == fg(globPath).value
    ensures fg(globPath).Fail? ==> r == fg(globPath)
    ensures fg(globPath) == Ok([]) ==> r.Fail? && r.error.name == "RuntimeError"
  {
    match fg(globPath)
    case Fail(e) => Fail(e)
    case Ok(paths) =>
      if |paths| == 0 then Fail(RuntimeError("Path-pattern \"" + globPath + "\" is not matched any actual file."))
      else Ok(paths)
  }

  /**
   * Every pattern in order. A rejection carries the error of a failing
   * pattern: the first in pattern order, and no earlier pattern fails.
   */
  function GlobAll(fg: Glob, globPaths: seq<string>): (r: Result<seq<seq<string>>>)
    ensures r.Ok? ==> (|r.value| == |globPaths| &&
      forall i :: 0 <= i < |globPaths| ==> GlobOne(fg, globPaths[i]) == Ok(r.value[i]))
    ensures r.Fail? <==> exists i :: 0 <= i < |globPaths| && GlobOne(fg, globPaths[i]).Fail?
    ensures r.Fail? ==>
      exists i :: 0 <= i < |globPaths| && GlobOne(fg, globPaths[i]) == Fail(r.error) &&
        forall j :: 0 <= j < i ==> GlobOne(fg, globPaths[j]).Ok?
    decreases |globPaths|
  {
    if globPaths == [] then Ok([])
    else
      var n := |globPaths| - 1;
      match GlobAll(fg, globPaths[..n])
      case Fail(e) => Fail(e)
      case Ok(prev) =>
        match GlobOne(fg, globPaths[n])
        case Fail(e) => Fail(e)
        case Ok(paths) =>
          assert forall i :: 0 <= i < n ==> globPaths[..n][i] == globPaths[i];
          Ok(prev + [paths])
  }

  /** `outs.flat()`. */
  function Flatten(outs: seq<seq<string>>): (r: seq<string>)
    ensures forall x :: x in r <==> exists i :: 0 <= i < |outs| && x in outs[i]
  {
    if outs == [] then []
    else
      var n := |outs| - 1;
      var r := Flatten(outs[..n]) + outs[n];
      assert forall i :: 0 <= i < n ==> outs[..n][i] == outs[i];
      r
  }

  /** `resolveGlobs(globPaths)`: `_.uniq(outs.flat()).sort()`. */
  function ResolveGlobs(fg: Glob, globPaths: seq<string>): (r: Result<seq<string>>)
    ensures r.Ok? ==> Sorted(r.value) && NoDup(r.value)
  {
    match GlobAll(fg, globPaths)
    case Fail(e) => Fail(e)
    case Ok(outs) => SortKeepsNoDup(Uniq(Flatten(outs))); Ok(Sort(Uniq(Flatten(outs))))
  }

  /**
   * The result is sorted ascending, repeats no path, and holds exactly the
   * paths some pattern matched; it is a rejection exactly when some
   * pattern fails or matches nothing. A rejection carries the error of one
   * such pattern, so when the matcher itself never fails it is the
   * RuntimeError of a pattern that matched nothing.
   */
  lemma ResolveGlobsSpec(fg: Glob, globPaths: seq<string>)
    ensures ResolveGlobs(fg, globPaths).Fail? <==>
      exists i :: 0 <= i < |globPaths| && (fg(globPaths[i]).Fail? || fg(globPaths[i]) == Ok([]))
    ensures ResolveGlobs(fg, globPaths).Ok? ==>
      var r := ResolveGlobs(fg, globPaths).value;
      Sorted(r) && NoDup(r) &&
      forall x :: x in r <==> exists i :: 0 <= i < |globPaths| && fg(globPaths[i]).Ok? && x in fg(globPaths[i]).value
    ensures ResolveGlobs(fg, globPaths).Fail? ==>
      exists i :: 0 <= i < |globPaths| && GlobOne(fg, globPaths[i]) == Fail(ResolveGlobs(fg, globPaths).error)
    ensures ((forall i :: 0 <= i < |globPaths| ==> fg(globPaths[i]).Ok?) &&
             (exists i :: 0 <= i < |globPaths| && fg(globPaths[i]) == Ok([]))) ==>
      ResolveGlobs(fg, globPaths).Fail? && ResolveGlobs(fg, globPaths).error.name == "RuntimeError"
  {
    var g := GlobAll(fg, globPaths);
    if g.Ok? {
      var u := Uniq(Flatten(g.value));
      SortKeepsNoDup(u);
      forall x ensures x in Sort(u) <==> x in u {
        assert x in Sort(u) <==> x in multiset(Sort(u));
        assert x in u <==> x in multiset(u);
      }
    } else {
      var i :| 0 <= i < |globPaths| && GlobOne(fg, globPaths[i]).Fail?;
      assert fg(globPaths[i]).Fail? || fg(globPaths[i]) == Ok([]);
    }
  }

  /**
   * tests/bin/cilUtil.test.ts:66-69: one pattern matches a file and the
   * other matches nothing, so the call rejects with a RuntimeError.
   */
  lemma ResolveGlobsNoMatch(fg: Glob)
    requires fg("path/to/test.txt") == Ok(["path/to/test.txt"]) && fg("path/to/empty/**") == Ok([])
    ensures ResolveGlobs(fg, ["path/to/test.txt", "path/to/empty/**"]).Fail?
    ensures ResolveGlobs(fg, ["path/to/test.txt", "path/to/empty/**"]).error.name == "RuntimeError"
  {
    var globs := ["path/to/test.txt", "path/to/empty/**"];
    ResolveGlobsSpec(fg, globs);
    assert fg(globs[1]) == Ok([]);
  }

  /**
   * Whether `to` is reached from `from` by applying `dirname` zero or more
   * times.
   */
  predicate DirnameChain(from: string, to: string)
    decreases |from|
  {
    from == to || (IsAbsolute(from) && from != "/" && |Dirname(from)| < |from| && DirnameChain(Dirname(from), to))
  }

  lemma {:induction false} DirnameChainTrans(a: string, b: string, c: string)
    requires DirnameChain(a, b) && DirnameChain(b, c)
    ensures DirnameChain(a, c)
    decreases |a|
  {
    if a != b {
      DirnameChainTrans(Dirname(a), b, c);
    }
  }

  /** `dirname` keeps an absolute path absolute, the root included. */
  lemma DirnameAbsolute(s: string)
    requires IsAbsolute(s)
    ensures IsAbsolute(Dirname(s))
  {
    if s != "/" {
      DirnameShrinks(s);
    } else {
      assert DirEnd(s, 0, true) == -1;
    }
  }

  /**
   * The inner `while` loop for one path: climb from `prefix` by `dirname`
   * until the resolved path string-starts with it, or up to '/'.
   */
  function Shrink(prefix: string, target: string): (r: string)
    requires IsAbsolute(prefix)
    ensures IsAbsolute(r) && StartsWith(prefix, r) && DirnameChain(prefix, r)
    ensures r == "/" || StartsWith(target, r)
    decreases |prefix|
  {
    if prefix == "/" || StartsWith(target, prefix) then prefix
    else
      DirnameShrinks(prefix);
      var r := Shrink(Dirname(prefix), target);
      StartsWithTrans(prefix, Dirname(prefix), r);
      r
  }

  /** The `forEach` over the later paths, from the given start. */
  function ShrinkAll(prefix: string, paths: seq<string>): (r: string)
    requires IsAbsolute(prefix)
    ensures IsAbsolute(r)
    decreases |paths|
  {
    if paths == [] then prefix
    else Shrink(ShrinkAll(prefix, paths[..|paths| - 1]), Resolve(paths[|paths| - 1]))
  }

  /** `getPrefixPath(paths)`. */
  function PrefixPath(paths: seq<string>): (r: string)
    ensures paths == [] ==> r == ""
    ensures paths != [] ==> IsAbsolute(r)
  {
    if |paths| > 0 then
      DirnameAbsolute(Resolve(paths[0]));
      ShrinkAll(Dirname(Resolve(paths[0])), paths[1..])
    else ""
  }

  /** A `dirname` chain never grows, and strictly shrinks when it moves. */
  lemma {:induction false} ChainShorter(a: string, b: string)
    ensures DirnameChain(a, b) ==> |b| <= |a| && (a != b ==> |b| < |a|)
    decreases |a|
  {
    if a != b && DirnameChain(a, b) {
      ChainShorter(Dirname(a), b);
    }
  }

  /**
   * The inner loop stops at the first element of the chain that the target
   * string-starts with: any such element lies at or above where it stopped.
   */
  lemma {:induction false} ShrinkFirst(prefix: string, target: string, d: string)
    requires IsAbsolute(prefix)
    ensures DirnameChain(prefix, d) && StartsWith(target, d) ==> DirnameChain(Shrink(prefix, target), d)
    decreases |prefix|
  {
    if !(prefix == "/" || StartsWith(target, prefix)) {
      DirnameShrinks(prefix);
      ShrinkFirst(Dirname(prefix), target, d);
    }
  }

  /**
   * The `forEach` ends at the deepest element of the chain that every path
   * seen string-starts with: any common one lies at or above the result.
   */
  lemma {:induction false} ShrinkAllDeepest(prefix: string, paths: seq<string>, d: string)
    requires IsAbsolute(prefix)
    ensures DirnameChain(prefix, d) && (forall i :: 0 <= i < |paths| ==> StartsWith(Resolve(paths[i]), d)) ==>
      DirnameChain(ShrinkAll(prefix, paths), d)
    decreases |paths|
  {
    if paths != [] {
      var n := |paths| - 1;
      ShrinkAllDeepest(prefix, paths[..n], d);
      ShrinkFirst(ShrinkAll(prefix, paths[..n]), Resolve(paths[n]), d);
      if forall i :: 0 <= i < |paths| ==> StartsWith(Resolve(paths[i]), d) {
        assert forall i :: 0 <= i < n ==> StartsWith(Resolve(paths[..n][i]), d);
      }
    }
  }

  /**
   * The fold keeps a dirname chain from its start, and, unless it has
   * reached '/', it string-starts every path it has seen.
   */
  lemma {:induction false} ShrinkAllSpec(prefix: string, paths: seq<string>)
    requires IsAbsolute(prefix)
    ensures DirnameChain(prefix, ShrinkAll(prefix, paths)) && StartsWith(prefix, ShrinkAll(prefix, paths))
    ensures ShrinkAll(prefix, paths) != "/" ==>
      forall i :: 0 <= i < |paths| ==> StartsWith(Resolve(paths[i]), ShrinkAll(prefix, paths))
    decreases |paths|
  {
    if paths != [] {
      var n := |paths| - 1;
      ShrinkAllSpec(prefix, paths[..n]);
      var q := ShrinkAll(prefix, paths[..n]);
      var r := Shrink(q, Resolve(paths[n]));
      DirnameChainTrans(prefix, q, r);
      StartsWithTrans(prefix, q, r);
      if r != "/" {
        assert q != "/";
        forall i | 0 <= i < |paths| ensures StartsWith(Resolve(paths[i]), r) {
          if i < n {
            assert paths[..n][i] == paths[i];
            StartsWithTrans(Resolve(paths[i]), q, r);
          }
        }
      }
    }
  }

  /**
   * `getPrefixPath`: '' for no paths; otherwise an absolute directory
   * reached from `dirname(resolve(paths[0]))` by repeated `dirname` that
   * string-starts the first resolved path and, unless it is '/', every
   * resolved path. It is the deepest such directory: every directory
   * strictly between the start and the result misses some path.
   */
  lemma PrefixPathSpec(paths: seq<string>)
    ensures paths == [] ==> PrefixPath(paths) == ""
    ensures |paths| == 1 ==> PrefixPath(paths) == Dirname(Resolve(paths[0]))
    ensures paths != [] ==>
      var r := PrefixPath(paths);
      IsAbsolute(r) && DirnameChain(Dirname(Resolve(paths[0])), r) &&
      StartsWith(Resolve(paths[0]), r) &&
      (r != "/" ==> forall i :: 0 <= i < |paths| ==> StartsWith(Resolve(paths[i]), r))
    ensures paths != [] ==>
      forall d ::
        (DirnameChain(Dirname(Resolve(paths[0])), d) && DirnameChain(d, PrefixPath(paths)) && d != PrefixPath(paths)) ==>
        exists i :: 0 <= i < |paths| && !StartsWith(Resolve(paths[i]), d)
  {
    if paths != [] {
      var p0 := Resolve(paths[0]);
      var d := Dirname(p0);
      DirnameAbsolute(p0);
      ShrinkAllSpec(d, paths[1..]);
      var r := PrefixPath(paths);
      if p0 != "/" {
        DirnameShrinks(p0);
        StartsWithTrans(p0, d, r);
      } else {
        assert d == "/" by { assert DirEnd(p0, 0, true) == -1; }
        assert r == "/";
      }
      if r != "/" {
        forall i | 0 <= i < |paths| ensures StartsWith(Resolve(paths[i]), r) {
          if i > 0 {
            assert paths[1..][i - 1] == paths[i];
          }
        }
      }
      forall e | DirnameChain(d, e) && DirnameChain(e, r) && e != r
        ensures exists i :: 0 <= i < |paths| && !StartsWith(Resolve(paths[i]), e)
      {
        ShrinkAllDeepest(d, paths[1..], e);
        ChainShorter(e, r);
        ChainShorter(r, e);
        if forall i :: 0 <= i < |paths| ==> StartsWith(Resolve(paths[i]), e) {
          assert forall i :: 0 <= i < |paths[1..]| ==> StartsWith(Resolve(paths[1..][i]), e);
        }
      }
    }
  }

  /** `getPrefixPath(paths)`: the `forEach` over the later paths with its inner `while`. */
  method GetPrefixPath(paths: seq<string>) returns (prefix: string)
    ensures prefix == PrefixPath(paths)
  {
    if |paths| > 0 {
      DirnameAbsolute(Resolve(paths[0]));
      prefix := Dirname(Resolve(paths[0]));
      ghost var start := prefix;
      var rest := paths[1..];
      for i := 0 to |rest|
        invariant IsAbsolute(prefix) && prefix == ShrinkAll(start, rest[..i])
      {
        assert rest[..i + 1][..i] == rest[..i];
        var target := Resolve(rest[i]);
        ghost var goal := Shrink(prefix, target);
        while prefix != "/"
          invariant IsAbsolute(prefix) && Shrink(prefix, target) == goal
          decreases |prefix|
        {
          if StartsWith(target, prefix) {
            break;
          }
          DirnameShrinks(prefix);
          prefix := Dirname(prefix);
        }
      }
      assert rest[..|rest|] == rest;
    } else {
      prefix := "";
    }
  }
}
