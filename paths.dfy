/**
 * The POSIX flavour of Node's `path` module, over plain strings, with a
 * fixed working directory: `resolve`, `normalize`, `join`, `dirname`,
 * `basename` and `relative`.
 */
module Paths {
  import opened Strings

  /** The working directory `resolve` starts from for a relative path. */
  const Cwd: string := "/work"

  predicate IsAbsolute(p: string) {
    p != [] && p[0] == '/'
  }

  /** The non-empty pieces of `s` between slashes, after the pending piece `cur`. */
  function Pieces(s: string, cur: string): (r: seq<string>)
    ensures forall i :: 0 <= i < |r| ==> r[i] != ""
    decreases |s|
  {
    if s == [] then (if cur == "" then [] else [cur])
    else if s[0] == '/' then (if cur == "" then [] else [cur]) + Pieces(s[1..], "")
    else Pieces(s[1..], cur + [s[0]])
  }

  /**
   * Node's `normalizeString`: `.` pieces vanish, `..` removes the previous
   * piece, and above the start it is kept for a relative path and dropped
   * for an absolute one.
   */
  function NormalizeSegs(stack: seq<string>, segs: seq<string>, aboveRoot: bool): seq<string>
    decreases |segs|
  {
    if segs == [] then stack
    else if segs[0] == "." then NormalizeSegs(stack, segs[1..], aboveRoot)
    else if segs[0] == ".." then
      if stack != [] && stack[|stack| - 1] != ".." then NormalizeSegs(stack[..|stack| - 1], segs[1..], aboveRoot)
      else if aboveRoot then NormalizeSegs(stack + [".."], segs[1..], aboveRoot)
      else NormalizeSegs(stack, segs[1..], aboveRoot)
    else NormalizeSegs(stack + [segs[0]], segs[1..], aboveRoot)
  }

  /** The pieces joined with a single slash. */
  function JoinSlash(segs: seq<string>): string {
    if segs == [] then ""
    else if |segs| == 1 then segs[0]
    else JoinSlash(segs[..|segs| - 1]) + "/" + segs[|segs| - 1]
  }

  /** The pieces of a resolved path. */
  function ResolvedSegs(p: string): seq<string> {
    NormalizeSegs([], Pieces(if IsAbsolute(p) then p else Cwd + "/" + p, ""), false)
  }

  /** A run of characters without a slash extends the current piece. */
  lemma {:induction false} PiecesWord(w: string, rest: string, cur: string)
    requires '/' !in w
    ensures Pieces(w + rest, cur) == Pieces(rest, cur + w)
    decreases |w|
  {
    if w != [] {
      assert (w + rest)[0] == w[0] && (w + rest)[1..] == w[1..] + rest;
      PiecesWord(w[1..], rest, cur + [w[0]]);
      assert cur + [w[0]] + w[1..] == cur + w;
    } else {
      assert w + rest == rest && cur + w == cur;
    }
  }

  /** `path.resolve(p)`: absolute, normalised, no trailing slash. */
  function Resolve(p: string): (r: string)
    ensures IsAbsolute(r)
  {
    "/" + JoinSlash(ResolvedSegs(p))
  }

  /** `path.normalize(p)`. */
  function Normalize(p: string): string {
    if p == "" then "."
    else
      var abs := p[0] == '/';
      var trailing := p[|p| - 1] == '/';
      var body := JoinSlash(NormalizeSegs([], Pieces(p, ""), !abs));
      if body == "" then (if abs then "/" else if trailing then "./" else ".")
      else (if abs then "/" else "") + body + (if trailing then "/" else "")
  }

  /** `path.join(a, b)`: empty arguments are skipped, the rest normalised. */
  function Join(a: string, b: string): string {
    var joined := if a == "" then b else if b == "" then a else a + "/" + b;
    if joined == "" then "." else Normalize(joined)
  }

  /**
   * The index of the slash that ends the directory part of `path`,
   * scanning down from `i` (Node's `dirname` loop), or -1 when there is none.
   */
  function DirEnd(path: string, i: nat, matchedSlash: bool): (e: int)
    requires i < |path|
    requires !matchedSlash ==> exists k :: i < k < |path| && path[k] != '/'
    ensures e == -1 || (1 <= e <= i && path[e] == '/')
    ensures e != -1 ==> exists k :: e < k < |path| && path[k] != '/'
  {
    if i == 0 then -1
    else if path[i] == '/' then
      if !matchedSlash then i
      else DirEnd(path, i - 1, true)
    else DirEnd(path, i - 1, false)
  }

  /** `path.dirname(p)`. */
  function Dirname(p: string): string {
    if p == "" then "."
    else
      var end := DirEnd(p, |p| - 1, true);
      if end == -1 then (if p[0] == '/' then "/" else ".")
      else if p[0] == '/' && end == 1 then "//"
      else p[..end]
  }

  function DropTrailingSlashes(s: string): (r: string)
    ensures r == [] || r[|r| - 1] != '/'
  {
    if s != [] && s[|s| - 1] == '/' then DropTrailingSlashes(s[..|s| - 1]) else s
  }

  function AfterLastSlash(s: string): (r: string)
    ensures forall i :: 0 <= i < |r| ==> r[i] != '/'
  {
    if s == [] || s[|s| - 1] == '/' then [] else AfterLastSlash(s[..|s| - 1]) + [s[|s| - 1]]
  }

  /** `path.basename(p)`: the last piece, never containing a slash. */
  function Basename(p: string): string {
    AfterLastSlash(DropTrailingSlashes(p))
  }

  /** The length of the longest common prefix of two piece lists. */
  function CommonLen(a: seq<string>, b: seq<string>): (n: nat)
    ensures n <= |a| && n <= |b| && a[..n] == b[..n]
    ensures n < |a| && n < |b| ==> a[n] != b[n]
  {
    if a == [] || b == [] || a[0] != b[0] then 0
    else
      var n := CommonLen(a[1..], b[1..]);
      assert a[..n + 1] == [a[0]] + a[1..][..n];
      assert b[..n + 1] == [b[0]] + b[1..][..n];
      n + 1
  }

  function Ups(n: nat): (r: seq<string>)
    ensures |r| == n && forall i :: 0 <= i < n ==> r[i] == ".."
  {
    if n == 0 then [] else Ups(n - 1) + [".."]
  }

  /**
   * `path.relative(from, to)`: one `..` for every piece of the resolved
   * `from` below the common prefix, then the rest of the resolved `to`.
   */
  function Relative(from: string, to: string): string {
    var f := ResolvedSegs(from);
    var t := ResolvedSegs(to);
    var n := CommonLen(f, t);
    JoinSlash(Ups(|f| - n) + t[n..])
  }

  /**
   * `dirname` of an absolute path other than the root is again absolute,
   * strictly shorter, and a string prefix of it: the chain of dirnames
   * reaches '/'.
   */
  lemma DirnameShrinks(s: string)
    requires IsAbsolute(s) && s != "/"
    ensures IsAbsolute(Dirname(s))
    ensures |Dirname(s)| < |s|
    ensures StartsWith(s, Dirname(s))
  {
    var end := DirEnd(s, |s| - 1, true);
    if end == -1 {
      assert s == [s[0]] + s[1..];
    } else if end == 1 {
      assert s[..2] == "//";
    }
  }

  // Two resolutions used by an example elsewhere.

  lemma ResolveText(p: string)
    requires p == "// preloaded."
    ensures Resolve(p) == "/ preloaded."
  {
    var w := " preloaded.";
    PiecesText();
    assert w != "." && w != "..";
    assert NormalizeSegs([], [w], false) == [w];
  }

  lemma PiecesText()
    ensures Pieces("// preloaded.", "") == [" preloaded."]
  {
    var s := "// preloaded.";
    var w := " preloaded.";
    assert s[0] == '/' && s[1..] == "/" + w;
    assert ("/" + w)[0] == '/' && ("/" + w)[1..] == w + "";
    PiecesWord(w, "", "");
    assert "" + w == w;
  }

  /** A relative path of three plain pieces resolves below the working directory. */
  lemma ResolveRelative(q: string, a: string, b: string, c: string)
    requires a != "" && b != "" && c != ""
    requires '/' !in a && '/' !in b && '/' !in c
    requires a != "." && a != ".." && b != "." && b != ".." && c != "." && c != ".."
    requires q == a + "/" + b + "/" + c
    ensures Resolve(q) == "/" + ("work" + "/" + a + "/" + b + "/" + c)
  {
    assert q[0] == a[0] && a[0] in a;
    assert !IsAbsolute(q);
    assert Cwd + "/" + q == "/" + "work" + ("/" + a + ("/" + b + ("/" + c + "")));
    PiecesFour("work", a, b, c);
    var segs := ["work", a, b, c];
    NormalizePlain([], segs, false);
    assert [] + segs == segs;
    assert ResolvedSegs(q) == segs;
    JoinFour("work", a, b, c);
  }

  /** Pieces that are neither `.` nor `..` are kept as they are. */
  lemma {:induction false} NormalizePlain(stack: seq<string>, segs: seq<string>, aboveRoot: bool)
    requires forall i :: 0 <= i < |segs| ==> segs[i] != "." && segs[i] != ".."
    ensures NormalizeSegs(stack, segs, aboveRoot) == stack + segs
    decreases |segs|
  {
    if segs != [] {
      NormalizePlain(stack + [segs[0]], segs[1..], aboveRoot);
      assert stack + [segs[0]] + segs[1..] == stack + segs;
    } else {
      assert stack + segs == stack;
    }
  }

  lemma JoinFour(a: string, b: string, c: string, d: string)
    ensures JoinSlash([a, b, c, d]) == a + "/" + b + "/" + c + "/" + d
  {
    assert [a, b, c, d][..3] == [a, b, c] && [a, b, c][..2] == [a, b] && [a, b][..1] == [a];
    assert JoinSlash([a, b]) == a + "/" + b;
    assert JoinSlash([a, b, c]) == a + "/" + b + "/" + c;
  }

  /** A slash, a piece, and the rest of the path: the piece comes first. */
  lemma PiecesSegment(w: string, rest: string)
    requires w != "" && '/' !in w
    requires rest == "" || rest[0] == '/'
    ensures Pieces("/" + w + rest, "") == [w] + Pieces(rest, "")
  {
    var s := "/" + w + rest;
    assert s[0] == '/' && s[1..] == w + rest;
    PiecesWord(w, rest, "");
    assert "" + w == w;
    if rest != "" {
      assert Pieces(rest, "") == Pieces(rest[1..], "");
    }
  }

  lemma PiecesFour(a: string, b: string, c: string, d: string)
    requires a != "" && b != "" && c != "" && d != ""
    requires '/' !in a && '/' !in b && '/' !in c && '/' !in d
    ensures Pieces("/" + a + ("/" + b + ("/" + c + ("/" + d + ""))), "") == [a, b, c, d]
  {
    var r3 := "/" + d + "";
    var r2 := "/" + c + r3;
    var r1 := "/" + b + r2;
    PiecesSegment(d, "");
    PiecesSegment(c, r3);
    PiecesSegment(b, r2);
    PiecesSegment(a, r1);
    assert Pieces("", "") == [];
  }

  /** The preloaded text and the preload file's path resolve to different files. */
  lemma TextAndPathDiffer(p: string, q: string)
    requires p == "// preloaded." && q == "path/to/test.txt"
    ensures Resolve(p) != Resolve(q)
  {
    ResolveText(p);
    ResolveRelative(q, "path", "to", "test.txt");
    assert |Resolve(p)| != |Resolve(q)|;
  }
}
