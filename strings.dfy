/**
 * String utilities that the JavaScript runtime and lodash provide:
 * `startsWith`, the default `Array.prototype.sort` order, `_.uniq`,
 * `String.prototype.trim` and `Array.prototype.join('')`.
 */
module Strings {

  predicate StartsWith(s: string, prefix: string) {
    |prefix| <= |s| && s[..|prefix|] == prefix
  }

  lemma StartsWithTrans(s: string, t: string, u: string)
    requires StartsWith(s, t) && StartsWith(t, u)
    ensures StartsWith(s, u)
  {
    assert s[..|u|] == s[..|t|][..|u|];
  }

  /**
   * The order of the default `sort()`: code unit by code unit, a proper
   * prefix first.
   */
  predicate Below(a: string, b: string) {
    if a == [] then true
    else if b == [] then false
    else if a[0] != b[0] then a[0] < b[0]
    else Below(a[1..], b[1..])
  }

  lemma BelowTotal(a: string, b: string)
    ensures Below(a, b) || Below(b, a)
  {
  }

  lemma BelowAntisym(a: string, b: string)
    requires Below(a, b) && Below(b, a)
    ensures a == b
  {
    if a != [] && b != [] {
      BelowAntisym(a[1..], b[1..]);
      assert a == [a[0]] + a[1..];
      assert b == [b[0]] + b[1..];
    }
  }

  lemma BelowTrans(a: string, b: string, c: string)
    requires Below(a, b) && Below(b, c)
    ensures Below(a, c)
  {
    if a != [] && b != [] && c != [] && a[0] == b[0] && b[0] == c[0] {
      BelowTrans(a[1..], b[1..], c[1..]);
    }
  }

  /** Every element is at or below its successor. */
  predicate Sorted(s: seq<string>) {
    forall i :: 0 < i < |s| ==> Below(s[i - 1], s[i])
  }

  predicate NoDup<T(==)>(s: seq<T>) {
    forall i, j :: 0 <= i < j < |s| ==> s[i] != s[j]
  }

  /** A sorted sequence is ordered pairwise, not only between neighbours. */
  lemma {:induction false} SortedPairwise(s: seq<string>, i: int, j: int)
    requires Sorted(s) && 0 <= i <= j < |s|
    ensures Below(s[i], s[j])
    decreases j - i
  {
    if i == j {
      BelowRefl(s[i]);
    } else {
      SortedPairwise(s, i, j - 1);
      BelowTrans(s[i], s[j - 1], s[j]);
    }
  }

  lemma BelowRefl(a: string)
    ensures Below(a, a)
  {
  }

  function Insert(x: string, s: seq<string>): (r: seq<string>)
    requires Sorted(s)
    ensures Sorted(r)
    ensures multiset(r) == multiset(s) + multiset{x}
    ensures r[0] == x || (s != [] && r[0] == s[0])
  {
    if s == [] then [x]
    else if Below(x, s[0]) then [x] + s
    else
      BelowTotal(x, s[0]);
      var rest := Insert(x, s[1..]);
      assert s == [s[0]] + s[1..];
      [s[0]] + rest
  }

  /** The result of `paths.sort()`: sorted, and a permutation of the input. */
  function Sort(s: seq<string>): (r: seq<string>)
    ensures Sorted(r)
    ensures multiset(r) == multiset(s)
  {
    if s == [] then []
    else
      assert s == [s[0]] + s[1..];
      Insert(s[0], Sort(s[1..]))
  }

  /** lodash `_.uniq`: the first occurrence of every element, in order. */
  function Uniq<T(==, !new)>(s: seq<T>): (r: seq<T>)
    ensures NoDup(r)
    ensures forall x :: x in r <==> x in s
  {
    if s == [] then []
    else
      var u := Uniq(s[..|s| - 1]);
      assert s == s[..|s| - 1] + [s[|s| - 1]];
      assert forall x :: x in s <==> x in s[..|s| - 1] || x == s[|s| - 1];
      if s[|s| - 1] in u then u else u + [s[|s| - 1]]
  }

  /** Sorting an already sorted list leaves it as it is. */
  lemma {:induction false} SortOfSorted(s: seq<string>)
    requires Sorted(s)
    ensures Sort(s) == s
  {
    if s != [] {
      assert Sorted(s[1..]);
      SortOfSorted(s[1..]);
      assert s == [s[0]] + s[1..];
    }
  }

  /** Sorting twice gives what sorting once gives. */
  lemma SortIdempotent(s: seq<string>)
    ensures Sort(Sort(s)) == Sort(s)
  {
    SortOfSorted(Sort(s));
  }

  /** No element repeats exactly when every element occurs at most once. */
  lemma {:induction false} NoDupCount<T>(s: seq<T>)
    ensures NoDup(s) <==> forall x :: multiset(s)[x] <= 1
  {
    if s != [] {
      var rest := s[1..];
      assert s == [s[0]] + rest;
      NoDupCount(rest);
      if NoDup(s) {
        assert forall i :: 0 <= i < |rest| ==> rest[i] == s[i + 1];
        assert NoDup(rest);
        assert s[0] !in rest;
      } else {
        var i, j :| 0 <= i < j < |s| && s[i] == s[j];
        if i == 0 {
          assert rest[j - 1] == s[0];
          assert multiset(s)[s[0]] >= 2;
        } else {
          assert rest[i - 1] == rest[j - 1];
          assert !NoDup(rest);
          var y :| multiset(rest)[y] > 1;
          assert multiset(s) == multiset{s[0]} + multiset(rest);
          assert multiset(s)[y] > 1;
        }
      }
    }
  }

  /** Sorting keeps a duplicate-free list duplicate-free. */
  lemma SortKeepsNoDup(s: seq<string>)
    requires NoDup(s)
    ensures NoDup(Sort(s))
  {
    NoDupCount(s);
    NoDupCount(Sort(s));
  }

  /** `_.uniq` keeps a duplicate-free list as it is. */
  lemma {:induction false} UniqOfNoDup<T(!new)>(s: seq<T>)
    requires NoDup(s)
    ensures Uniq(s) == s
  {
    if s != [] {
      var n := |s| - 1;
      assert forall i, j :: 0 <= i < j < n ==> s[..n][i] == s[i] && s[..n][j] == s[j];
      UniqOfNoDup(s[..n]);
      assert s[n] !in s[..n];
      assert s == s[..n] + [s[n]];
    }
  }

  /** The elements `_.uniq` keeps from a prefix come first, in the same order. */
  lemma {:induction false} UniqPrefix<T(!new)>(a: seq<T>, b: seq<T>)
    ensures |Uniq(a)| <= |Uniq(a + b)| && Uniq(a + b)[..|Uniq(a)|] == Uniq(a)
    decreases |b|
  {
    if b == [] {
      assert a + b == a;
    } else {
      var n := |b| - 1;
      UniqPrefix(a, b[..n]);
      assert (a + b)[..|a + b| - 1] == a + b[..n];
    }
  }

  /** Characters that `String.prototype.trim` removes (WhiteSpace and LineTerminator). */
  predicate IsJsWhitespace(c: char) {
    c == ' ' || c == '\t' || c == '\n' || c == '\r' || c == '\U{B}' || c == '\U{C}'
    || c == '\U{A0}' || c == '\U{1680}' || ('\U{2000}' <= c <= '\U{200A}')
    || c == '\U{2028}' || c == '\U{2029}' || c == '\U{202F}' || c == '\U{205F}'
    || c == '\U{3000}' || c == '\U{FEFF}'
  }

  function TrimStart(s: string): string {
    if s != [] && IsJsWhitespace(s[0]) then TrimStart(s[1..]) else s
  }

  function TrimEnd(s: string): string {
    if s != [] && IsJsWhitespace(s[|s| - 1]) then TrimEnd(s[..|s| - 1]) else s
  }

  /** `s.trim()`. */
  function Trim(s: string): string {
    TrimEnd(TrimStart(s))
  }

  lemma {:induction false} TrimStartEmpty(s: string)
    ensures TrimStart(s) == [] <==> forall i :: 0 <= i < |s| ==> IsJsWhitespace(s[i])
  {
    if s != [] && IsJsWhitespace(s[0]) {
      TrimStartEmpty(s[1..]);
      assert forall i :: 1 <= i < |s| ==> s[i] == s[1..][i - 1];
    }
  }

  lemma {:induction false} TrimStartFirst(s: string)
    ensures TrimStart(s) == [] || !IsJsWhitespace(TrimStart(s)[0])
  {
    if s != [] && IsJsWhitespace(s[0]) {
      TrimStartFirst(s[1..]);
    }
  }

  /** Trimming the end never removes a leading non-whitespace character. */
  lemma {:induction false} TrimEndKeepsFirst(s: string)
    requires s != [] && !IsJsWhitespace(s[0])
    ensures TrimEnd(s) != []
  {
    if IsJsWhitespace(s[|s| - 1]) {
      assert |s| > 1;
      assert s[..|s| - 1][0] == s[0];
      TrimEndKeepsFirst(s[..|s| - 1]);
    }
  }

  /**
   * `s.trim().length === 0` holds exactly when every character of s is
   * whitespace (so the empty string is blank too).
   */
  lemma BlankIffAllWhitespace(s: string)
    ensures |Trim(s)| == 0 <==> forall i :: 0 <= i < |s| ==> IsJsWhitespace(s[i])
  {
    TrimStartEmpty(s);
    TrimStartFirst(s);
    if TrimStart(s) != [] {
      TrimEndKeepsFirst(TrimStart(s));
    }
  }

  /** `parts.join('')`. */
  function Concat(parts: seq<string>): string {
    if parts == [] then "" else Concat(parts[..|parts| - 1]) + parts[|parts| - 1]
  }

  lemma {:induction false} ConcatAppend(a: seq<string>, b: seq<string>)
    ensures Concat(a + b) == Concat(a) + Concat(b)
  {
    if b != [] {
      assert (a + b)[..|a + b| - 1] == a + b[..|b| - 1];
      ConcatAppend(a, b[..|b| - 1]);
    } else {
      assert a + b == a;
    }
  }

  /** ASCII lower-casing, which is all that a non-unicode `/i` regexp folds for ASCII patterns. */
  function LowerAscii(c: char): char {
    if 'A' <= c <= 'Z' then (c as int + 32) as char else c
  }

  /** Case-insensitive match of an ASCII lower-case pattern at position i of s. */
  predicate MatchesAt(s: string, i: nat, pattern: string) {
    i + |pattern| <= |s| && forall j :: 0 <= j < |pattern| ==> LowerAscii(s[i + j]) == pattern[j]
  }
}
