/**
 * src/lib/source.ts: from template paths to planned outputs (`Data<Source>`),
 * and the generation of one output file per planned entry.
 */
module Source {
  import opened Wrappers
  import opened Dict
  import opened Strings
  import opened Paths
  import opened DataOperator
  import opened FileSys

  /** A `Source` object `{template, extraData}` as stored in a `Data<Source>` record. */
  function SourceValue(template: string, extraData: Record): Value {
    Obj([("template", Str(template)), ("extraData", Obj(extraData))])
  }

  /**
   * `mergeData` on two planned entries under the same key: the later
   * template wins and the extraData records merge.
   */
  lemma MergeSourceValues(t1: string, e1: Record, t2: string, e2: Record)
    ensures Combine(Some(SourceValue(t1, e1)), SourceValue(t2, e2)) == SourceValue(t2, MergeRecord(e1, e2))
  {
    var base := [("template", Str(t1)), ("extraData", Obj(e1))];
    var over := SourceValue(t2, e2);
    var b1 := Put(base, "template", Str(t2));
    assert b1 == [("template", Str(t2)), ("extraData", Obj(e1))];
    assert Get(b1, "extraData") == Some(Obj(e1));
    assert MergeFrom(base, over, 0) == MergeFrom(b1, over, 1);
    var b2 := Put(b1, "extraData", Obj(MergeRecord(e1, e2)));
    assert "template" != "extraData";
    assert b1[1..] == [("extraData", Obj(e1))];
    assert Put(b1[1..], "extraData", Obj(MergeRecord(e1, e2))) == [("extraData", Obj(MergeRecord(e1, e2)))];
    assert b2 == [("template", Str(t2)), ("extraData", Obj(MergeRecord(e1, e2)))];
    assert MergeFrom(b1, over, 1) == MergeFrom(b2, over, 2) == b2;
  }

  // ---------------------------------------------------------------------
  // Suffix stripping: `basename.replace(/(\.hbs|\.handlebars)/i, '')`

  /**
   * The leftmost case-insensitive match of `.hbs` or `.handlebars` at or
   * after position i, as (position, length).
   */
  function FirstSuffix(s: string, i: nat): (r: Option<(nat, nat)>)
    requires i <= |s|
    ensures r.Some? ==> i <= r.value.0 && (r.value.1 == 4 || r.value.1 == 11) && r.value.0 + r.value.1 <= |s|
    decreases |s| - i
  {
    if i == |s| then None
    else if MatchesAt(s, i, ".hbs") then Some((i, 4))
    else if MatchesAt(s, i, ".handlebars") then Some((i, 11))
    else FirstSuffix(s, i + 1)
  }

  /** The name with its first `.hbs`/`.handlebars` (any case, anywhere) removed. */
  function StripTemplateSuffix(name: string): string {
    match FirstSuffix(name, 0)
    case None => name
    case Some((i, n)) => name[..i] + name[i + n..]
  }

  predicate MatchesEither(s: string, j: nat) {
    MatchesAt(s, j, ".hbs") || MatchesAt(s, j, ".handlebars")
  }

  /** The suffix text of a match of length n. */
  function SuffixText(n: nat): string {
    if n == 4 then ".hbs" else ".handlebars"
  }

  /** No match starts in [i, k), so the search from i goes on from k. */
  lemma {:induction false} FirstSuffixSkip(s: string, i: nat, k: nat)
    requires i <= k <= |s| && forall j :: i <= j < k ==> !MatchesEither(s, j)
    ensures FirstSuffix(s, i) == FirstSuffix(s, k)
    decreases k - i
  {
    if i < k {
      assert !MatchesEither(s, i);
      FirstSuffixSkip(s, i + 1, k);
    }
  }

  /**
   * A match of length n at i with no match before it; at i `.hbs` is
   * tried before `.handlebars`.
   */
  predicate LeftmostMatch(s: string, i: nat, n: nat) {
    i + n <= |s| && (n == 4 || n == 11)
    && MatchesAt(s, i, SuffixText(n))
    && (n == 11 ==> !MatchesAt(s, i, ".hbs"))
    && forall j :: 0 <= j < i ==> !MatchesEither(s, j)
  }

  /** Only the leftmost match is cut out of the name. */
  lemma StripLeftmost(s: string, i: nat, n: nat)
    requires LeftmostMatch(s, i, n)
    ensures StripTemplateSuffix(s) == s[..i] + s[i + n..]
  {
    FirstSuffixSkip(s, 0, i);
  }

  /** A name in which neither suffix occurs is unchanged. */
  lemma StripNoMatch(s: string)
    requires forall j :: 0 <= j < |s| ==> !MatchesEither(s, j)
    ensures StripTemplateSuffix(s) == s
  {
    FirstSuffixSkip(s, 0, |s|);
  }

  lemma NoDotNoMatch(s: string, j: nat)
    requires j < |s| && s[j] != '.'
    ensures !MatchesEither(s, j)
  {
    assert LowerAscii(s[j + 0]) != ".hbs"[0];
    assert LowerAscii(s[j + 0]) != ".handlebars"[0];
  }

  /** The first dot of s is at i and a suffix of length n matches there. */
  predicate FirstMatchAt(s: string, i: nat, n: nat) {
    i + n <= |s| && (n == 4 || n == 11)
    && (forall j :: 0 <= j < i ==> s[j] != '.')
    && MatchesAt(s, i, SuffixText(n))
    && (n == 11 ==> !MatchesAt(s, i, ".hbs"))
  }

  lemma StripAt(s: string, i: nat, n: nat)
    requires FirstMatchAt(s, i, n)
    ensures StripTemplateSuffix(s) == s[..i] + s[i + n..]
  {
    forall j | 0 <= j < i
      ensures !MatchesEither(s, j)
    {
      NoDotNoMatch(s, j);
    }
    StripLeftmost(s, i, n);
  }

  lemma FactsHbsUpper(s: string)
    requires s == "file.HBS.handlebars.txt"
    ensures FirstMatchAt(s, 4, 4) && s[..4] + s[8..] == "file.handlebars.txt"
  {
  }

  lemma FactsHandlebarsFirst(s: string)
    requires s == "file.handlebars.hbs.txt"
    ensures FirstMatchAt(s, 4, 11) && s[..4] + s[15..] == "file.hbs.txt"
  {
    assert LowerAscii(s[4 + 2]) != ".hbs"[2];
  }

  lemma FactsHbs(s: string)
    requires s == "file.hbs.txt"
    ensures FirstMatchAt(s, 4, 4) && s[..4] + s[8..] == "file.txt"
  {
  }

  lemma FactsOnlySuffix(s: string)
    requires s == ".handlebars"
    ensures FirstMatchAt(s, 0, 11) && s[..0] + s[11..] == ""
  {
    assert LowerAscii(s[0 + 2]) != ".hbs"[2];
  }

  lemma FactsNoSuffix(s: string)
    requires s == "file.txt"
    ensures forall j :: 0 <= j < 4 ==> s[j] != '.'
    ensures forall j :: 5 <= j < 8 ==> s[j] != '.'
    ensures !MatchesEither(s, 4)
  {
    assert LowerAscii(s[4 + 1]) != ".hbs"[1];
  }

  /**
   * The cases of tests/lib/source.test.ts:74-96: the first match is removed
   * wherever it is, later ones stay, a name without one is unchanged, and
   * `.handlebars` strips to the empty name.
   */
  lemma StripExamples(a: string, b: string, c: string, d: string)
    requires a == "file.HBS.handlebars.txt" && b == "file.handlebars.hbs.txt"
    requires c == "file.txt" && d == ".handlebars"
    ensures StripTemplateSuffix(a) == "file.handlebars.txt"
    ensures StripTemplateSuffix(b) == "file.hbs.txt"
    ensures StripTemplateSuffix(c) == "file.txt"
    ensures StripTemplateSuffix(d) == ""
  {
    FactsHbsUpper(a);
    StripAt(a, 4, 4);
    FactsHandlebarsFirst(b);
    StripAt(b, 4, 11);
    FactsOnlySuffix(d);
    StripAt(d, 0, 11);
    FactsNoSuffix(c);
    forall j | 0 <= j < |c|
      ensures !MatchesEither(c, j)
    {
      if j != 4 {
        NoDotNoMatch(c, j);
      }
    }
    StripNoMatch(c);
  }

  /**
   * Stripping is not idempotent: a name that still holds a suffix after
   * one pass loses it on the next.
   */
  lemma StripNotIdempotent(b: string, s: string)
    requires b == "file.handlebars.hbs.txt" && s == "file.hbs.txt"
    ensures StripTemplateSuffix(b) == s
    ensures StripTemplateSuffix(StripTemplateSuffix(b)) == "file.txt" != s
  {
    FactsHandlebarsFirst(b);
    StripAt(b, 4, 11);
    FactsHbs(s);
    StripAt(s, 4, 4);
  }

  // ---------------------------------------------------------------------
  // `sourceDataFetcherFactory(tmplDir)` and `collectSourcesFactory(tmplDir)`

  /**
   * The containment test of the source: the resolved directory starts
   * with the resolved template directory, as a string.
   */
  predicate InsideTemplateDir(resolvedDir: string, tmplDir: string) {
    StartsWith(resolvedDir, Resolve(tmplDir))
  }

  /** The output path of a template, relative to the output directory. */
  function OutputKey(tmplDir: string, template: string): string {
    Join(Relative(tmplDir, Dirname(template)), StripTemplateSuffix(Basename(template)))
  }

  /** The data fetcher of a template path: `{[output path]: {template, extraData: {}}}`. */
  function SourceFetch(t: Tree, tmplDir: string, template: string): (r: Result<Record>)
    ensures r.Ok? <==>
      StatNode(t, template).Ok? && StatNode(t, template).value.File? &&
      InsideTemplateDir(Dirname(Resolve(template)), tmplDir) &&
      StripTemplateSuffix(Basename(template)) != ""
    ensures r.Ok? ==> r.value == [(OutputKey(tmplDir, template), SourceValue(template, []))]
    ensures r.Fail? && StatNode(t, template).Ok? ==> r.error.name == "RuntimeError"
    ensures StatNode(t, template).Fail? ==> r == Fail(StatNode(t, template).error)
  {
    match StatNode(t, template)
    case Fail(e) => Fail(e)
    case Ok(node) =>
      if !node.File? then
        Fail(RuntimeError("Template path '" + template + "' is directory or it may be broken."))
      else if !InsideTemplateDir(Dirname(Resolve(template)), tmplDir) then
        Fail(RuntimeError("Template path '" + template + "' is not located inside the '" + tmplDir + "'."))
      else
        var outBasename := StripTemplateSuffix(Basename(template));
        if outBasename == "" then
          Fail(RuntimeError("Template file '" + template + "' become empty file name when .hbs/.handlebars exention is removed."))
        else
          Ok([(OutputKey(tmplDir, template), SourceValue(template, []))])
  }

  /** The template fetcher as the value handed to `collectData`. */
  function SourceFetcher(t: Tree, tmplDir: string): string -> Result<Record> {
    template => SourceFetch(t, tmplDir, template)
  }

  /** `collectSourcesFactory(tmplDir)(paths)`. */
  function CollectSources(t: Tree, tmplDir: string, paths: seq<string>): (r: Result<Record>)
    ensures r.Fail? <==> exists i :: 0 <= i < |paths| && SourceFetch(t, tmplDir, paths[i]).Fail?
  {
    CollectFailure(paths, SourceFetcher(t, tmplDir));
    Collect(paths, SourceFetcher(t, tmplDir))
  }

  /** A freshly planned source: some template with an empty extraData. */
  predicate Planned(v: Value) {
    v.Obj? && |v.fields| == 2 && v.fields[0].1.Str? && v == SourceValue(v.fields[0].1.s, [])
  }

  lemma CombinePlanned(a: string, b: string)
    ensures Combine(Some(SourceValue(a, [])), SourceValue(b, [])) == SourceValue(b, [])
  {
    MergeSourceValues(a, [], b, []);
    MergeIdentity([]);
  }

  lemma {:induction false} MergeFromPlanned(base: Record, overlay: Value, i: nat)
    requires overlay.Obj? && i <= |overlay.fields|
    requires forall j :: 0 <= j < |base| ==> Planned(base[j].1)
    requires forall j :: 0 <= j < |overlay.fields| ==> Planned(overlay.fields[j].1)
    ensures forall j :: 0 <= j < |MergeFrom(base, overlay, i)| ==> Planned(MergeFrom(base, overlay, i)[j].1)
    decreases |overlay.fields| - i
  {
    if i < |overlay.fields| {
      var k := overlay.fields[i].0;
      var v := overlay.fields[i].1;
      if Get(base, k).Some? {
        var w := Get(base, k).value;
        assert Planned(w);
        CombinePlanned(w.fields[0].1.s, v.fields[0].1.s);
      }
      assert Combine(Get(base, k), v) == v;
      PutValues(base, k, v);
      var next := Put(base, k, v);
      assert forall j :: 0 <= j < |next| ==> next[j] in next;
      assert forall e :: e in base ==> Planned(e.1);
      MergeFromPlanned(next, overlay, i + 1);
    }
  }

  lemma {:induction false} MergeAllPlanned(items: seq<Record>)
    requires forall i, j :: 0 <= i < |items| && 0 <= j < |items[i]| ==> Planned(items[i][j].1)
    ensures forall j :: 0 <= j < |MergeAll(items)| ==> Planned(MergeAll(items)[j].1)
  {
    if items != [] {
      var n := |items| - 1;
      MergeAllPlanned(items[..n]);
      MergeFromPlanned(MergeAll(items[..n]), Obj(items[n]), 0);
    }
  }

  /**
   * The last record holding key k decides the planned source under k: a
   * later template with the same output path replaces an earlier one.
   */
  lemma {:induction false} MergeAllLastPlanned(items: seq<Record>, k: string, j: nat, template: string)
    requires forall i :: 0 <= i < |items| ==> UniqueKeys(items[i])
    requires forall i, m :: 0 <= i < |items| && 0 <= m < |items[i]| ==> Planned(items[i][m].1)
    requires j < |items| && Get(items[j], k) == Some(SourceValue(template, []))
    requires forall i :: j < i < |items| ==> !HasKey(items[i], k)
    ensures Get(MergeAll(items), k) == Some(SourceValue(template, []))
  {
    var n := |items| - 1;
    var from := MergeAll(items[..n]);
    MergeGet(from, items[n], k);
    if n == j {
      MergeAllPlanned(items[..n]);
      match Get(from, k)
      case None =>
      case Some(w) =>
        assert Planned(w);
        CombinePlanned(w.fields[0].1.s, template);
    } else {
      MergeAllLastPlanned(items[..n], k, j, template);
    }
  }

  /**
   * `collectData` with a fetcher that maps each path to a one-entry record
   * of a planned source: the fold of those records, one per path in order.
   */
  lemma CollectSingletons(paths: seq<string>, fetch: string -> Result<Record>, keyOf: string -> string, key: string)
    requires Collect(paths, fetch).Ok?
    requires forall p :: fetch(p).Ok? ==> fetch(p).value == [(keyOf(p), SourceValue(p, []))]
    ensures var r := Collect(paths, fetch).value;
      forall m :: 0 <= m < |r| ==> Planned(r[m].1)
    ensures HasKey(Collect(paths, fetch).value, key) <==> exists i :: 0 <= i < |paths| && keyOf(paths[i]) == key
    ensures forall j ::
      (0 <= j < |paths| && keyOf(paths[j]) == key && forall i :: j < i < |paths| ==> keyOf(paths[i]) != key) ==>
      Get(Collect(paths, fetch).value, key) == Some(SourceValue(paths[j], []))
  {
    var items := FetchAll(paths, fetch).value;
    var keys := seq(|paths|, i requires 0 <= i < |paths| => keyOf(paths[i]));
    forall i | 0 <= i < |items|
      ensures items[i] == [(keys[i], SourceValue(paths[i], []))]
    {
      assert fetch(paths[i]) == Ok(items[i]);
    }
    MergeSingletons(items, keys, paths, key);
    assert key in keys <==> exists i :: 0 <= i < |paths| && keyOf(paths[i]) == key by {
      if key in keys {
        var i :| 0 <= i < |keys| && keys[i] == key;
        assert keyOf(paths[i]) == key;
      }
    }
  }

  /** Merging one-entry records of planned sources, as `collectSources` does. */
  lemma MergeSingletons(items: seq<Record>, keys: seq<string>, templates: seq<string>, key: string)
    requires |items| == |keys| == |templates|
    requires forall i :: 0 <= i < |items| ==> items[i] == [(keys[i], SourceValue(templates[i], []))]
    ensures forall m :: 0 <= m < |MergeAll(items)| ==> Planned(MergeAll(items)[m].1)
    ensures HasKey(MergeAll(items), key) <==> key in keys
    ensures forall j :: (0 <= j < |keys| && keys[j] == key && forall i :: j < i < |keys| ==> keys[i] != key) ==>
      Get(MergeAll(items), key) == Some(SourceValue(templates[j], []))
  {
    forall i | 0 <= i < |items|
      ensures UniqueKeys(items[i]) && (HasKey(items[i], key) <==> keys[i] == key)
      ensures forall m :: 0 <= m < |items[i]| ==> Planned(items[i][m].1)
    {
      assert items[i][0] == (keys[i], SourceValue(templates[i], []));
    }
    MergeAllPlanned(items);
    MergeAllHasKey(items, key);
    forall j | 0 <= j < |keys| && keys[j] == key && (forall i :: j < i < |keys| ==> keys[i] != key)
      ensures Get(MergeAll(items), key) == Some(SourceValue(templates[j], []))
    {
      MergeAllLastPlanned(items, key, j, templates[j]);
    }
  }

  /**
   * `collectSources`: every planned entry is a template with an empty
   * extraData; an output path is planned exactly when some template maps
   * to it, and of several such templates the last in path order is kept.
   */
  lemma CollectedSources(t: Tree, tmplDir: string, paths: seq<string>, key: string)
    requires CollectSources(t, tmplDir, paths).Ok?
    ensures var r := CollectSources(t, tmplDir, paths).value;
      forall m :: 0 <= m < |r| ==> Planned(r[m].1)
    ensures HasKey(CollectSources(t, tmplDir, paths).value, key) <==>
      exists i :: 0 <= i < |paths| && OutputKey(tmplDir, paths[i]) == key
    ensures forall j ::
      (0 <= j < |paths| && OutputKey(tmplDir, paths[j]) == key &&
       forall i :: j < i < |paths| ==> OutputKey(tmplDir, paths[i]) != key) ==>
      Get(CollectSources(t, tmplDir, paths).value, key) == Some(SourceValue(paths[j], []))
  {
    CollectSingletons(paths, SourceFetcher(t, tmplDir), p => OutputKey(tmplDir, p), key);
  }

  // ---------------------------------------------------------------------
  // `sourceProcesserFactory(outDir, inputData, preloaded, usedPaths)`

  function WarnOverwrite(out: string): string {
    "WARN: generating file '" + out + "' is overwriting one of input files. file generation is skipped."
  }

  function WarnEmpty(out: string): string {
    "WARN: generating file '" + out + "' become empty. file generation is skipped."
  }

  /** Some used path resolves to the same file as `out`. */
  predicate OverwritesInput(usedPaths: seq<string>, out: string) {
    exists i :: 0 <= i < |usedPaths| && Resolve(usedPaths[i]) == Resolve(out)
  }

  /** `source.template`; reading a missing template path is a TypeError. */
  function TemplateOf(source: Value): Result<string> {
    if source.Obj? && Get(source.fields, "template").Some? && Get(source.fields, "template").value.Str? then
      Ok(Get(source.fields, "template").value.s)
    else
      Fail(Error("TypeError", "The \"path\" argument must be of type string."))
  }

  /** `source.extraData`; anything but an object merges nothing. */
  function ExtraOf(source: Value): Record {
    if source.Obj? && Get(source.fields, "extraData").Some? && Get(source.fields, "extraData").value.Obj? then
      Get(source.fields, "extraData").value.fields
    else
      []
  }

  /**
   * The data one entry is rendered with: the input data overlaid with the
   * entry's own extraData, and nothing from any other entry.
   */
  function RenderData(inputData: Record, source: Value): (r: Record)
    ensures |inputData| <= |r| && Keys(r)[..|inputData|] == Keys(inputData)
  {
    MergeKeysPrefix(inputData, ExtraOf(source));
    MergeRecord(inputData, ExtraOf(source))
  }

  /** What one processer call settles to, the tree after it, and the calls it made. */
  datatype Outcome = Outcome(result: Result<string>, tree: Tree, ops: seq<Op>)

  /** The rendered text of an entry, when its template reads and renders. */
  function Rendered(t: Tree, inputData: Record, preloaded: string,
                    render: (string, Record) -> Result<string>, source: Value): Result<string>
  {
    match TemplateOf(source)
    case Fail(e) => Fail(e)
    case Ok(template) =>
      match ReadText(t, template)
      case Fail(e) => Fail(e)
      case Ok(text) => render(preloaded + text, RenderData(inputData, source))
  }

  /**
   * The processer on one entry: skip an output that would overwrite a
   * used file, render the preloaded text followed by the template, skip
   * a blank result, otherwise create the parent directory and write.
   */
  function GenerateStep(t: Tree, outDir: string, inputData: Record, preloaded: string, usedPaths: seq<string>,
                        render: (string, Record) -> Result<string>, outPath: string, source: Value): (r: Outcome)
    ensures var out := Join(outDir, outPath);
      r.result.Ok? ==> r.result.value == out || r.result.value == WarnOverwrite(out) || r.result.value == WarnEmpty(out)
    ensures forall op :: op in r.ops && op.WriteOp? ==>
      op.path == Join(outDir, outPath) && !OverwritesInput(usedPaths, op.path) && |Trim(op.content)| > 0
  {
    var out := Join(outDir, outPath);
    if OverwritesInput(usedPaths, out) then Outcome(Ok(WarnOverwrite(out)), t, [])
    else
      match TemplateOf(source)
      case Fail(e) => Outcome(Fail(e), t, [])
      case Ok(template) =>
        var read := [ReadOp(template)];
        match ReadText(t, template)
        case Fail(e) => Outcome(Fail(e), t, read)
        case Ok(text) =>
          var a := RenderStage(t, out, inputData, preloaded, render, source, text);
          Outcome(a.result, a.tree, read + a.ops)
  }

  /** Once the template text is read: render it, skip a blank result, otherwise write. */
  function RenderStage(t: Tree, out: string, inputData: Record, preloaded: string,
                       render: (string, Record) -> Result<string>, source: Value, text: string): (r: Outcome)
    ensures r.result.Ok? ==> r.result.value == out || r.result.value == WarnEmpty(out)
    ensures forall op :: op in r.ops && op.WriteOp? ==> op.path == out && |Trim(op.content)| > 0
  {
    match render(preloaded + text, RenderData(inputData, source))
    case Fail(e) => Outcome(Fail(e), t, [])
    case Ok(output) =>
      if |Trim(output)| == 0 then Outcome(Ok(WarnEmpty(out)), t, [])
      else WriteStage(t, out, output)
  }

  /** `mkdir(dirname(out), {recursive: true})`, then `writeFile(out, output)`. */
  function WriteStage(t: Tree, out: string, output: string): (r: Outcome)
    ensures r.result.Ok? ==> r.result.value == out
    ensures forall op :: op in r.ops && op.WriteOp? ==> op == WriteOp(out, output)
  {
    var mk := [MkdirOp(Dirname(out))];
    match MkdirP(t, Dirname(out))
    case Fail(e) => Outcome(Fail(e), t, mk)
    case Ok(t1) =>
      var wr := mk + [WriteOp(out, output)];
      match WriteText(t1, out, output)
      case Fail(e) => Outcome(Fail(e), t1, wr)
      case Ok(t2) => Outcome(Ok(out), t2, wr)
  }

  lemma WarnIsNotOut(out: string)
    ensures WarnOverwrite(out) != out && WarnEmpty(out) != out
  {
    assert |WarnOverwrite(out)| > |out|;
    assert |WarnEmpty(out)| > |out|;
  }

  /** A skipped entry (either warning) writes nothing and leaves the tree as it was. */
  lemma SkippedEntry(t: Tree, outDir: string, inputData: Record, preloaded: string, usedPaths: seq<string>,
                     render: (string, Record) -> Result<string>, outPath: string, source: Value)
    ensures var r := GenerateStep(t, outDir, inputData, preloaded, usedPaths, render, outPath, source);
      var out := Join(outDir, outPath);
      r.result.Ok? && r.result.value != out ==>
        r.tree == t && forall op :: op in r.ops ==> op.ReadOp?
  {
    var out := Join(outDir, outPath);
    WarnIsNotOut(out);
    var template := TemplateOf(source);
    if !OverwritesInput(usedPaths, out) && template.Ok? && ReadText(t, template.value).Ok? {
      var a := RenderStage(t, out, inputData, preloaded, render, source, ReadText(t, template.value).value);
      assert a.result.Ok? && a.result.value != out ==> a.tree == t && a.ops == [];
    }
  }

  /** An output that resolves to a used file is skipped before its template is even read. */
  lemma GuardedEntry(t: Tree, outDir: string, inputData: Record, preloaded: string, usedPaths: seq<string>,
                     render: (string, Record) -> Result<string>, outPath: string, source: Value)
    requires OverwritesInput(usedPaths, Join(outDir, outPath))
    ensures var r := GenerateStep(t, outDir, inputData, preloaded, usedPaths, render, outPath, source);
      r.ops == [] && r.tree == t && r.result == Ok(WarnOverwrite(Join(outDir, outPath)))
  {
  }

  /**
   * A written entry: its parent directory was created first, and the
   * output file now holds exactly the rendering of the preloaded text
   * followed by the template, under the entry's own render data.
   */
  lemma WrittenEntry(t: Tree, outDir: string, inputData: Record, preloaded: string, usedPaths: seq<string>,
                     render: (string, Record) -> Result<string>, outPath: string, source: Value)
    requires GenerateStep(t, outDir, inputData, preloaded, usedPaths, render, outPath, source).result
          == Ok(Join(outDir, outPath))
    ensures var r := GenerateStep(t, outDir, inputData, preloaded, usedPaths, render, outPath, source);
      var out := Join(outDir, outPath);
      var output := Rendered(t, inputData, preloaded, render, source);
      output.Ok? && |Trim(output.value)| > 0 &&
      !OverwritesInput(usedPaths, out) &&
      MkdirP(t, Dirname(out)).Ok? &&
      r.ops == [ReadOp(TemplateOf(source).value), MkdirOp(Dirname(out)), WriteOp(out, output.value)] &&
      r.tree == MkdirP(t, Dirname(out)).value[Resolve(out) := File(output.value)]
  {
    WarnIsNotOut(Join(outDir, outPath));
  }

  /** A failed mkdir stops the entry before anything is written. */
  lemma MkdirFailureStops(t: Tree, outDir: string, inputData: Record, preloaded: string, usedPaths: seq<string>,
                          render: (string, Record) -> Result<string>, outPath: string, source: Value)
    requires var out := Join(outDir, outPath);
      !OverwritesInput(usedPaths, out) && Rendered(t, inputData, preloaded, render, source).Ok? &&
      |Trim(Rendered(t, inputData, preloaded, render, source).value)| > 0 &&
      MkdirP(t, Dirname(out)).Fail?
    ensures var r := GenerateStep(t, outDir, inputData, preloaded, usedPaths, render, outPath, source);
      r.result == Fail(MkdirP(t, Dirname(Join(outDir, outPath))).error) && r.tree == t &&
      forall op :: op in r.ops ==> !op.WriteOp?
  {
  }

  /** `sourceProcesserFactory(...)(outPath, source)` on the file system. */
  method SourceProcesser(fs: FileSystem, outDir: string, inputData: Record, preloaded: string, usedPaths: seq<string>,
                         render: (string, Record) -> Result<string>, outPath: string, source: Value)
    returns (r: Result<string>)
    modifies fs
    ensures var o := GenerateStep(old(fs.tree), outDir, inputData, preloaded, usedPaths, render, outPath, source);
      r == o.result && fs.tree == o.tree && fs.log == old(fs.log) + o.ops
  {
    var out := Join(outDir, outPath);
    ghost var t0 := fs.tree;
    ghost var log0 := fs.log;
    ghost var o := GenerateStep(t0, outDir, inputData, preloaded, usedPaths, render, outPath, source);
    if OverwritesInput(usedPaths, out) {
      return Ok(WarnOverwrite(out));
    }
    var template := TemplateOf(source);
    if template.Fail? {
      return Fail(template.error);
    }
    var text := fs.ReadFile(template.value);
    if text.Fail? {
      return Fail(text.error);
    }
    ghost var a := RenderStage(t0, out, inputData, preloaded, render, source, text.value);
    assert o == Outcome(a.result, a.tree, [ReadOp(template.value)] + a.ops);
    r := RenderOutput(fs, out, inputData, preloaded, render, source, text.value);
    AppendAssoc(log0, [ReadOp(template.value)], a.ops);
  }

  /** The rest of one processer call, once its template text is read. */
  method RenderOutput(fs: FileSystem, out: string, inputData: Record, preloaded: string,
                      render: (string, Record) -> Result<string>, source: Value, text: string)
    returns (r: Result<string>)
    modifies fs
    ensures var o := RenderStage(old(fs.tree), out, inputData, preloaded, render, source, text);
      r == o.result && fs.tree == o.tree && fs.log == old(fs.log) + o.ops
  {
    var output := render(preloaded + text, RenderData(inputData, source));
    if output.Fail? {
      return Fail(output.error);
    }
    if |Trim(output.value)| == 0 {
      return Ok(WarnEmpty(out));
    }
    r := WriteOutput(fs, out, output.value);
  }

  method WriteOutput(fs: FileSystem, out: string, output: string) returns (r: Result<string>)
    modifies fs
    ensures var o := WriteStage(old(fs.tree), out, output);
      r == o.result && fs.tree == o.tree && fs.log == old(fs.log) + o.ops
  {
    var made := fs.Mkdir(Dirname(out));
    if made.Fail? {
      return Fail(made.error);
    }
    var written := fs.WriteFile(out, output);
    if written.Fail? {
      return Fail(written.error);
    }
    return Ok(out);
  }

  // ---------------------------------------------------------------------
  // `processSourceFactory(outDir, inputData, preloaded, usedPaths)(data)`

  /** The messages of all entries in entry order, the final tree, and the calls made. */
  datatype Outcomes = Outcomes(result: Result<seq<string>>, tree: Tree, ops: seq<Op>)

  /** One processer call on a tree, an output path and an entry. */
  type GenStep = (Tree, string, Value) -> Outcome

  /** `sourceProcesserFactory(outDir, inputData, preloaded, usedPaths)`. */
  function Processer(outDir: string, inputData: Record, preloaded: string, usedPaths: seq<string>,
                     render: (string, Record) -> Result<string>): GenStep
  {
    (t, outPath, source) => GenerateStep(t, outDir, inputData, preloaded, usedPaths, render, outPath, source)
  }

  /**
   * `processData(data, processer)` over the file system: the processer
   * runs on every entry of the planned sources; here the calls take
   * effect one after another in entry order, and the first failing entry
   * fails the whole.
   */
  function GenerateAll(step: GenStep, t: Tree, data: Record): (r: Outcomes)
    ensures r.result.Ok? ==> |r.result.value| == |data|
    decreases |data|
  {
    if data == [] then Outcomes(Ok([]), t, [])
    else
      var n := |data| - 1;
      var prev := GenerateAll(step, t, data[..n]);
      if prev.result.Fail? then prev
      else
        var o := step(prev.tree, data[n].0, data[n].1);
        var ops := prev.ops + o.ops;
        match o.result
        case Fail(e) => Outcomes(Fail(e), o.tree, ops)
        case Ok(m) => Outcomes(Ok(prev.result.value + [m]), o.tree, ops)
  }

  /** Once an entry has failed, later entries change nothing. */
  lemma {:induction false} GenerateAllStops(step: GenStep, t: Tree, data: Record, k: nat)
    requires k <= |data|
    requires GenerateAll(step, t, data[..k]).result.Fail?
    ensures GenerateAll(step, t, data) == GenerateAll(step, t, data[..k])
    decreases |data|
  {
    if k < |data| {
      var n := |data| - 1;
      assert data[..n][..k] == data[..k];
      GenerateAllStops(step, t, data[..n], k);
    } else {
      assert data[..k] == data;
    }
  }

  lemma AppendAssoc<T>(a: seq<T>, b: seq<T>, c: seq<T>)
    ensures (a + b) + c == a + (b + c)
  {
  }

  /** One more entry after a successful prefix. */
  lemma GenerateAllNext(step: GenStep, t: Tree, data: Record, i: nat, msgs: seq<string>, tree: Tree, ops: seq<Op>)
    requires i < |data| && GenerateAll(step, t, data[..i]) == Outcomes(Ok(msgs), tree, ops)
    ensures var o := step(tree, data[i].0, data[i].1);
      GenerateAll(step, t, data[..i + 1])
      == Outcomes(if o.result.Fail? then Fail(o.result.error) else Ok(msgs + [o.result.value]), o.tree, ops + o.ops)
  {
    assert data[..i + 1][..i] == data[..i];
  }

  /**
   * `processSourceFactory(outDir, inputData, preloaded, usedPaths)(data)`
   * on the file system: the processer on every entry, in entry order.
   */
  method ProcessSource(fs: FileSystem, outDir: string, inputData: Record, preloaded: string, usedPaths: seq<string>,
                       render: (string, Record) -> Result<string>, data: Record) returns (r: Result<seq<string>>)
    modifies fs
    ensures var o := GenerateAll(Processer(outDir, inputData, preloaded, usedPaths, render), old(fs.tree), data);
      r == o.result && fs.tree == o.tree && fs.log == old(fs.log) + o.ops
  {
    ghost var step := Processer(outDir, inputData, preloaded, usedPaths, render);
    ghost var t0, log0 := fs.tree, fs.log;
    var msgs: seq<string> := [];
    for i := 0 to |data|
      invariant var g := GenerateAll(step, t0, data[..i]);
        g.result == Ok(msgs) && g.tree == fs.tree && fs.log == log0 + g.ops
    {
      var m := ProcessEntry(fs, outDir, inputData, preloaded, usedPaths, render, data, i, t0, msgs, log0);
      if m.Fail? {
        GenerateAllStops(step, t0, data, i + 1);
        return Fail(m.error);
      }
      msgs := msgs + [m.value];
    }
    assert data[..|data|] == data;
    r := Ok(msgs);
  }

  /** The processer on entry `i`, after the entries before it have succeeded. */
  method ProcessEntry(fs: FileSystem, outDir: string, inputData: Record, preloaded: string, usedPaths: seq<string>,
                      render: (string, Record) -> Result<string>, data: Record, i: nat,
                      ghost t0: Tree, ghost msgs: seq<string>, ghost log0: seq<Op>)
    returns (m: Result<string>)
    requires i < |data|
    requires var g := GenerateAll(Processer(outDir, inputData, preloaded, usedPaths, render), t0, data[..i]);
      g.result == Ok(msgs) && g.tree == fs.tree && fs.log == log0 + g.ops
    modifies fs
    ensures var g := GenerateAll(Processer(outDir, inputData, preloaded, usedPaths, render), t0, data[..i + 1]);
      g.result == (if m.Fail? then Fail(m.error) else Ok(msgs + [m.value])) && g.tree == fs.tree &&
      fs.log == log0 + g.ops
  {
    ghost var step := Processer(outDir, inputData, preloaded, usedPaths, render);
    ghost var t1, ops := fs.tree, GenerateAll(step, t0, data[..i]).ops;
    m := SourceProcesser(fs, outDir, inputData, preloaded, usedPaths, render, data[i].0, data[i].1);
    ghost var o := step(t1, data[i].0, data[i].1);
    GenerateAllNext(step, t0, data, i, msgs, t1, ops);
    AppendAssoc(log0, ops, o.ops);
  }

  /** A successful run is a successful run on all but the last entry, then one more step. */
  lemma GenerateAllLast(step: GenStep, t: Tree, data: Record)
    requires data != [] && GenerateAll(step, t, data).result.Ok?
    ensures var n := |data| - 1;
      var prev := GenerateAll(step, t, data[..n]);
      var o := step(prev.tree, data[n].0, data[n].1);
      prev.result.Ok? && o.result.Ok? &&
      GenerateAll(step, t, data).result.value == prev.result.value + [o.result.value]
  {
  }

  /** `m` is the output path `Join(outDir, outPath)` or one of the two warnings naming it. */
  predicate NamesOutput(outDir: string, outPath: string, m: string) {
    var out := Join(outDir, outPath);
    m == out || m == WarnOverwrite(out) || m == WarnEmpty(out)
  }

  /** A write of one processer call on `outPath`: to its output path, to no used file, of non-blank text. */
  predicate AllowedWrite(outDir: string, usedPaths: seq<string>, outPath: string, op: Op)
    requires op.WriteOp?
  {
    op.path == Join(outDir, outPath) && !OverwritesInput(usedPaths, op.path) && |Trim(op.content)| > 0
  }

  /** What every step says about its own message, the fold says about every entry's. */
  lemma {:induction false} GenerateAllEachMessage(step: GenStep, t: Tree, data: Record, good: (string, string) -> bool)
    requires forall tr: Tree, k: string, v: Value :: step(tr, k, v).result.Ok? ==> good(k, step(tr, k, v).result.value)
    requires GenerateAll(step, t, data).result.Ok?
    ensures forall i :: 0 <= i < |data| ==> good(data[i].0, GenerateAll(step, t, data).result.value[i])
    decreases |data|
  {
    if data != [] {
      var n := |data| - 1;
      GenerateAllLast(step, t, data);
      GenerateAllEachMessage(step, t, data[..n], good);
      assert forall i :: 0 <= i < n ==> data[..n][i] == data[i];
    }
  }

  /** What every step says about its own writes, the fold says about all writes. */
  lemma {:induction false} GenerateAllEachWrite(step: GenStep, t: Tree, data: Record, good: (string, Op) -> bool)
    requires forall tr: Tree, k: string, v: Value, op: Op :: op in step(tr, k, v).ops && op.WriteOp? ==> good(k, op)
    ensures forall op :: op in GenerateAll(step, t, data).ops && op.WriteOp? ==>
      exists i :: 0 <= i < |data| && good(data[i].0, op)
    decreases |data|
  {
    if data != [] {
      var n := |data| - 1;
      GenerateAllEachWrite(step, t, data[..n], good);
      assert forall i :: 0 <= i < n ==> data[..n][i] == data[i];
    }
  }

  /**
   * On success there is one message per entry, in entry order: the output
   * path of the entry, or one of the two warnings naming it.
   */
  lemma GenerateAllMessages(t: Tree, outDir: string, inputData: Record, preloaded: string,
                            usedPaths: seq<string>, render: (string, Record) -> Result<string>, data: Record)
    requires GenerateAll(Processer(outDir, inputData, preloaded, usedPaths, render), t, data).result.Ok?
    ensures var msgs := GenerateAll(Processer(outDir, inputData, preloaded, usedPaths, render), t, data).result.value;
      forall i :: 0 <= i < |data| ==> NamesOutput(outDir, data[i].0, msgs[i])
  {
    var step := Processer(outDir, inputData, preloaded, usedPaths, render);
    var good := (k, m) => NamesOutput(outDir, k, m);
    forall tr: Tree, k: string, v: Value | step(tr, k, v).result.Ok?
      ensures good(k, step(tr, k, v).result.value)
    {
      var o := GenerateStep(tr, outDir, inputData, preloaded, usedPaths, render, k, v);
    }
    GenerateAllEachMessage(step, t, data, good);
  }

  /**
   * Every file written while processing the entries is the output path of
   * some entry, resolves to no used file, and holds non-blank text.
   */
  lemma GenerateAllWrites(t: Tree, outDir: string, inputData: Record, preloaded: string,
                          usedPaths: seq<string>, render: (string, Record) -> Result<string>, data: Record)
    ensures var ops := GenerateAll(Processer(outDir, inputData, preloaded, usedPaths, render), t, data).ops;
      forall op :: op in ops && op.WriteOp? ==>
        !OverwritesInput(usedPaths, op.path) && |Trim(op.content)| > 0 &&
        exists i :: 0 <= i < |data| && op.path == Join(outDir, data[i].0)
  {
    var step := Processer(outDir, inputData, preloaded, usedPaths, render);
    var good := (k, op: Op) => op.WriteOp? && AllowedWrite(outDir, usedPaths, k, op);
    forall tr: Tree, k: string, v: Value, op: Op | op in step(tr, k, v).ops && op.WriteOp?
      ensures good(k, op)
    {
      var o := GenerateStep(tr, outDir, inputData, preloaded, usedPaths, render, k, v);
    }
    GenerateAllEachWrite(step, t, data, good);
  }

  // ---------------------------------------------------------------------
  // The render data of successive entries

  /**
   * The render data as the processer computes it: `mergeData(inputData,
   * extraData)` merges into the one `inputData` object that every entry
   * shares, so each entry is rendered with the input data overlaid by the
   * extraData of all entries merged before it as well as its own. The
   * entries here are merged in entry order.
   */
  function SharedRenderData(shared: Record, sources: seq<Value>): (r: seq<Record>)
    ensures |r| == |sources|
    decreases |sources|
  {
    if sources == [] then []
    else
      var data := MergeRecord(shared, ExtraOf(sources[0]));
      [data] + SharedRenderData(data, sources[1..])
  }

  lemma {:induction false} SharedRenderDataKeeps(shared: Record, sources: seq<Value>, l: nat, key: string)
    requires l < |sources| && HasKey(shared, key)
    ensures HasKey(SharedRenderData(shared, sources)[l], key)
    decreases |sources|
  {
    var data := MergeRecord(shared, ExtraOf(sources[0]));
    MergeKeepsKeys(shared, ExtraOf(sources[0]), key);
    if l > 0 {
      SharedRenderDataKeeps(data, sources[1..], l - 1, key);
    }
  }

  /** A key of an earlier entry's extraData stays in the shared data of every later entry. */
  lemma {:induction false} SharedRenderDataLeaks(shared: Record, sources: seq<Value>, k: nat, l: nat, key: string)
    requires k <= l < |sources| && HasKey(ExtraOf(sources[k]), key)
    ensures HasKey(SharedRenderData(shared, sources)[l], key)
    decreases |sources|
  {
    var data := MergeRecord(shared, ExtraOf(sources[0]));
    if k == 0 {
      MergeKeepsKeys(shared, ExtraOf(sources[0]), key);
      if l > 0 {
        SharedRenderDataKeeps(data, sources[1..], l - 1, key);
      }
    } else {
      SharedRenderDataLeaks(data, sources[1..], k - 1, l - 1, key);
    }
  }

  /**
   * With the data kept per entry, an entry sees exactly the keys of the
   * input data and of its own extraData.
   */
  lemma RenderDataKeys(inputData: Record, source: Value, key: string)
    requires UniqueKeys(ExtraOf(source))
    ensures HasKey(RenderData(inputData, source), key) <==> HasKey(inputData, key) || HasKey(ExtraOf(source), key)
  {
    MergeHasKey(inputData, ExtraOf(source), key);
  }

  lemma ExtraOfSource(template: string, extraData: Record)
    ensures TemplateOf(SourceValue(template, extraData)) == Ok(template)
    ensures ExtraOf(SourceValue(template, extraData)) == extraData
  {
    var f := SourceValue(template, extraData).fields;
    assert "template" != "extraData";
    assert f[1..] == [("extraData", Obj(extraData))];
    assert Get(f, "extraData") == Some(Obj(extraData));
  }

  /**
   * Two planned entries, the first with `{title: "A"}` as extraData and the
   * second with none: as written, the second is rendered with `title`.
   */
  lemma SharedRenderDataExample(a: Value, b: Value)
    requires a == SourceValue("a.hbs", [("title", Str("A"))]) && b == SourceValue("b.hbs", [])
    ensures HasKey(SharedRenderData([], [a, b])[1], "title")
    ensures RenderData([], b) == []
  {
    ExtraOfSource("a.hbs", [("title", Str("A"))]);
    ExtraOfSource("b.hbs", []);
    assert ExtraOf(a)[0].0 == "title";
    SharedRenderDataLeaks([], [a, b], 0, 1, "title");
    MergeIdentity([]);
  }
}
