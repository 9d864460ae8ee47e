/**
 * src/lib/blueprint.ts: blueprints. A blueprint is a Handlebars file whose
 * evaluation calls two extra helpers: `render` plans an output in the
 * shared `sources` record and `preload` declares a file whose text is to
 * be prefixed to every template. The evaluation itself is a parameter
 * that yields the helper calls in the order the template makes them.
 */
module Blueprint {
  import opened Wrappers
  import opened Dict
  import opened Strings
  import opened Paths
  import opened DataOperator
  import opened FileSys
  import opened Hbs
  import opened CustomHelper
  import opened Source
  import opened Preload

  /**
   * One call of a blueprint helper: its positional arguments, the text
   * its block rendered to when it is a block call, and (for `render`)
   * its hash arguments.
   */
  datatype HelperCall =
    | RenderCall(args: seq<Value>, block: Option<string>, hash: Record)
    | PreloadCall(args: seq<Value>, block: Option<string>)

  /** `arg as string` handed to `p.join`, which rejects anything but a string. */
  function PathArgument(v: Value): (r: Result<string>)
    ensures r.Ok? <==> v.Str?
    ensures r.Ok? ==> r.value == v.s
    ensures r.Fail? ==> r.error.name == "TypeError"
  {
    if v.Str? then Ok(v.s) else Fail(Error("TypeError", "The \"path\" argument must be of type string."))
  }

  predicate AllStrings(args: seq<Value>) {
    forall i :: 0 <= i < |args| ==> args[i].Str?
  }

  /** The two shapes `render` accepts: a block and one argument, or no block and two. */
  predicate RenderShape(args: seq<Value>, block: Option<string>) {
    (block.Some? && |args| == 1) || (block.None? && |args| == 2)
  }

  /** The two shapes `preload` accepts: a block and no argument, or no block and one. */
  predicate PreloadShape(args: seq<Value>, block: Option<string>) {
    (block.Some? && |args| == 0) || (block.None? && |args| == 1)
  }

  /**
   * The `render` helper's choice of (output key, template path): the block
   * text or the first argument under the output prefix, and the template
   * argument under the blueprint's directory.
   */
  function RenderTarget(bpDir: string, outputPrefix: string, args: seq<Value>, block: Option<string>)
    : (r: Result<(string, string)>)
    ensures r.Ok? <==> RenderShape(args, block) && AllStrings(args)
    ensures !RenderShape(args, block) ==> r.Fail? && r.error.name == "SyntaxError"
    ensures RenderShape(args, block) && !AllStrings(args) ==> r.Fail? && r.error.name == "TypeError"
    ensures r.Ok? && block.Some? ==> r.value == (Join(outputPrefix, block.value), Join(bpDir, args[0].s))
    ensures r.Ok? && block.None? ==> r.value == (Join(outputPrefix, args[0].s), Join(bpDir, args[1].s))
  {
    if block.Some? && |args| == 1 then
      match PathArgument(args[0])
      case Fail(e) => Fail(e)
      case Ok(template) => Ok((Join(outputPrefix, block.value), Join(bpDir, template)))
    else if block.None? && |args| == 2 then
      match PathArgument(args[0])
      case Fail(e) => Fail(e)
      case Ok(out) =>
        match PathArgument(args[1])
        case Fail(e) => Fail(e)
        case Ok(template) => Ok((Join(outputPrefix, out), Join(bpDir, template)))
    else
      Fail(SyntaxError("Helper 'render' wrongly used."))
  }

  /** The `preload` helper's path: the block text or the argument, under the blueprint's directory. */
  function PreloadTarget(bpDir: string, args: seq<Value>, block: Option<string>): (r: Result<string>)
    ensures r.Ok? <==> PreloadShape(args, block) && AllStrings(args)
    ensures !PreloadShape(args, block) ==> r.Fail? && r.error.name == "SyntaxError"
    ensures PreloadShape(args, block) && !AllStrings(args) ==> r.Fail? && r.error.name == "TypeError"
    ensures r.Ok? && block.Some? ==> r.value == Join(bpDir, block.value)
    ensures r.Ok? && block.None? ==> r.value == Join(bpDir, args[0].s)
  {
    if block.Some? && |args| == 0 then
      Ok(Join(bpDir, block.value))
    else if block.None? && |args| == 1 then
      match PathArgument(args[0])
      case Fail(e) => Fail(e)
      case Ok(path) => Ok(Join(bpDir, path))
    else
      Fail(SyntaxError("Helper 'preload' wrongly used."))
  }

  /**
   * The state the helper calls of one blueprint leave: the shared
   * `sources`, the blueprint's own `preloadPaths`, and the error that
   * stopped the evaluation, if one did.
   */
  datatype Run = Run(sources: Record, paths: seq<string>, error: Option<Error>)

  /** One helper call: `sources[outPath] = {template, extraData: hash}` or `preloadPaths.push(path)`. */
  function Step(run: Run, bpDir: string, outputPrefix: string, call: HelperCall): Run {
    match call
    case RenderCall(args, block, hash) =>
      (match RenderTarget(bpDir, outputPrefix, args, block)
       case Fail(e) => run.(error := Some(e))
       case Ok(target) => run.(sources := Put(run.sources, target.0, SourceValue(target.1, hash))))
    case PreloadCall(args, block) =>
      (match PreloadTarget(bpDir, args, block)
       case Fail(e) => run.(error := Some(e))
       case Ok(path) => run.(paths := run.paths + [path]))
  }

  /** One helper call's effect on the state of an evaluation. */
  type CallStep = (Run, HelperCall) -> Run

  /** The calls in order from `start`; the first failing call ends the evaluation. */
  function RunWith(step: CallStep, start: Run, calls: seq<HelperCall>): Run
    decreases |calls|
  {
    if calls == [] then start
    else
      var prev := RunWith(step, start, calls[..|calls| - 1]);
      if prev.error.Some? then prev else step(prev, calls[|calls| - 1])
  }

  /** The helper calls of one blueprint, from the shared `sources` and an empty preload list. */
  function RunCalls(sources: Record, bpDir: string, outputPrefix: string, calls: seq<HelperCall>): Run {
    RunWith((run, call) => Step(run, bpDir, outputPrefix, call), Run(sources, [], None), calls)
  }

  lemma {:induction false} RunWithStops(step: CallStep, start: Run, calls: seq<HelperCall>, k: nat)
    requires k <= |calls| && RunWith(step, start, calls[..k]).error.Some?
    ensures RunWith(step, start, calls) == RunWith(step, start, calls[..k])
    decreases |calls|
  {
    if k < |calls| {
      var n := |calls| - 1;
      assert calls[..n][..k] == calls[..k];
      RunWithStops(step, start, calls[..n], k);
    } else {
      assert calls[..k] == calls;
    }
  }

  /** Once a call has failed, later calls change nothing. */
  lemma RunCallsStops(sources: Record, bpDir: string, outputPrefix: string, calls: seq<HelperCall>, k: nat)
    requires k <= |calls| && RunCalls(sources, bpDir, outputPrefix, calls[..k]).error.Some?
    ensures RunCalls(sources, bpDir, outputPrefix, calls) == RunCalls(sources, bpDir, outputPrefix, calls[..k])
  {
    RunWithStops((run, call) => Step(run, bpDir, outputPrefix, call), Run(sources, [], None), calls, k);
  }

  /** The preload paths the calls declare, in call order. */
  function Declared(bpDir: string, calls: seq<HelperCall>): seq<string>
    decreases |calls|
  {
    if calls == [] then []
    else
      var n := |calls| - 1;
      var c := calls[n];
      if c.PreloadCall? && PreloadTarget(bpDir, c.args, c.block).Ok? then
        Declared(bpDir, calls[..n]) + [PreloadTarget(bpDir, c.args, c.block).value]
      else
        Declared(bpDir, calls[..n])
  }

  /** A render call that lands on key k, and the template it plans there. */
  predicate RendersTo(bpDir: string, outputPrefix: string, c: HelperCall, k: string) {
    c.RenderCall? && RenderTarget(bpDir, outputPrefix, c.args, c.block).Ok? &&
    RenderTarget(bpDir, outputPrefix, c.args, c.block).value.0 == k
  }

  /**
   * Without a failing call, a key no render call lands on keeps its
   * previous entry.
   */
  lemma {:induction false} RunCallsUntouched(sources: Record, bpDir: string, outputPrefix: string,
                                             calls: seq<HelperCall>, k: string)
    requires RunCalls(sources, bpDir, outputPrefix, calls).error.None?
    requires forall i :: 0 <= i < |calls| ==> !RendersTo(bpDir, outputPrefix, calls[i], k)
    ensures Get(RunCalls(sources, bpDir, outputPrefix, calls).sources, k) == Get(sources, k)
    decreases |calls|
  {
    if calls != [] {
      var n := |calls| - 1;
      assert forall i :: 0 <= i < n ==> calls[..n][i] == calls[i];
      RunCallsUntouched(sources, bpDir, outputPrefix, calls[..n], k);
      var prev := RunCalls(sources, bpDir, outputPrefix, calls[..n]);
      var c := calls[n];
      if c.RenderCall? {
        var target := RenderTarget(bpDir, outputPrefix, c.args, c.block);
        GetPut(prev.sources, target.value.0, SourceValue(target.value.1, c.hash), k);
      }
    }
  }

  /**
   * Without a failing call, the paths are the declared ones whatever
   * keys the render calls use.
   */
  lemma {:induction false} RunCallsPaths(sources: Record, bpDir: string, outputPrefix: string, calls: seq<HelperCall>)
    requires RunCalls(sources, bpDir, outputPrefix, calls).error.None?
    ensures RunCalls(sources, bpDir, outputPrefix, calls).paths == Declared(bpDir, calls)
    decreases |calls|
  {
    if calls != [] {
      RunCallsPaths(sources, bpDir, outputPrefix, calls[..|calls| - 1]);
    }
  }

  /**
   * Without a failing call, the entry under k is the one call j leaves
   * there when no later call touches k.
   */
  lemma {:induction false} RunWithLastWins(step: CallStep, start: Run, calls: seq<HelperCall>, j: nat, k: string, v: Value)
    requires RunWith(step, start, calls).error.None?
    requires j < |calls|
    requires forall run: Run :: run.error.None? && step(run, calls[j]).error.None? ==>
      Get(step(run, calls[j]).sources, k) == Some(v)
    requires forall i: int, run: Run :: j < i < |calls| && run.error.None? && step(run, calls[i]).error.None? ==>
      Get(step(run, calls[i]).sources, k) == Get(run.sources, k)
    ensures Get(RunWith(step, start, calls).sources, k) == Some(v)
    decreases |calls|
  {
    var n := |calls| - 1;
    if j < n {
      assert calls[..n][j] == calls[j];
      assert forall i :: j < i < n ==> calls[..n][i] == calls[i];
      RunWithLastWins(step, start, calls[..n], j, k, v);
    }
  }

  /** A later render call for the same output key replaces the earlier entry. */
  lemma RenderLastWins(sources: Record, bpDir: string, outputPrefix: string,
                       calls: seq<HelperCall>, j: nat, k: string)
    requires RunCalls(sources, bpDir, outputPrefix, calls).error.None?
    requires j < |calls| && RendersTo(bpDir, outputPrefix, calls[j], k)
    requires forall i :: j < i < |calls| ==> !RendersTo(bpDir, outputPrefix, calls[i], k)
    ensures Get(RunCalls(sources, bpDir, outputPrefix, calls).sources, k) ==
      Some(SourceValue(RenderTarget(bpDir, outputPrefix, calls[j].args, calls[j].block).value.1, calls[j].hash))
  {
    var step: CallStep := (run, call) => Step(run, bpDir, outputPrefix, call);
    var target := RenderTarget(bpDir, outputPrefix, calls[j].args, calls[j].block);
    var v := SourceValue(target.value.1, calls[j].hash);
    forall run: Run | run.error.None? && step(run, calls[j]).error.None?
      ensures Get(step(run, calls[j]).sources, k) == Some(v)
    {
      GetPut(run.sources, k, v, k);
    }
    forall i: int, run: Run | j < i < |calls| && run.error.None? && step(run, calls[i]).error.None?
      ensures Get(step(run, calls[i]).sources, k) == Get(run.sources, k)
    {
      var c := calls[i];
      if c.RenderCall? {
        var t := RenderTarget(bpDir, outputPrefix, c.args, c.block);
        GetPut(run.sources, t.value.0, SourceValue(t.value.1, c.hash), k);
      }
    }
    RunWithLastWins(step, Run(sources, [], None), calls, j, k, v);
  }

  /** `preloads[entry[0]] = entry[1]` for every entry, in entry order. */
  function CopyEntries(preloads: Record, data: Record): Record
    decreases |data|
  {
    if data == [] then preloads
    else
      var n := |data| - 1;
      Put(CopyEntries(preloads, data[..n]), data[n].0, data[n].1)
  }

  /** With unique keys in `data`, each copied key takes its value from `data`; other keys keep theirs. */
  lemma {:induction false} CopyEntriesGet(preloads: Record, data: Record, k: string)
    requires UniqueKeys(data)
    ensures Get(CopyEntries(preloads, data), k) == if HasKey(data, k) then Get(data, k) else Get(preloads, k)
    decreases |data|
  {
    if data != [] {
      var n := |data| - 1;
      assert UniqueKeys(data[..n]);
      CopyEntriesGet(preloads, data[..n], k);
      GetPut(CopyEntries(preloads, data[..n]), data[n].0, data[n].1, k);
      assert data == data[..n] + [data[n]];
      HasKeyAppend(data[..n], data[n], k);
      if k == data[n].0 {
        GetAt(data, n);
      } else if HasKey(data[..n], k) {
        var i :| 0 <= i < n && data[..n][i].0 == k;
        GetAt(data[..n], i);
        GetAt(data, i);
      }
    }
  }

  lemma HasKeyAppend(d: Record, x: (string, Value), k: string)
    ensures HasKey(d + [x], k) <==> HasKey(d, k) || x.0 == k
  {
    var e := d + [x];
    assert e[|d|] == x;
    if HasKey(d, k) {
      var i :| 0 <= i < |d| && d[i].0 == k;
      assert e[i].0 == k;
    }
  }

  /** The result of loading one blueprint into `sources` and `preloads`. */
  datatype Loaded = Loaded(result: Result<()>, sources: Record, preloads: Record)

  /** After the helper calls: collect the declared preloads and copy them in. */
  function AfterCalls(t: Tree, run: Run, preloads: Record): (r: Loaded)
    ensures r.sources == run.sources
    ensures r.result.Fail? ==> r.preloads == preloads
  {
    if run.error.Some? then Loaded(Fail(run.error.value), run.sources, preloads)
    else
      match CollectPreloads(t, run.paths)
      case Fail(e) => Loaded(Fail(e), run.sources, preloads)
      case Ok(collected) => Loaded(Ok(()), run.sources, CopyEntries(preloads, collected))
  }

  /**
   * Each declared preload path ends up in `preloads`, mapped to its file
   * text; a key no path declares keeps its previous entry.
   */
  lemma DeclaredPreloadsLoaded(t: Tree, run: Run, preloads: Record, k: string)
    requires AfterCalls(t, run, preloads).result.Ok?
    ensures k in run.paths ==>
      ReadText(t, k).Ok? && Get(AfterCalls(t, run, preloads).preloads, k) == Some(Str(ReadText(t, k).value))
    ensures k !in run.paths ==> Get(AfterCalls(t, run, preloads).preloads, k) == Get(preloads, k)
  {
    CollectPreloadsGet(t, run.paths, k);
    CopyEntriesGet(preloads, CollectPreloads(t, run.paths).value, k);
  }

  /** The helper table a blueprint is evaluated with: the user helpers first, then `render` and `preload`. */
  function BlueprintHelpers(helpersData: Record, bpDir: string): map<string, HelperFn>
    requires forall i :: 0 <= i < |helpersData| ==> helpersData[i].1.Func?
  {
    Registered(map[], helpersData)["render" := RenderHelper(bpDir)]["preload" := PreloadHelper(bpDir)]
  }

  /** A user helper named `render` or `preload` is shadowed by the blueprint helper. */
  lemma BlueprintHelpersShadow(helpersData: Record, bpDir: string, name: string)
    requires forall i :: 0 <= i < |helpersData| ==> helpersData[i].1.Func?
    ensures BlueprintHelpers(helpersData, bpDir)["render"] == RenderHelper(bpDir)
    ensures BlueprintHelpers(helpersData, bpDir)["preload"] == PreloadHelper(bpDir)
    ensures name != "render" && name != "preload" ==>
      (name in BlueprintHelpers(helpersData, bpDir) <==> name in Registered(map[], helpersData))
  {
  }

  /** The directory test: the resolved blueprint directory string-starts with the resolved template root. */
  predicate BlueprintInside(tmplDir: string, blueprint: string) {
    InsideTemplateDir(Resolve(Dirname(blueprint)), tmplDir)
  }

  /**
   * What evaluating a blueprint yields: the helper calls in the order the
   * template made them, and the error that ended the evaluation when
   * something other than a blueprint helper threw (a user helper, a
   * template error). Calls made before such a throw have taken effect.
   */
  datatype Evaluation = Evaluation(calls: seq<HelperCall>, thrown: Option<Error>)

  /** Evaluating a blueprint's text against the input data and a helper table. */
  type Evaluate = (string, Record, map<string, HelperFn>) -> Evaluation

  /**
   * Loading one blueprint: the directory test, then the read, the
   * evaluation against the input data, the helper calls, and the copy
   * of the collected preloads. The `render` calls made before a throw
   * stay in `sources`.
   */
  function LoadOne(t: Tree, tmplDir: string, helpersData: Record, inputData: Record, evaluate: Evaluate,
                   sources: Record, preloads: Record, blueprint: string): (r: Loaded)
    requires forall i :: 0 <= i < |helpersData| ==> helpersData[i].1.Func?
    ensures r.result.Ok? ==> BlueprintInside(tmplDir, blueprint) && ReadText(t, blueprint).Ok?
    ensures r.result.Fail? ==> r.preloads == preloads
    ensures !BlueprintInside(tmplDir, blueprint) ==>
      r.result.Fail? && r.result.error.name == "RuntimeError" && r.sources == sources
  {
    var bpDir := Dirname(blueprint);
    if !BlueprintInside(tmplDir, blueprint) then
      Loaded(Fail(RuntimeError("Blueprint path '" + blueprint + "' is not located inside the '" + tmplDir + "'.")),
             sources, preloads)
    else
      match ReadText(t, blueprint)
      case Fail(e) => Loaded(Fail(e), sources, preloads)
      case Ok(text) =>
        var ev := evaluate(text, inputData, BlueprintHelpers(helpersData, bpDir));
        var run := RunCalls(sources, bpDir, Relative(tmplDir, bpDir), ev.calls);
        if run.error.None? && ev.thrown.Some? then Loaded(Fail(ev.thrown.value), run.sources, preloads)
        else AfterCalls(t, run, preloads)
  }

  /** A blueprint that calls neither helper leaves `sources` and `preloads` as they were. */
  lemma NoCallsNoChange(t: Tree, tmplDir: string, helpersData: Record, inputData: Record, evaluate: Evaluate,
                        sources: Record, preloads: Record, blueprint: string)
    requires forall i :: 0 <= i < |helpersData| ==> helpersData[i].1.Func?
    requires BlueprintInside(tmplDir, blueprint) && ReadText(t, blueprint).Ok?
    requires evaluate(ReadText(t, blueprint).value, inputData, BlueprintHelpers(helpersData, Dirname(blueprint)))
          == Evaluation([], None)
    ensures LoadOne(t, tmplDir, helpersData, inputData, evaluate, sources, preloads, blueprint) ==
      Loaded(Ok(()), sources, preloads)
  {
    assert CollectPreloads(t, []) == Ok([]);
  }

  /**
   * A throw from outside the blueprint helpers fails the blueprint with
   * that error, and the `render` calls made before it stay in `sources`:
   * the last of them to land on a key decides its entry.
   */
  lemma ThrownKeepsRenders(t: Tree, tmplDir: string, helpersData: Record, inputData: Record, evaluate: Evaluate,
                           sources: Record, preloads: Record, blueprint: string, j: nat, k: string)
    requires forall i :: 0 <= i < |helpersData| ==> helpersData[i].1.Func?
    requires BlueprintInside(tmplDir, blueprint) && ReadText(t, blueprint).Ok?
    ensures var bpDir, prefix := Dirname(blueprint), Relative(tmplDir, Dirname(blueprint));
      var calls := evaluate(ReadText(t, blueprint).value, inputData, BlueprintHelpers(helpersData, bpDir)).calls;
      var thrown := evaluate(ReadText(t, blueprint).value, inputData, BlueprintHelpers(helpersData, bpDir)).thrown;
      var r := LoadOne(t, tmplDir, helpersData, inputData, evaluate, sources, preloads, blueprint);
      (RunCalls(sources, bpDir, prefix, calls).error.None? && thrown.Some?) ==>
        r.result == Fail(thrown.value) && r.preloads == preloads &&
        (j < |calls| && RendersTo(bpDir, prefix, calls[j], k) &&
         (forall i :: j < i < |calls| ==> !RendersTo(bpDir, prefix, calls[i], k)) ==>
         Get(r.sources, k) == Some(SourceValue(RenderTarget(bpDir, prefix, calls[j].args, calls[j].block).value.1,
                                               calls[j].hash)))
  {
    var bpDir, prefix := Dirname(blueprint), Relative(tmplDir, Dirname(blueprint));
    var calls := evaluate(ReadText(t, blueprint).value, inputData, BlueprintHelpers(helpersData, bpDir)).calls;
    if RunCalls(sources, bpDir, prefix, calls).error.None? && j < |calls| && RendersTo(bpDir, prefix, calls[j], k) &&
       (forall i :: j < i < |calls| ==> !RendersTo(bpDir, prefix, calls[i], k)) {
      RenderLastWins(sources, bpDir, prefix, calls, j, k);
    }
  }

  /** Loading one blueprint into the given `sources` and `preloads`. */
  type LoadStep = (Record, Record, string) -> Loaded

  /** Every blueprint in order; the first failing blueprint ends the load. */
  function LoadAll(load: LoadStep, sources: Record, preloads: Record, blueprints: seq<string>): (r: Loaded)
    ensures r.result.Fail? ==>
      exists s: Record, p: Record, i :: 0 <= i < |blueprints| && load(s, p, blueprints[i]).result == r.result
    decreases |blueprints|
  {
    if blueprints == [] then Loaded(Ok(()), sources, preloads)
    else
      var n := |blueprints| - 1;
      var prev := LoadAll(load, sources, preloads, blueprints[..n]);
      if prev.result.Fail? then prev
      else load(prev.sources, prev.preloads, blueprints[n])
  }

  /** `LoadOne` with everything but the records and the blueprint fixed. */
  function LoadWith(t: Tree, tmplDir: string, helpersData: Record, inputData: Record, evaluate: Evaluate): LoadStep
    requires forall i :: 0 <= i < |helpersData| ==> helpersData[i].1.Func?
  {
    (sources, preloads, blueprint) => LoadOne(t, tmplDir, helpersData, inputData, evaluate, sources, preloads, blueprint)
  }

  /** In a successful load, every blueprint loaded successfully into the records before it. */
  lemma {:induction false} LoadAllEach(load: LoadStep, sources: Record, preloads: Record, blueprints: seq<string>, i: nat)
    requires LoadAll(load, sources, preloads, blueprints).result.Ok? && i < |blueprints|
    ensures LoadAll(load, sources, preloads, blueprints[..i]).result.Ok?
    ensures var prev := LoadAll(load, sources, preloads, blueprints[..i]);
      load(prev.sources, prev.preloads, blueprints[i]).result.Ok?
    decreases |blueprints|
  {
    var n := |blueprints| - 1;
    if i < n {
      assert blueprints[..n][..i] == blueprints[..i];
      LoadAllEach(load, sources, preloads, blueprints[..n], i);
    }
  }

  /** A blueprint that loads lies under the template root and was read. */
  lemma LoadOneInside(t: Tree, tmplDir: string, helpersData: Record, inputData: Record, evaluate: Evaluate,
                      sources: Record, preloads: Record, blueprint: string)
    requires forall i :: 0 <= i < |helpersData| ==> helpersData[i].1.Func?
    requires LoadWith(t, tmplDir, helpersData, inputData, evaluate)(sources, preloads, blueprint).result.Ok?
    ensures BlueprintInside(tmplDir, blueprint) && ReadText(t, blueprint).Ok?
  {
    assert LoadWith(t, tmplDir, helpersData, inputData, evaluate)(sources, preloads, blueprint)
        == LoadOne(t, tmplDir, helpersData, inputData, evaluate, sources, preloads, blueprint);
  }

  /** A successful load read every blueprint, and every one lies under the template root. */
  lemma LoadAllInside(t: Tree, tmplDir: string, helpersData: Record, inputData: Record,
                      evaluate: Evaluate, sources: Record, preloads: Record, blueprints: seq<string>)
    requires forall i :: 0 <= i < |helpersData| ==> helpersData[i].1.Func?
    requires LoadAll(LoadWith(t, tmplDir, helpersData, inputData, evaluate), sources, preloads, blueprints).result.Ok?
    ensures forall i :: 0 <= i < |blueprints| ==>
      BlueprintInside(tmplDir, blueprints[i]) && ReadText(t, blueprints[i]).Ok?
  {
    var load := LoadWith(t, tmplDir, helpersData, inputData, evaluate);
    forall i | 0 <= i < |blueprints|
      ensures BlueprintInside(tmplDir, blueprints[i]) && ReadText(t, blueprints[i]).Ok?
    {
      LoadAllEach(load, sources, preloads, blueprints, i);
      var prev := LoadAll(load, sources, preloads, blueprints[..i]);
      LoadOneInside(t, tmplDir, helpersData, inputData, evaluate, prev.sources, prev.preloads, blueprints[i]);
    }
  }

  /** The records `loadBlueprints` fills: planned sources and collected preloads. */
  class Plan {
    var sources: Record
    var preloads: Record

    constructor(sources: Record, preloads: Record)
      ensures this.sources == sources && this.preloads == preloads
    {
      this.sources := sources;
      this.preloads := preloads;
    }
  }

  /** The body `loadBlueprints` runs for one blueprint. */
  method LoadBlueprint(plan: Plan, fs: FileSystem, tmplDir: string, blueprint: string,
                       helpersData: Record, inputData: Record, evaluate: Evaluate) returns (r: Result<()>)
    requires forall i :: 0 <= i < |helpersData| ==> helpersData[i].1.Func?
    modifies plan, fs
    ensures var o := LoadOne(old(fs.tree), tmplDir, helpersData, inputData, evaluate,
                             old(plan.sources), old(plan.preloads), blueprint);
      r == o.result && plan.sources == o.sources && plan.preloads == o.preloads
    ensures fs.tree == old(fs.tree)
    ensures fs.log == old(fs.log) + if BlueprintInside(tmplDir, blueprint) then [ReadOp(blueprint)] else []
  {
    ghost var t0, s0, p0 := fs.tree, plan.sources, plan.preloads;
    ghost var o := LoadOne(t0, tmplDir, helpersData, inputData, evaluate, s0, p0, blueprint);
    var bpDir := Dirname(blueprint);
    if !InsideTemplateDir(Resolve(bpDir), tmplDir) {
      return Fail(RuntimeError("Blueprint path '" + blueprint + "' is not located inside the '" + tmplDir + "'."));
    }
    var hbs := new Instance();
    var outputPrefix := Relative(tmplDir, bpDir);
    var names := ProcessRegisterHelpers(hbs, helpersData);
    hbs.RegisterHelper("render", RenderHelper(bpDir));
    hbs.RegisterHelper("preload", PreloadHelper(bpDir));
    assert hbs.helpers == BlueprintHelpers(helpersData, bpDir);
    var text := fs.ReadFile(blueprint);
    if text.Fail? {
      assert o == Loaded(Fail(text.error), s0, p0);
      return Fail(text.error);
    }
    var ev := evaluate(text.value, inputData, hbs.helpers);
    ghost var run := RunCalls(s0, bpDir, outputPrefix, ev.calls);
    var preloadPaths, error := RunHelpers(plan, bpDir, outputPrefix, ev.calls);
    if error.Some? {
      assert o == Loaded(Fail(error.value), plan.sources, p0);
      return Fail(error.value);
    }
    if ev.thrown.Some? {
      assert o == Loaded(Fail(ev.thrown.value), plan.sources, p0);
      return Fail(ev.thrown.value);
    }
    assert o == AfterCalls(t0, run, p0);
    var collected := CollectPreloads(fs.tree, preloadPaths);
    if collected.Fail? {
      assert o == Loaded(Fail(collected.error), plan.sources, p0);
      return Fail(collected.error);
    }
    CopyPreloads(plan, collected.value);
    assert o == Loaded(Ok(()), plan.sources, plan.preloads);
    r := Ok(());
  }

  /**
   * The helper calls of one evaluation: `render` assigns into the shared
   * `sources`, `preload` pushes onto the blueprint's own list, and a call
   * of the wrong shape throws, which ends the evaluation.
   */
  method RunHelpers(plan: Plan, bpDir: string, outputPrefix: string, calls: seq<HelperCall>)
    returns (preloadPaths: seq<string>, error: Option<Error>)
    modifies plan
    ensures RunCalls(old(plan.sources), bpDir, outputPrefix, calls) == Run(plan.sources, preloadPaths, error)
    ensures plan.preloads == old(plan.preloads)
  {
    ghost var s0 := plan.sources;
    preloadPaths := [];
    error := None;
    for i := 0 to |calls|
      invariant RunCalls(s0, bpDir, outputPrefix, calls[..i]) == Run(plan.sources, preloadPaths, None)
      invariant plan.preloads == old(plan.preloads)
    {
      var call := calls[i];
      assert calls[..i + 1][..i] == calls[..i];
      if call.RenderCall? {
        var target := RenderTarget(bpDir, outputPrefix, call.args, call.block);
        if target.Fail? {
          RunCallsStops(s0, bpDir, outputPrefix, calls, i + 1);
          return preloadPaths, Some(target.error);
        }
        plan.sources := Put(plan.sources, target.value.0, SourceValue(target.value.1, call.hash));
      } else {
        var target := PreloadTarget(bpDir, call.args, call.block);
        if target.Fail? {
          RunCallsStops(s0, bpDir, outputPrefix, calls, i + 1);
          return preloadPaths, Some(target.error);
        }
        preloadPaths := preloadPaths + [target.value];
      }
    }
    assert calls[..|calls|] == calls;
  }

  /** `Object.entries(collected).forEach(entry => preloads[entry[0]] = entry[1])`. */
  method CopyPreloads(plan: Plan, collected: Record)
    modifies plan
    ensures plan.preloads == CopyEntries(old(plan.preloads), collected)
    ensures plan.sources == old(plan.sources)
  {
    for j := 0 to |collected|
      invariant plan.preloads == CopyEntries(old(plan.preloads), collected[..j])
      invariant plan.sources == old(plan.sources)
    {
      assert collected[..j + 1][..j] == collected[..j];
      plan.preloads := Put(plan.preloads, collected[j].0, collected[j].1);
    }
    assert collected[..|collected|] == collected;
  }

  /** `loadBlueprints(sources, preloads, tmplDir, blueprints, helpersData, inputData)`. */
  method LoadBlueprints(plan: Plan, fs: FileSystem, tmplDir: string, blueprints: seq<string>,
                        helpersData: Record, inputData: Record, evaluate: Evaluate) returns (r: Result<()>)
    requires forall i :: 0 <= i < |helpersData| ==> helpersData[i].1.Func?
    modifies plan, fs
    ensures var o := LoadAll(LoadWith(old(fs.tree), tmplDir, helpersData, inputData, evaluate),
                             old(plan.sources), old(plan.preloads), blueprints);
      r == o.result && plan.sources == o.sources && plan.preloads == o.preloads
    ensures fs.tree == old(fs.tree)
  {
    ghost var load := LoadWith(fs.tree, tmplDir, helpersData, inputData, evaluate);
    ghost var t0 := fs.tree;
    r := Ok(());
    for i := 0 to |blueprints|
      invariant fs.tree == t0 && r == Ok(())
      invariant LoadAll(load, old(plan.sources), old(plan.preloads), blueprints[..i])
             == Loaded(Ok(()), plan.sources, plan.preloads)
    {
      assert blueprints[..i + 1][..i] == blueprints[..i];
      ghost var s0, p0 := plan.sources, plan.preloads;
      r := LoadBlueprint(plan, fs, tmplDir, blueprints[i], helpersData, inputData, evaluate);
      assert load(s0, p0, blueprints[i]) == Loaded(r, plan.sources, plan.preloads);
      assert LoadAll(load, old(plan.sources), old(plan.preloads), blueprints[..i + 1])
          == Loaded(r, plan.sources, plan.preloads);
      if r.Fail? {
        LoadAllStops(load, old(plan.sources), old(plan.preloads), blueprints, i + 1);
        return;
      }
    }
    assert blueprints[..|blueprints|] == blueprints;
  }

  /** Once a blueprint has failed, later blueprints change nothing. */
  lemma {:induction false} LoadAllStops(load: LoadStep, sources: Record, preloads: Record,
                                        blueprints: seq<string>, k: nat)
    requires k <= |blueprints|
    requires LoadAll(load, sources, preloads, blueprints[..k]).result.Fail?
    ensures LoadAll(load, sources, preloads, blueprints) == LoadAll(load, sources, preloads, blueprints[..k])
    decreases |blueprints|
  {
    if k < |blueprints| {
      var n := |blueprints| - 1;
      assert blueprints[..n][..k] == blueprints[..k];
      LoadAllStops(load, sources, preloads, blueprints[..n], k);
    } else {
      assert blueprints[..k] == blueprints;
    }
  }
}
