/**
 * src/lib/main.ts: `run(args)`, the orchestration of one generation. It
 * collects and registers the custom helpers, consolidates the input data
 * with the process environment under `_env`, collects the preloads and
 * the direct sources, loads the blueprints, and processes the combined
 * sources, keeping every file it used in `usedPaths` so the processer
 * never writes over one of them.
 */
module Main {
  import opened Wrappers
  import opened Dict
  import opened Strings
  import opened Paths
  import opened DataOperator
  import opened FileSys
  import opened Hbs
  import opened CustomHelper
  import opened InputData
  import opened Preload
  import opened Source
  import opened Blueprint

  /** The `Args` object; an option left out (`?? []`) is the empty list. */
  datatype Args = Args(templateDir: string, outputDir: string, templates: seq<string>, blueprints: seq<string>,
                       inputs: seq<string>, preloads: seq<string>, customHelpers: seq<string>)

  /** The `Result` object. */
  datatype RunResult = RunResult(registeredHelpers: seq<string>, consolidatedData: Record, generatedFiles: seq<string>)

  /** What the steps before the blueprints gather. */
  datatype Gathered = Gathered(helpersData: Record, inputData: Record, preloads: Record, sources: Record)

  /**
   * The dynamic `import()` of a helper module: its exports, whose names
   * are distinct as in any JavaScript module namespace.
   */
  ghost predicate ModuleLoader(load: string -> Result<Record>) {
    forall p :: load(p).Ok? ==> UniqueKeys(load(p).value)
  }

  /** `consolidatedData['_env'] = naturalCast(process.env)`. */
  function Consolidate(inputs: Record, env: Record, jsonParse: string -> Option<Value>): Record {
    Put(inputs, "_env", Obj(NaturalCast(env, jsonParse)))
  }

  /** `_env` holds the cast environment; every other key keeps its input value. */
  lemma ConsolidateGet(inputs: Record, env: Record, jsonParse: string -> Option<Value>, k: string)
    ensures Get(Consolidate(inputs, env, jsonParse), k) ==
      if k == "_env" then Some(Obj(NaturalCast(env, jsonParse))) else Get(inputs, k)
  {
    GetPut(inputs, "_env", Obj(NaturalCast(env, jsonParse)), k);
  }

  /** Every collected helper is a function. */
  lemma HelpersAreFunctions(load: string -> Result<Record>, paths: seq<string>)
    requires ModuleLoader(load) && CollectHelpers(load, paths).Ok?
    ensures var h := CollectHelpers(load, paths).value;
      forall i :: 0 <= i < |h| ==> h[i].1.Func?
  {
    CollectedHelpers(load, paths, "");
  }

  /** The helper table after `processRegisterHelpers`, or unchanged when collecting the helpers fails. */
  function HelperTable(table: map<string, HelperFn>, load: string -> Result<Record>, paths: seq<string>): map<string, HelperFn>
    requires ModuleLoader(load)
  {
    match CollectHelpers(load, paths)
    case Fail(_) => table
    case Ok(helpers) =>
      HelpersAreFunctions(load, paths);
      Registered(table, helpers)
  }

  /** The steps after the helpers: the consolidated data, the preloads, the direct sources. */
  function GatherData(t: Tree, args: Args, helpers: Record, env: Record,
                      yamlLoad: string -> Result<Record>, jsonParse: string -> Option<Value>): (r: Result<Gathered>)
    ensures CollectInputData(t, yamlLoad, args.inputs).Fail? ==> r == Fail(CollectInputData(t, yamlLoad, args.inputs).error)
    ensures CollectInputData(t, yamlLoad, args.inputs).Ok? && CollectPreloads(t, args.preloads).Fail? ==>
      r == Fail(CollectPreloads(t, args.preloads).error)
    ensures (CollectInputData(t, yamlLoad, args.inputs).Ok? && CollectPreloads(t, args.preloads).Ok? &&
             CollectSources(t, args.templateDir, args.templates).Fail?) ==>
      r == Fail(CollectSources(t, args.templateDir, args.templates).error)
    ensures r.Ok? ==>
      CollectInputData(t, yamlLoad, args.inputs).Ok? && CollectPreloads(t, args.preloads).Ok? &&
      CollectSources(t, args.templateDir, args.templates).Ok? &&
      r.value.helpersData == helpers &&
      r.value.inputData == Consolidate(CollectInputData(t, yamlLoad, args.inputs).value, env, jsonParse) &&
      r.value.preloads == CollectPreloads(t, args.preloads).value &&
      r.value.sources == CollectSources(t, args.templateDir, args.templates).value
  {
    match CollectInputData(t, yamlLoad, args.inputs)
    case Fail(e) => Fail(e)
    case Ok(inputs) =>
      match CollectPreloads(t, args.preloads)
      case Fail(e) => Fail(e)
      case Ok(preloads) =>
        match CollectSources(t, args.templateDir, args.templates)
        case Fail(e) => Fail(e)
        case Ok(sources) => Ok(Gathered(helpers, Consolidate(inputs, env, jsonParse), preloads, sources))
  }

  /** `loadBlueprints(args.templateDir, args.blueprints ?? [], helpersData, consolidatedData)`. */
  function LoadedBlueprints(t: Tree, args: Args, g: Gathered, evaluate: Evaluate): Loaded
    requires forall i :: 0 <= i < |g.helpersData| ==> g.helpersData[i].1.Func?
  {
    LoadAll(LoadWith(t, args.templateDir, g.helpersData, g.inputData, evaluate), [], [], args.blueprints)
  }

  /** `val.template` of every blueprint source that has one. */
  function TemplatePaths(sources: seq<Value>): (r: seq<string>)
    ensures forall i :: 0 <= i < |sources| && TemplateOf(sources[i]).Ok? ==> TemplateOf(sources[i]).value in r
  {
    if sources == [] then []
    else
      var n := |sources| - 1;
      var rest := TemplatePaths(sources[..n]);
      assert forall i :: 0 <= i < n ==> sources[..n][i] == sources[i];
      rest + (if TemplateOf(sources[n]).Ok? then [TemplateOf(sources[n]).value] else [])
  }

  /**
   * `usedPaths` as src/lib/main.ts:54-78 builds it: the helper, input,
   * preload, template and blueprint paths given, then the *values* of the
   * blueprint preload map, which are the preloaded texts, then the
   * templates of the blueprint sources.
   */
  function UsedPathsAsWritten(args: Args, bp: Loaded): (r: seq<string>)
    ensures forall p :: p in args.customHelpers + args.inputs + args.preloads + args.templates + args.blueprints ==> p in r
    ensures forall i :: 0 <= i < |bp.preloads| && bp.preloads[i].1.Str? ==> bp.preloads[i].1.s in r
  {
    args.customHelpers + args.inputs + args.preloads + args.templates + args.blueprints +
    Texts(bp.preloads) + TemplatePaths(GetValues(bp.sources))
  }

  /** `usedPaths` with the blueprint preload paths, the keys of the preload map, in place of their texts. */
  function UsedPaths(args: Args, bp: Loaded): (r: seq<string>)
    ensures forall p :: p in args.customHelpers + args.inputs + args.preloads + args.templates + args.blueprints ==> p in r
    ensures forall i :: 0 <= i < |bp.preloads| ==> bp.preloads[i].0 in r
  {
    args.customHelpers + args.inputs + args.preloads + args.templates + args.blueprints +
    Keys(bp.preloads) + TemplatePaths(GetValues(bp.sources))
  }

  /** The preloaded text: the direct preloads merged with the blueprint preloads, joined. */
  function Preloaded(g: Gathered, bp: Loaded): string {
    JoinPreloaded(MergeRecord(g.preloads, bp.preloads))
  }

  /** The planned sources: the direct sources merged with the blueprint sources. */
  function Planned(g: Gathered, bp: Loaded): Record {
    MergeRecord(g.sources, bp.sources)
  }

  /** `processSourceFactory(args.outputDir, consolidatedData, preloaded, usedPaths)(planned)`. */
  function Generation(t: Tree, args: Args, g: Gathered, bp: Loaded, render: (string, Record) -> Result<string>): Outcomes {
    GenerateAll(Processer(args.outputDir, g.inputData, Preloaded(g, bp), UsedPaths(args, bp), render), t, Planned(g, bp))
  }

  /** What `run` settles to, the file tree after it, and the generation's file-system calls. */
  datatype Ran = Ran(result: Result<RunResult>, tree: Tree, ops: seq<Op>)

  /** `run(args)`. */
  function RunOutcome(t: Tree, args: Args, env: Record, load: string -> Result<Record>,
                      yamlLoad: string -> Result<Record>, jsonParse: string -> Option<Value>,
                      evaluate: Evaluate, render: (string, Record) -> Result<string>): (r: Ran)
    requires ModuleLoader(load)
    ensures CollectHelpers(load, args.customHelpers).Fail? ==> r.result.Fail? && r.tree == t && r.ops == []
    ensures r.result.Ok? ==>
      CollectHelpers(load, args.customHelpers).Ok? &&
      r.result.value.registeredHelpers == Keys(CollectHelpers(load, args.customHelpers).value)
  {
    match CollectHelpers(load, args.customHelpers)
    case Fail(e) => Ran(Fail(e), t, [])
    case Ok(helpers) =>
      HelpersAreFunctions(load, args.customHelpers);
      AfterHelpers(t, args, helpers, env, yamlLoad, jsonParse, evaluate, render)
  }

  /** The data, the preloads and the direct sources, then the blueprints and the generation. */
  function AfterHelpers(t: Tree, args: Args, helpers: Record, env: Record, yamlLoad: string -> Result<Record>,
                        jsonParse: string -> Option<Value>, evaluate: Evaluate,
                        render: (string, Record) -> Result<string>): (r: Ran)
    requires forall i :: 0 <= i < |helpers| ==> helpers[i].1.Func?
    ensures r.result.Ok? ==> r.result.value.registeredHelpers == Keys(helpers)
  {
    match GatherData(t, args, helpers, env, yamlLoad, jsonParse)
    case Fail(e) => Ran(Fail(e), t, [])
    case Ok(g) => AfterGather(t, args, g, evaluate, render)
  }

  /** The blueprints, then the generation. */
  function AfterGather(t: Tree, args: Args, g: Gathered, evaluate: Evaluate,
                       render: (string, Record) -> Result<string>): (r: Ran)
    requires forall i :: 0 <= i < |g.helpersData| ==> g.helpersData[i].1.Func?
    ensures r.result.Ok? ==> r.result.value.registeredHelpers == Keys(g.helpersData)
  {
    var bp := LoadedBlueprints(t, args, g, evaluate);
    if bp.result.Fail? then Ran(Fail(bp.result.error), t, [])
    else Finish(t, args, g, bp, render)
  }

  /** The generation and the `Result` object. */
  function Finish(t: Tree, args: Args, g: Gathered, bp: Loaded, render: (string, Record) -> Result<string>): (r: Ran)
    ensures r.result.Ok? ==> r.result.value.registeredHelpers == Keys(g.helpersData)
  {
    var o := Generation(t, args, g, bp, render);
    match o.result
    case Fail(e) => Ran(Fail(e), o.tree, o.ops)
    case Ok(files) => Ran(Ok(RunResult(Keys(g.helpersData), g.inputData, files)), o.tree, o.ops)
  }

  /**
   * `run(args)` on the file system and the global Handlebars environment
   * `hbs`. The collected helpers are registered as soon as they are
   * collected, so a later failure leaves them registered.
   */
  method Run(fs: FileSystem, hbs: Instance, args: Args, env: Record, load: string -> Result<Record>,
             yamlLoad: string -> Result<Record>, jsonParse: string -> Option<Value>,
             evaluate: Evaluate, render: (string, Record) -> Result<string>)
    returns (r: Result<RunResult>)
    requires ModuleLoader(load)
    modifies fs, hbs
    ensures var o := RunOutcome(old(fs.tree), args, env, load, yamlLoad, jsonParse, evaluate, render);
      r == o.result && fs.tree == o.tree
    ensures hbs.helpers == HelperTable(old(hbs.helpers), load, args.customHelpers)
  {
    ghost var t0 := fs.tree;
    var usedPaths: seq<string> := [];

    var helpersData := CollectHelpers(load, args.customHelpers);
    if helpersData.Fail? {
      return Fail(helpersData.error);
    }
    HelpersAreFunctions(load, args.customHelpers);
    var registeredHelpers := ProcessRegisterHelpers(hbs, helpersData.value);
    usedPaths := usedPaths + args.customHelpers;

    r := GatherAndGenerate(fs, args, registeredHelpers, helpersData.value, env, yamlLoad, jsonParse,
                           usedPaths, evaluate, render);
  }

  /** `run` after the helpers are registered, with `usedPaths` holding the helper paths. */
  method GatherAndGenerate(fs: FileSystem, args: Args, registeredHelpers: seq<string>, helpersData: Record,
                           env: Record, yamlLoad: string -> Result<Record>, jsonParse: string -> Option<Value>,
                           usedPaths: seq<string>, evaluate: Evaluate, render: (string, Record) -> Result<string>)
    returns (r: Result<RunResult>)
    requires forall i :: 0 <= i < |helpersData| ==> helpersData[i].1.Func?
    requires registeredHelpers == Keys(helpersData)
    requires usedPaths == args.customHelpers
    modifies fs
    ensures var o := AfterHelpers(old(fs.tree), args, helpersData, env, yamlLoad, jsonParse, evaluate, render);
      r == o.result && fs.tree == o.tree
  {
    ghost var t0 := fs.tree;
    var used := usedPaths;
    var inputs := CollectInputData(fs.tree, yamlLoad, args.inputs);
    if inputs.Fail? {
      return Fail(inputs.error);
    }
    var consolidatedData := Put(inputs.value, "_env", Obj(NaturalCast(env, jsonParse)));
    used := used + args.inputs;

    var preloads := CollectPreloads(fs.tree, args.preloads);
    if preloads.Fail? {
      return Fail(preloads.error);
    }
    used := used + args.preloads;

    var sources := CollectSources(fs.tree, args.templateDir, args.templates);
    if sources.Fail? {
      return Fail(sources.error);
    }
    used := used + args.templates;

    ghost var g := Gathered(helpersData, consolidatedData, preloads.value, sources.value);
    assert GatherData(t0, args, helpersData, env, yamlLoad, jsonParse) == Ok(g);
    r := LoadAndGenerate(fs, args, registeredHelpers, helpersData, consolidatedData, preloads.value, sources.value,
                         used, evaluate, render);
  }

  /** `run` from `loadBlueprints` on, with `usedPaths` holding the paths given so far. */
  method LoadAndGenerate(fs: FileSystem, args: Args, registeredHelpers: seq<string>, helpersData: Record,
                         consolidatedData: Record, preloads: Record, sources: Record, usedPaths: seq<string>,
                         evaluate: Evaluate, render: (string, Record) -> Result<string>)
    returns (r: Result<RunResult>)
    requires forall i :: 0 <= i < |helpersData| ==> helpersData[i].1.Func?
    requires registeredHelpers == Keys(helpersData)
    requires usedPaths == args.customHelpers + args.inputs + args.preloads + args.templates
    modifies fs
    ensures var o := AfterGather(old(fs.tree), args, Gathered(helpersData, consolidatedData, preloads, sources), evaluate, render);
      r == o.result && fs.tree == o.tree
  {
    ghost var t0 := fs.tree;
    ghost var g := Gathered(helpersData, consolidatedData, preloads, sources);
    var plan := new Plan([], []);
    var loaded := LoadBlueprints(plan, fs, args.templateDir, args.blueprints, helpersData, consolidatedData, evaluate);
    ghost var bp := Loaded(loaded, plan.sources, plan.preloads);
    assert bp == LoadedBlueprints(t0, args, g, evaluate);
    if loaded.Fail? {
      return Fail(loaded.error);
    }
    var used := usedPaths + args.blueprints;
    used := used + Keys(plan.preloads);
    used := used + TemplatePaths(GetValues(plan.sources));
    assert used == UsedPaths(args, bp);

    var generatedFiles := ProcessSource(fs, args.outputDir, consolidatedData,
                                        JoinPreloaded(MergeRecord(preloads, plan.preloads)), used, render,
                                        MergeRecord(sources, plan.sources));
    if generatedFiles.Fail? {
      return Fail(generatedFiles.error);
    }
    r := Ok(RunResult(registeredHelpers, consolidatedData, generatedFiles.value));
  }

  // ---------------------------------------------------------------------
  // What `run` promises

  /** The stages before generation: the helpers, the data, and the blueprints. */
  function Stages(t: Tree, args: Args, env: Record, load: string -> Result<Record>,
                  yamlLoad: string -> Result<Record>, jsonParse: string -> Option<Value>,
                  evaluate: Evaluate): Result<(Gathered, Loaded)>
    requires ModuleLoader(load)
  {
    match CollectHelpers(load, args.customHelpers)
    case Fail(e) => Fail(e)
    case Ok(helpers) =>
      HelpersAreFunctions(load, args.customHelpers);
      match GatherData(t, args, helpers, env, yamlLoad, jsonParse)
      case Fail(e) => Fail(e)
      case Ok(g) =>
        var bp := LoadedBlueprints(t, args, g, evaluate);
        if bp.result.Fail? then Fail(bp.result.error) else Ok((g, bp))
  }

  /**
   * A failure before generation rejects `run` with that error, writes
   * nothing and leaves the tree as it was; otherwise `run` is the
   * generation over the staged data.
   */
  lemma RunStages(t: Tree, args: Args, env: Record, load: string -> Result<Record>,
                  yamlLoad: string -> Result<Record>, jsonParse: string -> Option<Value>,
                  evaluate: Evaluate, render: (string, Record) -> Result<string>)
    requires ModuleLoader(load)
    ensures var st := Stages(t, args, env, load, yamlLoad, jsonParse, evaluate);
      var r := RunOutcome(t, args, env, load, yamlLoad, jsonParse, evaluate, render);
      (st.Fail? ==> r == Ran(Fail(st.error), t, [])) &&
      (st.Ok? ==> r == Finish(t, args, st.value.0, st.value.1, render))
  {
  }

  /** The helpers gathered are the ones collected, and `_env` is the only key the environment touches. */
  lemma GatheredData(t: Tree, args: Args, helpers: Record, env: Record,
                     yamlLoad: string -> Result<Record>, jsonParse: string -> Option<Value>, k: string)
    requires GatherData(t, args, helpers, env, yamlLoad, jsonParse).Ok?
    ensures var g := GatherData(t, args, helpers, env, yamlLoad, jsonParse).value;
      CollectInputData(t, yamlLoad, args.inputs).Ok? &&
      g.helpersData == helpers &&
      Get(g.inputData, k) ==
        if k == "_env" then Some(Obj(NaturalCast(env, jsonParse))) else Get(CollectInputData(t, yamlLoad, args.inputs).value, k)
  {
    ConsolidateGet(CollectInputData(t, yamlLoad, args.inputs).value, env, jsonParse, k);
  }

  /**
   * On success, the registered helper names are the collected helper
   * names: exactly the names some helper module exports a function under.
   */
  lemma RunHelpers(t: Tree, args: Args, env: Record, load: string -> Result<Record>,
                   yamlLoad: string -> Result<Record>, jsonParse: string -> Option<Value>,
                   evaluate: Evaluate, render: (string, Record) -> Result<string>)
    requires ModuleLoader(load)
    ensures var r := RunOutcome(t, args, env, load, yamlLoad, jsonParse, evaluate, render).result;
      r.Ok? ==>
        CollectHelpers(load, args.customHelpers).Ok? &&
        r.value.registeredHelpers == Keys(CollectHelpers(load, args.customHelpers).value) &&
        forall name :: name in r.value.registeredHelpers <==> ExportedHelper(load, args.customHelpers, name)
  {
    RunStages(t, args, env, load, yamlLoad, jsonParse, evaluate, render);
    var st := Stages(t, args, env, load, yamlLoad, jsonParse, evaluate);
    if st.Ok? {
      StagedHelpers(t, args, env, load, yamlLoad, jsonParse, evaluate);
    }
  }

  /** Some helper module exports a function under `name`. */
  predicate ExportedHelper(load: string -> Result<Record>, paths: seq<string>, name: string) {
    exists i :: 0 <= i < |paths| && load(Resolve(paths[i])).Ok? && HasKey(FunctionExports(load(Resolve(paths[i])).value), name)
  }

  /** The helpers the stages carry are the collected ones, named as their modules export them. */
  lemma StagedHelpers(t: Tree, args: Args, env: Record, load: string -> Result<Record>,
                      yamlLoad: string -> Result<Record>, jsonParse: string -> Option<Value>, evaluate: Evaluate)
    requires ModuleLoader(load)
    requires Stages(t, args, env, load, yamlLoad, jsonParse, evaluate).Ok?
    ensures var g := Stages(t, args, env, load, yamlLoad, jsonParse, evaluate).value.0;
      CollectHelpers(load, args.customHelpers).Ok? &&
      g.helpersData == CollectHelpers(load, args.customHelpers).value &&
      forall name :: name in Keys(g.helpersData) <==> ExportedHelper(load, args.customHelpers, name)
  {
    var h := CollectHelpers(load, args.customHelpers).value;
    forall name
      ensures name in Keys(h) <==> ExportedHelper(load, args.customHelpers, name)
    {
      CollectedHelpers(load, args.customHelpers, name);
      assert name in Keys(h) <==> HasKey(h, name);
    }
  }

  /**
   * A successful generation reports the collected helper names, the
   * consolidated data, and one message per planned source in order: its
   * output path or a warning naming it.
   */
  lemma FinishResult(t: Tree, args: Args, g: Gathered, bp: Loaded, render: (string, Record) -> Result<string>)
    ensures var r := Finish(t, args, g, bp, render).result;
      var planned := Planned(g, bp);
      r.Ok? ==>
        r.value.registeredHelpers == Keys(g.helpersData) && r.value.consolidatedData == g.inputData &&
        |r.value.generatedFiles| == |planned| &&
        forall i :: 0 <= i < |planned| ==> NamesOutput(args.outputDir, planned[i].0, r.value.generatedFiles[i])
  {
    var o := Generation(t, args, g, bp, render);
    if o.result.Ok? {
      GenerateAllMessages(t, args.outputDir, g.inputData, Preloaded(g, bp), UsedPaths(args, bp), render, Planned(g, bp));
    }
  }

  /**
   * No file `run` writes resolves to a file it used: a helper module, an
   * input, a preload, a template, a blueprint, a preload a blueprint
   * declared, or the template of a blueprint source. Every written file is
   * the output path of a planned source and holds non-blank text.
   */
  lemma FinishWrites(t: Tree, args: Args, g: Gathered, bp: Loaded, render: (string, Record) -> Result<string>)
    ensures var ops := Finish(t, args, g, bp, render).ops;
      forall op :: op in ops && op.WriteOp? ==>
        |Trim(op.content)| > 0 &&
        (exists k :: HasKey(Planned(g, bp), k) && op.path == Join(args.outputDir, k)) &&
        forall p :: (p in args.customHelpers || p in args.inputs || p in args.preloads || p in args.templates ||
                     p in args.blueprints || HasKey(bp.preloads, p) || p in TemplatePaths(GetValues(bp.sources))) ==>
          Resolve(p) != Resolve(op.path)
  {
    var used := UsedPaths(args, bp);
    var planned := Planned(g, bp);
    GenerateAllWrites(t, args.outputDir, g.inputData, Preloaded(g, bp), used, render, planned);
    var ops := Finish(t, args, g, bp, render).ops;
    forall op | op in ops && op.WriteOp?
      ensures (exists k :: HasKey(planned, k) && op.path == Join(args.outputDir, k)) &&
        forall p :: (p in args.customHelpers || p in args.inputs || p in args.preloads || p in args.templates ||
                     p in args.blueprints || HasKey(bp.preloads, p) || p in TemplatePaths(GetValues(bp.sources))) ==>
          Resolve(p) != Resolve(op.path)
    {
      var i :| 0 <= i < |planned| && op.path == Join(args.outputDir, planned[i].0);
      assert HasKey(planned, planned[i].0);
      forall p | p in used
        ensures Resolve(p) != Resolve(op.path)
      {
        var j :| 0 <= j < |used| && used[j] == p;
      }
      forall p | HasKey(bp.preloads, p) ensures p in used {
        var j :| 0 <= j < |bp.preloads| && bp.preloads[j].0 == p;
        assert Keys(bp.preloads)[j] == p;
      }
    }
  }

  /**
   * The planned sources: a key no blueprint renders keeps its direct
   * source; a key only a blueprint renders takes the blueprint's source;
   * a key both plan takes the blueprint's template, with the direct
   * extraData overlaid by the blueprint's.
   */
  lemma PlannedSource(g: Gathered, bp: Loaded, k: string, t1: string, e1: Record, t2: string, e2: Record)
    requires UniqueKeys(bp.sources)
    ensures !HasKey(bp.sources, k) ==> Get(Planned(g, bp), k) == Get(g.sources, k)
    ensures HasKey(bp.sources, k) && !HasKey(g.sources, k) ==> Get(Planned(g, bp), k) == Get(bp.sources, k)
    ensures Get(g.sources, k) == Some(SourceValue(t1, e1)) && Get(bp.sources, k) == Some(SourceValue(t2, e2)) ==>
      Get(Planned(g, bp), k) == Some(SourceValue(t2, MergeRecord(e1, e2)))
  {
    MergeGet(g.sources, bp.sources, k);
    MergeSourceValues(t1, e1, t2, e2);
  }

  /** Merging entries under fresh keys appends them in order. */
  lemma {:induction false} MergeFromDisjoint(a: Record, b: Record, i: nat)
    requires UniqueKeys(b) && i <= |b|
    requires forall j :: 0 <= j < |b| ==> !HasKey(a, b[j].0)
    ensures MergeFrom(a + b[..i], Obj(b), i) == a + b
    decreases |b| - i
  {
    if i < |b| {
      var k := b[i].0;
      var base := a + b[..i];
      forall j | 0 <= j < |base| ensures base[j].0 != k {
        if j < |a| {
          assert base[j] == a[j];
        }
      }
      PutAbsent(base, k, b[i].1);
      assert base + [(k, b[i].1)] == a + b[..i + 1];
      MergeFromDisjoint(a, b, i + 1);
    } else {
      assert b[..i] == b;
    }
  }

  lemma {:induction false} JoinPreloadedAppend(a: Record, b: Record)
    ensures JoinPreloaded(a + b) == JoinPreloaded(a) + JoinPreloaded(b)
    decreases |b|
  {
    if b == [] {
      assert a + b == a;
    } else {
      var n := |b| - 1;
      assert (a + b)[..|a + b| - 1] == a + b[..n];
      JoinPreloadedAppend(a, b[..n]);
    }
  }

  /**
   * The preloaded text: when no blueprint declares a preload given
   * directly, the direct preloads' texts come first, then the blueprint
   * preloads' texts, each in their own order.
   */
  lemma PreloadedOrder(g: Gathered, bp: Loaded)
    requires UniqueKeys(bp.preloads)
    requires forall j :: 0 <= j < |bp.preloads| ==> !HasKey(g.preloads, bp.preloads[j].0)
    ensures Preloaded(g, bp) == JoinPreloaded(g.preloads) + JoinPreloaded(bp.preloads)
  {
    MergeFromDisjoint(g.preloads, bp.preloads, 0);
    assert g.preloads + bp.preloads[..0] == g.preloads;
    JoinPreloadedAppend(g.preloads, bp.preloads);
  }

  /**
   * The usedPaths as written do not guard a blueprint preload: with the
   * preload map the blueprint tests produce, the only entry pushed is the
   * text '// preloaded.', and an output at the preload file's own path
   * passes the overwrite guard. With the keys pushed, it does not.
   */
  lemma PreloadTextNotGuarded()
    ensures var args := Args("path/", "out", [], [], [], [], []);
      var bp := Loaded(Ok(()), [], [("path/to/test.txt", Str("// preloaded."))]);
      UsedPathsAsWritten(args, bp) == ["// preloaded."] &&
      !OverwritesInput(UsedPathsAsWritten(args, bp), "path/to/test.txt") &&
      OverwritesInput(UsedPaths(args, bp), "path/to/test.txt")
  {
    var args := Args("path/", "out", [], [], [], [], []);
    var bp := Loaded(Ok(()), [], [("path/to/test.txt", Str("// preloaded."))]);
    UsedPathsOfExample(args, bp);
    TextNotGuarded();
    var path: seq<string> := ["path/to/test.txt"];
    assert Resolve(path[0]) == Resolve("path/to/test.txt");
  }

  /** The preloaded text resolves to '/ preloaded.', not to the preload file. */
  lemma TextNotGuarded()
    ensures !OverwritesInput(["// preloaded."], "path/to/test.txt")
  {
    TextAndPathDiffer("// preloaded.", "path/to/test.txt");
    NotGuardedBy("// preloaded.", "path/to/test.txt");
  }

  lemma NotGuardedBy(p: string, out: string)
    requires Resolve(p) != Resolve(out)
    ensures !OverwritesInput([p], out)
  {
  }

  lemma UsedPathsOfExample(args: Args, bp: Loaded)
    requires args == Args("path/", "out", [], [], [], [], [])
    requires bp == Loaded(Ok(()), [], [("path/to/test.txt", Str("// preloaded."))])
    ensures UsedPathsAsWritten(args, bp) == ["// preloaded."]
    ensures UsedPaths(args, bp) == ["path/to/test.txt"]
  {
    assert Keys(bp.preloads) == ["path/to/test.txt"];
    assert Texts(bp.preloads) == ["// preloaded."];
    assert GetValues(bp.sources) == [];
  }
}
