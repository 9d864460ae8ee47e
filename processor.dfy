/**
 * src/lib/processor.ts: the older generation of the per-entry
 * processers. The generator here consults the recorded input paths of
 * `DataFetcher` and renders the template file without a preload prefix.
 */
module Processor {
  import opened Wrappers
  import opened Dict
  import opened Strings
  import opened Paths
  import opened DataOperator
  import opened FileSys
  import opened Source
  import opened DataFetcher

  /** Whether an output lands on a recorded path does not depend on the order of the record. */
  lemma OverwritesSorted(paths: seq<string>, out: string)
    ensures OverwritesInput(Sort(paths), out) <==> OverwritesInput(paths, out)
  {
    var s := Sort(paths);
    if OverwritesInput(paths, out) {
      var i :| 0 <= i < |paths| && Resolve(paths[i]) == Resolve(out);
      assert paths[i] in multiset(paths);
      assert paths[i] in s;
      var j :| 0 <= j < |s| && s[j] == paths[i];
    }
    if OverwritesInput(s, out) {
      var j :| 0 <= j < |s| && Resolve(s[j]) == Resolve(out);
      assert s[j] in multiset(s);
      assert s[j] in paths;
      var i :| 0 <= i < |paths| && paths[i] == s[j];
    }
  }

  /** So one generation step is the same against the record and against its sorted copy. */
  lemma GenerateStepSorted(t: Tree, outDir: string, inputData: Record, paths: seq<string>,
                           render: (string, Record) -> Result<string>, outPath: string, source: Value)
    ensures GenerateStep(t, outDir, inputData, "", Sort(paths), render, outPath, source) ==
            GenerateStep(t, outDir, inputData, "", paths, render, outPath, source)
  {
    OverwritesSorted(paths, Join(outDir, outPath));
  }

  /**
   * The text rendered is the template file alone, against the input data
   * overlaid with the entry's extraData.
   */
  lemma RenderedWithoutPreload(t: Tree, inputData: Record, render: (string, Record) -> Result<string>,
                               source: Value, template: string, text: string)
    requires TemplateOf(source) == Ok(template) && ReadText(t, template) == Ok(text)
    ensures Rendered(t, inputData, "", render, source) == render(text, RenderData(inputData, source))
  {
    assert "" + text == text;
  }

  /** An extraData leaf that is not an object overrides the input's value under its key. */
  lemma ExtraDataOverrides(inputData: Record, source: Value, key: string, v: Value)
    requires UniqueKeys(ExtraOf(source)) && Get(ExtraOf(source), key) == Some(v) && !v.Obj?
    ensures Get(RenderData(inputData, source), key) == Some(v)
  {
    NonObjectWins(inputData, ExtraOf(source), key, v);
  }

  /**
   * `generateProcesserFactory(outDir, inputData)(outPath, source)`: the
   * guard asks `getInputPaths()`, which sorts the record in place.
   */
  method GenerateProcesser(fs: FileSystem, registry: InputPaths, outDir: string, inputData: Record,
                           render: (string, Record) -> Result<string>, outPath: string, source: Value)
    returns (r: Result<string>)
    requires registry.Valid()
    modifies fs, registry
    ensures registry.paths == Sort(old(registry.paths)) && registry.Valid()
    ensures var o := GenerateStep(old(fs.tree), outDir, inputData, "", old(registry.paths), render, outPath, source);
      r == o.result && fs.tree == o.tree && fs.log == old(fs.log) + o.ops
  {
    ghost var before := registry.paths;
    var used := registry.GetInputPaths();
    GenerateStepSorted(fs.tree, outDir, inputData, before, render, outPath, source);
    r := SourceProcesser(fs, outDir, inputData, "", used, render, outPath, source);
  }
}
