/**
 * src/lib/dataFetcher.ts: the older generation of the data collectors.
 * It keeps a module-level record of every path that `collectData` has
 * read, and its template fetcher hands `.blueprint` files to the
 * blueprint loader.
 */
module DataFetcher {
  import opened Wrappers
  import opened Dict
  import opened Strings
  import opened Paths
  import opened DataOperator
  import opened FileSys
  import opened Source

  /** The record `INPUT_PATHS`; one object stands for the module. */
  class InputPaths {
    var paths: seq<string>

    /** The record holds no path twice. */
    predicate Valid()
      reads this
    {
      NoDup(paths)
    }

    /** Module initialisation runs `initInputPaths` once. */
    constructor()
      ensures paths == [] && Valid()
    {
      paths := [];
    }

    /** `initInputPaths`: forget every recorded path. */
    method InitInputPaths()
      modifies this
      ensures paths == [] && Valid()
    {
      paths := [];
    }

    /** `getInputPaths`: sort the record in place and hand it out. */
    method GetInputPaths() returns (r: seq<string>)
      requires Valid()
      modifies this
      ensures paths == Sort(old(paths)) && r == paths
      ensures Sorted(r) && Valid()
    {
      SortKeepsNoDup(paths);
      paths := Sort(paths);
      r := paths;
    }

    /**
     * `collectData`: fetch and merge every path; only once every fetch
     * has succeeded are the paths added to the record.
     */
    method CollectData(ps: seq<string>, fetch: string -> Result<Record>) returns (r: Result<Record>)
      modifies this
      ensures r == Collect(ps, fetch)
      ensures r.Ok? ==> paths == Uniq(old(paths) + ps)
      ensures r.Fail? ==> paths == old(paths)
      ensures old(Valid()) ==> Valid()
    {
      r := DataOperator.CollectData(ps, fetch);
      if r.Ok? {
        paths := Uniq(paths + ps);
      }
    }
  }

  /**
   * Recording new paths keeps the old record as its prefix, adds exactly
   * the new paths and repeats none.
   */
  lemma RecordPaths(before: seq<string>, ps: seq<string>)
    requires NoDup(before)
    ensures |before| <= |Uniq(before + ps)| && Uniq(before + ps)[..|before|] == before
    ensures NoDup(Uniq(before + ps))
    ensures forall x :: x in Uniq(before + ps) <==> x in before || x in ps
  {
    UniqPrefix(before, ps);
    UniqOfNoDup(before);
  }

  /** Handing the record out twice gives the same list. */
  lemma GetInputPathsStable(paths: seq<string>)
    requires NoDup(paths)
    ensures Sort(Sort(paths)) == Sort(paths)
    ensures NoDup(Sort(paths)) && multiset(Sort(paths)) == multiset(paths)
  {
    SortIdempotent(paths);
    SortKeepsNoDup(paths);
  }

  /** `p.basename(template) === '.blueprint'`. */
  predicate IsBlueprint(template: string) {
    Basename(template) == ".blueprint"
  }

  /** The two checks that come before the blueprint test. */
  predicate AcceptedTemplate(t: Tree, tmplDir: string, template: string) {
    StatNode(t, template).Ok? && StatNode(t, template).value.File? &&
    InsideTemplateDir(Dirname(Resolve(template)), tmplDir)
  }

  /**
   * `generateDataFetcherFactory(tmplDir, inputData)(template)`, with
   * `loadBlueprint(tmplDir, template, inputData)` given as a parameter.
   */
  function GenerateDataFetch(t: Tree, tmplDir: string, inputData: Record,
                             loadBlueprint: (string, string, Record) -> Result<Record>,
                             template: string): (r: Result<Record>)
    ensures !AcceptedTemplate(t, tmplDir, template) ==> r == SourceFetch(t, tmplDir, template)
    ensures !IsBlueprint(template) ==> r == SourceFetch(t, tmplDir, template)
    ensures AcceptedTemplate(t, tmplDir, template) && IsBlueprint(template) ==>
      r == loadBlueprint(tmplDir, template, inputData)
  {
    match StatNode(t, template)
    case Fail(e) => Fail(e)
    case Ok(node) =>
      if !node.File? then
        Fail(RuntimeError("Template path '" + template + "' is directory or it may be broken."))
      else if !InsideTemplateDir(Dirname(Resolve(template)), tmplDir) then
        Fail(RuntimeError("Template path '" + template + "' is not located inside the '" + tmplDir + "'."))
      else if IsBlueprint(template) then
        loadBlueprint(tmplDir, template, inputData)
      else
        var outBasename := StripTemplateSuffix(Basename(template));
        if outBasename == "" then
          Fail(RuntimeError("Template file '" + template + "' become empty file name when .hbs/.handlebars exention is removed."))
        else
          Ok([(OutputKey(tmplDir, template), SourceValue(template, []))])
  }

  /**
   * A rejected template fails the same way whichever loader is given: the
   * loader is consulted only after both checks pass.
   */
  lemma RejectedBeforeLoader(t: Tree, tmplDir: string, inputData: Record,
                             l1: (string, string, Record) -> Result<Record>,
                             l2: (string, string, Record) -> Result<Record>, template: string)
    requires !AcceptedTemplate(t, tmplDir, template)
    ensures GenerateDataFetch(t, tmplDir, inputData, l1, template).Fail?
    ensures GenerateDataFetch(t, tmplDir, inputData, l1, template) ==
            GenerateDataFetch(t, tmplDir, inputData, l2, template)
  {
  }
}
