# hbs_scaffold_cli: the generation pipeline, modelled in Dafny

The project models the generation pipeline of `hbs_scaffold_cli`, a TypeScript
scaffolder. The scaffolder renders Handlebars templates against consolidated
YAML/JSON data and writes one output file per template. The model covers:

- `Data` records and `mergeData`, the lodash `mergeWith` where the later array
  wins (`DataOperator`).
- `collectData`, `processData` and `getValues` (`DataOperator`).
- The input, helper, preload and template data fetchers (`InputData`,
  `CustomHelper`, `Preload`, `Source`).
- The older generation of fetchers, with their module-level record of input
  paths (`DataFetcher`, `Processor`).
- Blueprints. A blueprint is a Handlebars file whose `render` and `preload`
  helpers plan extra outputs and declare preload fragments (`Blueprint`).
- The per-entry processer, which guards against overwriting a used file,
  renders, skips a blank result, then runs `mkdir -p` and writes (`Source`).
- The orchestration `run(args)` (`Main`).
- The command-line helpers `getStringArray`, `resolveGlobs` and
  `getPrefixPath` (`CliUtil`).

Some modules support the rest:

- `Dict` models a JavaScript plain object as an ordered list of entries.
- `Strings` models `startsWith`, the default `sort()`, `_.uniq`, `trim()` and
  `join('')`.
- `Paths` models the POSIX `path` functions with a fixed working directory
  `/work`.
- `FileSys` models `fs/promises` over a map from resolved path to node. A
  `FileSystem` object keeps a log of the calls made on it.
- `Hbs` models a Handlebars environment's helper table.

## Modelling choices

- **Parameters.**
  - Handlebars compiling and rendering is the parameter `render`. Blueprint
    evaluation is the parameter `evaluate`. It yields the `render` and
    `preload` helper calls in the order the template makes them, and the
    error of anything else that threw part-way, such as a user helper.
  - Outside code also comes in as parameters: js-yaml `load` (`yamlLoad`),
    `JSON.parse` (`jsonParse`), fast-glob (`fg`), dynamic `import()` (`load`)
    and `process.env` (`env`).
- **Module-level state.**
  - `INPUT_PATHS` in `dataFetcher.ts` is the class `DataFetcher.InputPaths`.
  - `PRELOADS` in `preload.ts` is `Preload.PreloadStore`.
  - The records that `loadBlueprints` fills in place are `Blueprint.Plan`.
  - The global Handlebars environment is an `Hbs.Instance`.
- **Absent callees.** `main.ts` and `blueprint.ts` call functions that the
  modules they import do not define:
  - `collectPreloads`, `joinPreloaded` and `preloadDataFetcher` (from
    `preload.ts`);
  - `getDataValues` (from `dataOperator.ts`, which defines `getValues`);
  - a four-argument `loadBlueprints` that returns `{sources, preloads}`;
  - `loadBlueprint(tmplDir, template, inputData)` (from `dataFetcher.ts`).

  Each is modelled with the behaviour its call site and the tests rely on:
  - `collectPreloads` is `collectData` over a fetcher that maps a path to its
    text.
  - `joinPreloaded` joins the text values in entry order.
  - `getDataValues` is `getValues`.
  - `loadBlueprints` starts from empty records.
  - `loadBlueprint` is a parameter.
- **Behaviour of the code that the model keeps.**
  - *Template-root containment.* The code checks
    `dirname(resolve(t)).startsWith(resolve(tmplDir))`, a string-prefix test.
    So `/work/tmpl2/x` passes as "located inside" `/work/tmpl`, although the
    error message at `src/lib/source.ts:34` speaks of a location inside the
    directory. See `Source.InsideTemplateDir` and `Blueprint.BlueprintInside`.
  - *Suffix stripping.* `replace(/(\.hbs|\.handlebars)/i, '')` removes the
    first case-insensitive occurrence of `.hbs` or `.handlebars` anywhere in
    the base name, not only a trailing extension. See `Source.StripLeftmost`
    and `Source.StripNotIdempotent`.
  - *`mergeData` mutates its first argument.* lodash `mergeWith` updates
    `from` in place and returns it. `DataOperator.MergeRecord` is the state
    of `from` afterwards.
  - *Preload order.* Direct preloads are joined in the order `collectData`
    produces, which is argument order. The command line sorts glob results
    before they reach `run`. See `Main.PreloadedOrder`.
- **Where the model does not follow the code.** The Findings below are
  bugs in the code. The generation members of the model run the corrected
  behaviour. Each is listed under "## Left out" by name.
  - Every entry is rendered with the input data overlaid by its own
    extraData (`Source.RenderData`). The code instead accumulates extraData
    in the shared `inputData` (`src/lib/source.ts:85`, `src/lib/processor.ts:67`).
  - The overwrite guard gets the blueprint preload paths (`Main.UsedPaths`).
    The code pushes the preloaded texts instead (`src/lib/main.ts:77`,
    modelled as written by `Main.UsedPathsAsWritten`).

## Model

| member | source | states |
|---|---|---|
| DataOperator.MergeGet | src/lib/dataOperator.ts:69-72 | key by key, `mergeData(from, to)`: a key only in `from` keeps its value, a key only in `to` takes `to`'s value, a key in both takes the combination (objects merge recursively, anything else from `to` replaces) |
| DataOperator.ArrayWins | src/lib/dataOperator.ts:70-71 | an array in `to` is stored as it is, never concatenated with or merged into the earlier value |
| DataOperator.ObjectsMerge | src/lib/dataOperator.ts:71 | two plain objects under the same key merge recursively |
| DataOperator.NonObjectWins | src/lib/dataOperator.ts:71 | a scalar, array or function in `to` wins over whatever `from` held |
| DataOperator.MergeHasKey | src/lib/dataOperator.ts:69-72 | the keys of the merge are exactly the keys of either side |
| DataOperator.MergeKeepsKeys | src/lib/dataOperator.ts:69-72 | every key of either side survives the merge, even in a malformed record with repeated keys |
| DataOperator.MergeKeysPrefix | src/lib/dataOperator.ts:69-72 | `from`'s keys keep their positions; new keys are appended after them (insertion order) |
| DataOperator.MergeRecord | src/lib/dataOperator.ts:69-72 | `mergeData(from, to)` as the state of `from` afterwards; merging into an object with unique keys gives unique keys (contents key by key in `MergeGet`) |
| DataOperator.MergeIdentity | src/lib/dataOperator.ts:69-72 | `{}` is a left and a right identity of `mergeData` |
| DataOperator.FetchAll | src/lib/dataOperator.ts:27 | `Promise.all` of the fetches succeeds exactly when every fetch does, with one record per path in path order; a rejection carries the error of some failing path |
| DataOperator.Collect | src/lib/dataOperator.ts:26-33 | what `collectData` settles to; a collected record has unique keys (failure in `CollectFailure`, later-wins in `CollectLaterWins`) |
| DataOperator.CollectData | src/lib/dataOperator.ts:26-33 | the loop fetches every path then folds `mergeData` from `{}` over the records in path order, returning the same result as the specification function `Collect` |
| DataOperator.FetchAllPrefixFails | src/lib/dataOperator.ts:27 | once some path's fetch has failed, the later paths do not change the outcome |
| DataOperator.CollectFailure | src/lib/dataOperator.ts:26-33 | no paths give `{}`; the collection fails exactly when some fetch fails |
| DataOperator.MergeAllUnique | src/lib/dataOperator.ts:28-31 | the collected record has unique keys |
| DataOperator.MergeAllHasKey | src/lib/dataOperator.ts:28-31 | a key is collected exactly when some fetched record has it |
| DataOperator.MergeAllLastWins | src/lib/dataOperator.ts:29-31 | later files win: the non-object value of the last record holding a key is the collected value |
| DataOperator.CollectLaterWins | src/lib/dataOperator.ts:26-33 | later files win for `collectData` over any fetcher whose records have unique keys |
| DataOperator.CollectExample | tests/lib/dataOperator.test.ts:40-43 | `{a:1,b:2}`, `{b:3,c:4}`, `{}` collect to `{a:1,b:3,c:4}` |
| DataOperator.ProcessAll | src/lib/dataOperator.ts:49-53 | one processer message per entry, in entry order; fails exactly when some entry's processer fails (the `processData` of `processor.ts:24-28` is the same) |
| DataOperator.GetValues | src/lib/dataOperator.ts:55-57 | the entry values, one per entry, in entry order |
| Dict.PutKeys | src/lib/blueprint.ts:74 | `d[k] = v` keeps an existing key in its place and appends a new key at the end |
| Dict.GetPut | src/lib/blueprint.ts:74 | after `d[k] = v`, `d[k]` is `v` and every other key reads as before |
| Dict.PutUnique | src/lib/blueprint.ts:74 | assignment keeps keys unique |
| Dict.PutAbsent | src/lib/blueprint.ts:47 | assigning a key the object lacks appends the entry |
| Strings.Sort | src/bin/cliUtil.ts:58 | `sort()` returns a sorted permutation of its input |
| Strings.Uniq | src/bin/cliUtil.ts:58 | `_.uniq` repeats no element and keeps exactly the input's elements |
| Strings.SortIdempotent | src/lib/dataFetcher.ts:42 | sorting the already sorted record again changes nothing |
| Strings.SortKeepsNoDup | src/lib/dataFetcher.ts:42 | sorting a duplicate-free list keeps it duplicate-free |
| Strings.UniqOfNoDup | src/lib/dataFetcher.ts:59 | `_.uniq` leaves a duplicate-free list as it is |
| Strings.UniqPrefix | src/lib/dataFetcher.ts:59 | what `_.uniq` keeps from a prefix comes first, in the same order |
| Strings.BlankIffAllWhitespace | src/lib/source.ts:86 | `output.trim().length === 0` holds exactly when every character is JavaScript whitespace |
| Strings.ConcatAppend | src/lib/preload.ts:23 | `join('')` of a concatenation is the concatenation of the joins |
| Paths.Resolve | src/lib/source.ts:33 | `path.resolve` always yields an absolute path |
| Paths.ResolveText | src/lib/main.ts:77 | the text `// preloaded.` resolved as a path is `/ preloaded.` |
| Paths.DirnameShrinks | src/bin/cliUtil.ts:74-77 | `dirname` of an absolute path other than `/` is absolute, strictly shorter and a prefix of it, so the climbing loop ends at `/` |
| Paths.TextAndPathDiffer | src/lib/main.ts:77 | the preloaded text `// preloaded.` and the preload file `path/to/test.txt` resolve to different paths |
| FileSys.StatNode | src/lib/source.ts:30 | `stat` succeeds exactly when the resolved path exists (the root always does) |
| FileSys.ReadText | src/lib/source.ts:84 | `readFile` succeeds exactly on a file and returns its content |
| FileSys.WriteText | src/lib/source.ts:90 | `writeFile` succeeds exactly when the parent is a directory and the path is not one, and then stores the content there |
| FileSys.MakeDirsResult | src/lib/source.ts:89 | a successful `mkdir -p` leaves the directory in place, adds only directories and changes no existing node |
| FileSys.MkdirThenWrite | src/lib/source.ts:89-90 | after `mkdir(dirname(out))` succeeds, writing `out` fails only when `out` is a directory |
| FileSys.FileSystem.Stat | src/lib/source.ts:30 | returns `StatNode` of the tree, changes nothing, logs the call |
| FileSys.FileSystem.ReadFile | src/lib/source.ts:84 | returns `ReadText` of the tree, changes nothing, logs the call |
| FileSys.FileSystem.Mkdir | src/lib/source.ts:89 | on success the tree becomes the `mkdir -p` result; on failure it is unchanged; the call is logged |
| FileSys.FileSystem.WriteFile | src/lib/source.ts:90 | on success the file holds the content; on failure the tree is unchanged; the call is logged |
| Hbs.Instance.constructor | src/lib/blueprint.ts:40 | `Handlebars.create()` starts with no user helpers |
| Hbs.Instance.RegisterHelper | src/lib/customHelper.ts:50 | a registration replaces any earlier helper of the same name and touches no other |
| CustomHelper.FunctionExports | src/lib/customHelper.ts:23-25 | exactly the function-valued exports are kept, in export order |
| CustomHelper.FunctionExportsUnique | src/lib/customHelper.ts:23-25 | filtering keeps a module's names unique |
| CustomHelper.HelpersFetch | src/lib/customHelper.ts:22-26 | the module at the resolved path is loaded; the fetch fails exactly when loading fails, and otherwise yields its function exports (the older fetcher at `dataFetcher.ts:81-85` is the same) |
| CustomHelper.CollectedHelpers | src/lib/customHelper.ts:36-38 | every collected helper is a function, and a name is collected exactly when some module exports a function under it |
| CustomHelper.MergeAllFunctions | src/lib/customHelper.ts:36-38 | merging records of functions yields only functions |
| CustomHelper.RegisterHelperProcesser | src/lib/customHelper.ts:48-53 | registers the function under its name in the given environment alone and resolves to the name (the older processer at `processor.ts:42-45` does the same on the global environment) |
| CustomHelper.RegisteredLookup | src/lib/customHelper.ts:63-65 | after registering a record, each of its names maps to its own function and every other name keeps its earlier helper |
| CustomHelper.ProcessRegisterHelpers | src/lib/customHelper.ts:63-65 | registers every entry in entry order and resolves to the entry names in order |
| InputData.Rethrown | src/lib/inputData.ts:25-31 | a `YAMLException` is rethrown as a `SyntaxError` with the same message; any other error unchanged |
| InputData.InputsFetchCases | src/lib/inputData.ts:19-33 | empty content gives `{}` without consulting the parser; other content gives the parser's record; parser errors pass through the rename; read errors such as ENOENT pass unchanged (the older fetcher at `dataFetcher.ts:97-111` is the same) |
| InputData.CollectInputLaterWins | src/lib/inputData.ts:43-45 | later input files win for scalars and arrays |
| InputData.NaturalCast | src/lib/inputData.ts:55-70 | the cast keeps every key, in order |
| InputData.NaturalCastEntry | src/lib/inputData.ts:57-67 | a parseable string becomes its parse, an unparseable one stays, a nested object is cast recursively, anything else stays |
| InputData.NaturalCastUnique | src/lib/inputData.ts:55-70 | the cast keeps keys unique |
| DataFetcher.InputPaths.constructor | src/lib/dataFetcher.ts:23-24 | the record starts empty |
| DataFetcher.InputPaths.InitInputPaths | src/lib/dataFetcher.ts:30-32 | the record is emptied |
| DataFetcher.InputPaths.GetInputPaths | src/lib/dataFetcher.ts:41-43 | the record is sorted in place and handed out: sorted, duplicate-free |
| DataFetcher.InputPaths.CollectData | src/lib/dataFetcher.ts:57-65 | returns `collectData`'s result; the paths are recorded (`_.uniq` of old and new) only when every fetch succeeded |
| DataFetcher.RecordPaths | src/lib/dataFetcher.ts:59 | recording keeps the old record as prefix, adds exactly the new paths and repeats none |
| DataFetcher.GetInputPathsStable | src/lib/dataFetcher.ts:41-43 | handing the record out twice gives the same list, a duplicate-free permutation of it |
| DataFetcher.GenerateDataFetch | src/lib/dataFetcher.ts:124-143 | a rejected template or a non-blueprint behaves as the template fetcher; an accepted `.blueprint` file is handed to the blueprint loader |
| DataFetcher.RejectedBeforeLoader | src/lib/dataFetcher.ts:127-132 | a template that fails the file or directory test fails the same way whatever loader is given |
| Source.MergeSourceValues | src/lib/main.ts:83 | merging two planned entries under one key keeps the later template and merges the extraData records |
| Source.FirstSuffix | src/lib/source.ts:36 | a match found from a position starts at or after it and spans exactly `.hbs` (4 characters) or `.handlebars` (11) inside the name |
| Source.StripLeftmost | src/lib/source.ts:36 | only the leftmost match is cut out of the base name |
| Source.StripNoMatch | src/lib/source.ts:36 | a name with no match is unchanged |
| Source.StripAt | src/lib/source.ts:36 | a match at the first dot is the one removed |
| Source.StripExamples | tests/lib/source.test.ts:74-96 | `file.HBS.handlebars.txt`, `file.handlebars.hbs.txt`, `file.txt` and `.handlebars` strip to `file.handlebars.txt`, `file.hbs.txt`, `file.txt` and the empty name |
| Source.StripNotIdempotent | src/lib/source.ts:36 | stripping twice can remove a second suffix, so the operation is not idempotent |
| Source.SourceFetch | src/lib/source.ts:28-42 | the fetch succeeds exactly for an existing file inside the template root whose stripped name is non-empty, yielding `{[relative dir / stripped name]: {template, extraData: {}}}`; the other checks fail with `RuntimeError`, and a `stat` failure passes unchanged |
| Source.CollectSources | src/lib/source.ts:52-54 | `collectSourcesFactory(tmplDir)`: rejects exactly when some template's fetch fails (contents in `CollectedSources`) |
| Source.CollectedSources | src/lib/source.ts:52-54 | every planned entry has an empty extraData; an output path is planned exactly when some template maps to it; of several, the last in path order wins |
| Source.GenerateStep | src/lib/source.ts:73-93 | a settled message is the output path or one of its two warnings; any write goes to the output path, to no used file, with non-blank text |
| Source.RenderStage | src/lib/source.ts:84-91 | after reading: a message is the output path or the blank warning; any write has non-blank text |
| Source.WriteStage | src/lib/source.ts:89-91 | the only write is the rendered output to `out`, and success reports `out` |
| Source.WarnIsNotOut | src/lib/source.ts:80-88 | neither warning equals the output path |
| Source.SkippedEntry | src/lib/source.ts:80-88 | a warned entry leaves the tree unchanged and only reads |
| Source.GuardedEntry | src/lib/source.ts:80-83 | an output resolving to a used file is skipped with the overwrite warning before any read |
| Source.WrittenEntry | src/lib/source.ts:84-91 | a written entry: read, then `mkdir` of the parent, then the file holds exactly the rendering of preload + template under the entry's render data |
| Source.MkdirFailureStops | src/lib/source.ts:89-90 | a failed `mkdir` rejects with its error and nothing is written |
| Source.SourceProcesser | src/lib/source.ts:73-93 | the processer on the file system: result, new tree and logged calls are those of `GenerateStep` |
| Source.RenderOutput | src/lib/source.ts:84-91 | the rest of the processer after the read, matching `RenderStage` |
| Source.WriteOutput | src/lib/source.ts:89-91 | `mkdir` then `writeFile`, matching `WriteStage` |
| Source.GenerateAll | src/lib/source.ts:111-119 | on success there is one message per planned entry |
| Source.GenerateAllStops | src/lib/source.ts:117-118 | after a failing entry, later entries change nothing |
| Source.ProcessSource | src/lib/source.ts:111-119 | the processer runs on every entry in entry order; result, tree and log are those of `GenerateAll` |
| Source.ProcessEntry | src/lib/source.ts:117-118 | one more entry extends the fold by exactly that entry's outcome |
| Source.GenerateAllMessages | src/lib/source.ts:111-119 | on success the i-th message names the i-th entry's output path (written or warned) |
| Source.GenerateAllWrites | src/lib/source.ts:111-119 | every file written is some entry's output path, resolves to no used file, and holds non-blank text |
| Source.RenderData | src/lib/source.ts:85 | corrected: the data one entry is rendered with; the input data's keys come first, in their order (key set in `RenderDataKeys`, overrides in `Processor.ExtraDataOverrides`) |
| Source.SharedRenderData | src/lib/source.ts:85 | as written: one render record per entry |
| Source.SharedRenderDataKeeps | src/lib/source.ts:85 | as written: every key of the shared input data stays in the render data of every entry |
| Source.SharedRenderDataLeaks | src/lib/source.ts:85 | as written: a key of an earlier entry's extraData stays in the render data of every later entry |
| Source.SharedRenderDataExample | src/lib/source.ts:85 | as written: the second of two entries is rendered with the first entry's `title` |
| Source.RenderDataKeys | src/lib/source.ts:85 | corrected: an entry sees exactly the keys of the input data and of its own extraData |
| Processor.OverwritesSorted | src/lib/processor.ts:64 | whether an output hits a recorded input path does not depend on the record's order |
| Processor.GenerateStepSorted | src/lib/processor.ts:63-73 | one generation step is the same against the record and its sorted copy |
| Processor.RenderedWithoutPreload | src/lib/processor.ts:67 | the older processer renders the template text alone |
| Processor.ExtraDataOverrides | src/lib/processor.ts:67 | a non-object extraData value overrides the input data under its key |
| Processor.GenerateProcesser | src/lib/processor.ts:60-75 | sorts the record in place, then behaves as the source processer without preload, guarded by the recorded paths |
| Preload.FirstFailureIff | src/lib/preload.ts:35-39 | `setPreloads` rejects exactly when some read fails, with a failing read's error |
| Preload.SuccessfulAll | src/lib/preload.ts:35-39 | when every read succeeds, one text is pushed per path, repeats included |
| Preload.PreloadStore.constructor | src/lib/preload.ts:6-7 | the list starts empty |
| Preload.PreloadStore.InitPreloads | src/lib/preload.ts:12-14 | the list is emptied, so the preload text is `''` |
| Preload.PreloadStore.GetPreload | src/lib/preload.ts:22-24 | the fragments joined with no separator; the list is left alone |
| Preload.PreloadStore.SetPreloads | src/lib/preload.ts:35-39 | every successfully read text is pushed; the call rejects when a read fails; earlier pushes stay; the tree is unchanged |
| Preload.CollectPreloads | src/lib/main.ts:67 | `collectPreloads`: rejects exactly when some preload cannot be read (contents in `CollectPreloadsGet`) |
| Preload.JoinPreloaded | src/lib/main.ts:82 | `joinPreloaded`: the texts of the record's values joined with no separator, in entry order |
| Preload.PreloadFetch | tests/lib/preload.test.ts:21-44 | a path maps to its text, an empty file included; a read error passes unchanged |
| Preload.CollectPreloadsEntries | tests/lib/preload.test.ts:46-56 | distinct readable paths collect to each path mapped to its text, in path order |
| Preload.CollectPreloadsGet | src/lib/main.ts:67 | a key is collected exactly when it is a given path, and maps to that file's text |
| Preload.JoinPreloadedEntries | src/lib/main.ts:82 | joining such a record concatenates the texts in path order |
| Preload.CollectThenJoin | src/lib/preload.ts:22-39 | collecting then joining gives what `setPreloads` then `getPreload` give on a fresh list |
| Preload.JoinPreloadedExample | tests/lib/preload.test.ts:62-65 | an empty preload text adds nothing to the join |
| Blueprint.PathArgument | src/lib/blueprint.ts:64 | a string argument is accepted as it is, anything else fails with `TypeError` |
| Blueprint.RenderTarget | src/lib/blueprint.ts:58-72 | `render` accepts a block and one argument or no block and two; the output key is the block text or first argument under the prefix; the template is joined to the blueprint directory; other shapes fail with `SyntaxError` |
| Blueprint.PreloadTarget | src/lib/blueprint.ts:84-95 | `preload` accepts a block and no argument or no block and one; the path is joined to the blueprint directory; other shapes fail with `SyntaxError` |
| Blueprint.RunCallsStops | src/lib/blueprint.ts:71 | a throwing helper call ends the evaluation; later calls change nothing |
| Blueprint.RunCallsUntouched | src/lib/blueprint.ts:74 | without a failure, a key no `render` call lands on keeps its earlier source |
| Blueprint.RunCallsPaths | src/lib/blueprint.ts:87-92 | without a failure, the preload list is exactly the declared paths in call order |
| Blueprint.RunWithLastWins | src/lib/blueprint.ts:74 | for any helper step: the last call that sets a key decides its value when later calls leave it alone |
| Blueprint.RenderLastWins | src/lib/blueprint.ts:74 | the last `render` call for an output key decides its source |
| Blueprint.CopyEntriesGet | src/lib/blueprint.ts:46-47 | a copied key takes its collected value; other keys keep theirs |
| Blueprint.AfterCalls | src/lib/blueprint.ts:46-47 | the sources are those the calls left; on failure the preloads are unchanged |
| Blueprint.DeclaredPreloadsLoaded | src/lib/blueprint.ts:44-47 | every declared preload path ends up mapped to its file text; other keys keep their entries |
| Blueprint.BlueprintHelpersShadow | src/lib/blueprint.ts:42-44 | the blueprint's `render` and `preload` shadow user helpers of those names; every other user helper is available |
| Blueprint.LoadOne | src/lib/blueprint.ts:34-48 | a loaded blueprint lies inside the template root and was read; a blueprint outside fails with `RuntimeError` and changes nothing; a failed blueprint leaves `preloads` unchanged |
| Blueprint.ThrownKeepsRenders | src/lib/blueprint.ts:45-74 | a throw from outside the blueprint helpers fails the blueprint with that error and leaves `preloads` alone, but the `render` calls made before it stay in `sources`, the last one on a key deciding its entry |
| Blueprint.NoCallsNoChange | src/lib/blueprint.ts:34-48 | a blueprint that calls neither helper changes neither record |
| Blueprint.LoadAll | src/lib/blueprint.ts:34-48 | the blueprints loaded one after another into the shared records; a failed load carries the error some blueprint's load raised (stopping in `LoadAllStops`) |
| Blueprint.LoadAllEach | src/lib/blueprint.ts:34 | in a successful load every blueprint loaded successfully after those before it |
| Blueprint.LoadOneInside | src/lib/blueprint.ts:37-39 | a blueprint that loads lies under the template root and was read |
| Blueprint.LoadAllInside | src/lib/blueprint.ts:37-39 | a successful load read every blueprint, all under the template root |
| Blueprint.Plan.constructor | src/lib/blueprint.ts:27-28 | the records to fill |
| Blueprint.LoadBlueprint | src/lib/blueprint.ts:34-48 | the per-blueprint body: result and records are those of `LoadOne`; the tree is unchanged and the only logged call is the read of a blueprint inside the root (the preload reads of `collectPreloads` are not logged) |
| Blueprint.RunHelpers | src/lib/blueprint.ts:51-97 | the helper calls assign into `sources` and push onto the preload list, in call order, stopping at the first throwing call |
| Blueprint.CopyPreloads | src/lib/blueprint.ts:46-47 | `preloads[k] = v` for every collected entry in order |
| Blueprint.LoadBlueprints | src/lib/blueprint.ts:26-49 | every blueprint loaded into the shared records, in order, stopping at the first failure; the tree is unchanged |
| Blueprint.LoadAllStops | src/lib/blueprint.ts:34 | after a failing blueprint, later blueprints change nothing |
| CliUtil.GetStringArray | src/bin/cliUtil.ts:22-34 | a string gives itself alone; from an array a string is returned exactly when the array holds it; anything else gives nothing |
| CliUtil.StringsOfMembers | src/bin/cliUtil.ts:26 | a string is kept exactly when the array holds it |
| CliUtil.StringsOfAppend | src/bin/cliUtil.ts:26 | filtering keeps order: the strings of a concatenation are the strings of each part, in turn |
| CliUtil.StringsOfNone | src/bin/cliUtil.ts:26 | an array without strings gives nothing |
| CliUtil.GetStringArrayOfStrings | tests/bin/cilUtil.test.ts:37-40 | an array of strings comes back whole and in order |
| CliUtil.GetStringArrayMixed | tests/bin/cilUtil.test.ts:32-35 | from a mixed array only the one string survives |
| CliUtil.GlobOne | src/bin/cliUtil.ts:51-57 | a pattern yields its matches; no match is a `RuntimeError`; a matcher error passes unchanged |
| CliUtil.GlobAll | src/bin/cliUtil.ts:51-57 | every pattern's matches in order; fails exactly when some pattern does, and a rejection carries that pattern's own error (`GlobOne`: the RuntimeError of a pattern matching nothing, or the matcher's error) |
| CliUtil.Flatten | src/bin/cliUtil.ts:58 | `flat()` holds exactly the elements of the parts |
| CliUtil.ResolveGlobs | src/bin/cliUtil.ts:50-59 | `resolveGlobs`: a resolved list is sorted and repeats no path (contents and failures in `ResolveGlobsSpec`) |
| CliUtil.ResolveGlobsSpec | src/bin/cliUtil.ts:50-59 | rejects exactly when some pattern fails or matches nothing, with that pattern's error, so a RuntimeError when the matcher itself succeeds everywhere; otherwise sorted, duplicate-free, exactly the matched paths |
| CliUtil.ResolveGlobsNoMatch | tests/bin/cilUtil.test.ts:66-69 | one pattern matching a file and one matching nothing reject with a RuntimeError |
| CliUtil.Shrink | src/bin/cliUtil.ts:74-77 | the `while` loop climbs by `dirname` to an absolute prefix of its start that string-starts the target, or to `/` |
| CliUtil.ShrinkAll | src/bin/cliUtil.ts:73-78 | the `forEach` keeps the prefix absolute |
| CliUtil.ShrinkAllSpec | src/bin/cliUtil.ts:73-78 | the prefix is reached by `dirname` steps and, unless it is `/`, string-starts every path seen |
| CliUtil.PrefixPath | src/bin/cliUtil.ts:69-82 | `getPrefixPath`: `''` for no paths, otherwise an absolute path (the rest in `PrefixPathSpec`) |
| CliUtil.ShrinkFirst | src/bin/cliUtil.ts:74-77 | the `while` loop stops at the first dirname ancestor the path string-starts with: any such ancestor is at or above where it stops |
| CliUtil.ShrinkAllDeepest | src/bin/cliUtil.ts:73-78 | any dirname ancestor of the start that every path string-starts with is at or above the `forEach`'s result |
| CliUtil.PrefixPathSpec | src/bin/cliUtil.ts:61-82 | `''` for no paths; one path gives its resolved dirname; otherwise a dirname ancestor of the first path's directory that string-starts every resolved path unless it is `/`, and the longest one: every ancestor strictly between the first path's directory and the result fails to string-start some path |
| CliUtil.GetPrefixPath | src/bin/cliUtil.ts:69-82 | the nested loops compute `PrefixPath` |
| Main.ConsolidateGet | src/lib/main.ts:62-63 | `_env` holds the cast environment; every other key keeps its input value |
| Main.HelpersAreFunctions | src/lib/main.ts:57 | every collected helper is a function |
| Main.GatherData | src/lib/main.ts:61-72 | the stages fail in order: input data, then preloads, then templates, each with its own error; on success the data is the consolidated input, the preloads and sources are the collected ones, and the helpers pass through |
| Main.GatheredData | src/lib/main.ts:62-63 | the consolidated data is the collected input with `_env` set to the cast environment |
| Main.TemplatePaths | src/lib/main.ts:78 | the template of every blueprint source is among the used paths |
| Preload.Texts | src/lib/main.ts:77 | one entry per record entry, and entry i is the text of the i-th value |
| Main.RunOutcome | src/lib/main.ts:52-90 | `run(args)`: a helper-module failure rejects before anything is read or written; a success reports the collected helper names (stages in `RunStages`, writes in `FinishWrites`) |
| Main.UsedPathsAsWritten | src/lib/main.ts:54-78 | as written: every given path is used, and so is the text of every blueprint preload |
| Main.UsedPaths | src/lib/main.ts:54-78 | corrected: every given path is used, and so is the path of every blueprint preload |
| Main.Run | src/lib/main.ts:52-90 | result and tree are those of `RunOutcome`; the helper table is the registration of the collected helpers, even when a later stage fails |
| Main.GatherAndGenerate | src/lib/main.ts:61-72 | the stages after the helpers, matching `AfterHelpers` |
| Main.LoadAndGenerate | src/lib/main.ts:74-89 | blueprints then generation, matching `AfterGather` |
| Main.RunStages | src/lib/main.ts:52-90 | a failure before generation rejects with that error and leaves the tree as it was; otherwise `run` is the generation over the staged data |
| Main.RunHelpers | src/lib/main.ts:57-58 | on success the registered names are exactly the names some helper module exports a function under |
| Main.StagedHelpers | src/lib/main.ts:57-58 | the staged helpers are the collected ones |
| Main.FinishResult | src/lib/main.ts:81-89 | a successful result reports the helper names, the consolidated data and one message per planned source naming its output |
| Main.FinishWrites | src/lib/main.ts:54-83 | no written file resolves to a used file (helper, input, preload, template, blueprint, blueprint preload, blueprint template); every write is a planned output with non-blank text |
| Main.PlannedSource | src/lib/main.ts:83 | a blueprint source overrides a direct one under the same key, with the direct extraData overlaid by the blueprint's |
| Main.JoinPreloadedAppend | src/lib/main.ts:82 | joining concatenated records concatenates the joins |
| Main.PreloadedOrder | src/lib/main.ts:82 | the direct preloads' texts come first, then the blueprint preloads', each in its own order |
| Main.PreloadTextNotGuarded | src/lib/main.ts:77 | as written: the preloaded text is pushed rather than the preload path, so an output at the preload file's path passes the guard |
| Main.NotGuardedBy | src/lib/source.ts:81 | a used path that resolves elsewhere does not trigger the overwrite guard |
| Main.TextNotGuarded | src/lib/main.ts:77 | the pushed text `// preloaded.` does not guard `path/to/test.txt` |
| Main.UsedPathsOfExample | src/lib/main.ts:54-78 | with the blueprint test's preload map, the pushed entry is the text as written and the path in the corrected model |

## Left out

- Concurrency. `Promise.all` runs the fetches, processers and blueprint loads
  concurrently. The model runs them one after another in entry order and
  stops at the first failure. The file-system effects of calls that were
  already in flight when a sibling rejected are not modelled.
- CliUtil.GlobAll: when several patterns fail, the model reports the first in pattern order. `Promise.all` rejects with the first to settle.
- DataOperator.FetchAll: when several fetches fail, the model reports the first failure in path order. `Promise.all` rejects with the first to settle.
- Source.GenerateAll: processers take effect one after another in entry order. In the source they interleave at each `await`. Each entry is rendered with `RenderData`, the input data overlaid by its own extraData. The source's accumulation of extraData in the shared `inputData` (Finding 1) is not modelled here. Under `Promise.all`, which entries see which extraData depends on read-completion order.
- Source.ProcessSource: runs `GenerateAll`, so it renders each entry with its own data, not with the shared `inputData` that `src/lib/source.ts:85` mutates (Finding 1).
- Processor.GenerateProcesser: renders with `RenderData(inputData, source)`. `src/lib/processor.ts:67` merges into the `inputData` the factory closes over, so across calls one entry's extraData leaks into later ones (Finding 3).
- Preload.PreloadStore.SetPreloads: texts are pushed in path order. The source pushes them in read-completion order.
- Blueprint.LoadBlueprints: does not state the file-system log, only that the tree is unchanged. The reads of `collectPreloads` are not logged.
- Main.Run: does not state the file-system log. The `collect*` functions read the tree without logging. It computes `RunOutcome`, which runs the corrected behaviour of Findings 1 and 2.
- Main.RunOutcome: the generation renders each entry with its own data (Finding 1) and guards with `UsedPaths`, the blueprint preload paths, where `src/lib/main.ts:77` pushes the texts that `UsedPathsAsWritten` models (Finding 2).
- Main.Generation: guards with `UsedPaths`, the blueprint preload paths, not the texts that `src/lib/main.ts:77` pushes (Finding 2). It renders each entry with its own data through `Source.GenerateAll` (Finding 1).
- Main.GatherAndGenerate: inherits both corrections from `AfterHelpers` (Findings 1 and 2).
- Main.LoadAndGenerate: builds `usedPaths` as `UsedPaths`, with the blueprint preload keys, not the texts `src/lib/main.ts:77` pushes (Finding 2). It renders each entry with its own data (Finding 1).
- Handlebars itself. `compile`, rendering, built-in helpers and the use of registered helpers while rendering are the parameters `render` and `evaluate`. The model does not connect the helper table to what `render` does.
- Parsers and loaders (js-yaml, `JSON.parse`, fast-glob, dynamic `import()`) and `process.env` are parameters. `src/bin/cli.ts` is not part of this model. The YAML loader is assumed to return a mapping: a file that loads to a scalar, an array or `undefined` (comments only), which lodash's merge would absorb, is not modelled.
- `src/lib/util.ts` is not part of this model. Its `exception` is the `Error(name, message)` datatype. Its `mergeData`, which `processor.ts` and `dataFetcher.ts` import, is taken to be `dataOperator.ts`'s.
- Error message wording is kept for the source's own `RuntimeError`s. The `SyntaxError` of a misused blueprint helper omits the JSON location. Node's `TypeError` and file-system error texts are approximations.
- `Object.entries` lists integer-like keys first in ascending order. The model keeps plain insertion order.
- Sort order: the default `sort()` compares UTF-16 code units. The model compares Unicode scalar values, which differs only for characters outside the Basic Multilingual Plane.
- Some lodash `mergeWith` corner cases are not modelled: an object merged onto an array, `undefined` values, and class instances. Values form a closed datatype with no `undefined`, `Symbol` or `bigint`. A number is an exact `real`, not a double, so rounding is not modelled; no core operation computes on numbers.
- Symbolic links, permissions and other node types are not modelled. A path is a file, a directory or absent, and `stat` of a missing path fails with ENOENT.
- Paths are POSIX only, with a fixed working directory `/work`. `path.join` is modelled for two arguments, which is all the core uses.
- Main.TemplatePaths: skips blueprint sources without a string template. The `render` helper never makes one.
- Main.PlannedSource: assumes the blueprint sources have unique keys, which every record the model builds has.
- Main.PreloadedOrder: assumes that no blueprint declares a preload that is also given directly. Otherwise that text takes the position of the direct entry.
- Main.Finish: returns the consolidated data as it was before generation, not the object that `src/lib/source.ts:85` mutates (Finding 1).
- Main.FinishResult: reports the consolidated data as it was before generation. The source returns the same object after `src/lib/source.ts:85` has merged every entry's extraData into it (Finding 1).

## Findings

| source | as written | input that shows it | evidently intended | confidence | as-written member | corrected member |
|---|---|---|---|---|---|---|
| src/lib/source.ts:85 | `mergeData(inputData, source.extraData)` merges into the one `inputData` object that every entry shares, because lodash `mergeWith` mutates its first argument | two planned entries, the first with extraData `{title: "A"}`, the second with none: the second is rendered with `title = "A"` | each entry rendered with the input data overlaid by its own extraData only | high; not executed | Source.SharedRenderDataExample | Source.RenderDataKeys |
| src/lib/main.ts:77 | pushes `getDataValues(result.preloads)`, the preloaded texts, onto `usedPaths` | a blueprint `{{preload "test.txt"}}` in `path/to/` gives preloads `{'path/to/test.txt': '// preloaded.'}`; an output at `path/to/test.txt` passes the overwrite guard | push the preload paths (the keys), so the guard protects the preload file | high; not executed | Main.PreloadTextNotGuarded | Main.FinishWrites |
| src/lib/processor.ts:67 | `mergeData(inputData, source.extraData)` merges into the one `inputData` that `generateProcesserFactory` closes over, so each call's extraData stays for later calls | `processData` over `{"a.txt": {template: t, extraData: {title: "A"}}, "b.txt": {template: t, extraData: {}}}` with `t` holding `{{title}}`: `out/b.txt` is written with `A` | each call rendered with the input data overlaid by its own extraData only | high; not executed | Source.SharedRenderDataLeaks | Processor.RenderedWithoutPreload |
