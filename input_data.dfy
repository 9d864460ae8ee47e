/**
 * src/lib/inputData.ts: input records read from YAML/JSON files and the
 * "natural" casting of string values.
 */
module InputData {
  import opened Wrappers
  import opened Dict
  import opened DataOperator
  import opened FileSys

  /** The rename of the catch block: a `YAMLException` becomes a `SyntaxError`, anything else is rethrown as it is. */
  function Rethrown(e: Error): (r: Error)
    ensures e.name == "YAMLException" ==> r == Error("SyntaxError", e.message)
    ensures e.name != "YAMLException" ==> r == e
  {
    if e.name == "YAMLException" then Error("SyntaxError", e.message) else e
  }

  /**
   * `inputsDataFetcher(path)`: the file's text, `{}` when it is empty, and
   * otherwise what `yamlLoad` (js-yaml `load`) parses; errors pass through
   * `Rethrown`.
   */
  function InputsFetch(t: Tree, yamlLoad: string -> Result<Record>, path: string): Result<Record> {
    match ReadText(t, path)
    case Fail(e) => Fail(Rethrown(e))
    case Ok(content) =>
      if content == "" then Ok([])
      else
        match yamlLoad(content)
        case Fail(e) => Fail(Rethrown(e))
        case Ok(r) => Ok(r)
  }

  /**
   * Empty content yields `{}` whatever the parser would do (it is not
   * consulted); non-empty content yields the parser's record; a parser
   * error named `YAMLException` comes back as a `SyntaxError` with the
   * same message; a read error (such as ENOENT) comes back unchanged.
   */
  lemma InputsFetchCases(t: Tree, yamlLoad: string -> Result<Record>, otherLoad: string -> Result<Record>, path: string)
    ensures ReadText(t, path) == Ok("") ==>
      InputsFetch(t, yamlLoad, path) == Ok([]) && InputsFetch(t, otherLoad, path) == Ok([])
    ensures ReadText(t, path).Ok? && ReadText(t, path).value != "" && yamlLoad(ReadText(t, path).value).Ok? ==>
      InputsFetch(t, yamlLoad, path) == yamlLoad(ReadText(t, path).value)
    ensures ReadText(t, path).Ok? && ReadText(t, path).value != "" && yamlLoad(ReadText(t, path).value).Fail? ==>
      var e := yamlLoad(ReadText(t, path).value).error;
      InputsFetch(t, yamlLoad, path) == Fail(if e.name == "YAMLException" then Error("SyntaxError", e.message) else e)
    ensures ReadText(t, path).Fail? ==> InputsFetch(t, yamlLoad, path) == ReadText(t, path).PropagateFailure()
  {
  }

  /** `inputsDataFetcher` as the value handed to `collectData`. */
  function InputsFetcher(t: Tree, yamlLoad: string -> Result<Record>): string -> Result<Record> {
    path => InputsFetch(t, yamlLoad, path)
  }

  /** `collectInputData(paths)`: `collectData` over `inputsDataFetcher`. */
  function CollectInputData(t: Tree, yamlLoad: string -> Result<Record>, paths: seq<string>): Result<Record> {
    Collect(paths, InputsFetcher(t, yamlLoad))
  }

  /**
   * Later files win: a scalar or array that the last file defining k
   * gives it is the collected value.
   */
  lemma CollectInputLaterWins(t: Tree, yamlLoad: string -> Result<Record>, paths: seq<string>, k: string, j: nat, v: Value)
    requires forall c :: yamlLoad(c).Ok? ==> UniqueKeys(yamlLoad(c).value)
    requires CollectInputData(t, yamlLoad, paths).Ok?
    requires j < |paths| && Get(InputsFetch(t, yamlLoad, paths[j]).value, k) == Some(v) && !v.Obj?
    requires forall i :: j < i < |paths| ==> !HasKey(InputsFetch(t, yamlLoad, paths[i]).value, k)
    ensures Get(CollectInputData(t, yamlLoad, paths).value, k) == Some(v)
  {
    var fetch := InputsFetcher(t, yamlLoad);
    forall p | fetch(p).Ok? ensures UniqueKeys(fetch(p).value) {
    }
    CollectLaterWins(paths, fetch, k, j, v);
  }

  /**
   * One value of `naturalCast`: a string that `jsonParse` (JSON.parse)
   * accepts becomes the parsed value, left as it is; a string it rejects
   * stays; a plain object is cast entry by entry; anything else stays.
   */
  function CastValue(v: Value, jsonParse: string -> Option<Value>): Value
    decreases v, if v.Obj? then |v.fields| + 1 else 0
  {
    match v
    case Str(s) => if jsonParse(s).Some? then jsonParse(s).value else v
    case Obj(_) => Obj(CastFrom(v, 0, jsonParse))
    case _ => v
  }

  /** The cast entries of the object `v` from position i on. */
  function CastFrom(v: Value, i: nat, jsonParse: string -> Option<Value>): (r: Record)
    requires v.Obj? && i <= |v.fields|
    ensures |r| == |v.fields| - i
    ensures forall j :: 0 <= j < |r| ==> r[j].0 == v.fields[i + j].0
    decreases v, |v.fields| - i
  {
    if i == |v.fields| then []
    else [(v.fields[i].0, CastValue(v.fields[i].1, jsonParse))] + CastFrom(v, i + 1, jsonParse)
  }

  /** `naturalCast(data)`. */
  function NaturalCast(data: Record, jsonParse: string -> Option<Value>): (r: Record)
    ensures Keys(r) == Keys(data)
  {
    CastFrom(Obj(data), 0, jsonParse)
  }

  lemma {:induction false} CastFromAt(v: Value, i: nat, jsonParse: string -> Option<Value>, j: nat)
    requires v.Obj? && i <= j < |v.fields|
    ensures CastFrom(v, i, jsonParse)[j - i] == (v.fields[j].0, CastValue(v.fields[j].1, jsonParse))
    decreases j - i
  {
    if i < j {
      CastFromAt(v, i + 1, jsonParse, j);
    }
  }

  /**
   * Entry by entry, `naturalCast` keeps the key and: replaces a parseable
   * string by its parse, keeps an unparseable string, casts a nested plain
   * object recursively, and keeps null, booleans, numbers, arrays and
   * functions as they are.
   */
  lemma NaturalCastEntry(data: Record, jsonParse: string -> Option<Value>, j: nat)
    requires j < |data|
    ensures var r := NaturalCast(data, jsonParse);
      r[j].0 == data[j].0 &&
      match data[j].1
      case Str(s) => r[j].1 == (if jsonParse(s).Some? then jsonParse(s).value else Str(s))
      case Obj(f) => r[j].1 == Obj(NaturalCast(f, jsonParse))
      case _ => r[j].1 == data[j].1
  {
    CastFromAt(Obj(data), 0, jsonParse, j);
    var c := CastValue(data[j].1, jsonParse);
    assert NaturalCast(data, jsonParse)[j] == (data[j].0, c);
    match data[j].1 {
      case Obj(f) =>
        assert c == Obj(CastFrom(Obj(f), 0, jsonParse));
      case _ =>
    }
  }

  /** The cast keeps keys unique, so it is again a valid object. */
  lemma NaturalCastUnique(data: Record, jsonParse: string -> Option<Value>)
    requires UniqueKeys(data)
    ensures UniqueKeys(NaturalCast(data, jsonParse))
  {
    var r := NaturalCast(data, jsonParse);
    assert forall j :: 0 <= j < |r| ==> r[j].0 == Keys(r)[j] == Keys(data)[j] == data[j].0;
  }
}
