/**
 * The part of `fs/promises` the generator uses (`stat`, `readFile`,
 * `mkdir` with `recursive: true`, `writeFile`) over a map from resolved
 * path to node. The root directory always exists.
 */
module FileSys {
  import opened Wrappers
  import opened Strings
  import opened Paths

  datatype Node = File(content: string) | Dir

  /** Nodes keyed by resolved absolute path. */
  type Tree = map<string, Node>

  /** One call into the file system, as the generator issues it. */
  datatype Op = StatOp(path: string) | ReadOp(path: string) | MkdirOp(path: string) | WriteOp(path: string, content: string)

  function Enoent(path: string): Error { Error("Error", "ENOENT: no such file or directory, '" + path + "'") }
  function Eisdir(path: string): Error { Error("Error", "EISDIR: illegal operation on a directory, '" + path + "'") }
  function Enotdir(path: string): Error { Error("Error", "ENOTDIR: not a directory, '" + path + "'") }
  function Eexist(path: string): Error { Error("Error", "EEXIST: file already exists, '" + path + "'") }

  /** A directory at an already resolved path. */
  predicate IsDirAt(t: Tree, r: string) {
    r == "/" || (r in t && t[r].Dir?)
  }

  /** `fs.stat(path)`. */
  function StatNode(t: Tree, path: string): (r: Result<Node>)
    ensures r.Ok? <==> Resolve(path) == "/" || Resolve(path) in t
  {
    var r := Resolve(path);
    if r == "/" then Ok(Dir) else if r in t then Ok(t[r]) else Fail(Enoent(path))
  }

  /** `fs.readFile(path, 'utf8')`. */
  function ReadText(t: Tree, path: string): (r: Result<string>)
    ensures r.Ok? <==> StatNode(t, path).Ok? && StatNode(t, path).value.File?
    ensures r.Ok? ==> StatNode(t, path).value.content == r.value
  {
    match StatNode(t, path)
    case Fail(e) => Fail(e)
    case Ok(File(c)) => Ok(c)
    case Ok(Dir) => Fail(Eisdir(path))
  }

  /** Create the absolute directory d and every missing ancestor, outermost first. */
  function MakeDirs(t: Tree, d: string): Result<Tree>
    requires IsAbsolute(d)
    decreases |d|
  {
    if d == "/" then Ok(t)
    else
      DirnameShrinks(d);
      match MakeDirs(t, Dirname(d))
      case Fail(e) => Fail(e)
      case Ok(t') =>
        if d !in t' then Ok(t'[d := Dir])
        else if t'[d].Dir? then Ok(t')
        else Fail(Eexist(d))
  }

  /** `fs.mkdir(path, { recursive: true })`. */
  function MkdirP(t: Tree, path: string): Result<Tree> {
    MakeDirs(t, Resolve(path))
  }

  /**
   * `fs.writeFile(path, content)`: the parent must be a directory and the
   * path must not be one.
   */
  function WriteText(t: Tree, path: string, content: string): (r: Result<Tree>)
    ensures r.Ok? <==> IsDirAt(t, Resolve(Dirname(path))) && !IsDirAt(t, Resolve(path))
    ensures r.Ok? ==> r.value == t[Resolve(path) := File(content)]
  {
    var r := Resolve(path);
    var parent := Resolve(Dirname(path));
    if !IsDirAt(t, parent) then Fail(if parent in t then Enotdir(path) else Enoent(path))
    else if IsDirAt(t, r) then Fail(Eisdir(path))
    else Ok(t[r := File(content)])
  }

  /**
   * A successful recursive mkdir leaves d a directory, adds only
   * directories, and changes no existing node.
   */
  lemma {:induction false} MakeDirsResult(t: Tree, d: string)
    requires IsAbsolute(d) && MakeDirs(t, d).Ok?
    ensures IsDirAt(MakeDirs(t, d).value, d)
    ensures forall k :: k in t ==> k in MakeDirs(t, d).value && MakeDirs(t, d).value[k] == t[k]
    ensures forall k :: k in MakeDirs(t, d).value && k !in t ==> MakeDirs(t, d).value[k] == Dir
    decreases |d|
  {
    if d != "/" {
      DirnameShrinks(d);
      MakeDirsResult(t, Dirname(d));
    }
  }

  /**
   * After `mkdir(dirname(out), {recursive: true})` succeeds, writing `out`
   * fails only when `out` itself is a directory.
   */
  lemma MkdirThenWrite(t: Tree, out: string, content: string)
    requires MkdirP(t, Dirname(out)).Ok?
    ensures var t' := MkdirP(t, Dirname(out)).value;
      WriteText(t', out, content).Ok? <==> !IsDirAt(t', Resolve(out))
  {
    MakeDirsResult(t, Resolve(Dirname(out)));
  }

  /** The file system the generator reads and writes, with the log of calls made. */
  class FileSystem {
    var tree: Tree
    ghost var log: seq<Op>

    constructor(t: Tree)
      ensures tree == t && log == []
    {
      tree := t;
      log := [];
    }

    method Stat(path: string) returns (r: Result<Node>)
      modifies this
      ensures r == StatNode(old(tree), path)
      ensures tree == old(tree) && log == old(log) + [StatOp(path)]
    {
      r := StatNode(tree, path);
      log := log + [StatOp(path)];
    }

    method ReadFile(path: string) returns (r: Result<string>)
      modifies this
      ensures r == ReadText(old(tree), path)
      ensures tree == old(tree) && log == old(log) + [ReadOp(path)]
    {
      r := ReadText(tree, path);
      log := log + [ReadOp(path)];
    }

    method Mkdir(path: string) returns (r: Result<()>)
      modifies this
      ensures MkdirP(old(tree), path).Ok? ==> r == Ok(()) && tree == MkdirP(old(tree), path).value
      ensures MkdirP(old(tree), path).Fail? ==> r == Fail(MkdirP(old(tree), path).error) && tree == old(tree)
      ensures log == old(log) + [MkdirOp(path)]
    {
      var m := MkdirP(tree, path);
      if m.Ok? {
        tree := m.value;
        r := Ok(());
      } else {
        r := Fail(m.error);
      }
      log := log + [MkdirOp(path)];
    }

    method WriteFile(path: string, content: string) returns (r: Result<()>)
      modifies this
      ensures WriteText(old(tree), path, content).Ok? ==> r == Ok(()) && tree == WriteText(old(tree), path, content).value
      ensures WriteText(old(tree), path, content).Fail? ==> r == Fail(WriteText(old(tree), path, content).error) && tree == old(tree)
      ensures log == old(log) + [WriteOp(path, content)]
    {
      var w := WriteText(tree, path, content);
      if w.Ok? {
        tree := w.value;
        r := Ok(());
      } else {
        r := Fail(w.error);
      }
      log := log + [WriteOp(path, content)];
    }
  }
}
