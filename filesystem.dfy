/**
 * The part of the file system the script touches: a map from file paths to
 * their contents and a set of directories.  Two operations change it:
 * `os.makedirs(path, exist_ok=True)` and `open(path, 'w')` followed by one
 * `write`.  Each either succeeds or raises, and a raised error ends the run.
 */
module FileSystem {
  import opened Paths
  import opened Templates

  /** The files (path to contents) and directories on disk. */
  datatype Disk = Disk(files: map<string, string>, dirs: set<string>)

  /** One step of the script: create a directory chain, or open a file and write the filled template into it. */
  datatype Op = MakeDirsOp(path: string) | WriteOp(path: string, content: Substituted)

  /** No path is both a file and a directory. */
  predicate Consistent(d: Disk)
  {
    d.dirs !! d.files.Keys
  }

  /**
   * `os.makedirs(path, exist_ok=True)` succeeds unless the path is empty or
   * one of the directories it needs is an existing file.
   */
  predicate CanMakeDirs(d: Disk, path: string)
  {
    path != [] && DirChain(path) !! d.files.Keys
  }

  /**
   * `open(path, 'w')` succeeds when the path is not empty, is not a
   * directory, and its parent directory exists.
   */
  predicate CanOpen(d: Disk, path: string)
  {
    path != [] && path !in d.dirs && (Parent(path) == [] || Parent(path) in d.dirs)
  }

  /** The effect of one operation: the new disk and whether it succeeded. */
  function Step(d: Disk, op: Op): (Disk, bool)
  {
    match op
    case MakeDirsOp(p) =>
      if CanMakeDirs(d, p) then (d.(dirs := d.dirs + DirChain(p)), true) else (d, false)
    case WriteOp(p, c) =>
      if !CanOpen(d, p) then (d, false)
      else match c
        case Ok(text) => (d.(files := d.files[p := text]), true)
        // `open` has already truncated the file when `substitute` raises
        case KeyError(_) => (d.(files := d.files[p := []]), false)
  }

  /** Run the operations in order, stopping at the first that fails. */
  function Run(d: Disk, ops: seq<Op>): (Disk, bool)
    decreases |ops|
  {
    if ops == [] then (d, true)
    else
      var (d1, ok) := Step(d, ops[0]);
      if ok then Run(d1, ops[1..]) else (d1, false)
  }

  /** The file contents a run of `ops` leaves, when every write succeeds; a later write of a path wins. */
  function Written(ops: seq<Op>): map<string, string>
  {
    if ops == [] then map[]
    else match ops[0]
      case MakeDirsOp(_) => Written(ops[1..])
      case WriteOp(p, c) => map[p := if c.Ok? then c.text else []] + Written(ops[1..])
  }

  /** The directories a run of `ops` creates (or finds in place). */
  function MadeDirs(ops: seq<Op>): set<string>
  {
    if ops == [] then {}
    else match ops[0]
      case MakeDirsOp(p) => DirChain(p) + MadeDirs(ops[1..])
      case WriteOp(_, _) => MadeDirs(ops[1..])
  }

  /** Every write has its contents: no template raised. */
  predicate AllFilled(ops: seq<Op>)
  {
    forall i :: 0 <= i < |ops| && ops[i].WriteOp? ==> ops[i].content.Ok?
  }

  /** Every path named by `ops` is non-empty. */
  predicate NonEmptyPaths(ops: seq<Op>)
  {
    forall i :: 0 <= i < |ops| ==> ops[i].path != []
  }

  /** Every write's parent directory exists by the time it runs, given the directories `dirs` at the start. */
  predicate ParentsReady(dirs: set<string>, ops: seq<Op>)
    decreases |ops|
  {
    ops == [] ||
    match ops[0]
    case MakeDirsOp(p) => ParentsReady(dirs + DirChain(p), ops[1..])
    case WriteOp(p, _) => (Parent(p) == [] || Parent(p) in dirs) && ParentsReady(dirs, ops[1..])
  }

  /** What makes a run succeed from `d`: no step meets a path of the wrong kind or a missing parent. */
  predicate Ready(d: Disk, ops: seq<Op>)
  {
    && AllFilled(ops)
    && NonEmptyPaths(ops)
    && ParentsReady(d.dirs, ops)
    && d.files.Keys !! MadeDirs(ops)
    && Written(ops).Keys !! (d.dirs + MadeDirs(ops))
  }

  // ----- runs -----

  /** A step keeps the disk consistent. */
  lemma StepConsistent(d: Disk, op: Op)
    requires Consistent(d)
    ensures Consistent(Step(d, op).0)
  {
  }

  /** A run keeps the disk consistent, whether it succeeds or stops at an error. */
  lemma {:induction false} RunConsistent(d: Disk, ops: seq<Op>)
    requires Consistent(d)
    ensures Consistent(Run(d, ops).0)
    decreases |ops|
  {
    if ops != [] {
      StepConsistent(d, ops[0]);
      RunConsistent(Step(d, ops[0]).0, ops[1..]);
    }
  }

  /** Running `a + b` runs `a`, then `b` from where `a` left off if `a` succeeded. */
  lemma {:induction false} RunAppend(d: Disk, a: seq<Op>, b: seq<Op>)
    ensures Run(d, a + b) == if Run(d, a).1 then Run(Run(d, a).0, b) else Run(d, a)
    decreases |a|
  {
    if a == [] {
      assert a + b == b;
    } else {
      assert (a + b)[0] == a[0];
      assert (a + b)[1..] == a[1..] + b;
      var (d1, ok) := Step(d, a[0]);
      if ok {
        RunAppend(d1, a[1..], b);
      }
    }
  }

  /** A run that succeeds on `pre` and then fails on `op` stops there, whatever follows. */
  lemma RunStopsAt(d: Disk, pre: seq<Op>, op: Op, rest: seq<Op>)
    requires Run(d, pre).1 && !Step(Run(d, pre).0, op).1
    ensures Run(d, pre + [op] + rest) == (Step(Run(d, pre).0, op).0, false)
  {
    RunAppend(d, pre, [op]);
    RunAppend(d, pre + [op], rest);
  }

  /** A run that succeeds on `pre` and on `op` has done `pre + [op]`. */
  lemma RunExtends(d: Disk, pre: seq<Op>, op: Op)
    requires Run(d, pre).1
    ensures Run(d, pre + [op]) == Step(Run(d, pre).0, op)
  {
    RunAppend(d, pre, [op]);
  }

  /** A successful run adds exactly the written files and the created directories. */
  lemma {:induction false} RunResult(d: Disk, ops: seq<Op>)
    requires Run(d, ops).1
    ensures Run(d, ops).0 == Disk(d.files + Written(ops), d.dirs + MadeDirs(ops))
    decreases |ops|
  {
    if ops != [] {
      var d1 := Step(d, ops[0]).0;
      RunResult(d1, ops[1..]);
      match ops[0]
      case MakeDirsOp(p) =>
        assert d.dirs + (DirChain(p) + MadeDirs(ops[1..])) == d.dirs + DirChain(p) + MadeDirs(ops[1..]);
      case WriteOp(p, c) =>
        assert d.files + (map[p := c.text] + Written(ops[1..])) == d.files[p := c.text] + Written(ops[1..]);
    }
  }

  /** A run from a disk it is `Ready` for succeeds. */
  lemma {:induction false} RunSucceeds(d: Disk, ops: seq<Op>)
    requires Ready(d, ops)
    ensures Run(d, ops).1
    decreases |ops|
  {
    if ops != [] {
      var rest := ops[1..];
      assert AllFilled(rest) && NonEmptyPaths(rest) by {
        forall i | 0 <= i < |rest| ensures rest[i] == ops[i + 1] { }
      }
      match ops[0]
      case MakeDirsOp(p) =>
        assert ops[0].path != [];
        var d1 := d.(dirs := d.dirs + DirChain(p));
        assert Step(d, ops[0]) == (d1, true);
        RunSucceeds(d1, rest);
      case WriteOp(p, c) =>
        assert ops[0].path != [] && ops[0].content.Ok?;
        assert p in Written(ops).Keys;
        var d1 := d.(files := d.files[p := c.text]);
        assert Step(d, ops[0]) == (d1, true);
        RunSucceeds(d1, rest);
    }
  }

  /**
   * What a successful run needed of the disk it started from: no directory it
   * made was an existing file, and no file it wrote was an existing directory.
   */
  lemma {:induction false} RunNeeds(d: Disk, ops: seq<Op>)
    requires Run(d, ops).1
    ensures d.files.Keys !! MadeDirs(ops)
    ensures d.dirs !! Written(ops).Keys
    decreases |ops|
  {
    if ops != [] {
      var d1 := Step(d, ops[0]).0;
      RunNeeds(d1, ops[1..]);
      assert d.files.Keys <= d1.files.Keys && d.dirs <= d1.dirs;
    }
  }

  /** Whatever its outcome, a run changes no file it does not write. */
  lemma {:induction false} RunFrame(d: Disk, ops: seq<Op>, p: string)
    requires p !in Written(ops)
    ensures p in Run(d, ops).0.files <==> p in d.files
    ensures p in d.files ==> Run(d, ops).0.files[p] == d.files[p]
    decreases |ops|
  {
    if ops != [] {
      var (d1, ok) := Step(d, ops[0]);
      if ok {
        RunFrame(d1, ops[1..], p);
      }
    }
  }

  /** Whatever its outcome, a run only adds directories, and only ones it makes. */
  lemma {:induction false} RunDirs(d: Disk, ops: seq<Op>)
    ensures d.dirs <= Run(d, ops).0.dirs <= d.dirs + MadeDirs(ops)
    decreases |ops|
  {
    if ops != [] {
      var (d1, ok) := Step(d, ops[0]);
      if ok {
        RunDirs(d1, ops[1..]);
      }
    }
  }

  /** From a disk it is `Ready` for, a run succeeds, and running it again changes nothing and succeeds. */
  lemma ReadyTwice(d: Disk, ops: seq<Op>)
    requires Ready(d, ops)
    ensures Run(d, ops).1
    ensures Run(Run(d, ops).0, ops) == (Run(d, ops).0, true)
  {
    RunSucceeds(d, ops);
    RunResult(d, ops);
    var d1 := Run(d, ops).0;
    ParentsReadyMonotone(d.dirs, d1.dirs, ops);
    assert Ready(d1, ops);
    RunSucceeds(d1, ops);
    RunResult(d1, ops);
    assert d1.files + Written(ops) == d1.files;
    assert d1.dirs + MadeDirs(ops) == d1.dirs;
  }

  /** A run that succeeded was run from a disk it is `Ready` for. */
  lemma {:induction false} SuccessReady(d: Disk, ops: seq<Op>)
    requires Run(d, ops).1
    ensures Ready(d, ops)
    decreases |ops|
  {
    if ops != [] {
      var d1 := Step(d, ops[0]).0;
      var rest := ops[1..];
      SuccessReady(d1, rest);
      RunNeeds(d, ops);
      forall i | 0 < i < |ops| ensures ops[i] == rest[i - 1] { }
      match ops[0]
      case MakeDirsOp(p) =>
        assert d1.dirs == d.dirs + DirChain(p);
      case WriteOp(p, c) =>
        assert d1.dirs == d.dirs && p in d1.files.Keys;
    }
  }

  /** Running again after any successful run succeeds and changes nothing. */
  lemma RunIdempotent(d: Disk, ops: seq<Op>)
    requires Run(d, ops).1
    ensures Run(Run(d, ops).0, ops) == (Run(d, ops).0, true)
  {
    SuccessReady(d, ops);
    ReadyTwice(d, ops);
  }

  // ----- how the pieces of a run combine -----

  lemma {:induction false} WrittenAppend(a: seq<Op>, b: seq<Op>)
    ensures Written(a + b) == Written(a) + Written(b)
  {
    if a == [] {
      assert a + b == b;
    } else {
      assert (a + b)[0] == a[0];
      assert (a + b)[1..] == a[1..] + b;
      WrittenAppend(a[1..], b);
    }
  }

  lemma {:induction false} MadeDirsAppend(a: seq<Op>, b: seq<Op>)
    ensures MadeDirs(a + b) == MadeDirs(a) + MadeDirs(b)
  {
    if a == [] {
      assert a + b == b;
    } else {
      assert (a + b)[0] == a[0];
      assert (a + b)[1..] == a[1..] + b;
      MadeDirsAppend(a[1..], b);
    }
  }

  /** More directories at the start never make a parent missing. */
  lemma {:induction false} ParentsReadyMonotone(dirs: set<string>, more: set<string>, ops: seq<Op>)
    requires dirs <= more && ParentsReady(dirs, ops)
    ensures ParentsReady(more, ops)
    decreases |ops|
  {
    if ops != [] {
      match ops[0]
      case MakeDirsOp(p) => ParentsReadyMonotone(dirs + DirChain(p), more + DirChain(p), ops[1..]);
      case WriteOp(_, _) => ParentsReadyMonotone(dirs, more, ops[1..]);
    }
  }

  /** Two pieces whose writes each find their parents find them together. */
  lemma {:induction false} ParentsReadyAppend(dirs: set<string>, a: seq<Op>, b: seq<Op>)
    requires ParentsReady(dirs, a) && ParentsReady(dirs, b)
    ensures ParentsReady(dirs, a + b)
    decreases |a|
  {
    if a == [] {
      assert a + b == b;
    } else {
      assert (a + b)[0] == a[0];
      assert (a + b)[1..] == a[1..] + b;
      match a[0]
      case MakeDirsOp(p) =>
        ParentsReadyMonotone(dirs, dirs + DirChain(p), b);
        ParentsReadyAppend(dirs + DirChain(p), a[1..], b);
      case WriteOp(_, _) =>
        ParentsReadyAppend(dirs, a[1..], b);
    }
  }

  // ----- the file system as an object -----

  /** The disk the script runs against; each method is one system call. */
  class FileSystem {
    var files: map<string, string>
    var dirs: set<string>

    function Contents(): Disk
      reads this
    {
      Disk(files, dirs)
    }

    constructor (d: Disk)
      ensures Contents() == d
    {
      files := d.files;
      dirs := d.dirs;
    }

    /** `os.makedirs(path, exist_ok=True)` */
    method MakeDirs(path: string) returns (ok: bool)
      modifies this
      ensures (Contents(), ok) == Step(old(Contents()), MakeDirsOp(path))
    {
      ok := path != [] && DirChain(path) !! files.Keys;
      if ok {
        dirs := dirs + DirChain(path);
      }
    }

    /** `open(path, 'w')`: on success the file exists and is empty. */
    method Open(path: string) returns (ok: bool)
      modifies this
      ensures ok == CanOpen(old(Contents()), path)
      ensures dirs == old(dirs)
      ensures files == if ok then old(files)[path := []] else old(files)
    {
      var parent := Parent(path);
      ok := path != [] && path !in dirs && (parent == [] || parent in dirs);
      if ok {
        files := files[path := []];
      }
    }

    /**
     * `with open(path, 'w') as f: f.write(content)`, where `content` is the
     * outcome of filling a template inside the `with`: a `KeyError` leaves the
     * opened file empty.
     */
    method WriteFile(path: string, content: Substituted) returns (ok: bool)
      modifies this
      ensures (Contents(), ok) == Step(old(Contents()), WriteOp(path, content))
    {
      ok := Open(path);
      if ok && content.Ok? {
        Write(path, content.text);
        assert files == old(files)[path := content.text];
      } else {
        ok := false;
      }
    }

    /** `f.write(text)` on a file opened for writing (and then closed). */
    method Write(path: string, text: string)
      requires path in files
      modifies this
      ensures files == old(files)[path := text]
      ensures dirs == old(dirs)
    {
      files := files[path := text];
    }
  }
}
