/**
 * `create_feature_structure`: for every layer and sub-directory of the plan,
 * create the directory, then open each of its files for writing and write the
 * template dispatch picks for it.
 */
module Scaffold {
  import opened Names
  import opened Paths
  import opened Templates
  import opened TemplateTexts
  import opened Structure
  import opened Dispatch
  import opened FileSystem
  import opened Seqs

  // ----- the plan as actions, in the order the nested loops perform them -----

  /** One step of the loops: create a sub-directory of a layer, or write one planned file. */
  datatype Action = MakeSubdir(layer: string, subdir: string) | PutFile(entry: Entry)

  /** The innermost loop: one write per entry. */
  function Puts(es: seq<Entry>): (r: seq<Action>)
    ensures |r| == |es|
    ensures forall i :: 0 <= i < |es| ==> r[i] == PutFile(es[i])
  {
    if es == [] then [] else [PutFile(es[0])] + Puts(es[1..])
  }

  /** The middle loop: each sub-directory of a layer is created, then its files are written. */
  function SubdirActions(layer: string, subdirs: seq<Subdir>): seq<Action>
  {
    if subdirs == [] then []
    else [MakeSubdir(layer, subdirs[0].name)] + Puts(FileEntries(layer, subdirs[0].name, subdirs[0].files))
         + SubdirActions(layer, subdirs[1..])
  }

  /** The outer loop: the layers in order. */
  function Actions(layers: seq<Layer>): seq<Action>
  {
    if layers == [] then [] else SubdirActions(layers[0].name, layers[0].subdirs) + Actions(layers[1..])
  }

  /** What the script asks of the file system for one action; `fill(file, path)` is the filled template. */
  function ToOp(base: string, a: Action, fill: (string, string) -> Substituted): Op
  {
    match a
    case MakeSubdir(l, s) => MakeDirsOp(DirPath(base, l, s))
    case PutFile(e) => WriteOp(TargetPath(base, e), fill(e.file, TargetPath(base, e)))
  }

  /** The file-system operations of a sequence of actions. */
  function Realize(base: string, acts: seq<Action>, fill: (string, string) -> Substituted): (ops: seq<Op>)
    ensures |ops| == |acts|
  {
    if acts == [] then [] else [ToOp(base, acts[0], fill)] + Realize(base, acts[1..], fill)
  }

  /** The template dispatch over the templates `ts`, for the given name forms: `Fill(ts, snake, featureClass)(file, filePath)`. */
  function Fill(ts: TemplateSet, snake: string, featureClass: string): (string, string) -> Substituted
  {
    (file: string, filePath: string) => Render(ts, file, snake, featureClass, filePath)
  }

  /**
   * Everything `create_feature_structure(featureName)` asks of the file
   * system, in order, when its templates are `ts` (the script's own are
   * `ScriptTemplates`).
   */
  function Ops(ts: TemplateSet, featureName: string): seq<Op>
  {
    Realize(BasePath(featureName), Actions(Descriptor(FileForm(featureName))), Fill(ts, FileForm(featureName), ClassForm(featureName)))
  }

  lemma {:induction false} RealizeAppend(base: string, a: seq<Action>, b: seq<Action>, fill: (string, string) -> Substituted)
    ensures Realize(base, a + b, fill) == Realize(base, a, fill) + Realize(base, b, fill)
  {
    if a == [] {
      assert a + b == b;
    } else {
      assert (a + b)[0] == a[0];
      assert (a + b)[1..] == a[1..] + b;
      RealizeAppend(base, a[1..], b, fill);
    }
  }

  lemma {:induction false} PutsAppend(a: seq<Entry>, b: seq<Entry>)
    ensures Puts(a + b) == Puts(a) + Puts(b)
  {
  }

  lemma {:induction false} SubdirActionsAppend(layer: string, a: seq<Subdir>, b: seq<Subdir>)
    ensures SubdirActions(layer, a + b) == SubdirActions(layer, a) + SubdirActions(layer, b)
  {
    if a == [] {
      assert a + b == b;
    } else {
      assert (a + b)[1..] == a[1..] + b;
      SubdirActionsAppend(layer, a[1..], b);
    }
  }

  lemma {:induction false} ActionsAppend(a: seq<Layer>, b: seq<Layer>)
    ensures Actions(a + b) == Actions(a) + Actions(b)
  {
    if a == [] {
      assert a + b == b;
    } else {
      assert (a + b)[1..] == a[1..] + b;
      ActionsAppend(a[1..], b);
    }
  }

  /** Cutting the file loop after file `k`. */
  lemma FilesSplit(layer: string, subdir: string, files: seq<string>, k: nat)
    requires k < |files|
    ensures Puts(FileEntries(layer, subdir, files[..k + 1]))
            == Puts(FileEntries(layer, subdir, files[..k])) + [PutFile(Entry(layer, subdir, files[k]))]
    ensures Puts(FileEntries(layer, subdir, files))
            == Puts(FileEntries(layer, subdir, files[..k + 1])) + Puts(FileEntries(layer, subdir, files[k + 1..]))
  {
    var pre, one, post := files[..k], [files[k]], files[k + 1..];
    assert files[..k + 1] == pre + one;
    FileEntriesAppend(layer, subdir, pre, one);
    PutsAppend(FileEntries(layer, subdir, pre), FileEntries(layer, subdir, one));
    assert Puts(FileEntries(layer, subdir, one)) == [PutFile(Entry(layer, subdir, files[k]))];
    assert files == files[..k + 1] + post;
    FileEntriesAppend(layer, subdir, files[..k + 1], post);
    PutsAppend(FileEntries(layer, subdir, files[..k + 1]), FileEntries(layer, subdir, post));
  }

  /** Cutting the sub-directory loop after sub-directory `k`. */
  lemma SubdirsSplit(layer: string, subdirs: seq<Subdir>, k: nat)
    requires k < |subdirs|
    ensures SubdirActions(layer, subdirs[..k + 1])
            == SubdirActions(layer, subdirs[..k]) + [MakeSubdir(layer, subdirs[k].name)]
               + Puts(FileEntries(layer, subdirs[k].name, subdirs[k].files))
    ensures SubdirActions(layer, subdirs) == SubdirActions(layer, subdirs[..k + 1]) + SubdirActions(layer, subdirs[k + 1..])
    ensures SubdirActions(layer, subdirs)
            == SubdirActions(layer, subdirs[..k]) + [MakeSubdir(layer, subdirs[k].name)]
               + (Puts(FileEntries(layer, subdirs[k].name, subdirs[k].files)) + SubdirActions(layer, subdirs[k + 1..]))
  {
    var pre := SubdirActions(layer, subdirs[..k]);
    var make := [MakeSubdir(layer, subdirs[k].name)];
    var puts := Puts(FileEntries(layer, subdirs[k].name, subdirs[k].files));
    var post := SubdirActions(layer, subdirs[k + 1..]);
    assert subdirs[..k + 1] == subdirs[..k] + [subdirs[k]];
    SubdirActionsAppend(layer, subdirs[..k], [subdirs[k]]);
    assert [subdirs[k]][1..] == [];
    assert SubdirActions(layer, [subdirs[k]]) == make + puts + [];
    assert SubdirActions(layer, subdirs[..k + 1]) == pre + make + puts;
    assert subdirs == subdirs[..k + 1] + subdirs[k + 1..];
    SubdirActionsAppend(layer, subdirs[..k + 1], subdirs[k + 1..]);
    AppendAssoc(pre + make, puts, post);
  }

  /** Cutting the layer loop after layer `k`. */
  lemma LayersSplit(layers: seq<Layer>, k: nat)
    requires k < |layers|
    ensures Actions(layers[..k + 1]) == Actions(layers[..k]) + SubdirActions(layers[k].name, layers[k].subdirs)
    ensures Actions(layers) == Actions(layers[..k + 1]) + Actions(layers[k + 1..])
  {
    SliceAt(layers, k);
    ActionsAppend(layers[..k], [layers[k]]);
    ActionsOne(layers[k]);
    ActionsAppend(layers[..k + 1], layers[k + 1..]);
  }

  lemma ActionsOne(layer: Layer)
    ensures Actions([layer]) == SubdirActions(layer.name, layer.subdirs)
  {
    assert [layer][1..] == [];
    assert Actions([layer]) == SubdirActions(layer.name, layer.subdirs) + [];
  }

  // ----- the script -----

  /**
   * `create_feature_structure(feature_name)`.  `ok` is false when a system
   * call raised; the disk is then as the failing call left it.
   */
  method CreateFeatureStructure(fs: FileSystem, featureName: string) returns (ok: bool)
    modifies fs
    ensures (fs.Contents(), ok) == Run(old(fs.Contents()), Ops(ScriptTemplates, featureName))
  {
    var basePath := BasePath(featureName);
    var featureClass := ClassForm(featureName);
    var snake := FileForm(featureName);
    var structure := Descriptor(snake);
    ok := CreateLayers(fs, basePath, structure, Fill(ScriptTemplates, snake, featureClass));
  }

  /** The loop over the layers of the descriptor. */
  method CreateLayers(fs: FileSystem, basePath: string, structure: seq<Layer>, fill: (string, string) -> Substituted)
    returns (ok: bool)
    modifies fs
    ensures (fs.Contents(), ok) == Run(old(fs.Contents()), Realize(basePath, Actions(structure), fill))
  {
    ghost var start := fs.Contents();
    assert structure[..0] == [];
    var li := 0;
    while li < |structure|
      invariant 0 <= li <= |structure|
      invariant (fs.Contents(), true) == Run(start, Realize(basePath, Actions(structure[..li]), fill))
    {
      LayersSplit(structure, li);
      ghost var done := Actions(structure[..li]);
      ghost var part := SubdirActions(structure[li].name, structure[li].subdirs);
      ok := CreateSubdirs(fs, basePath, structure[li].name, structure[li].subdirs, fill);
      Then(start, basePath, done, part, Actions(structure[li + 1..]), fill);
      if !ok {
        return;
      }
      li := li + 1;
    }
    assert structure[..li] == structure;
    ok := true;
  }

  /** The loop over the sub-directories of one layer: create each, then write its files. */
  method CreateSubdirs(fs: FileSystem, basePath: string, layer: string, subdirs: seq<Subdir>, fill: (string, string) -> Substituted)
    returns (ok: bool)
    modifies fs
    ensures (fs.Contents(), ok) == Run(old(fs.Contents()), Realize(basePath, SubdirActions(layer, subdirs), fill))
  {
    ghost var start := fs.Contents();
    assert subdirs[..0] == [];
    var si := 0;
    while si < |subdirs|
      invariant 0 <= si <= |subdirs|
      invariant (fs.Contents(), true) == Run(start, Realize(basePath, SubdirActions(layer, subdirs[..si]), fill))
    {
      SubdirsSplit(layer, subdirs, si);
      ghost var done := SubdirActions(layer, subdirs[..si]);
      ghost var rest := SubdirActions(layer, subdirs[si + 1..]);
      ghost var files := Puts(FileEntries(layer, subdirs[si].name, subdirs[si].files));
      var dirPath := DirPath(basePath, layer, subdirs[si].name);
      ghost var a := MakeSubdir(layer, subdirs[si].name);
      ok := fs.MakeDirs(dirPath);
      Advance(start, basePath, done, a, files + rest, fill);
      if !ok {
        return;
      }
      ok := CreateFiles(fs, basePath, layer, subdirs[si].name, subdirs[si].files, fill);
      Then(start, basePath, done + [a], files, rest, fill);
      if !ok {
        return;
      }
      si := si + 1;
    }
    assert subdirs[..si] == subdirs;
    ok := true;
  }

  /** The loop over the files of one sub-directory: open each for writing and write its template. */
  method CreateFiles(fs: FileSystem, basePath: string, layer: string, subdir: string, files: seq<string>, fill: (string, string) -> Substituted)
    returns (ok: bool)
    modifies fs
    ensures (fs.Contents(), ok) == Run(old(fs.Contents()), Realize(basePath, Puts(FileEntries(layer, subdir, files)), fill))
  {
    ghost var start := fs.Contents();
    assert files[..0] == [];
    var dirPath := DirPath(basePath, layer, subdir);
    var fi := 0;
    while fi < |files|
      invariant 0 <= fi <= |files|
      invariant (fs.Contents(), true) == Run(start, Realize(basePath, Puts(FileEntries(layer, subdir, files[..fi])), fill))
    {
      FilesSplit(layer, subdir, files, fi);
      ghost var done := Puts(FileEntries(layer, subdir, files[..fi]));
      ghost var p := PutFile(Entry(layer, subdir, files[fi]));
      var filePath := Join(dirPath, files[fi]);
      var content := fill(files[fi], filePath);
      assert ToOp(basePath, p, fill) == WriteOp(filePath, content);
      ok := fs.WriteFile(filePath, content);
      Advance(start, basePath, done, p, Puts(FileEntries(layer, subdir, files[fi + 1..])), fill);
      if !ok {
        return;
      }
      fi := fi + 1;
    }
    assert files[..fi] == files;
    ok := true;
  }

  /**
   * After a successful run of `done`, running action `a` is one step; when
   * that step fails the actions after it are never run.
   */
  lemma Advance(start: Disk, base: string, done: seq<Action>, a: Action, rest: seq<Action>, fill: (string, string) -> Substituted)
    requires Run(start, Realize(base, done, fill)).1
    ensures Run(start, Realize(base, done + [a], fill)) == Step(Run(start, Realize(base, done, fill)).0, ToOp(base, a, fill))
    ensures !Step(Run(start, Realize(base, done, fill)).0, ToOp(base, a, fill)).1 ==>
              Run(start, Realize(base, done + [a] + rest, fill)) == Step(Run(start, Realize(base, done, fill)).0, ToOp(base, a, fill))
  {
    var pre := Realize(base, done, fill);
    var op := ToOp(base, a, fill);
    RealizeAppend(base, done, [a], fill);
    assert Realize(base, [a], fill) == [op];
    RunExtends(start, pre, op);
    if !Step(Run(start, pre).0, op).1 {
      RealizeAppend(base, done + [a], rest, fill);
      RunStopsAt(start, pre, op, Realize(base, rest, fill));
    }
  }

  /**
   * Running the actions `done + part` runs `done`, then `part` from where
   * it left off; and when `part` fails the actions after it are never run.
   */
  lemma Then(start: Disk, base: string, done: seq<Action>, part: seq<Action>, rest: seq<Action>, fill: (string, string) -> Substituted)
    requires Run(start, Realize(base, done, fill)).1
    ensures Run(start, Realize(base, done + part, fill)) == Run(Run(start, Realize(base, done, fill)).0, Realize(base, part, fill))
    ensures !Run(start, Realize(base, done + part, fill)).1 ==>
              Run(start, Realize(base, done + part + rest, fill)) == Run(start, Realize(base, done + part, fill))
  {
    RealizeAppend(base, done, part, fill);
    RunAppend(start, Realize(base, done, fill), Realize(base, part, fill));
    RealizeAppend(base, done + part, rest, fill);
    RunAppend(start, Realize(base, done + part, fill), Realize(base, rest, fill));
  }

  // ----- which files a run writes -----

  /** The entries of the write actions, in order. */
  function PutEntries(acts: seq<Action>): seq<Entry>
  {
    if acts == [] then []
    else (if acts[0].PutFile? then [acts[0].entry] else []) + PutEntries(acts[1..])
  }

  /** The text a write leaves in its file: the filled template, or nothing when filling raised. */
  function TextOf(c: Substituted): string
  {
    if c.Ok? then c.text else []
  }

  /** The path of each entry under `base`. */
  function TargetsUnder(base: string): Entry -> string
  {
    (e: Entry) => TargetPath(base, e)
  }

  /** The files written for `es` at the paths `at` gives them, a later entry winning over an earlier one with the same path. */
  function WrittenEntries(es: seq<Entry>, at: Entry -> string, fill: (string, string) -> Substituted): map<string, string>
  {
    if es == [] then map[]
    else map[at(es[0]) := TextOf(fill(es[0].file, at(es[0])))] + WrittenEntries(es[1..], at, fill)
  }

  lemma {:induction false} PutEntriesAppend(a: seq<Action>, b: seq<Action>)
    ensures PutEntries(a + b) == PutEntries(a) + PutEntries(b)
  {
    if a == [] {
      assert a + b == b;
    } else {
      assert (a + b)[0] == a[0];
      assert (a + b)[1..] == a[1..] + b;
      PutEntriesAppend(a[1..], b);
    }
  }

  lemma {:induction false} PutEntriesOfPuts(es: seq<Entry>)
    ensures PutEntries(Puts(es)) == es
  {
    if es != [] {
      assert Puts(es)[1..] == Puts(es[1..]);
      PutEntriesOfPuts(es[1..]);
    }
  }

  lemma {:induction false} PutEntriesOfSubdirs(layer: string, subdirs: seq<Subdir>)
    ensures PutEntries(SubdirActions(layer, subdirs)) == SubdirEntries(layer, subdirs)
  {
    if subdirs != [] {
      var make := [MakeSubdir(layer, subdirs[0].name)];
      var puts := Puts(FileEntries(layer, subdirs[0].name, subdirs[0].files));
      PutEntriesAppend(make + puts, SubdirActions(layer, subdirs[1..]));
      PutEntriesAppend(make, puts);
      assert PutEntries(make) == [];
      PutEntriesOfPuts(FileEntries(layer, subdirs[0].name, subdirs[0].files));
      PutEntriesOfSubdirs(layer, subdirs[1..]);
    }
  }

  /** The write actions of the loops visit the planned entries, in the planned order. */
  lemma {:induction false} PutEntriesOfActions(layers: seq<Layer>)
    ensures PutEntries(Actions(layers)) == Entries(layers)
  {
    if layers != [] {
      PutEntriesAppend(SubdirActions(layers[0].name, layers[0].subdirs), Actions(layers[1..]));
      PutEntriesOfSubdirs(layers[0].name, layers[0].subdirs);
      PutEntriesOfActions(layers[1..]);
    }
  }

  /** Only the write actions put files on disk. */
  lemma {:induction false} WrittenOfActions(base: string, acts: seq<Action>, fill: (string, string) -> Substituted)
    ensures Written(Realize(base, acts, fill)) == WrittenEntries(PutEntries(acts), TargetsUnder(base), fill)
  {
    if acts != [] {
      var ops := Realize(base, acts, fill);
      assert ops[0] == ToOp(base, acts[0], fill) && ops[1..] == Realize(base, acts[1..], fill);
      WrittenOfActions(base, acts[1..], fill);
      if acts[0].PutFile? {
        assert PutEntries(acts)[1..] == PutEntries(acts[1..]);
      } else {
        assert PutEntries(acts) == PutEntries(acts[1..]);
      }
    }
  }

  /** The files written for `es` are at the paths of `es`. */
  lemma {:induction false} WrittenKeys(es: seq<Entry>, at: Entry -> string, fill: (string, string) -> Substituted)
    ensures WrittenEntries(es, at, fill).Keys == set e | e in es :: at(e)
  {
    if es != [] {
      WrittenKeys(es[1..], at, fill);
      assert forall e :: e in es <==> e == es[0] || e in es[1..];
    }
  }

  /** With distinct paths, each entry's file holds exactly its own text. */
  lemma {:induction false} WrittenValues(es: seq<Entry>, at: Entry -> string, fill: (string, string) -> Substituted, i: nat)
    requires i < |es|
    requires forall j :: 0 <= j < |es| && j != i ==> at(es[j]) != at(es[i])
    ensures at(es[i]) in WrittenEntries(es, at, fill)
    ensures WrittenEntries(es, at, fill)[at(es[i])] == TextOf(fill(es[i].file, at(es[i])))
  {
    var rest := es[1..];
    if i > 0 {
      assert rest[i - 1] == es[i];
      forall j | 0 <= j < |rest| && j != i - 1 ensures at(rest[j]) != at(rest[i - 1]) {
        assert rest[j] == es[j + 1];
      }
      WrittenValues(rest, at, fill, i - 1);
    } else {
      WrittenKeys(rest, at, fill);
      forall e | e in rest ensures at(e) != at(es[0]) {
        var j :| 0 <= j < |rest| && rest[j] == e;
        assert es[j + 1] == e;
      }
    }
  }

  /** A complete run of `create_feature_structure(featureName)` writes the twelve planned targets and nothing else. */
  lemma PlannedPaths(ts: TemplateSet, featureName: string)
    ensures Written(Ops(ts, featureName)).Keys == set e | e in Plan(featureName) :: TargetPath(BasePath(featureName), e)
  {
    var base, snake := BasePath(featureName), FileForm(featureName);
    var fill := Fill(ts, snake, ClassForm(featureName));
    var at := TargetsUnder(base);
    PutEntriesOfActions(Descriptor(snake));
    WrittenOfActions(base, Actions(Descriptor(snake)), fill);
    WrittenKeys(Plan(featureName), at, fill);
    assert forall e :: at(e) == TargetPath(base, e);
  }

  /**
   * Each planned target ends up holding the template dispatch chose for its
   * file name, filled in with the feature's names (or, for the default
   * template, with the target's path).
   */
  lemma PlannedContent(ts: TemplateSet, featureName: string, i: nat)
    requires UsesSuppliedKeys(ts) && i < 12
    ensures |Plan(featureName)| == 12
    ensures var target := TargetPath(BasePath(featureName), Plan(featureName)[i]);
            && Render(ts, Plan(featureName)[i].file, FileForm(featureName), ClassForm(featureName), target).Ok?
            && target in Written(Ops(ts, featureName))
            && Written(Ops(ts, featureName))[target]
               == Render(ts, Plan(featureName)[i].file, FileForm(featureName), ClassForm(featureName), target).text
  {
    var base, snake, featureClass := BasePath(featureName), FileForm(featureName), ClassForm(featureName);
    var fill := Fill(ts, snake, featureClass);
    var at := TargetsUnder(base);
    var plan := Plan(featureName);
    TargetsDistinct(featureName);
    PutEntriesOfActions(Descriptor(snake));
    WrittenOfActions(base, Actions(Descriptor(snake)), fill);
    var target := TargetPath(base, plan[i]);
    assert at(plan[i]) == target;
    forall j | 0 <= j < |plan| && j != i ensures at(plan[j]) != at(plan[i]) {
      assert at(plan[j]) == TargetPath(base, plan[j]);
    }
    WrittenValues(plan, at, fill, i);
    RenderNeverFails(ts, plan[i].file, snake, featureClass, target);
  }

  // ----- when a run succeeds -----

  /** A sub-directory name that is one path component, and file names without `/`. */
  predicate SubdirWellFormed(sd: Subdir)
  {
    IsComponent(sd.name) && forall k :: 0 <= k < |sd.files| ==> '/' !in sd.files[k]
  }

  predicate SubdirsWellFormed(subdirs: seq<Subdir>)
  {
    forall j :: 0 <= j < |subdirs| ==> SubdirWellFormed(subdirs[j])
  }

  /** A layer name that is one path component, and well-formed sub-directories. */
  predicate LayerWellFormed(layer: Layer)
  {
    IsComponent(layer.name) && SubdirsWellFormed(layer.subdirs)
  }

  /** A descriptor whose every name can be joined onto a path as one level. */
  predicate WellFormed(layers: seq<Layer>)
  {
    forall i :: 0 <= i < |layers| ==> LayerWellFormed(layers[i])
  }

  lemma SubdirOfRoles(sd: Subdir, snake: string, roles: seq<Role>)
    requires '/' !in snake && IsComponent(sd.name)
    requires |sd.files| == |roles| && forall k :: 0 <= k < |roles| ==> sd.files[k] == FileName(roles[k], snake)
    ensures SubdirWellFormed(sd)
  {
    forall k | 0 <= k < |sd.files| ensures '/' !in sd.files[k] {
      FileNameSlashFree(roles[k], snake);
    }
  }

  lemma SubdirsOfThreeWellFormed(ss: seq<Subdir>)
    requires |ss| == 3 && SubdirWellFormed(ss[0]) && SubdirWellFormed(ss[1]) && SubdirWellFormed(ss[2])
    ensures SubdirsWellFormed(ss)
  {
  }

  lemma SubdirsOfTwoWellFormed(ss: seq<Subdir>)
    requires |ss| == 2 && SubdirWellFormed(ss[0]) && SubdirWellFormed(ss[1])
    ensures SubdirsWellFormed(ss)
  {
  }

  lemma LayersOfThreeWellFormed(ls: seq<Layer>)
    requires |ls| == 3 && LayerWellFormed(ls[0]) && LayerWellFormed(ls[1]) && LayerWellFormed(ls[2])
    ensures WellFormed(ls)
  {
  }

  lemma DatasourcesWellFormed(snake: string)
    requires '/' !in snake
    ensures SubdirWellFormed(Descriptor(snake)[0].subdirs[0])
  {
    SubdirOfRoles(Descriptor(snake)[0].subdirs[0], snake, [LocalDatasourceFile, LocalDatasourceImplFile, RemoteDatasourceFile]);
  }

  lemma DataWellFormed(snake: string)
    requires '/' !in snake
    ensures LayerWellFormed(Descriptor(snake)[0])
  {
    var subdirs := Descriptor(snake)[0].subdirs;
    DatasourcesWellFormed(snake);
    SubdirOfRoles(subdirs[1], snake, [ModelFile]);
    SubdirOfRoles(subdirs[2], snake, [RepositoryImplFile]);
    SubdirsOfThreeWellFormed(subdirs);
  }

  lemma DomainWellFormed(snake: string)
    requires '/' !in snake
    ensures LayerWellFormed(Descriptor(snake)[1])
  {
    var subdirs := Descriptor(snake)[1].subdirs;
    SubdirOfRoles(subdirs[0], snake, [EntityFile]);
    SubdirOfRoles(subdirs[1], snake, [RepositoryFile]);
    SubdirOfRoles(subdirs[2], snake, [UseCaseFile]);
    SubdirsOfThreeWellFormed(subdirs);
  }

  lemma PresentationWellFormed(snake: string)
    requires '/' !in snake
    ensures LayerWellFormed(Descriptor(snake)[2])
  {
    var subdirs := Descriptor(snake)[2].subdirs;
    SubdirOfRoles(subdirs[0], snake, [PageFile]);
    SubdirOfRoles(subdirs[1], snake, [BlocFile, StateFile, EventFile]);
    SubdirsOfTwoWellFormed(subdirs);
  }

  /** The descriptor is well formed when the feature name has no `/`. */
  lemma DescriptorWellFormed(snake: string)
    requires '/' !in snake
    ensures WellFormed(Descriptor(snake))
  {
    DataWellFormed(snake);
    DomainWellFormed(snake);
    PresentationWellFormed(snake);
    LayersOfThreeWellFormed(Descriptor(snake));
  }

  /** A sub-directory path lies one level below the base's layer directories: its `/` count. */
  lemma DirDepth(base: string, l: string, s: string)
    requires base != [] && IsComponent(l) && IsComponent(s)
    ensures DirPath(base, l, s) != [] && DirPath(base, l, s)[|DirPath(base, l, s)| - 1] != '/'
    ensures Slashes(DirPath(base, l, s)) == Slashes(BasePrefix(base)) + 1
  {
    DirPathShape(base, l, s);
    SlashesAppend(BasePrefix(base) + l + "/", s);
    SlashesAppend(BasePrefix(base) + l, "/");
    SlashesAppend(BasePrefix(base), l);
    SlashFree(l);
    SlashFree(s);
  }

  /** A planned file lies one level below its sub-directory. */
  lemma FileDepth(base: string, l: string, s: string, f: string)
    requires base != [] && IsComponent(l) && IsComponent(s) && '/' !in f
    ensures Parent(TargetPath(base, Entry(l, s, f))) == DirPath(base, l, s)
    ensures Slashes(TargetPath(base, Entry(l, s, f))) == Slashes(BasePrefix(base)) + 2
  {
    DirDepth(base, l, s);
    ParentOfJoin(DirPath(base, l, s), f);
    assert !(|f| > 0 && f[0] == '/') by {
      if |f| > 0 {
        assert f[0] in f;
      }
    }
    JoinRelative(DirPath(base, l, s), f);
    SlashFree(f);
  }

  /** The operations of well-formed layers under a non-empty base, as the run needs them. */
  predicate Shaped(base: string, ops: seq<Op>)
  {
    forall i :: 0 <= i < |ops| ==> OpShaped(base, ops[i])
  }

  /** A sub-directory one level and a file two levels below the base's layer directories. */
  predicate OpShaped(base: string, op: Op)
  {
    && op.path != []
    && (op.MakeDirsOp? ==> Slashes(op.path) == Slashes(BasePrefix(base)) + 1)
    && (op.WriteOp? ==> Slashes(op.path) == Slashes(BasePrefix(base)) + 2)
  }

  lemma ShapedCons(base: string, ops: seq<Op>)
    requires ops != [] && OpShaped(base, ops[0]) && Shaped(base, ops[1..])
    ensures Shaped(base, ops)
  {
    forall i | 0 < i < |ops| ensures OpShaped(base, ops[i]) {
      assert ops[i] == ops[1..][i - 1];
    }
  }

  lemma ShapedAppend(base: string, a: seq<Op>, b: seq<Op>)
    requires Shaped(base, a) && Shaped(base, b)
    ensures Shaped(base, a + b)
  {
    forall i | 0 <= i < |a + b| ensures (a + b)[i] == if i < |a| then a[i] else b[i - |a|] { }
  }

  /** One write of a planned file of sub-directory `s`: its parent is that sub-directory, one level up. */
  lemma PutShape(base: string, l: string, s: string, e: Entry, fill: (string, string) -> Substituted)
    requires base != [] && IsComponent(l) && IsComponent(s) && e.layer == l && e.subdir == s && '/' !in e.file
    ensures ToOp(base, PutFile(e), fill).WriteOp?
    ensures Parent(ToOp(base, PutFile(e), fill).path) == DirPath(base, l, s)
    ensures OpShaped(base, ToOp(base, PutFile(e), fill))
  {
    assert e == Entry(l, s, e.file);
    FileDepth(base, l, s, e.file);
  }

  /** The writes of one sub-directory find it in place. */
  lemma {:induction false} PutsReady(dirs: set<string>, base: string, l: string, s: string, es: seq<Entry>, fill: (string, string) -> Substituted)
    requires base != [] && IsComponent(l) && IsComponent(s) && DirPath(base, l, s) in dirs
    requires forall i :: 0 <= i < |es| ==> es[i].layer == l && es[i].subdir == s && '/' !in es[i].file
    ensures ParentsReady(dirs, Realize(base, Puts(es), fill))
    decreases |es|
  {
    if es != [] {
      var rest := es[1..];
      var ops := Realize(base, Puts(es), fill);
      assert Puts(es)[0] == PutFile(es[0]) && Puts(es)[1..] == Puts(rest);
      assert ops[0] == ToOp(base, PutFile(es[0]), fill) && ops[1..] == Realize(base, Puts(rest), fill);
      PutShape(base, l, s, es[0], fill);
      PutsReady(dirs, base, l, s, rest, fill);
    }
  }

  /** The writes of one sub-directory lie one level below it. */
  lemma {:induction false} PutsShaped(base: string, l: string, s: string, es: seq<Entry>, fill: (string, string) -> Substituted)
    requires base != [] && IsComponent(l) && IsComponent(s)
    requires forall i :: 0 <= i < |es| ==> es[i].layer == l && es[i].subdir == s && '/' !in es[i].file
    ensures Shaped(base, Realize(base, Puts(es), fill))
    decreases |es|
  {
    if es != [] {
      var rest := es[1..];
      var ops := Realize(base, Puts(es), fill);
      assert Puts(es)[0] == PutFile(es[0]) && Puts(es)[1..] == Puts(rest);
      assert ops[0] == ToOp(base, PutFile(es[0]), fill) && ops[1..] == Realize(base, Puts(rest), fill);
      PutShape(base, l, s, es[0], fill);
      PutsShaped(base, l, s, rest, fill);
      ShapedCons(base, ops);
    }
  }

  /** A sub-directory is made before its files are written. */
  lemma SubdirReady(dirs: set<string>, base: string, l: string, sd: Subdir, fill: (string, string) -> Substituted)
    requires base != [] && IsComponent(l) && SubdirWellFormed(sd)
    ensures ParentsReady(dirs, Realize(base, [MakeSubdir(l, sd.name)] + Puts(FileEntries(l, sd.name, sd.files)), fill))
  {
    var dir := DirPath(base, l, sd.name);
    var make := Realize(base, [MakeSubdir(l, sd.name)], fill);
    var puts := Realize(base, Puts(FileEntries(l, sd.name, sd.files)), fill);
    RealizeAppend(base, [MakeSubdir(l, sd.name)], Puts(FileEntries(l, sd.name, sd.files)), fill);
    assert make == [MakeDirsOp(dir)];
    PutsReady(dirs + DirChain(dir), base, l, sd.name, FileEntries(l, sd.name, sd.files), fill);
    assert (make + puts)[0] == MakeDirsOp(dir) && (make + puts)[1..] == puts;
  }

  /** A sub-directory and its files lie at the depths the run needs. */
  lemma SubdirShaped(base: string, l: string, sd: Subdir, fill: (string, string) -> Substituted)
    requires base != [] && IsComponent(l) && SubdirWellFormed(sd)
    ensures Shaped(base, Realize(base, [MakeSubdir(l, sd.name)] + Puts(FileEntries(l, sd.name, sd.files)), fill))
  {
    var puts := Puts(FileEntries(l, sd.name, sd.files));
    RealizeAppend(base, [MakeSubdir(l, sd.name)], puts, fill);
    MakeShaped(base, l, sd.name, fill);
    PutsShaped(base, l, sd.name, FileEntries(l, sd.name, sd.files), fill);
    ShapedAppend(base, Realize(base, [MakeSubdir(l, sd.name)], fill), Realize(base, puts, fill));
  }

  lemma MakeShaped(base: string, l: string, s: string, fill: (string, string) -> Substituted)
    requires base != [] && IsComponent(l) && IsComponent(s)
    ensures Shaped(base, Realize(base, [MakeSubdir(l, s)], fill))
  {
    assert Realize(base, [MakeSubdir(l, s)], fill) == [MakeDirsOp(DirPath(base, l, s))];
    DirDepth(base, l, s);
  }

  /** Each sub-directory is made before its files are written, at the depth the run needs. */
  lemma {:induction false} SubdirsReady(dirs: set<string>, base: string, l: string, subdirs: seq<Subdir>, fill: (string, string) -> Substituted)
    requires base != [] && IsComponent(l) && SubdirsWellFormed(subdirs)
    ensures ParentsReady(dirs, Realize(base, SubdirActions(l, subdirs), fill))
    ensures Shaped(base, Realize(base, SubdirActions(l, subdirs), fill))
    decreases |subdirs|
  {
    if subdirs != [] {
      var sd := subdirs[0];
      var first := [MakeSubdir(l, sd.name)] + Puts(FileEntries(l, sd.name, sd.files));
      assert SubdirWellFormed(sd);
      SubdirReady(dirs, base, l, sd, fill);
      SubdirShaped(base, l, sd, fill);
      RealizeAppend(base, first, SubdirActions(l, subdirs[1..]), fill);
      assert forall j :: 0 <= j < |subdirs[1..]| ==> subdirs[1..][j] == subdirs[j + 1];
      SubdirsReady(dirs, base, l, subdirs[1..], fill);
      ParentsReadyAppend(dirs, Realize(base, first, fill), Realize(base, SubdirActions(l, subdirs[1..]), fill));
      ShapedAppend(base, Realize(base, first, fill), Realize(base, SubdirActions(l, subdirs[1..]), fill));
    }
  }

  /** The same for all layers. */
  lemma {:induction false} LayersReady(dirs: set<string>, base: string, layers: seq<Layer>, fill: (string, string) -> Substituted)
    requires base != [] && WellFormed(layers)
    ensures ParentsReady(dirs, Realize(base, Actions(layers), fill))
    ensures Shaped(base, Realize(base, Actions(layers), fill))
    decreases |layers|
  {
    if layers != [] {
      assert LayerWellFormed(layers[0]);
      RealizeAppend(base, SubdirActions(layers[0].name, layers[0].subdirs), Actions(layers[1..]), fill);
      SubdirsReady(dirs, base, layers[0].name, layers[0].subdirs, fill);
      assert forall j :: 0 <= j < |layers[1..]| ==> layers[1..][j] == layers[j + 1];
      LayersReady(dirs, base, layers[1..], fill);
      ParentsReadyAppend(dirs, Realize(base, SubdirActions(layers[0].name, layers[0].subdirs), fill),
                         Realize(base, Actions(layers[1..]), fill));
      ShapedAppend(base, Realize(base, SubdirActions(layers[0].name, layers[0].subdirs), fill),
                   Realize(base, Actions(layers[1..]), fill));
    }
  }

  /** Written files sit one level deeper than any directory the run makes. */
  lemma {:induction false} ShapedDepths(base: string, ops: seq<Op>)
    requires Shaped(base, ops)
    ensures NonEmptyPaths(ops)
    ensures forall p :: p in Written(ops) ==> Slashes(p) == Slashes(BasePrefix(base)) + 2
    ensures forall d :: d in MadeDirs(ops) ==> Slashes(d) <= Slashes(BasePrefix(base)) + 1
  {
    if ops != [] {
      assert forall i :: 0 <= i < |ops[1..]| ==> ops[1..][i] == ops[i + 1];
      ShapedDepths(base, ops[1..]);
      forall d | d in MadeDirs(ops) ensures Slashes(d) <= Slashes(BasePrefix(base)) + 1 {
        if ops[0].MakeDirsOp? && d in DirChain(ops[0].path) {
          DirChainSlashes(ops[0].path, d);
        }
      }
    }
  }

  /** A filler that never raises leaves every write with its contents. */
  lemma {:induction false} RealizeFilled(base: string, acts: seq<Action>, fill: (string, string) -> Substituted)
    requires forall file, filePath :: fill(file, filePath).Ok?
    ensures AllFilled(Realize(base, acts, fill))
  {
    if acts != [] {
      var ops := Realize(base, acts, fill);
      assert ops[0] == ToOp(base, acts[0], fill) && ops[1..] == Realize(base, acts[1..], fill);
      RealizeFilled(base, acts[1..], fill);
      forall i | 0 <= i < |ops| && ops[i].WriteOp? ensures ops[i].content.Ok? {
        if i > 0 {
          assert ops[i] == ops[1..][i - 1];
        }
      }
    }
  }

  /**
   * The disk does not get in the way of the plan: no directory the run makes
   * (the sub-directories and every directory above them) is an existing
   * file, and no planned file is an existing directory.
   */
  predicate Clean(ts: TemplateSet, d: Disk, featureName: string)
  {
    d.files.Keys !! MadeDirs(Ops(ts, featureName)) && d.dirs !! Written(Ops(ts, featureName)).Keys
  }

  /** For a name without `/`, everything the run needs besides a clean disk holds. */
  lemma OpsReady(ts: TemplateSet, d: Disk, featureName: string)
    requires UsesSuppliedKeys(ts) && '/' !in featureName && Clean(ts, d, featureName)
    ensures Ready(d, Ops(ts, featureName))
  {
    var base, snake, featureClass := BasePath(featureName), FileForm(featureName), ClassForm(featureName);
    var fill := Fill(ts, snake, featureClass);
    var ops := Ops(ts, featureName);
    SlashKept(featureName);
    DescriptorWellFormed(snake);
    LayersReady(d.dirs, base, Descriptor(snake), fill);
    ShapedDepths(base, ops);
    forall file, filePath ensures fill(file, filePath).Ok? {
      RenderNeverFails(ts, file, snake, featureClass, filePath);
    }
    RealizeFilled(base, Actions(Descriptor(snake)), fill);
    assert Written(ops).Keys !! MadeDirs(ops) by {
      forall p | p in Written(ops).Keys ensures p !in MadeDirs(ops) { }
    }
  }

  /**
   * For a name without `/`, the run succeeds exactly when the disk is clean,
   * and then it adds the planned files and directories, overwriting planned
   * files that already existed and leaving everything else as it was.
   */
  lemma CleanRun(ts: TemplateSet, d: Disk, featureName: string)
    requires UsesSuppliedKeys(ts) && '/' !in featureName
    ensures Run(d, Ops(ts, featureName)).1 <==> Clean(ts, d, featureName)
    ensures Clean(ts, d, featureName) ==>
              Run(d, Ops(ts, featureName)).0 == Disk(d.files + Written(Ops(ts, featureName)), d.dirs + MadeDirs(Ops(ts, featureName)))
  {
    if Clean(ts, d, featureName) {
      OpsReady(ts, d, featureName);
      RunSucceeds(d, Ops(ts, featureName));
      RunResult(d, Ops(ts, featureName));
    }
    if Run(d, Ops(ts, featureName)).1 {
      RunNeeds(d, Ops(ts, featureName));
    }
  }

  /** Running the script a second time, after a run that succeeded, changes nothing and succeeds again. */
  lemma RunTwice(ts: TemplateSet, d: Disk, featureName: string)
    requires Run(d, Ops(ts, featureName)).1
    ensures Run(Run(d, Ops(ts, featureName)).0, Ops(ts, featureName)) == (Run(d, Ops(ts, featureName)).0, true)
  {
    RunIdempotent(d, Ops(ts, featureName));
  }

  /** The script itself, with its own templates, is idempotent: a second run after a success changes nothing. */
  lemma ScriptRunTwice(d: Disk, featureName: string)
    requires Run(d, Ops(ScriptTemplates, featureName)).1
    ensures Run(Run(d, Ops(ScriptTemplates, featureName)).0, Ops(ScriptTemplates, featureName))
            == (Run(d, Ops(ScriptTemplates, featureName)).0, true)
  {
    RunTwice(ScriptTemplates, d, featureName);
  }

  /** Every planned file lies inside the feature's folder when the name is relative. */
  lemma PlannedUnderBase(featureName: string, e: Entry)
    requires !IsAbsolute(featureName) && e in Plan(featureName)
    ensures BasePrefix(BasePath(featureName)) <= TargetPath(BasePath(featureName), e)
  {
    PlanShape(FileForm(featureName));
    var i :| 0 <= i < |Plan(featureName)| && Plan(featureName)[i] == e;
    TargetsUnderBase(featureName, i);
  }

  /**
   * Whatever its outcome, a run for a relative feature name changes no file
   * outside the feature's folder `lib/features/<featureName>/`.
   */
  lemma OutsideUntouched(ts: TemplateSet, d: Disk, featureName: string, p: string)
    requires !IsAbsolute(featureName) && !(BasePrefix(BasePath(featureName)) <= p)
    ensures p in Run(d, Ops(ts, featureName)).0.files <==> p in d.files
    ensures p in d.files ==> Run(d, Ops(ts, featureName)).0.files[p] == d.files[p]
  {
    PlannedPaths(ts, featureName);
    if p in Written(Ops(ts, featureName)) {
      var e :| e in Plan(featureName) && p == TargetPath(BasePath(featureName), e);
      PlannedUnderBase(featureName, e);
    }
    RunFrame(d, Ops(ts, featureName), p);
  }
}
