/**
 * The write plan of `create_feature_structure`: three layers, each with its
 * sub-directories, each with the files to create in it.  A file is identified
 * by its role; its name is built from the file form of the feature name.
 */
module Structure {
  import opened Names
  import opened Paths
  import opened Seqs

  /** The twelve files the plan creates, one constructor each. */
  datatype Role =
    | LocalDatasourceFile | LocalDatasourceImplFile | RemoteDatasourceFile
    | ModelFile | RepositoryImplFile
    | EntityFile | RepositoryFile | UseCaseFile
    | PageFile | BlocFile | StateFile | EventFile

  /** The part of a file name that follows the file form. */
  function Suffix(role: Role): string
  {
    match role
    case LocalDatasourceFile => "_local_datasource.dart"
    case LocalDatasourceImplFile => "_local_datasource_impl.dart"
    case RemoteDatasourceFile => "_remote_datasource.dart"
    case ModelFile => "_model.dart"
    case RepositoryImplFile => "_repository_impl.dart"
    case EntityFile => "_entity.dart"
    case RepositoryFile => "_repository.dart"
    case UseCaseFile => "_data_usecase.dart"
    case PageFile => "_page.dart"
    case BlocFile => "_bloc.dart"
    case StateFile => "_state.dart"
    case EventFile => "_event.dart"
  }

  /** The file name of a role: `<snake><suffix>`, and `get_<snake>_data_usecase.dart` for the use case. */
  function FileName(role: Role, snake: string): string
  {
    if role == UseCaseFile then "get_" + snake + Suffix(role) else snake + Suffix(role)
  }

  function LayerOf(role: Role): string
  {
    match role
    case LocalDatasourceFile | LocalDatasourceImplFile | RemoteDatasourceFile | ModelFile | RepositoryImplFile => "data"
    case EntityFile | RepositoryFile | UseCaseFile => "domain"
    case PageFile | BlocFile | StateFile | EventFile => "presentation"
  }

  function SubdirOf(role: Role): string
  {
    match role
    case LocalDatasourceFile | LocalDatasourceImplFile | RemoteDatasourceFile => "datasources"
    case ModelFile => "models"
    case RepositoryImplFile | RepositoryFile => "repositories"
    case EntityFile => "entities"
    case UseCaseFile => "usecases"
    case PageFile => "pages"
    case BlocFile | StateFile | EventFile => "bloc"
  }

  datatype Subdir = Subdir(name: string, files: seq<string>)

  datatype Layer = Layer(name: string, subdirs: seq<Subdir>)

  /** The names of the files of `roles`, in order. */
  function FileNames(roles: seq<Role>, snake: string): seq<string>
  {
    seq(|roles|, i requires 0 <= i < |roles| => FileName(roles[i], snake))
  }

  /** `structure`: the layer → sub-directory → files descriptor, in insertion order. */
  function Descriptor(snake: string): seq<Layer>
  {
    [ Layer("data", [
        Subdir("datasources", FileNames([LocalDatasourceFile, LocalDatasourceImplFile, RemoteDatasourceFile], snake)),
        Subdir("models", FileNames([ModelFile], snake)),
        Subdir("repositories", FileNames([RepositoryImplFile], snake))]),
      Layer("domain", [
        Subdir("entities", FileNames([EntityFile], snake)),
        Subdir("repositories", FileNames([RepositoryFile], snake)),
        Subdir("usecases", FileNames([UseCaseFile], snake))]),
      Layer("presentation", [
        Subdir("pages", FileNames([PageFile], snake)),
        Subdir("bloc", FileNames([BlocFile, StateFile, EventFile], snake))]) ]
  }

  /** A file of the plan: the layer and sub-directory it goes in, and its name. */
  datatype Entry = Entry(layer: string, subdir: string, file: string)

  /** The files of a sub-directory, in order. */
  function FileEntries(layer: string, subdir: string, files: seq<string>): (es: seq<Entry>)
    ensures |es| == |files|
    ensures forall i :: 0 <= i < |files| ==> es[i] == Entry(layer, subdir, files[i])
  {
    if files == [] then [] else [Entry(layer, subdir, files[0])] + FileEntries(layer, subdir, files[1..])
  }

  lemma FileEntriesAppend(layer: string, subdir: string, a: seq<string>, b: seq<string>)
    ensures FileEntries(layer, subdir, a + b) == FileEntries(layer, subdir, a) + FileEntries(layer, subdir, b)
  {
    var whole, left, right := FileEntries(layer, subdir, a + b), FileEntries(layer, subdir, a), FileEntries(layer, subdir, b);
    forall i | 0 <= i < |whole| ensures whole[i] == (left + right)[i] {
      if i < |a| {
        assert (a + b)[i] == a[i];
        assert (left + right)[i] == left[i];
      } else {
        assert (a + b)[i] == b[i - |a|];
        assert (left + right)[i] == right[i - |a|];
      }
    }
  }

  /** The files of a layer, sub-directory by sub-directory. */
  function SubdirEntries(layer: string, subdirs: seq<Subdir>): seq<Entry>
  {
    if subdirs == [] then []
    else FileEntries(layer, subdirs[0].name, subdirs[0].files) + SubdirEntries(layer, subdirs[1..])
  }

  /** The nested iteration over the descriptor, flattened into one ordered list. */
  function Entries(layers: seq<Layer>): seq<Entry>
  {
    if layers == [] then [] else SubdirEntries(layers[0].name, layers[0].subdirs) + Entries(layers[1..])
  }

  /** The roles of each layer's files, in the order the plan creates them. */
  const DataRoles: seq<Role> :=
    [LocalDatasourceFile, LocalDatasourceImplFile, RemoteDatasourceFile, ModelFile, RepositoryImplFile]
  const DomainRoles: seq<Role> := [EntityFile, RepositoryFile, UseCaseFile]
  const PresentationRoles: seq<Role> := [PageFile, BlocFile, StateFile, EventFile]

  /** The roles in the order the plan creates their files. */
  const PlanRoles: seq<Role> := DataRoles + DomainRoles + PresentationRoles

  function EntryOf(role: Role, snake: string): Entry
  {
    Entry(LayerOf(role), SubdirOf(role), FileName(role, snake))
  }

  /** `dir_path = os.path.join(base_path, layer, subdir)` */
  function DirPath(base: string, layer: string, subdir: string): string
  {
    Join(Join(base, layer), subdir)
  }

  /** `file_path = os.path.join(dir_path, file)` */
  function TargetPath(base: string, e: Entry): string
  {
    Join(DirPath(base, e.layer, e.subdir), e.file)
  }

  /** The prefix every relative layer path starts with: the base path with one trailing `/`. */
  function BasePrefix(base: string): string
  {
    if base != [] && base[|base| - 1] == '/' then base else base + "/"
  }

  /** An absolute file name: one that makes `os.path.join` discard the directory. */
  predicate IsAbsolute(p: string)
  {
    |p| > 0 && p[0] == '/'
  }

  // ----- the shape of the plan -----

  /**
   * Three layers with eight sub-directories between them, and twelve files
   * whose layer, sub-directory and name follow their role in plan order.
   */
  lemma PlanShape(snake: string)
    ensures |Descriptor(snake)| == 3
    ensures |Descriptor(snake)[0].subdirs| + |Descriptor(snake)[1].subdirs| + |Descriptor(snake)[2].subdirs| == 8
    ensures |Entries(Descriptor(snake))| == |PlanRoles| == 12
    ensures forall i :: 0 <= i < 12 ==> Entries(Descriptor(snake))[i] == EntryOf(PlanRoles[i], snake)
  {
    var d := Descriptor(snake);
    LayersOfThree(d);
    DataEntries(snake);
    DomainEntries(snake);
    PresentationEntries(snake);
    RoleEntriesAppend(DataRoles, DomainRoles, snake);
    RoleEntriesAppend(DataRoles + DomainRoles, PresentationRoles, snake);
  }

  /** The entries of files of the given roles, in order. */
  function RoleEntries(roles: seq<Role>, snake: string): (es: seq<Entry>)
    ensures |es| == |roles|
    ensures forall i :: 0 <= i < |roles| ==> es[i] == EntryOf(roles[i], snake)
  {
    if roles == [] then [] else [EntryOf(roles[0], snake)] + RoleEntries(roles[1..], snake)
  }

  lemma RoleEntriesAppend(a: seq<Role>, b: seq<Role>, snake: string)
    ensures RoleEntries(a + b, snake) == RoleEntries(a, snake) + RoleEntries(b, snake)
  {
    var x, y := RoleEntries(a + b, snake), RoleEntries(a, snake) + RoleEntries(b, snake);
    forall i | 0 <= i < |x| ensures x[i] == y[i] {
      if i < |a| { assert (a + b)[i] == a[i]; } else { assert (a + b)[i] == b[i - |a|]; }
    }
  }

  /** A sub-directory listing files of roles that all belong in it. */
  lemma SubdirRoles(layer: string, name: string, roles: seq<Role>, snake: string)
    requires forall i :: 0 <= i < |roles| ==> LayerOf(roles[i]) == layer && SubdirOf(roles[i]) == name
    ensures FileEntries(layer, name, FileNames(roles, snake)) == RoleEntries(roles, snake)
  {
  }

  lemma DataEntries(snake: string)
    ensures SubdirEntries("data", Descriptor(snake)[0].subdirs) == RoleEntries(DataRoles, snake)
  {
    var ss := Descriptor(snake)[0].subdirs;
    var r0, r1, r2 := [LocalDatasourceFile, LocalDatasourceImplFile, RemoteDatasourceFile], [ModelFile], [RepositoryImplFile];
    SubdirsOfThree("data", ss);
    SubdirRoles("data", "datasources", r0, snake);
    SubdirRoles("data", "models", r1, snake);
    SubdirRoles("data", "repositories", r2, snake);
    RoleEntriesAppend(r0, r1, snake);
    RoleEntriesAppend(r0 + r1, r2, snake);
    assert r0 + r1 + r2 == DataRoles;
  }

  lemma DomainEntries(snake: string)
    ensures SubdirEntries("domain", Descriptor(snake)[1].subdirs) == RoleEntries(DomainRoles, snake)
  {
    var ss := Descriptor(snake)[1].subdirs;
    var r0, r1, r2 := [EntityFile], [RepositoryFile], [UseCaseFile];
    SubdirsOfThree("domain", ss);
    SubdirRoles("domain", "entities", r0, snake);
    SubdirRoles("domain", "repositories", r1, snake);
    SubdirRoles("domain", "usecases", r2, snake);
    RoleEntriesAppend(r0, r1, snake);
    RoleEntriesAppend(r0 + r1, r2, snake);
    assert r0 + r1 + r2 == DomainRoles;
  }

  lemma PresentationEntries(snake: string)
    ensures SubdirEntries("presentation", Descriptor(snake)[2].subdirs) == RoleEntries(PresentationRoles, snake)
  {
    var ss := Descriptor(snake)[2].subdirs;
    var r0, r1 := [PageFile], [BlocFile, StateFile, EventFile];
    SubdirsOfTwo("presentation", ss);
    SubdirRoles("presentation", "pages", r0, snake);
    SubdirRoles("presentation", "bloc", r1, snake);
    RoleEntriesAppend(r0, r1, snake);
    assert r0 + r1 == PresentationRoles;
  }

  lemma LayersOfThree(d: seq<Layer>)
    requires |d| == 3
    ensures Entries(d) == SubdirEntries(d[0].name, d[0].subdirs) + SubdirEntries(d[1].name, d[1].subdirs)
                          + SubdirEntries(d[2].name, d[2].subdirs)
  {
    var a, b, c := SubdirEntries(d[0].name, d[0].subdirs), SubdirEntries(d[1].name, d[1].subdirs),
                   SubdirEntries(d[2].name, d[2].subdirs);
    assert d[1..][1..][1..] == [];
    assert Entries(d[1..][1..]) == c + [] == c;
    assert Entries(d[1..]) == b + c;
    assert Entries(d) == a + (b + c);
  }

  lemma SubdirsOfThree(layer: string, ss: seq<Subdir>)
    requires |ss| == 3
    ensures SubdirEntries(layer, ss) == FileEntries(layer, ss[0].name, ss[0].files)
              + FileEntries(layer, ss[1].name, ss[1].files) + FileEntries(layer, ss[2].name, ss[2].files)
  {
    var a, b, c := FileEntries(layer, ss[0].name, ss[0].files), FileEntries(layer, ss[1].name, ss[1].files),
                   FileEntries(layer, ss[2].name, ss[2].files);
    assert ss[1..][1..][1..] == [];
    assert SubdirEntries(layer, ss[1..][1..]) == c + [] == c;
    assert SubdirEntries(layer, ss[1..]) == b + c;
    assert SubdirEntries(layer, ss) == a + (b + c);
  }

  lemma SubdirsOfTwo(layer: string, ss: seq<Subdir>)
    requires |ss| == 2
    ensures SubdirEntries(layer, ss) == FileEntries(layer, ss[0].name, ss[0].files)
              + FileEntries(layer, ss[1].name, ss[1].files)
  {
    var a, b := FileEntries(layer, ss[0].name, ss[0].files), FileEntries(layer, ss[1].name, ss[1].files);
    assert ss[1..][1..] == [];
    assert SubdirEntries(layer, ss[1..]) == b + [] == b;
  }

  /** No role occurs twice in the plan. */
  lemma PlanRolesDistinct()
    ensures forall i, j :: 0 <= i < j < |PlanRoles| ==> PlanRoles[i] != PlanRoles[j]
  {
  }

  // ----- file names -----

  /** Suffixes are told apart by their length and their second character. */
  lemma SuffixInjective(r1: Role, r2: Role)
    requires Suffix(r1) == Suffix(r2)
    ensures r1 == r2
  {
    var s1, s2 := Suffix(r1), Suffix(r2);
    assert |s1| == |s2| && s1[1] == s2[1];
  }

  /** Only the local data source suffix is as long as the use case name's tail. */
  lemma SuffixLength22(r: Role)
    requires |Suffix(r)| == 22
    ensures r == LocalDatasourceFile
  {
  }

  /** The use case file name is never the name of another role. */
  lemma UseCaseNameUnique(r: Role, snake: string)
    requires r != UseCaseFile
    ensures FileName(UseCaseFile, snake) != FileName(r, snake)
  {
    if |FileName(UseCaseFile, snake)| == |FileName(r, snake)| {
      assert |Suffix(r)| == 22;
      SuffixLength22(r);
      UseCaseNotLocal(snake);
    }
  }

  /** The only other file name as long as the use case's differs from it at character 15 after the file form. */
  lemma UseCaseNotLocal(snake: string)
    ensures FileName(UseCaseFile, snake) != FileName(LocalDatasourceFile, snake)
  {
    var su, so := Suffix(UseCaseFile), Suffix(LocalDatasourceFile);
    assert su[11] == 's' && so[15] == 'c';
    ElementAt("get_", snake, su, 11);
    ElementAt([], snake, so, 15);
    assert [] + snake + so == FileName(LocalDatasourceFile, snake);
  }

  /** No file name suffix contains `/`. */
  lemma SuffixSlashFree(role: Role)
    ensures '/' !in Suffix(role)
  {
    match role
    case LocalDatasourceFile =>
    case LocalDatasourceImplFile =>
    case RemoteDatasourceFile =>
    case ModelFile =>
    case RepositoryImplFile =>
    case EntityFile =>
    case RepositoryFile =>
    case UseCaseFile =>
    case PageFile =>
    case BlocFile =>
    case StateFile =>
    case EventFile =>
  }

  /** A file name has a `/` only when the file form has one. */
  lemma FileNameSlashFree(role: Role, snake: string)
    requires '/' !in snake
    ensures '/' !in FileName(role, snake)
  {
    SuffixSlashFree(role);
    assert '/' !in "get_";
  }

  /** Different roles never get the same file name, whatever the file form. */
  lemma FileNameInjective(r1: Role, r2: Role, snake: string)
    requires FileName(r1, snake) == FileName(r2, snake)
    ensures r1 == r2
  {
    if r1 != UseCaseFile && r2 != UseCaseFile {
      AppendCancel(snake, Suffix(r1), Suffix(r2));
      SuffixInjective(r1, r2);
    } else if r1 != UseCaseFile {
      UseCaseNameUnique(r1, snake);
    } else if r2 != UseCaseFile {
      UseCaseNameUnique(r2, snake);
    }
  }

  /** Only the file names built on the file form can be absolute, and only when the file form is. */
  lemma FileNameAbsolute(role: Role, snake: string)
    ensures IsAbsolute(FileName(role, snake)) <==> role != UseCaseFile && IsAbsolute(snake)
  {
    var f := FileName(role, snake);
    if role != UseCaseFile && snake == [] {
      assert f == Suffix(role);
    }
    if role != UseCaseFile && snake != [] {
      assert f[0] == snake[0];
    }
  }

  // ----- paths -----

  /** A path component the plan joins on: non-empty and without `/`. */
  predicate IsComponent(s: string)
  {
    s != [] && '/' !in s
  }

  /** Where a relative file lands below the base prefix: `<layer>/<subdir>/<file>`. */
  function RelativeTarget(e: Entry): string
  {
    e.layer + "/" + e.subdir + "/" + e.file
  }

  /** The layer and sub-directory names are path components. */
  lemma ComponentNames(role: Role)
    ensures IsComponent(LayerOf(role)) && IsComponent(SubdirOf(role))
  {
  }

  /** The directory of an entry: the base prefix, the layer, a `/` and the sub-directory. */
  lemma DirPathShape(base: string, l: string, s: string)
    requires base != [] && IsComponent(l) && IsComponent(s)
    ensures DirPath(base, l, s) == BasePrefix(base) + l + "/" + s
    ensures DirPath(base, l, s)[|DirPath(base, l, s)| - 1] != '/'
  {
    assert l[0] != '/' by { assert l[0] in l; }
    assert s[0] != '/' by { assert s[0] in s; }
    var ls := Join(base, l);
    assert ls == BasePrefix(base) + l;
    assert l[|l| - 1] != '/' by { assert l[|l| - 1] in l; }
    assert s[|s| - 1] != '/' by { assert s[|s| - 1] in s; }
  }

  /**
   * Where a file lands: its own name when that name is absolute, and otherwise
   * `<base>/<layer>/<subdir>/<file>`.
   */
  lemma TargetPathShape(base: string, e: Entry)
    requires base != [] && IsComponent(e.layer) && IsComponent(e.subdir)
    ensures IsAbsolute(e.file) ==> TargetPath(base, e) == e.file
    ensures !IsAbsolute(e.file) ==> TargetPath(base, e) == BasePrefix(base) + RelativeTarget(e)
  {
    DirPathShape(base, e.layer, e.subdir);
    if !IsAbsolute(e.file) {
      var q, l, s, f := BasePrefix(base), e.layer, e.subdir, e.file;
      var d := DirPath(base, l, s);
      JoinRelative(d, f);
      TargetRegroup(d, q, l, s, f);
    }
  }

  lemma TargetRegroup(d: string, q: string, l: string, s: string, f: string)
    requires d == q + l + "/" + s
    ensures d + "/" + f == q + (l + "/" + s + "/" + f)
  {
  }

  /** `a + "/" + x` is split unambiguously at its first `/` when `a` has none. */
  lemma SplitAtSlash(a1: string, x1: string, a2: string, x2: string)
    requires '/' !in a1 && '/' !in a2
    requires a1 + "/" + x1 == a2 + "/" + x2
    ensures a1 == a2 && x1 == x2
  {
    var p := a1 + "/" + x1;
    assert p[|a1|] == '/';
    assert (a2 + "/" + x2)[|a2|] == '/';
    assert |a1| == |a2|;
    assert a1 == p[..|a1|] == a2;
    assert x1 == p[|a1| + 1..] == x2;
  }

  /** A relative target gives back its layer, sub-directory and file. */
  lemma RelativeTargetInjective(e1: Entry, e2: Entry)
    requires '/' !in e1.layer && '/' !in e1.subdir && '/' !in e2.layer && '/' !in e2.subdir
    requires RelativeTarget(e1) == RelativeTarget(e2)
    ensures e1 == e2
  {
    var l1, s1, f1 := e1.layer, e1.subdir, e1.file;
    var l2, s2, f2 := e2.layer, e2.subdir, e2.file;
    assert l1 + "/" + s1 + "/" + f1 == l1 + "/" + (s1 + "/" + f1);
    assert l2 + "/" + s2 + "/" + f2 == l2 + "/" + (s2 + "/" + f2);
    SplitAtSlash(l1, s1 + "/" + f1, l2, s2 + "/" + f2);
    SplitAtSlash(s1, f1, s2, f2);
  }

  /** Two entries with components for layer and sub-directory land on different paths. */
  lemma TargetPathInjective(base: string, e1: Entry, e2: Entry)
    requires base != [] && !IsAbsolute(base)
    requires IsComponent(e1.layer) && IsComponent(e1.subdir) && IsComponent(e2.layer) && IsComponent(e2.subdir)
    requires TargetPath(base, e1) == TargetPath(base, e2)
    ensures e1.file == e2.file
    ensures !IsAbsolute(e1.file) ==> e1 == e2
  {
    TargetPathShape(base, e1);
    TargetPathShape(base, e2);
    var q := BasePrefix(base);
    assert q[0] == base[0];
    if !IsAbsolute(e1.file) && !IsAbsolute(e2.file) {
      var t := TargetPath(base, e1);
      assert RelativeTarget(e1) == t[|q|..] == RelativeTarget(e2);
      RelativeTargetInjective(e1, e2);
    }
  }

  /** A target path determines its role: no two files of the plan are written to the same path. */
  lemma RoleTargetInjective(base: string, r1: Role, r2: Role, snake: string)
    requires base != [] && !IsAbsolute(base)
    requires TargetPath(base, EntryOf(r1, snake)) == TargetPath(base, EntryOf(r2, snake))
    ensures r1 == r2
  {
    ComponentNames(r1);
    ComponentNames(r2);
    TargetPathInjective(base, EntryOf(r1, snake), EntryOf(r2, snake));
    FileNameInjective(r1, r2, snake);
  }

  // ----- the plan for a feature name -----

  /** The ordered list of files `create_feature_structure(featureName)` writes. */
  function Plan(featureName: string): seq<Entry>
  {
    Entries(Descriptor(FileForm(featureName)))
  }

  /** The file form is absolute exactly when the raw name is. */
  lemma FileFormAbsolute(featureName: string)
    ensures IsAbsolute(FileForm(featureName)) <==> IsAbsolute(featureName)
  {
  }

  /** The twelve target paths of the plan are pairwise distinct, for every feature name. */
  lemma TargetsDistinct(featureName: string)
    ensures |Plan(featureName)| == 12
    ensures forall i, j :: 0 <= i < j < 12 ==>
              TargetPath(BasePath(featureName), Plan(featureName)[i]) != TargetPath(BasePath(featureName), Plan(featureName)[j])
  {
    var snake, base := FileForm(featureName), BasePath(featureName);
    PlanShape(snake);
    PlanRolesDistinct();
    assert base[0] == 'l';
    forall i, j | 0 <= i < j < 12
      ensures TargetPath(base, Plan(featureName)[i]) != TargetPath(base, Plan(featureName)[j])
    {
      if TargetPath(base, EntryOf(PlanRoles[i], snake)) == TargetPath(base, EntryOf(PlanRoles[j], snake)) {
        RoleTargetInjective(base, PlanRoles[i], PlanRoles[j], snake);
      }
    }
  }

  /**
   * Entry `i` of the plan: its layer and sub-directory are path components, and
   * its file name is absolute exactly when it is not the use case and the
   * feature name is absolute.
   */
  lemma PlanEntry(featureName: string, i: nat)
    requires i < 12
    ensures |Plan(featureName)| == 12
    ensures Plan(featureName)[i] == EntryOf(PlanRoles[i], FileForm(featureName))
    ensures IsComponent(Plan(featureName)[i].layer) && IsComponent(Plan(featureName)[i].subdir)
    ensures IsAbsolute(Plan(featureName)[i].file) <==> i != 7 && IsAbsolute(featureName)
  {
    PlanShape(FileForm(featureName));
    ComponentNames(PlanRoles[i]);
    FileFormAbsolute(featureName);
    FileNameAbsolute(PlanRoles[i], FileForm(featureName));
  }

  /** Unless the feature name is absolute, every target lies inside the base folder: it starts with the base and a `/`. */
  lemma TargetsUnderBase(featureName: string, i: nat)
    requires !IsAbsolute(featureName) && i < 12
    ensures |Plan(featureName)| == 12
    ensures BasePrefix(BasePath(featureName)) <= TargetPath(BasePath(featureName), Plan(featureName)[i])
  {
    var base := BasePath(featureName);
    PlanEntry(featureName, i);
    var e := Plan(featureName)[i];
    TargetPathShape(base, e);
    PrefixExtends(BasePrefix(base), BasePrefix(base), RelativeTarget(e));
  }

  /** For a non-empty name that neither starts nor ends with `/`, every target is exactly `<base>/<layer>/<subdir>/<file>`. */
  lemma TargetLayout(featureName: string, i: nat)
    requires featureName != [] && featureName[0] != '/' && featureName[|featureName| - 1] != '/' && i < 12
    ensures |Plan(featureName)| == 12
    ensures TargetPath(BasePath(featureName), Plan(featureName)[i]) ==
              BasePath(featureName) + "/" + Plan(featureName)[i].layer + "/" + Plan(featureName)[i].subdir
              + "/" + Plan(featureName)[i].file
  {
    var base := BasePath(featureName);
    PlanEntry(featureName, i);
    var e := Plan(featureName)[i];
    TargetPathShape(base, e);
    assert base[|base| - 1] == featureName[|featureName| - 1];
    assert BasePrefix(base) == base + "/";
    TargetRegroup(base + "/" + e.layer + "/" + e.subdir, base + "/", e.layer, e.subdir, e.file);
  }

  /**
   * An absolute feature name escapes the base path: every file except the use
   * case is written to its bare file name, outside `lib/features/`.
   */
  lemma AbsoluteNameEscapes(featureName: string, i: nat)
    requires IsAbsolute(featureName) && i < 12 && i != 7
    ensures |Plan(featureName)| == 12
    ensures TargetPath(BasePath(featureName), Plan(featureName)[i]) == Plan(featureName)[i].file
    ensures !(BasePath(featureName) <= Plan(featureName)[i].file)
  {
    PlanEntry(featureName, i);
    TargetPathShape(BasePath(featureName), Plan(featureName)[i]);
    assert BasePath(featureName)[0] == 'l';
  }
}
