# create_feature: a verified model of the feature scaffolder

`create_feature.py` scaffolds one feature of a Flutter application that
follows the clean-architecture / BLoC layout. Given a feature name it works in
four steps:

1. It derives three names. The base path is `lib/features/<name>`. The class
   form is `name.title()` with the underscores removed. The file form is
   `name.lower()`.
2. It builds a fixed descriptor: three layers (`data`, `domain`,
   `presentation`), eight sub-directories and twelve file names.
3. For every sub-directory it runs `os.makedirs(..., exist_ok=True)`. For every
   file it opens the file for writing and writes a template filled with
   `string.Template.substitute`.
4. It picks the template with an `if`/`elif` chain. The first of nine dedicated
   templates whose file name matches wins. Any other file gets a generic
   comment that records the file's own path.

The model follows this structure:

- `Names`: the three name derivations, with `str.title` and `str.lower` over
  ASCII.
- `Paths`: POSIX `os.path.join`, the parent of a path, and the chain of
  directories `os.makedirs` creates.
- `Templates`: a template as a sequence of literal text and placeholders, and
  `substitute` with its `KeyError`.
- `TemplateTexts`: the ten templates of the script, written as segment
  sequences and gathered into `ScriptTemplates`. A `TemplateSet` holds one
  dedicated template per kind plus the generic one.
- `Structure`: the descriptor, its flattening into the ordered list of twelve
  planned files, and their target paths.
- `Dispatch`: the `if`/`elif` chain as a first-match search over the nine
  branches, and the rendering of each file.
- `FileSystem`: an abstract disk (a map from file paths to contents plus a set
  of directories). It has a `FileSystem` class whose methods change the disk in
  place, and a function `Run` that says what a sequence of operations does. A
  failing step ends the run, as an uncaught exception ends the script.
- `Scaffold`: `create_feature_structure` itself, as three nested loops over the
  descriptor that update a `FileSystem`. Each loop is proved against `Run` of
  the operation list it performs. Beside them are the theorems about that
  list:
  - which paths it writes and with what text;
  - exactly when a run succeeds;
  - that a second run changes nothing;
  - that, for a name not starting with `/`, no file outside
    `lib/features/<name>/` changes. Directories are only ever added, and the
    first `os.makedirs` may also add `lib` and `lib/features`.

The templates are local values of `create_feature_structure`. The method
`Scaffold.CreateFeatureStructure` uses the script's own `ScriptTemplates`. Most
theorems are stated for any template set `ts` whose dedicated templates ask
only for `feature_name_snake_case` and `feature_class` and whose generic
template asks only for `file_path` (`UsesSuppliedKeys`).
`TemplateTexts.TemplatesUseSuppliedKeys` proves that the script's set is one of
them, and the `Investment…` and `ScriptRunTwice` lemmas apply the theorems to
it.

Two behaviours of the script follow from the code. The lemmas named in them
state the path facts; the order in which the run stops follows from the
definition of `FileSystem.Run`, which stops at the first failing step:

- A feature name that starts with `/` makes `os.path.join` drop the
  directory for eleven of the twelve files. Their targets are then their bare
  file names, outside `lib/features/` (`Structure.AbsoluteNameEscapes`). The
  use-case file name `get_/…` stays relative. Its path needs a directory
  `…/domain/usecases/get_` that the script never creates. Unless that
  directory already exists, the run stops at that write. At most the seven
  files planned before it are written, and the four presentation files never
  are.
- A feature name that contains `/` puts a `/` into the file names. Each file
  then lands in a sub-directory of its planned folder that `os.makedirs` never
  created. `open` fails there unless that directory already exists. The
  "succeeds exactly when" theorem (`Scaffold.CleanRun`) therefore requires a
  name without `/`. Idempotence (`Scaffold.RunTwice`) holds for every run that
  succeeds, whatever the name.

## Model

| member | source | states |
|---|---|---|
| Names.ClassForm | create_feature.py:7 | The class form contains no underscore and is no longer than the feature name |
| Names.Title | create_feature.py:7 | Definition of `str.title()` as its per-character loop; `TitleSpec` proves the position-by-position rule |
| Names.Lower | create_feature.py:8 | `str.lower()` keeps the length and maps every character to its lower-case form |
| Names.TitleSpec | create_feature.py:7 | `title()` keeps the length and upper-cases exactly the cased characters that follow an uncased one (or the start), lower-casing the rest |
| Names.ClassFormSpec | create_feature.py:7 | The class form is the title-cased name with every underscore removed |
| Names.FileForm | create_feature.py:8 | The file form has the name's length and no upper-case letter |
| Names.BasePath | create_feature.py:6 | The base path is `lib/features/` followed by the raw (not lower-cased) feature name |
| Names.ClassFormMatchesFileForm | create_feature.py:7-8 | Lower-casing the class form gives the file form without underscores: both name the same feature |
| Names.SlashKept | create_feature.py:8 | Lower-casing neither adds nor removes a `/` |
| Names.SampleItemForms | create_feature.py:7-8 | `sample_item` gives class form `SampleItem` and file form `sample_item` |
| Names.InvestmentForms | create_feature.py:7-8 | `investment` gives class form `Investment` and file form `investment` |
| Paths.Join | create_feature.py:212 | `os.path.join` keeps its last component as suffix, returns an absolute component unchanged, and otherwise extends the first argument |
| Paths.Parent | create_feature.py:217 | The parent of a path is empty or the prefix before its last `/` |
| Paths.DirChain | create_feature.py:213 | `os.makedirs` creates the path and only non-empty prefixes of it |
| Paths.ParentOfJoin | create_feature.py:216 | The parent of `join(dir, file)` is `dir` when the file name has no `/` |
| Templates.Substitute | create_feature.py:219-238 | `substitute` succeeds exactly when every placeholder has a value; otherwise the `KeyError` names a placeholder of the template with no value |
| Templates.SubstituteFirstMissing | create_feature.py:219-238 | The `KeyError` names the leftmost placeholder without a value |
| Templates.SubstituteAppend | create_feature.py:219-238 | Filling a concatenation of templates concatenates the filled texts |
| TemplateTexts.BlocTemplate | create_feature.py:13-38 | The text of `bloc_template`, split at its placeholders |
| TemplateTexts.StateTemplate | create_feature.py:41-58 | The text of `state_template`, split at its placeholders |
| TemplateTexts.EventTemplate | create_feature.py:61-63 | The text of `event_template`, split at its placeholders |
| TemplateTexts.EntityTemplate | create_feature.py:66-72 | The text of `entity_template`, split at its placeholders |
| TemplateTexts.RepositoryTemplate | create_feature.py:75-82 | The text of `repository_abstract_template`, split at its placeholders |
| TemplateTexts.RepositoryImplTemplate | create_feature.py:85-109 | The text of `repository_impl_template`, split at its placeholders |
| TemplateTexts.LocalDatasourceTemplate | create_feature.py:112-116 | The text of `local_datasource_abstract_template`, split at its placeholders |
| TemplateTexts.LocalDatasourceImplTemplate | create_feature.py:119-147 | The text of `local_datasource_impl_template`, split at its placeholders |
| TemplateTexts.UseCaseTemplate | create_feature.py:150-163 | The text of `usecase_template`, split at its placeholders |
| TemplateTexts.DefaultTemplate | create_feature.py:166-169 | The text of `default_empty_template`, split at its one `${file_path}` placeholder |
| TemplateTexts.ScriptTemplate | create_feature.py:13-163 | The dedicated template of each kind is the script's template of that name |
| TemplateTexts.TemplatesUseSuppliedKeys | create_feature.py:13-169 | The nine dedicated templates use only `feature_name_snake_case` and `feature_class`; the generic one uses only `file_path` |
| TemplateTexts.BlocDeclaration | create_feature.py:18 | The bloc template declares `class ${feature_class}sBloc` |
| TemplateTexts.UseCaseDeclaration | create_feature.py:155 | The use-case template declares `class Get${feature_class}DataUseCase` |
| Structure.Descriptor | create_feature.py:172-207 | The `structure` dict: three layers, their sub-directories and the f-string file names, in insertion order; `PlanShape` proves its shape |
| Structure.DirPath | create_feature.py:212 | `dir_path = os.path.join(base_path, layer, subdir)`; `DirPathShape` proves it is `base/layer/subdir` |
| Structure.TargetPath | create_feature.py:216 | `file_path = os.path.join(dir_path, file)`; `TargetPathShape` proves where it lands |
| Structure.FileName | create_feature.py:175-204 | The f-string file names of the descriptor, `<snake><suffix>` and `get_<snake>_data_usecase.dart`, which the branches at lines 218-234 compare against; `FileNameInjective` and `FileNameAbsolute` state its properties |
| Structure.PlanShape | create_feature.py:172-207 | The descriptor has 3 layers and 8 sub-directories, and flattens to 12 files whose layer, sub-directory and name follow their role |
| Structure.FileNameInjective | create_feature.py:172-207 | Different roles never get the same file name, for every feature name |
| Structure.FileNameAbsolute | create_feature.py:172-207 | A file name is absolute exactly when the file form is, except the use-case file, which starts with `get_` |
| Structure.TargetsDistinct | create_feature.py:210-216 | The twelve target paths are pairwise distinct, so no file is written twice |
| Structure.TargetsUnderBase | create_feature.py:210-216 | For a name not starting with `/`, every target path lies inside the feature's folder: it starts with the base path followed by `/` |
| Structure.TargetLayout | create_feature.py:210-216 | For a non-empty name that neither starts nor ends with `/`, every target path is `base/layer/subdir/file` |
| Structure.AbsoluteNameEscapes | create_feature.py:212-216 | For a name starting with `/`, the target of every file except the use case is its bare file name, outside the base path |
| Dispatch.Chain | create_feature.py:218-235 | The `elif` order: the file name each branch tests and the template it writes; `ChainMatchesKinds` and `ChainRolesDistinct` state its properties |
| Dispatch.Select | create_feature.py:218-238 | The template kind of the first branch whose file name equals the file, or none for the `else` branch; `DispatchByRole` proves which kind each file gets |
| Dispatch.Render | create_feature.py:218-238 | What the `if`/`elif` chain writes: the chosen dedicated template filled with both naming values, or the generic one filled with `file_path`; `RenderByRole` and `RenderNeverFails` prove its results |
| Dispatch.FirstMatch | create_feature.py:218-238 | The chosen branch is the first whose file name equals the file; none before it matches |
| Dispatch.DispatchByRole | create_feature.py:218-238 | The nine files with a dedicated template get that template; the remote data source, model and page fall through to the generic one |
| Dispatch.ChainMatchesKinds | create_feature.py:218-235 | A role has a dedicated template of a kind exactly when some branch tests for its file and writes that kind |
| Dispatch.ChainRolesDistinct | create_feature.py:218-235 | No two branches test for the same role's file |
| Dispatch.RenderByRole | create_feature.py:218-238 | Each role's file is filled from its dedicated template with the two naming values, or from the generic one with its own path |
| Dispatch.RenderNeverFails | create_feature.py:218-238 | For a template set that uses only the supplied keys, every placeholder of the chosen template is supplied: rendering never raises `KeyError` |
| Dispatch.DefaultRecordsPath | create_feature.py:166-169 | With the script's generic template, a file without a dedicated template receives text that contains its own path |
| TemplateTexts.BlocTypesDeclaration | create_feature.py:18 | The bloc template extends `Bloc<${feature_class}sEvent, ${feature_class}sState>` |
| Dispatch.BlocFileNamesClass | create_feature.py:13-39 | When the bloc template declares its class as the script's does, the bloc file of every feature declares `<Class>sBloc` |
| Dispatch.UseCaseFileNamesClass | create_feature.py:150-163 | When the use-case template declares its class as the script's does, the use-case file of every feature declares `Get<Class>DataUseCase` |
| Dispatch.InvestmentBloc | create_feature.py:7-39 | For `investment` the script's bloc file declares `InvestmentsBloc` |
| Dispatch.BlocFileNamesTypes | create_feature.py:13-39 | When the bloc template names its event and state types as the script's does, the bloc file of every feature refers to `<Class>sEvent` and `<Class>sState` |
| Dispatch.InvestmentBlocTypes | create_feature.py:7-39 | For `investment` the script's bloc file refers to `InvestmentsEvent` and `InvestmentsState` |
| Dispatch.InvestmentUseCase | create_feature.py:150-163 | For `investment` the script's use-case file declares `GetInvestmentDataUseCase` |
| FileSystem.FileSystem.constructor | create_feature.py:210 | The disk starts as given |
| FileSystem.FileSystem.MakeDirs | create_feature.py:213 | `os.makedirs(exist_ok=True)` adds the whole directory chain, or fails and changes nothing when a needed directory is a file |
| FileSystem.FileSystem.Open | create_feature.py:217 | `open(path, 'w')` creates or truncates the file when its parent exists and it is not a directory; otherwise it fails and changes nothing |
| FileSystem.FileSystem.Write | create_feature.py:219-238 | `write` replaces the open file's contents and leaves directories alone |
| FileSystem.FileSystem.WriteFile | create_feature.py:217-238 | Opening and writing is one step: the filled text lands in the file, and a `KeyError` leaves it truncated and fails |
| FileSystem.CanMakeDirs | create_feature.py:213 | When `os.makedirs(dir_path, exist_ok=True)` succeeds: a non-empty path none of whose directories is an existing file; `RunNeeds` and `RunSucceeds` use it |
| FileSystem.CanOpen | create_feature.py:217 | When `open(file_path, 'w')` succeeds: a non-empty path that is no directory and whose parent exists; `RunNeeds` and `RunSucceeds` use it |
| FileSystem.Step | create_feature.py:213-219 | One `os.makedirs` or one `open`+`write`, with its success; the class methods `MakeDirs` and `WriteFile` are proved to act as it says |
| FileSystem.Run | create_feature.py:210-238 | The operations in order, stopping at the first that raises; `RunResult`, `RunSucceeds`, `RunNeeds` and `RunFrame` prove what it does |
| FileSystem.RunResult | create_feature.py:210-238 | A successful run leaves every written file with its last contents and adds every created directory |
| FileSystem.RunSucceeds | create_feature.py:210-238 | A run succeeds when every template is filled, every parent exists in time, and no file and directory clash |
| FileSystem.RunNeeds | create_feature.py:210-238 | A successful run started with no existing file on a directory to create and no existing directory on a file to write |
| FileSystem.RunFrame | create_feature.py:210-238 | A path the run never writes keeps its presence and contents, whether the run succeeds or fails |
| FileSystem.RunDirs | create_feature.py:213 | A run only adds directories, and only ones it was asked to create |
| FileSystem.SuccessReady | create_feature.py:213-217 | A run that succeeded met everything `Ready` asks: filled templates, parents in place, no file/directory clash |
| FileSystem.RunIdempotent | create_feature.py:213-217 | After any successful run, running the same operations again succeeds and changes nothing |
| FileSystem.ReadyTwice | create_feature.py:213-217 | With `exist_ok=True` and truncating writes, running a ready sequence twice ends where running it once does |
| FileSystem.RunAppend | create_feature.py:210-238 | Running `a + b` runs `b` after `a`, unless `a` already failed |
| Scaffold.Ops | create_feature.py:5-238 | The operations `create_feature_structure(featureName)` performs, in loop order; `PlannedPaths` and `PlannedContent` prove which files they write and with what |
| Scaffold.CreateFeatureStructure | create_feature.py:5-238 | The disk and the outcome are those of running the planned operations for the feature, with the script's templates, on the old disk |
| Scaffold.CreateLayers | create_feature.py:210-238 | The outer loop performs every layer's operations in descriptor order, stopping at the first failure |
| Scaffold.CreateSubdirs | create_feature.py:211-238 | Each sub-directory is created, then its files are written, in order, stopping at the first failure |
| Scaffold.CreateFiles | create_feature.py:215-238 | Each file of a sub-directory is opened and written in order, stopping at the first failure |
| Scaffold.PlannedPaths | create_feature.py:210-216 | The files the operations write are exactly the target paths of the twelve planned files |
| Scaffold.PlannedContent | create_feature.py:215-238 | For a template set that uses only the supplied keys, each planned file ends with the text of the template the chain picks for it, filled without error |
| Scaffold.DescriptorWellFormed | create_feature.py:172-207 | For a name without `/`, every layer and sub-directory name is one path component and no file name contains `/` |
| Scaffold.CleanRun | create_feature.py:210-238 | For a template set that uses only the supplied keys and a name without `/`, the script succeeds exactly when no existing file sits where a directory is created and no existing directory where a file is written; it then adds the twelve files and the directories |
| Scaffold.RunTwice | create_feature.py:210-238 | For every template set and feature name, running the script again after a success succeeds and changes nothing |
| Scaffold.ScriptRunTwice | create_feature.py:5-238 | With the script's own templates, a second run after a success succeeds and changes nothing |
| Scaffold.PlannedUnderBase | create_feature.py:210-216 | For a name not starting with `/`, every planned target lies inside the feature's folder `base/` |
| Scaffold.OutsideUntouched | create_feature.py:210-238 | For a name not starting with `/`, no file outside the feature's folder `base/` changes, whatever the outcome |

## Left out

- The command line (`argparse`) and the closing `print`, lines 241-248, are not modelled. They are I/O around the function.
- The real operating system is not modelled: the disk is an abstract map plus a set of directories. Permissions, a full disk, symbolic links, `.` and `..` components, repeated `/` separators (so `a//b` yields the directory `lib/features/a/` as well as `lib/features/a`) and other `OSError`s beyond a file/directory clash or a missing parent are not modelled.
- Names.TitleSpec, Names.FileForm: `str.title` and `str.lower` are modelled for ASCII letters only. Every other character counts as uncased, so Unicode case mappings (including ones that change the length) are not modelled.
- Templates.Substitute: the templates are given already split into text and `${...}` placeholders. `$$` escapes and the lexing of `$identifier` are not modelled. The literal text is taken to contain no other `$`.
- Paths.Join: `os.path.join` is modelled with POSIX rules only. An empty parent stands for the current directory, which always exists.
- Dispatch.BlocFileNamesClass, Dispatch.BlocFileNamesTypes, Dispatch.UseCaseFileNamesClass: these assume a template set shaped like the script's around the class declaration (`DeclaresBloc`, `DeclaresBlocTypes`, `DeclaresUseCase`). The script's own templates have that shape (`BlocDeclaration`, `BlocTypesDeclaration`, `UseCaseDeclaration`).
- Dispatch.InvestmentUseCase states the class name as the concatenation `"Get" + "Investment" + "DataUseCase"`.
- Scaffold.CleanRun: requires a feature name without `/`. With a `/`, the file names contain `/`, so the parent of each file is a directory the run never creates, and whether the run succeeds then depends on which such directories already exist.
- File contents are modelled as character strings. The encoding step and the newline translation that `open(path, 'w')` applies are not modelled. This matters for the templates' non-ASCII letters (Í at lines 35, 50, 52, 103 and 104; á, ñ and í at lines 166-167), whose encoded bytes are not modelled.
- What the generated Dart code means (that it compiles, or what the BLoC does) is not modelled; only its text is.
