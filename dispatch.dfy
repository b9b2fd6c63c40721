/**
 * Template dispatch: the `if`/`elif` chain that picks, for each file of the
 * plan, the first dedicated template whose file name equals it, and falls back
 * to the generic template that records the file's own path.
 */
module Dispatch {
  import opened Names
  import opened Templates
  import opened TemplateTexts
  import opened Structure

  datatype Option<T> = None | Some(value: T)

  /** The `if`/`elif` chain in order: the role whose file name each branch tests for, and the template it writes. */
  const Chain: seq<(Role, TemplateKind)> :=
    [ (BlocFile, BlocKind), (StateFile, StateKind), (EventFile, EventKind), (EntityFile, EntityKind),
      (RepositoryFile, RepositoryKind), (RepositoryImplFile, RepositoryImplKind),
      (LocalDatasourceFile, LocalDatasourceKind), (LocalDatasourceImplFile, LocalDatasourceImplKind),
      (UseCaseFile, UseCaseKind) ]

  /** The branches for a feature: the file name each tests for and the template it writes. */
  function Branches(snake: string): seq<(string, TemplateKind)>
  {
    seq(|Chain|, j requires 0 <= j < |Chain| => (FileName(Chain[j].0, snake), Chain[j].1))
  }

  /** The index of the first branch that tests for `file`, or the number of branches when none does. */
  function FirstMatch(file: string, branches: seq<(string, TemplateKind)>): (k: nat)
    ensures k <= |branches|
    ensures k < |branches| ==> branches[k].0 == file
    ensures forall j :: 0 <= j < k ==> branches[j].0 != file
  {
    if branches == [] then 0
    else if branches[0].0 == file then 0
    else 1 + FirstMatch(file, branches[1..])
  }

  /** The dedicated template the chain picks for `file`, or `None` for the `else` branch. */
  function Select(file: string, snake: string): Option<TemplateKind>
  {
    var k := FirstMatch(file, Branches(snake));
    if k < |Branches(snake)| then Some(Branches(snake)[k].1) else None
  }

  /** The two values every dedicated template is filled with. */
  function NamingValues(snake: string, featureClass: string): map<string, string>
  {
    map[SnakeKey := snake, ClassKey := featureClass]
  }

  /**
   * What is written into the file `file` at `filePath`: the template of `ts`
   * the chain picks, filled in.  The script's own templates are
   * `ScriptTemplates`.
   */
  function Render(ts: TemplateSet, file: string, snake: string, featureClass: string, filePath: string): Substituted
  {
    match Select(file, snake)
    case Some(kind) => Substitute(ts.dedicated(kind), NamingValues(snake, featureClass))
    case None => Substitute(ts.generic, map[PathKey := filePath])
  }

  /** The dedicated template each role's file is meant to get; `None` for the three that have none. */
  function KindOf(role: Role): Option<TemplateKind>
  {
    match role
    case BlocFile => Some(BlocKind)
    case StateFile => Some(StateKind)
    case EventFile => Some(EventKind)
    case EntityFile => Some(EntityKind)
    case RepositoryFile => Some(RepositoryKind)
    case RepositoryImplFile => Some(RepositoryImplKind)
    case LocalDatasourceFile => Some(LocalDatasourceKind)
    case LocalDatasourceImplFile => Some(LocalDatasourceImplKind)
    case UseCaseFile => Some(UseCaseKind)
    case RemoteDatasourceFile | ModelFile | PageFile => None
  }

  /** No role is tested for twice. */
  lemma ChainRolesDistinct()
    ensures forall i, j :: 0 <= i < j < |Chain| ==> Chain[i].0 != Chain[j].0
  {
  }

  /** The chain writes exactly the template each role is meant to get: a role has a branch with template `kind` iff that is its template. */
  lemma ChainMatchesKinds(role: Role, kind: TemplateKind)
    ensures KindOf(role) == Some(kind) <==> (role, kind) in Chain
  {
  }

  /**
   * Every file of the plan gets the template meant for it: the nine with a
   * dedicated template get exactly that one, whatever the feature name, and
   * the remote data source, the model and the page fall through to the
   * generic template.
   */
  lemma DispatchByRole(role: Role, snake: string)
    ensures Select(FileName(role, snake), snake) == KindOf(role)
  {
    var file := FileName(role, snake);
    var bs := Branches(snake);
    ChainRolesDistinct();
    forall j | 0 <= j < |Chain| ensures bs[j].0 == file <==> Chain[j].0 == role {
      if bs[j].0 == file {
        FileNameInjective(Chain[j].0, role, snake);
      }
    }
    var k := FirstMatch(file, bs);
    if KindOf(role).Some? {
      ChainMatchesKinds(role, KindOf(role).value);
      var m :| 0 <= m < |Chain| && Chain[m] == (role, KindOf(role).value);
      assert k <= m;
      assert k == m;
    } else {
      forall j | 0 <= j < |Chain| ensures Chain[j].0 != role {
        ChainMatchesKinds(role, Chain[j].1);
        assert Chain[j] in Chain;
      }
      assert k == |Chain|;
    }
  }

  /** Every value the chosen template asks for is supplied: rendering never raises `KeyError`. */
  lemma RenderNeverFails(ts: TemplateSet, file: string, snake: string, featureClass: string, filePath: string)
    requires UsesSuppliedKeys(ts)
    ensures Render(ts, file, snake, featureClass, filePath).Ok?
  {
    match Select(file, snake)
    case Some(kind) =>
      assert NamingValues(snake, featureClass).Keys == NamingKeys;
    case None =>
      assert map[PathKey := filePath].Keys == {PathKey};
  }

  /** A file without a dedicated template gets a comment that records its own path. */
  lemma DefaultRecordsPath(ts: TemplateSet, file: string, snake: string, featureClass: string, filePath: string)
    requires ts.generic == DefaultTemplate && Select(file, snake).None?
    ensures Render(ts, file, snake, featureClass, filePath).Ok?
    ensures IsInfix(filePath, Render(ts, file, snake, featureClass, filePath).text)
  {
    var t := ts.generic;
    DefaultUsesPath();
    var values := map[PathKey := filePath];
    assert values.Keys == {PathKey};
    LitHoleLit(t, values, 0);
    var text := t[0].text;
    var piece := text + filePath + t[2].text;
    assert piece[|text|..|text| + |filePath|] == filePath;
    InfixOfInfix(filePath, piece, Substitute(t, values).text, |text|);
  }

  /**
   * The file of each role is filled from the template meant for it: its
   * dedicated template with the two naming values, or the generic template
   * with the file's own path.
   */
  lemma RenderByRole(ts: TemplateSet, role: Role, snake: string, featureClass: string, filePath: string)
    ensures KindOf(role).Some? ==>
              Render(ts, FileName(role, snake), snake, featureClass, filePath)
              == Substitute(ts.dedicated(KindOf(role).value), NamingValues(snake, featureClass))
    ensures KindOf(role).None? ==>
              Render(ts, FileName(role, snake), snake, featureClass, filePath) == Substitute(ts.generic, map[PathKey := filePath])
  {
    DispatchByRole(role, snake);
  }

  // ----- what the filled templates say -----

  /**
   * When the bloc template declares its class as the script's does
   * (`BlocDeclaration`), the bloc file of every feature declares `<Class>sBloc`.
   */
  lemma BlocFileNamesClass(ts: TemplateSet, snake: string, featureClass: string, filePath: string)
    requires UsesSuppliedKeys(ts) && DeclaresBloc(ts.dedicated(BlocKind))
    ensures Render(ts, FileName(BlocFile, snake), snake, featureClass, filePath).Ok?
    ensures IsInfix(featureClass + "sBloc", Render(ts, FileName(BlocFile, snake), snake, featureClass, filePath).text)
  {
    var values := NamingValues(snake, featureClass);
    RenderByRole(ts, BlocFile, snake, featureClass, filePath);
    assert values.Keys == NamingKeys;
    HoleThenPrefix(ts.dedicated(BlocKind), values, 7, "sBloc");
  }

  /**
   * When the bloc template names the event and state types as the script's
   * does (`BlocTypesDeclaration`), the bloc file of every feature refers to
   * `<Class>sEvent` and `<Class>sState`.
   */
  lemma BlocFileNamesTypes(ts: TemplateSet, snake: string, featureClass: string, filePath: string)
    requires UsesSuppliedKeys(ts) && DeclaresBlocTypes(ts.dedicated(BlocKind))
    ensures Render(ts, FileName(BlocFile, snake), snake, featureClass, filePath).Ok?
    ensures IsInfix(featureClass + "sEvent", Render(ts, FileName(BlocFile, snake), snake, featureClass, filePath).text)
    ensures IsInfix(featureClass + "sState", Render(ts, FileName(BlocFile, snake), snake, featureClass, filePath).text)
  {
    var values := NamingValues(snake, featureClass);
    RenderByRole(ts, BlocFile, snake, featureClass, filePath);
    assert values.Keys == NamingKeys;
    HoleThenPrefix(ts.dedicated(BlocKind), values, 9, "sEvent");
    HoleThenPrefix(ts.dedicated(BlocKind), values, 11, "sState");
  }

  /**
   * When the use case template declares its class as the script's does
   * (`UseCaseDeclaration`), the use case file of every feature declares
   * `Get<Class>DataUseCase`.
   */
  lemma UseCaseFileNamesClass(ts: TemplateSet, snake: string, featureClass: string, filePath: string)
    requires UsesSuppliedKeys(ts) && DeclaresUseCase(ts.dedicated(UseCaseKind))
    ensures Render(ts, FileName(UseCaseFile, snake), snake, featureClass, filePath).Ok?
    ensures IsInfix("Get" + featureClass + "DataUseCase", Render(ts, FileName(UseCaseFile, snake), snake, featureClass, filePath).text)
  {
    var values := NamingValues(snake, featureClass);
    RenderByRole(ts, UseCaseFile, snake, featureClass, filePath);
    assert values.Keys == NamingKeys;
    AroundHole(ts.dedicated(UseCaseKind), values, 4, "Get", "DataUseCase");
  }

  /** For the feature `investment` the script's bloc file declares `InvestmentsBloc`. */
  lemma InvestmentBloc(featureName: string, filePath: string)
    requires featureName == "investment"
    ensures Render(ScriptTemplates, FileName(BlocFile, FileForm(featureName)), FileForm(featureName), ClassForm(featureName), filePath).Ok?
    ensures IsInfix("InvestmentsBloc",
                    Render(ScriptTemplates, FileName(BlocFile, FileForm(featureName)), FileForm(featureName), ClassForm(featureName), filePath).text)
  {
    TemplatesUseSuppliedKeys();
    BlocDeclaration();
    BlocFileNamesClass(ScriptTemplates, FileForm(featureName), ClassForm(featureName), filePath);
    InvestmentBlocClass(featureName);
  }

  /** For the feature `investment` the script's bloc file refers to `InvestmentsEvent` and `InvestmentsState`. */
  lemma InvestmentBlocTypes(featureName: string, filePath: string)
    requires featureName == "investment"
    ensures Render(ScriptTemplates, FileName(BlocFile, FileForm(featureName)), FileForm(featureName), ClassForm(featureName), filePath).Ok?
    ensures IsInfix("InvestmentsEvent",
                    Render(ScriptTemplates, FileName(BlocFile, FileForm(featureName)), FileForm(featureName), ClassForm(featureName), filePath).text)
    ensures IsInfix("InvestmentsState",
                    Render(ScriptTemplates, FileName(BlocFile, FileForm(featureName)), FileForm(featureName), ClassForm(featureName), filePath).text)
  {
    TemplatesUseSuppliedKeys();
    BlocTypesDeclaration();
    BlocFileNamesTypes(ScriptTemplates, FileForm(featureName), ClassForm(featureName), filePath);
    InvestmentBlocTypeNames(featureName);
  }

  lemma InvestmentBlocTypeNames(featureName: string)
    requires featureName == "investment"
    ensures ClassForm(featureName) + "sEvent" == "InvestmentsEvent"
    ensures ClassForm(featureName) + "sState" == "InvestmentsState"
  {
    InvestmentForms(featureName);
  }

  lemma InvestmentBlocClass(featureName: string)
    requires featureName == "investment"
    ensures ClassForm(featureName) + "sBloc" == "InvestmentsBloc"
  {
    InvestmentForms(featureName);
  }

  /** For the feature `investment` the script's use case file declares `GetInvestmentDataUseCase`. */
  lemma InvestmentUseCase(featureName: string, filePath: string)
    requires featureName == "investment"
    ensures Render(ScriptTemplates, FileName(UseCaseFile, FileForm(featureName)), FileForm(featureName), ClassForm(featureName), filePath).Ok?
    ensures IsInfix("Get" + "Investment" + "DataUseCase",
                    Render(ScriptTemplates, FileName(UseCaseFile, FileForm(featureName)), FileForm(featureName), ClassForm(featureName), filePath).text)
  {
    TemplatesUseSuppliedKeys();
    UseCaseDeclaration();
    InvestmentForms(featureName);
    UseCaseFileNamesClass(ScriptTemplates, FileForm(featureName), ClassForm(featureName), filePath);
  }
}
