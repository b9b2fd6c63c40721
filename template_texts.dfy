/**
 * The ten templates of `create_feature_structure`, as sequences of literal
 * text and placeholders.  Nine name the feature (placeholders
 * `feature_name_snake_case` and `feature_class`); the generic one names the
 * target path (placeholder `file_path`).  The literal text is the generated
 * Dart source, kept character for character.
 */
module TemplateTexts {
  import opened Templates

  const SnakeKey: string := "feature_name_snake_case"
  const ClassKey: string := "feature_class"
  const PathKey: string := "file_path"

  /** The keyword arguments every dedicated template is filled with. */
  const NamingKeys: set<string> := {SnakeKey, ClassKey}

  /** Template for the BLoC class (`bloc_template`). */
  const BlocTemplate: Template := [
    Lit("import 'package:flutter_bloc/flutter_bloc.dart';\nimport '"),
    Hole(SnakeKey),
    Lit("_event.dart';\nimport '"),
    Hole(SnakeKey),
    Lit("_state.dart';\nimport '../../domain/usecases/get_"),
    Hole(SnakeKey),
    Lit("_data_usecase.dart';\n\nclass "),
    Hole(ClassKey),
    Lit("sBloc extends Bloc<"),
    Hole(ClassKey),
    Lit("sEvent, "),
    Hole(ClassKey),
    Lit("sState> {\n  final Get"),
    Hole(ClassKey),
    Lit("DataUseCase get"),
    Hole(ClassKey),
    Lit("Data;\n\n  "),
    Hole(ClassKey),
    Lit("sBloc({\n    required this.get"),
    Hole(ClassKey),
    Lit("Data,\n  }) : super(InitialDataLoading()) {\n    on<Load"),
    Hole(ClassKey),
    Lit("s>(_onLoad"),
    Hole(ClassKey),
    Lit("s);\n  }\n\n  Future<void> _onLoad"),
    Hole(ClassKey),
    Lit("s(\n    Load"),
    Hole(ClassKey),
    Lit("s event,\n    Emitter<"),
    Hole(ClassKey),
    Lit("sState> emit,\n  ) async {\n    emit("),
    Hole(ClassKey),
    Lit("sLoading());\n    final result = await get"),
    Hole(ClassKey),
    Lit("Data();\n    result.fold(\n      (error) => emit("),
    Hole(ClassKey),
    Lit("sError(error.message)),\n      (data) => emit("),
    Hole(ClassKey),
    Lit("sLoaded(data: data)), // CAMBIO AQU\U{00CD}: 'data' en lugar de '"),
    Hole(SnakeKey),
    Lit("s'\n    );\n  }\n}")
  ]

  /** Template for the BLoC states (`state_template`). */
  const StateTemplate: Template := [
    Lit("import '../../domain/entities/"),
    Hole(SnakeKey),
    Lit("_entity.dart';\n\nabstract class "),
    Hole(ClassKey),
    Lit("sState {}\n\nclass InitialDataLoading extends "),
    Hole(ClassKey),
    Lit("sState {}\n\nclass "),
    Hole(ClassKey),
    Lit("sLoading extends "),
    Hole(ClassKey),
    Lit("sState {}\n\nclass "),
    Hole(ClassKey),
    Lit("sLoaded extends "),
    Hole(ClassKey),
    Lit("sState {\n  final List<"),
    Hole(ClassKey),
    Lit("Entity> data; // CAMBIO AQU\U{00CD}: 'data' en lugar de 'investments'\n\n  "),
    Hole(ClassKey),
    Lit("sLoaded({required this.data}); // CAMBIO AQU\U{00CD}: 'data' en lugar de 'investments'\n}\n\nclass "),
    Hole(ClassKey),
    Lit("sError extends "),
    Hole(ClassKey),
    Lit("sState {\n  final String message;\n  "),
    Hole(ClassKey),
    Lit("sError(this.message);\n}")
  ]

  /** Template for the BLoC events (`event_template`). */
  const EventTemplate: Template := [
    Lit("abstract class "),
    Hole(ClassKey),
    Lit("sEvent {}\n\nclass Load"),
    Hole(ClassKey),
    Lit("s extends "),
    Hole(ClassKey),
    Lit("sEvent {}")
  ]

  /** Template for the domain entity (`entity_template`). */
  const EntityTemplate: Template := [
    Lit("class "),
    Hole(ClassKey),
    Lit("Entity {\n  final String id;\n\n  "),
    Hole(ClassKey),
    Lit("Entity({\n    required this.id,\n  });\n}")
  ]

  /** Template for the abstract repository (`repository_abstract_template`). */
  const RepositoryTemplate: Template := [
    Lit("import 'package:dartz/dartz.dart';\n\nimport '../../../../core/error/failure.dart';\nimport '../entities/"),
    Hole(SnakeKey),
    Lit("_entity.dart';\n\nabstract class "),
    Hole(ClassKey),
    Lit("Repository {\n  Future<Either<Failure, List<"),
    Hole(ClassKey),
    Lit("Entity>>> get"),
    Hole(ClassKey),
    Lit("Data();\n}")
  ]

  /** Template for the repository implementation (`repository_impl_template`). */
  const RepositoryImplTemplate: Template := [
    Lit("import 'package:dartz/dartz.dart';\n\nimport '../../../../core/error/exceptions.dart';\nimport '../../../../core/error/failure.dart';\nimport '../../domain/entities/"),
    Hole(SnakeKey),
    Lit("_entity.dart';\nimport '../../domain/repositories/"),
    Hole(SnakeKey),
    Lit("_repository.dart';\nimport '../datasources/"),
    Hole(SnakeKey),
    Lit("_local_datasource.dart';\n\nclass "),
    Hole(ClassKey),
    Lit("RepositoryImpl implements "),
    Hole(ClassKey),
    Lit("Repository {\n  final "),
    Hole(ClassKey),
    Lit("LocalDatasource localDatasource;\n\n  "),
    Hole(ClassKey),
    Lit("RepositoryImpl({\n    required this.localDatasource,\n  });\n\n  @override\n  Future<Either<Failure, List<"),
    Hole(ClassKey),
    Lit("Entity>>> get"),
    Hole(ClassKey),
    Lit("Data() async {\n    try {\n      final data = await localDatasource.get"),
    Hole(ClassKey),
    Lit("Data(); // CAMBIO AQU\U{00CD}: 'data' en lugar de '"),
    Hole(SnakeKey),
    Lit("s'\n      return Right(data); // CAMBIO AQU\U{00CD}: 'data' en lugar de '"),
    Hole(SnakeKey),
    Lit("s'\n    } on CacheException catch (e, stackTrace) {\n      return Left(CacheFailure(e.message, stackTrace));\n    }\n  }\n}")
  ]

  /** Template for the abstract local data source (`local_datasource_abstract_template`). */
  const LocalDatasourceTemplate: Template := [
    Lit("import '../../domain/entities/"),
    Hole(SnakeKey),
    Lit("_entity.dart';\n\nabstract class "),
    Hole(ClassKey),
    Lit("LocalDatasource {\n  Future<List<"),
    Hole(ClassKey),
    Lit("Entity>> get"),
    Hole(ClassKey),
    Lit("Data();\n}")
  ]

  /** Template for the local data source implementation (`local_datasource_impl_template`). */
  const LocalDatasourceImplTemplate: Template := [
    Lit("import 'package:logger/logger.dart';\n\nimport '../../../../core/error/exceptions.dart';\nimport '../../domain/entities/"),
    Hole(SnakeKey),
    Lit("_entity.dart';\nimport '../datasources/"),
    Hole(SnakeKey),
    Lit("_local_datasource.dart';\n\nclass "),
    Hole(ClassKey),
    Lit("LocalDatasourceImpl implements "),
    Hole(ClassKey),
    Lit("LocalDatasource {\n  final Logger logger;\n\n  "),
    Hole(ClassKey),
    Lit("LocalDatasourceImpl({required this.logger});\n\n  @override\n  Future<List<"),
    Hole(ClassKey),
    Lit("Entity>> get"),
    Hole(ClassKey),
    Lit("Data() async {\n    try {\n      await Future.delayed(const Duration(milliseconds: 500));\n      logger.i(\"Obteniendo "),
    Hole(SnakeKey),
    Lit("s localmente...\");\n      return sample"),
    Hole(ClassKey),
    Lit("s;\n    } catch (e, stackTrace) {\n      logger.e('Error getting local data for "),
    Hole(SnakeKey),
    Lit("', error: e, stackTrace: stackTrace);\n      throw CacheException('Error al obtener "),
    Hole(SnakeKey),
    Lit("s locales', stackTrace);\n    }\n  }\n}\n\nfinal List<"),
    Hole(ClassKey),
    Lit("Entity> sample"),
    Hole(ClassKey),
    Lit("s = [\n  "),
    Hole(ClassKey),
    Lit("Entity(id: '"),
    Hole(SnakeKey),
    Lit("-001'),\n  "),
    Hole(ClassKey),
    Lit("Entity(id: '"),
    Hole(SnakeKey),
    Lit("-002'),\n];\n")
  ]

  /** Template for the use case (`usecase_template`). */
  const UseCaseTemplate: Template := [
    Lit("import 'package:dartz/dartz.dart';\nimport '../../../../core/error/failure.dart';\nimport '../entities/"),
    Hole(SnakeKey),
    Lit("_entity.dart';\nimport '../repositories/"),
    Hole(SnakeKey),
    Lit("_repository.dart';\n\nclass Get"),
    Hole(ClassKey),
    Lit("DataUseCase {\n  final "),
    Hole(ClassKey),
    Lit("Repository repository;\n\n  Get"),
    Hole(ClassKey),
    Lit("DataUseCase(this.repository);\n\n  Future<Either<Failure, List<"),
    Hole(ClassKey),
    Lit("Entity>>> call() async {\n    return await repository.get"),
    Hole(ClassKey),
    Lit("Data();\n  }\n}")
  ]

  /** Template for the generic placeholder file (`default_empty_template`). */
  const DefaultTemplate: Template := [
    Lit("// Este archivo fue generado autom\U{00E1}ticamente como parte de la estructura.\n// Puedes a\U{00F1}adir contenido aqu\U{00ED} si es necesario.\n// Ruta: "),
    Hole(PathKey),
    Lit("\n")
  ]

  /** The nine dedicated templates, one per branch of the dispatch chain. */
  datatype TemplateKind =
    | BlocKind | StateKind | EventKind | EntityKind | RepositoryKind | RepositoryImplKind
    | LocalDatasourceKind | LocalDatasourceImplKind | UseCaseKind

  /** A dedicated template for each kind, and the generic template. */
  datatype TemplateSet = TemplateSet(dedicated: TemplateKind -> Template, generic: Template)

  /** The script's dedicated template of each kind. */
  function ScriptTemplate(kind: TemplateKind): Template
  {
    match kind
    case BlocKind => BlocTemplate
    case StateKind => StateTemplate
    case EventKind => EventTemplate
    case EntityKind => EntityTemplate
    case RepositoryKind => RepositoryTemplate
    case RepositoryImplKind => RepositoryImplTemplate
    case LocalDatasourceKind => LocalDatasourceTemplate
    case LocalDatasourceImplKind => LocalDatasourceImplTemplate
    case UseCaseKind => UseCaseTemplate
  }

  /** The templates `create_feature_structure` writes. */
  const ScriptTemplates: TemplateSet := TemplateSet(ScriptTemplate, DefaultTemplate)

  /**
   * Every placeholder the set's templates use is supplied by the call that
   * fills it: the dedicated ones use only `feature_name_snake_case` and
   * `feature_class`, and the generic one only `file_path`.
   */
  predicate UsesSuppliedKeys(ts: TemplateSet)
  {
    && (forall kind :: UsesOnly(ts.dedicated(kind), NamingKeys))
    && UsesOnly(ts.generic, {PathKey})
  }

  /** The script's own templates ask only for the values it supplies. */
  lemma TemplatesUseSuppliedKeys()
    ensures UsesSuppliedKeys(ScriptTemplates)
  {
    forall kind ensures UsesOnly(ScriptTemplates.dedicated(kind), NamingKeys) {
      match kind
      case BlocKind => BlocUsesNaming();
      case StateKind => StateUsesNaming();
      case EventKind => EventUsesNaming();
      case EntityKind => EntityUsesNaming();
      case RepositoryKind => RepositoryUsesNaming();
      case RepositoryImplKind => RepositoryImplUsesNaming();
      case LocalDatasourceKind => LocalDatasourceUsesNaming();
      case LocalDatasourceImplKind => LocalDatasourceImplUsesNaming();
      case UseCaseKind => UseCaseUsesNaming();
    }
    DefaultUsesPath();
  }

  /** `t` declares a bloc class: the class placeholder followed by literal text that starts with `sBloc`. */
  predicate DeclaresBloc(t: Template)
  {
    |t| > 8 && t[7] == Hole(ClassKey) && t[8].Lit? && "sBloc" <= t[8].text
  }

  /**
   * `t` gives its bloc class the event and state types: the class placeholder
   * followed by literal text starting with `sEvent`, then the class
   * placeholder followed by literal text starting with `sState`.
   */
  predicate DeclaresBlocTypes(t: Template)
  {
    && |t| > 12 && t[9] == Hole(ClassKey) && t[10].Lit? && "sEvent" <= t[10].text
    && t[11] == Hole(ClassKey) && t[12].Lit? && "sState" <= t[12].text
  }

  /**
   * `t` declares a use case class: literal text ending in `Get`, the class
   * placeholder, and literal text that starts with `DataUseCase`.
   */
  predicate DeclaresUseCase(t: Template)
  {
    && |t| > 6 && t[4].Lit? && t[5] == Hole(ClassKey) && t[6].Lit?
    && |t[4].text| >= 3 && t[4].text[|t[4].text| - 3..] == "Get"
    && "DataUseCase" <= t[6].text
  }

  lemma BlocDeclaration()
    ensures DeclaresBloc(BlocTemplate)
  {
  }

  lemma BlocTypesDeclaration()
    ensures DeclaresBlocTypes(BlocTemplate)
  {
  }

  lemma UseCaseDeclaration()
    ensures DeclaresUseCase(UseCaseTemplate)
  {
  }

  lemma BlocUsesNaming() ensures UsesOnly(BlocTemplate, NamingKeys) {}
  lemma StateUsesNaming() ensures UsesOnly(StateTemplate, NamingKeys) {}
  lemma EventUsesNaming() ensures UsesOnly(EventTemplate, NamingKeys) {}
  lemma EntityUsesNaming() ensures UsesOnly(EntityTemplate, NamingKeys) {}
  lemma RepositoryUsesNaming() ensures UsesOnly(RepositoryTemplate, NamingKeys) {}
  lemma RepositoryImplUsesNaming() ensures UsesOnly(RepositoryImplTemplate, NamingKeys) {}
  lemma LocalDatasourceUsesNaming() ensures UsesOnly(LocalDatasourceTemplate, NamingKeys) {}
  lemma LocalDatasourceImplUsesNaming() ensures UsesOnly(LocalDatasourceImplTemplate, NamingKeys) {}
  lemma UseCaseUsesNaming() ensures UsesOnly(UseCaseTemplate, NamingKeys) {}
  lemma DefaultUsesPath() ensures UsesOnly(DefaultTemplate, {PathKey}) {}
}
