/** `FileGenerator`: runs a list of stages (`ComponentGenerator`s) in order over one
    `GenerationContext` that starts with nothing but the configuration, stopping at the
    first stage that throws. The stage protocol is a closed set of stages dispatched by
    `Plan` and `Generate`. */
module FileGenerator {
  import opened Wrappers
  import opened Paths
  import opened FileSystem
  import opened Models
  import opened Generation
  import ProjectDirectoryCreator
  import AppDirectoryCreator
  import SourcesDirectoryCreator
  import WorkspaceGenerator
  import ProjectYMLGenerator
  import SourceFilesGenerator
  import PackageGenerator

  /** The stages of the repository, one per `ComponentGenerator` conformance. */
  datatype Stage =
    | ProjectDirectory
    | AppDirectory
    | SourcesDirectory
    | Workspace
    | ProjectYml
    | SourceFiles
    | Package

  /** `defaultGenerators(fileManager:)`. */
  const DefaultStages: seq<Stage> :=
    [ProjectDirectory, AppDirectory, SourcesDirectory, Workspace, ProjectYml, SourceFiles, Package]

  /** `generate(with: &context)` of one stage, as a plan. */
  function Plan(stage: Stage, ctx: GenerationContext): Result<Effect, GenerationError>
  {
    match stage
    case ProjectDirectory => ProjectDirectoryCreator.Plan(ctx)
    case AppDirectory => AppDirectoryCreator.Plan(ctx)
    case SourcesDirectory => SourcesDirectoryCreator.Plan(ctx)
    case Workspace => WorkspaceGenerator.Plan(ctx)
    case ProjectYml => ProjectYMLGenerator.Plan(ctx)
    case SourceFiles => SourceFilesGenerator.Plan(ctx)
    case Package => PackageGenerator.Plan(ctx)
  }

  /** `generate(with: &context)` of one stage, on the file manager. */
  method Generate(stage: Stage, ctx: GenerationContext, fm: FileManager)
    returns (r: Result<GenerationContext, GenerationError>)
    modifies fm
    ensures Performed(Plan(stage, ctx), old(fm.State()), r, fm.State())
  {
    match stage
    case ProjectDirectory => r := ProjectDirectoryCreator.Generate(ctx, fm);
    case AppDirectory => r := AppDirectoryCreator.Generate(ctx, fm);
    case SourcesDirectory => r := SourcesDirectoryCreator.Generate(ctx, fm);
    case Workspace => r := WorkspaceGenerator.Generate(ctx, fm);
    case ProjectYml => r := ProjectYMLGenerator.Generate(ctx, fm);
    case SourceFiles => r := SourceFilesGenerator.Generate(ctx, fm);
    case Package => r := PackageGenerator.Generate(ctx, fm);
  }

  // ---------------------------------------------------------------------------
  // What each stage reads and writes in the context
  // ---------------------------------------------------------------------------

  /** The optional paths of `GenerationContext`. */
  datatype Field = ProjectPath | AppPath | SourcesPath | PackagesPath

  const AllFields: set<Field> := {ProjectPath, AppPath, SourcesPath, PackagesPath}

  function Get(ctx: GenerationContext, f: Field): Option<string>
  {
    match f
    case ProjectPath => ctx.projectPath
    case AppPath => ctx.appPath
    case SourcesPath => ctx.sourcesPath
    case PackagesPath => ctx.packagesPath
  }

  /** The paths the context holds. */
  function Present(ctx: GenerationContext): set<Field>
  {
    set f | f in AllFields && Get(ctx, f).Some?
  }

  /** The path a stage guards on, if any. */
  function Requires(stage: Stage): Option<Field>
  {
    match stage
    case ProjectDirectory => None
    case AppDirectory => Some(ProjectPath)
    case SourcesDirectory => Some(AppPath)
    case Workspace => Some(ProjectPath)
    case ProjectYml => Some(AppPath)
    case SourceFiles => Some(SourcesPath)
    case Package => Some(PackagesPath)
  }

  /** The paths a stage assigns. */
  function Provides(stage: Stage): set<Field>
  {
    match stage
    case ProjectDirectory => {ProjectPath, PackagesPath}
    case AppDirectory => {AppPath}
    case SourcesDirectory => {SourcesPath}
    case _ => {}
  }

  /** The error a stage throws when the path it guards on is missing. */
  function MissingError(f: Field): GenerationError
  {
    match f
    case ProjectPath => MissingProjectDirectory
    case AppPath => MissingAppDirectory
    case SourcesPath => MissingSourcesDirectory
    case PackagesPath => MissingPackagesDirectory
  }

  /** Every stage follows its row of the `Requires` table: it throws exactly when the
      path it guards on is missing, and then with that path's error. */
  lemma StageGuard(stage: Stage, ctx: GenerationContext)
    ensures Plan(stage, ctx).Err? <==> Requires(stage).Some? && Get(ctx, Requires(stage).value).None?
    ensures Plan(stage, ctx).Err? ==> Plan(stage, ctx).error == MissingError(Requires(stage).value)
  {
    match stage
    case ProjectDirectory =>
    case AppDirectory =>
    case SourcesDirectory =>
    case Workspace =>
    case ProjectYml =>
    case SourceFiles =>
    case Package =>
  }

  /** Every stage follows its row of the `Provides` table: when it succeeds it sets
      the paths it provides and leaves every other path and the configuration as they
      were. */
  lemma StageProvides(stage: Stage, ctx: GenerationContext)
    requires Plan(stage, ctx).Ok?
    ensures var next := Plan(stage, ctx).value.context;
            && next.configuration == ctx.configuration
            && (forall f | f in Provides(stage) :: Get(next, f).Some?)
            && (forall f | f !in Provides(stage) :: Get(next, f) == Get(ctx, f))
  {
  }

  /** So a successful stage adds its paths to those present. */
  lemma PresentAfterStage(stage: Stage, ctx: GenerationContext)
    requires Plan(stage, ctx).Ok?
    ensures Present(Plan(stage, ctx).value.context) == Present(ctx) + Provides(stage)
  {
    StageProvides(stage, ctx);
    var next := Plan(stage, ctx).value.context;
    forall f | f in AllFields
      ensures f in Present(next) <==> f in Present(ctx) + Provides(stage)
    {
      if f !in Provides(stage) {
        assert Get(next, f) == Get(ctx, f);
      }
    }
  }

  // ---------------------------------------------------------------------------
  // The pipeline
  // ---------------------------------------------------------------------------

  /** What running a list of stages does: the file-system changes made, in order, and
      the final context or the first error. */
  datatype Run = Run(ops: seq<FsOp>, result: Result<GenerationContext, GenerationError>)

  function Prepend(ops: seq<FsOp>, run: Run): Run
  {
    Run(ops + run.ops, run.result)
  }

  /** `generators.forEach { try $0.generate(with: &context) }`: each stage runs on the
      context the previous one left; the first error ends the run. */
  function Pipeline(stages: seq<Stage>, ctx: GenerationContext): Run
    decreases |stages|
  {
    if stages == [] then Run([], Ok(ctx))
    else
      match Plan(stages[0], ctx)
      case Err(e) => Run([], Err(e))
      case Ok(eff) => Prepend(eff.ops, Pipeline(stages[1..], eff.context))
  }

  /** `generateFiles(for:)`: seeds a context holding only the configuration and runs
      the stages on the file manager, in order, until one throws. */
  method GenerateFiles(stages: seq<Stage>, config: ProjectConfiguration, fm: FileManager)
    returns (r: Outcome<GenerationError>)
    modifies fm
    ensures var run := Pipeline(stages, Fresh(config));
            && fm.State() == Apply(old(fm.State()), run.ops)
            && (r.Pass? <==> run.result.Ok?)
            && (r.Fail? ==> run.result == Err(r.error))
  {
    ghost var before := fm.State();
    ghost var done: seq<FsOp> := [];
    var context := Fresh(config);
    for i := 0 to |stages|
      invariant fm.State() == Apply(before, done)
      invariant Pipeline(stages, Fresh(config)) == Prepend(done, Pipeline(stages[i..], context))
    {
      PipelineStep(stages, i, context);
      var res := Generate(stages[i], context, fm);
      if res.Err? {
        assert done + [] == done;
        r := Fail(res.error);
        return;
      }
      ghost var ops := Plan(stages[i], context).value.ops;
      ApplyAppend(before, done, ops);
      PrependTwice(done, ops, Pipeline(stages[i + 1..], res.value));
      done := done + ops;
      context := res.value;
    }
    assert stages[|stages|..] == [] && done + [] == done;
    r := Pass;
  }

  /** The pipeline from stage `i` on, taken apart at stage `i`. */
  lemma PipelineStep(stages: seq<Stage>, i: nat, ctx: GenerationContext)
    requires i < |stages|
    ensures Pipeline(stages[i..], ctx)
            == match Plan(stages[i], ctx)
               case Err(e) => Run([], Err(e))
               case Ok(eff) => Prepend(eff.ops, Pipeline(stages[i + 1..], eff.context))
  {
    assert stages[i..][0] == stages[i] && stages[i..][1..] == stages[i + 1..];
  }

  lemma PrependTwice(a: seq<FsOp>, b: seq<FsOp>, run: Run)
    ensures Prepend(a, Prepend(b, run)) == Prepend(a + b, run)
  {
    assert a + (b + run.ops) == a + b + run.ops;
  }

  // ---------------------------------------------------------------------------
  // Which orders work
  // ---------------------------------------------------------------------------

  /** The outcome of a list of stages read off the tables alone: the first stage whose
      guarded path neither was present at the start nor was provided by an earlier
      stage fails with that path's error. */
  function Check(stages: seq<Stage>, have: set<Field>): Outcome<GenerationError>
    decreases |stages|
  {
    if stages == [] then Pass
    else if Requires(stages[0]).Some? && Requires(stages[0]).value !in have
    then Fail(MissingError(Requires(stages[0]).value))
    else Check(stages[1..], have + Provides(stages[0]))
  }

  /** Every path some stage of the list provides. */
  function ProvidedBy(stages: seq<Stage>): set<Field>
    decreases |stages|
  {
    if stages == [] then {} else Provides(stages[0]) + ProvidedBy(stages[1..])
  }

  /** The pipeline fails exactly when the tables say it does, with the error they
      predict; when it succeeds the configuration is untouched and the paths present
      are those present before plus those the stages provide. */
  lemma {:induction false} PipelineFollowsTables(stages: seq<Stage>, ctx: GenerationContext)
    ensures Pipeline(stages, ctx).result.Ok? <==> Check(stages, Present(ctx)) == Pass
    ensures Pipeline(stages, ctx).result.Err? ==> Check(stages, Present(ctx)) == Fail(Pipeline(stages, ctx).result.error)
    ensures Pipeline(stages, ctx).result.Ok? ==>
              && Pipeline(stages, ctx).result.value.configuration == ctx.configuration
              && Present(Pipeline(stages, ctx).result.value) == Present(ctx) + ProvidedBy(stages)
    decreases |stages|
  {
    if stages != [] {
      var stage := stages[0];
      StageGuard(stage, ctx);
      var req := Requires(stage);
      if req.Some? {
        assert req.value in AllFields;
        assert req.value in Present(ctx) <==> Get(ctx, req.value).Some?;
      }
      if Plan(stage, ctx).Ok? {
        var next := Plan(stage, ctx).value.context;
        StageProvides(stage, ctx);
        PresentAfterStage(stage, ctx);
        PipelineFollowsTables(stages[1..], next);
      }
    }
  }

  /** A list that starts with a stage other than `ProjectDirectory` fails at once from
      the seeded context, with the error of the path that stage guards on: only
      `ProjectDirectory` needs nothing. */
  lemma OnlyProjectDirectoryCanComeFirst(stages: seq<Stage>, config: ProjectConfiguration)
    requires stages != [] && stages[0] != ProjectDirectory
    ensures Requires(stages[0]).Some?
    ensures Pipeline(stages, Fresh(config)) == Run([], Err(MissingError(Requires(stages[0]).value)))
  {
    StageGuard(stages[0], Fresh(config));
  }

  /** A stage guarding on `projectPath` with no `ProjectDirectory` before it fails the
      check, within the stages up to it; if every earlier stage passes, it is that
      stage that fails, with `missingProjectDirectory`. */
  lemma {:induction false} CheckFailsWithoutProjectPath(stages: seq<Stage>, have: set<Field>, i: nat)
    requires i < |stages| && Requires(stages[i]) == Some(ProjectPath)
    requires ProjectPath !in have && ProjectDirectory !in stages[..i]
    ensures Check(stages, have).Fail?
    ensures Check(stages, have) == Check(stages[..i + 1], have)
    ensures Check(stages[..i], have) == Pass ==> Check(stages, have) == Fail(MissingProjectDirectory)
    decreases i
  {
    if i == 0 {
      assert stages[..1][1..] == [];
    } else if !(Requires(stages[0]).Some? && Requires(stages[0]).value !in have) {
      assert stages[0] in stages[..i];
      assert stages[1..][..i - 1] == stages[1..i];
      assert forall st | st in stages[1..i] :: st in stages[..i];
      CheckFailsWithoutProjectPath(stages[1..], have + Provides(stages[0]), i - 1);
      assert stages[..i + 1][0] == stages[0] && stages[..i + 1][1..] == stages[1..][..i];
      assert stages[..i][0] == stages[0] && stages[..i][1..] == stages[1..][..i - 1];
    } else {
      assert stages[..i + 1][0] == stages[0] && stages[..i][0] == stages[0];
    }
  }

  /** From any context without `projectPath`, a list that puts `AppDirectory` or
      `Workspace` before every `ProjectDirectory` fails: only `ProjectDirectory`
      provides `projectPath`. The error comes from a stage no later than that one,
      and it is `missingProjectDirectory` when every earlier stage finds its path. */
  lemma ProjectDirectoryMustPrecede(stages: seq<Stage>, ctx: GenerationContext, i: nat)
    requires ctx.projectPath.None?
    requires i < |stages| && (stages[i] == AppDirectory || stages[i] == Workspace)
    requires ProjectDirectory !in stages[..i]
    ensures Pipeline(stages, ctx).result.Err?
    ensures Check(stages[..i + 1], Present(ctx)) == Fail(Pipeline(stages, ctx).result.error)
    ensures Check(stages[..i], Present(ctx)) == Pass ==> Pipeline(stages, ctx).result == Err(MissingProjectDirectory)
  {
    assert ProjectPath !in Present(ctx);
    CheckFailsWithoutProjectPath(stages, Present(ctx), i);
    PipelineFollowsTables(stages, ctx);
  }

  lemma NothingPresentAtStart(config: ProjectConfiguration)
    ensures Present(Fresh(config)) == {}
  {
    forall f | f in AllFields ensures Get(Fresh(config), f).None? {
    }
  }

  /** The default list passes the tables' check. */
  lemma DefaultStagesCheck()
    ensures Check(DefaultStages, {}) == Pass
    ensures ProvidedBy(DefaultStages) == AllFields
  {
    var d := DefaultStages;
    assert d[1..] == [AppDirectory, SourcesDirectory, Workspace, ProjectYml, SourceFiles, Package];
    assert d[2..] == [SourcesDirectory, Workspace, ProjectYml, SourceFiles, Package];
    assert d[3..] == [Workspace, ProjectYml, SourceFiles, Package];
    assert d[4..] == [ProjectYml, SourceFiles, Package];
    assert d[5..] == [SourceFiles, Package];
    assert d[6..] == [Package];
    assert d[1..][1..] == d[2..] && d[2..][1..] == d[3..] && d[3..][1..] == d[4..];
    assert d[4..][1..] == d[5..] && d[5..][1..] == d[6..] && d[6..][1..] == [];
  }

  /** With the default list no stage throws, the configuration is untouched and every
      path of the context is set. */
  lemma DefaultStagesSucceed(config: ProjectConfiguration)
    ensures Pipeline(DefaultStages, Fresh(config)).result.Ok?
    ensures Pipeline(DefaultStages, Fresh(config)).result.value.configuration == config
    ensures Present(Pipeline(DefaultStages, Fresh(config)).result.value) == AllFields
  {
    DefaultStagesCheck();
    NothingPresentAtStart(config);
    PipelineFollowsTables(DefaultStages, Fresh(config));
  }

  /** In the default list each path is provided by exactly one stage. */
  lemma DefaultProvidesEachPathOnce()
    ensures forall f | f in AllFields :: exists i :: 0 <= i < |DefaultStages| && f in Provides(DefaultStages[i])
    ensures forall i, j, f | 0 <= i < |DefaultStages| && 0 <= j < |DefaultStages|
              && f in Provides(DefaultStages[i]) && f in Provides(DefaultStages[j]) :: i == j
  {
    assert ProjectPath in Provides(DefaultStages[0]) && PackagesPath in Provides(DefaultStages[0]);
    assert AppPath in Provides(DefaultStages[1]) && SourcesPath in Provides(DefaultStages[2]);
  }

  // ---------------------------------------------------------------------------
  // What the default list leaves on disk
  // ---------------------------------------------------------------------------

  /** A successful stage at position `i`: what is left of the run is performed on the
      state that stage leaves. */
  lemma ApplyStep(stages: seq<Stage>, i: nat, ctx: GenerationContext, s: FsState)
    requires i < |stages| && Plan(stages[i], ctx).Ok?
    ensures var eff := Plan(stages[i], ctx).value;
            && Pipeline(stages[i..], ctx).result == Pipeline(stages[i + 1..], eff.context).result
            && Apply(s, Pipeline(stages[i..], ctx).ops)
               == Apply(Apply(s, eff.ops), Pipeline(stages[i + 1..], eff.context).ops)
  {
    var eff := Plan(stages[i], ctx).value;
    PipelineStep(stages, i, ctx);
    ApplyAppend(s, eff.ops, Pipeline(stages[i + 1..], eff.context).ops);
  }

  /** The context the default list ends with. */
  function DefaultContext(config: ProjectConfiguration): GenerationContext
  {
    var p := Join(config.path, config.name);
    var a := Join(Join(p, "Apps"), config.name);
    GenerationContext(config, Some(p), Some(a), Some(Join(a, "Sources")), Some(Join(p, "Packages")))
  }

  /** The files after the last stages of the default list, given the files before
      them and the paths of the context, stage by stage. */
  function PackageFilesOver(config: ProjectConfiguration, pk: string, files: map<string, string>): map<string, string>
  {
    (files + PackageGenerator.ModulesFiles(pk, config.modules))
      [PackageGenerator.PackageSwiftPath(pk) := PackageGenerator.PackageSwift(config)]
  }

  function SourceFilesOver(config: ProjectConfiguration, src: string, pk: string, files: map<string, string>): map<string, string>
  {
    PackageFilesOver(config, pk,
      files[SourceFilesGenerator.InfoPlistPath(src) := SourceFilesGenerator.InfoPlist(config.name)]
           [SourceFilesGenerator.AppSwiftPath(src) := SourceFilesGenerator.AppSwift(config.name)]
           [SourceFilesGenerator.ContentViewPath(src) := SourceFilesGenerator.ContentView()])
  }

  function ProjectYmlOver(config: ProjectConfiguration, a: string, src: string, pk: string, files: map<string, string>): map<string, string>
  {
    SourceFilesOver(config, src, pk, files[ProjectYMLGenerator.ProjectYmlPath(a) := ProjectYMLGenerator.ProjectYml(config)])
  }

  function WorkspaceOver(config: ProjectConfiguration, p: string, a: string, src: string, pk: string,
                         files: map<string, string>): map<string, string>
  {
    ProjectYmlOver(config, a, src, pk,
      files[WorkspaceGenerator.ContentsPath(p) := WorkspaceGenerator.WorkspaceContents(config.name)])
  }

  /** The default stages after the workspace never remove `project.yml`. */
  lemma ProjectYmlKept(config: ProjectConfiguration, p: string, a: string, src: string, pk: string,
                       files: map<string, string>)
    ensures ProjectYMLGenerator.ProjectYmlPath(a) in WorkspaceOver(config, p, a, src, pk, files)
  {
  }

  lemma DefaultFromPackage(c: GenerationContext, s: FsState)
    requires c.packagesPath.Some?
    ensures var run := Pipeline(DefaultStages[6..], c);
            && run.result == Ok(c)
            && Apply(s, run.ops).files == PackageFilesOver(c.configuration, c.packagesPath.value, s.files)
  {
    DispatchPackage(c);
    PackageGenerator.PackageFilesEffect(c, s);
    ApplyStep(DefaultStages, 6, c, s);
    assert DefaultStages[7..] == [];
  }

  lemma DefaultFromSourceFiles(c: GenerationContext, s: FsState)
    requires c.sourcesPath.Some? && c.packagesPath.Some?
    ensures var run := Pipeline(DefaultStages[5..], c);
            && run.result == Ok(c)
            && Apply(s, run.ops).files
               == SourceFilesOver(c.configuration, c.sourcesPath.value, c.packagesPath.value, s.files)
  {
    assert DefaultStages[5] == SourceFiles;
    DispatchSourceFiles(c);
    SourceFilesGenerator.SourceFilesWritten(c, s);
    ApplyStep(DefaultStages, 5, c, s);
    DefaultFromPackage(c, Apply(s, SourceFilesGenerator.Plan(c).value.ops));
  }

  /** The dispatch to one stage, for any context. */
  lemma DispatchSourceFiles(c: GenerationContext)
    ensures Plan(SourceFiles, c) == SourceFilesGenerator.Plan(c)
  {
  }

  lemma DispatchPackage(c: GenerationContext)
    ensures Plan(Package, c) == PackageGenerator.Plan(c)
  {
  }

  lemma DispatchProjectYml(c: GenerationContext)
    ensures Plan(ProjectYml, c) == ProjectYMLGenerator.Plan(c)
  {
  }

  lemma DispatchWorkspace(c: GenerationContext)
    ensures Plan(Workspace, c) == WorkspaceGenerator.Plan(c)
  {
  }

  lemma DispatchSourcesDirectory(c: GenerationContext)
    ensures Plan(SourcesDirectory, c) == SourcesDirectoryCreator.Plan(c)
  {
  }

  lemma DispatchAppDirectory(c: GenerationContext)
    ensures Plan(AppDirectory, c) == AppDirectoryCreator.Plan(c)
  {
  }

  lemma DefaultFromProjectYml(c: GenerationContext, s: FsState)
    requires c.appPath.Some? && c.sourcesPath.Some? && c.packagesPath.Some?
    ensures var run := Pipeline(DefaultStages[4..], c);
            && run.result == Ok(c)
            && Apply(s, run.ops).files
               == ProjectYmlOver(c.configuration, c.appPath.value, c.sourcesPath.value, c.packagesPath.value, s.files)
  {
    DispatchProjectYml(c);
    ProjectYMLGenerator.WritesProjectYml(c, s);
    ApplyStep(DefaultStages, 4, c, s);
    DefaultFromSourceFiles(c, Apply(s, Plan(ProjectYml, c).value.ops));
  }

  lemma DefaultFromWorkspace(c: GenerationContext, s: FsState)
    requires c.projectPath.Some? && c.appPath.Some? && c.sourcesPath.Some? && c.packagesPath.Some?
    ensures var run := Pipeline(DefaultStages[3..], c);
            && run.result == Ok(c)
            && Apply(s, run.ops).files
               == WorkspaceOver(c.configuration, c.projectPath.value, c.appPath.value, c.sourcesPath.value,
                                c.packagesPath.value, s.files)
  {
    DispatchWorkspace(c);
    WorkspaceGenerator.WorkspaceEffect(c, s);
    ApplyStep(DefaultStages, 3, c, s);
    DefaultFromProjectYml(c, Apply(s, Plan(Workspace, c).value.ops));
  }

  lemma DefaultFromSourcesDirectory(c: GenerationContext, s: FsState)
    requires c.projectPath.Some? && c.appPath.Some? && c.packagesPath.Some?
    ensures var run := Pipeline(DefaultStages[2..], c);
            var src := Join(c.appPath.value, "Sources");
            && run.result == Ok(c.(sourcesPath := Some(src)))
            && Apply(s, run.ops).files
               == WorkspaceOver(c.configuration, c.projectPath.value, c.appPath.value, src, c.packagesPath.value, s.files)
  {
    DispatchSourcesDirectory(c);
    SourcesDirectoryCreator.CreatesSourcesDirectory(c, s);
    ApplyStep(DefaultStages, 2, c, s);
    DefaultFromWorkspace(Plan(SourcesDirectory, c).value.context, Apply(s, Plan(SourcesDirectory, c).value.ops));
  }

  lemma DefaultFromAppDirectory(c: GenerationContext, s: FsState)
    requires c.projectPath.Some? && c.packagesPath.Some?
    ensures var run := Pipeline(DefaultStages[1..], c);
            var a := Join(Join(c.projectPath.value, "Apps"), c.configuration.name);
            var src := Join(a, "Sources");
            && run.result == Ok(c.(appPath := Some(a), sourcesPath := Some(src)))
            && Apply(s, run.ops).files
               == WorkspaceOver(c.configuration, c.projectPath.value, a, src, c.packagesPath.value, s.files)
  {
    DispatchAppDirectory(c);
    AppDirectoryCreator.CreatesAppDirectory(c, s);
    ApplyStep(DefaultStages, 1, c, s);
    DefaultFromSourcesDirectory(Plan(AppDirectory, c).value.context, Apply(s, Plan(AppDirectory, c).value.ops));
  }

  /** Running the default list from the seeded context ends with `<path>/<name>`,
      the app directory `<path>/<name>/Apps/<name>`, its `Sources`, and
      `<path>/<name>/Packages` as the four paths. The first stage writes no file
      (`CreatesProjectLayout`), so `DefaultFromAppDirectory` gives every file the
      list writes. */
  lemma DefaultRun(config: ProjectConfiguration)
    ensures Pipeline(DefaultStages, Fresh(config)).result == Ok(DefaultContext(config))
  {
    var c := Fresh(config);
    var s := FsState({}, map[]);
    ProjectDirectoryCreator.CreatesProjectLayout(c, s);
    ApplyStep(DefaultStages, 0, c, s);
    var p := Join(config.path, config.name);
    var next := GenerationContext(config, Some(p), None, None, Some(Join(p, "Packages")));
    assert Plan(ProjectDirectory, c).value.context == next;
    DefaultFromAppDirectory(next, Apply(s, Plan(ProjectDirectory, c).value.ops));
  }
}
