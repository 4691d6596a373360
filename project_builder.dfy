/** `ProjectBuilder.buildProject`: generate every file of the project, then run
    xcodegen in the app directory. Both collaborators are abstract: the file
    generator is `FileGenerator` over a list of stages, and the xcodegen runner is a
    stand-in whose outcome is fixed when it is made and which records every
    directory it is run in. */
module ProjectBuilder {
  import opened Wrappers
  import opened Paths
  import opened FileSystem
  import opened Models
  import opened Generation
  import FileGenerator
  import ProjectDirectoryCreator
  import ProjectYMLGenerator

  /** What running xcodegen can throw. */
  datatype XcodegenError =
    | NotInstalled
    | GenerationFailed(output: string)

  /** What `buildProject` can throw: the error of the stage that failed, or the
      runner's error, passed on unchanged. */
  datatype BuildError =
    | Generating(generationError: GenerationError)
    | RunningXcodegen(xcodegenError: XcodegenError)

  /** `XcodegenRunning`. Whether the run succeeds, finds xcodegen missing, or fails
      with some output is decided outside the model, so it is fixed when the runner is
      made; `invocations` lists the directories it has been run in, oldest first. */
  class XcodegenRunner {
    const outcome: Outcome<XcodegenError>
    var invocations: seq<string>

    constructor (outcome: Outcome<XcodegenError>)
      ensures this.outcome == outcome && invocations == []
    {
      this.outcome := outcome;
      invocations := [];
    }

    /** `runXcodegen(in: directory)`. */
    method RunXcodegen(directory: string) returns (r: Outcome<XcodegenError>)
      modifies this
      ensures invocations == old(invocations) + [directory]
      ensures r == outcome
    {
      invocations := invocations + [directory];
      r := outcome;
    }
  }

  /** `URL(fileURLWithPath: path)` with `name`, `Apps` and `name` appended. */
  function AppDirectory(config: ProjectConfiguration): string
  {
    Join(Join(Join(config.path, config.name), "Apps"), config.name)
  }

  /** What `buildProject` returns, given what the stages do and what the runner would
      do: a generation error wins; otherwise the runner's outcome, its error wrapped. */
  function BuildOutcome(stages: seq<FileGenerator.Stage>, config: ProjectConfiguration,
                        runner: Outcome<XcodegenError>): Outcome<BuildError>
  {
    match FileGenerator.Pipeline(stages, Fresh(config)).result
    case Err(e) => Fail(Generating(e))
    case Ok(_) =>
      match runner
      case Pass => Pass
      case Fail(x) => Fail(RunningXcodegen(x))
  }

  /** `buildProject(with:)`. The files are generated first; if that throws, the runner
      is never called. Otherwise the runner is called once, on the app directory, and
      its outcome is the outcome of the build. */
  method BuildProject(stages: seq<FileGenerator.Stage>, config: ProjectConfiguration,
                      fm: FileManager, runner: XcodegenRunner)
    returns (r: Outcome<BuildError>)
    modifies fm, runner
    ensures fm.State() == Apply(old(fm.State()), FileGenerator.Pipeline(stages, Fresh(config)).ops)
    ensures r == BuildOutcome(stages, config, runner.outcome)
    ensures runner.invocations
            == old(runner.invocations)
               + (if FileGenerator.Pipeline(stages, Fresh(config)).result.Ok? then [AppDirectory(config)] else [])
  {
    var generated := FileGenerator.GenerateFiles(stages, config, fm);
    if generated.Fail? {
      return Fail(Generating(generated.error));
    }
    var appPath := Join(Join(Join(config.path, config.name), "Apps"), config.name);
    var ran := runner.RunXcodegen(appPath);
    if ran.Fail? {
      return Fail(RunningXcodegen(ran.error));
    }
    r := Pass;
  }

  /** The directory the runner is given is the app directory the default stages
      create and record as `appPath`: the project's `project.yml` lies in it. */
  lemma RunnerDirectoryIsAppPath(config: ProjectConfiguration)
    ensures var run := FileGenerator.Pipeline(FileGenerator.DefaultStages, Fresh(config));
            && run.result.Ok?
            && run.result.value.appPath == Some(AppDirectory(config))
  {
    FileGenerator.DefaultRun(config);
  }

  /** With the default stages the build fails exactly when the runner does, with the
      runner's own error. */
  lemma DefaultBuildOutcome(config: ProjectConfiguration, runner: Outcome<XcodegenError>)
    ensures BuildOutcome(FileGenerator.DefaultStages, config, runner).Pass? <==> runner.Pass?
    ensures runner.Fail? ==>
              BuildOutcome(FileGenerator.DefaultStages, config, runner) == Fail(RunningXcodegen(runner.error))
  {
    FileGenerator.DefaultRun(config);
  }

  /** When the default build reaches the runner, the directory it is given holds
      `project.yml`, whatever the disk held before. */
  lemma DefaultBuildLeavesProjectYml(config: ProjectConfiguration, s: FsState)
    ensures var run := FileGenerator.Pipeline(FileGenerator.DefaultStages, Fresh(config));
            ProjectYMLGenerator.ProjectYmlPath(AppDirectory(config)) in Apply(s, run.ops).files
  {
    var c := Fresh(config);
    var run := FileGenerator.Pipeline(FileGenerator.DefaultStages, c);
    var eff := FileGenerator.Plan(FileGenerator.ProjectDirectory, c).value;
    var rest := FileGenerator.Pipeline(FileGenerator.DefaultStages[1..], eff.context);
    assert Apply(s, run.ops) == Apply(Apply(s, eff.ops), rest.ops) by {
      ProjectDirectoryCreator.CreatesProjectLayout(c, s);
      FileGenerator.ApplyStep(FileGenerator.DefaultStages, 0, c, s);
    }
    var p := Join(config.path, config.name);
    assert eff.context.projectPath == Some(p) && eff.context.packagesPath == Some(Join(p, "Packages"))
           && eff.context.configuration == config by {
      ProjectDirectoryCreator.CreatesProjectLayout(c, s);
    }
    var a := AppDirectory(config);
    FileGenerator.DefaultFromAppDirectory(eff.context, Apply(s, eff.ops));
    FileGenerator.ProjectYmlKept(config, p, a, Join(a, "Sources"), Join(p, "Packages"), Apply(s, eff.ops).files);
  }
}
