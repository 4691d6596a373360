/** The types `FileGenerator` shares with its stages: `GenerationError` and the
    `GenerationContext` threaded `inout` through them. A stage's work is described by
    an `Effect`: the file-system changes it makes, in order, and the context it leaves. */
module Generation {
  import opened Wrappers
  import opened Models
  import opened FileSystem

  datatype GenerationError =
    | MissingProjectDirectory
    | MissingAppDirectory
    | MissingSourcesDirectory
    | MissingPackagesDirectory

  datatype GenerationContext = GenerationContext(
    configuration: ProjectConfiguration,
    projectPath: Option<string>,
    appPath: Option<string>,
    sourcesPath: Option<string>,
    packagesPath: Option<string>)

  /** `GenerationContext(configuration:)`: the configuration and no path yet. */
  function Fresh(config: ProjectConfiguration): GenerationContext
  {
    GenerationContext(config, None, None, None, None)
  }

  datatype Effect = Effect(ops: seq<FsOp>, context: GenerationContext)

  /** A stage call ran as planned: a refused plan returns its error and leaves the file
      system as it was; an accepted one returns the new context after making its changes. */
  predicate Performed(plan: Result<Effect, GenerationError>, before: FsState,
                      r: Result<GenerationContext, GenerationError>, after: FsState)
  {
    match plan
    case Err(e) => r == Err(e) && after == before
    case Ok(eff) => r == Ok(eff.context) && after == Apply(before, eff.ops)
  }
}
