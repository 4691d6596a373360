/** `AppDirectoryCreator`: creates `<projectPath>/Apps/<name>`. Needs `projectPath`. */
module AppDirectoryCreator {
  import opened Wrappers
  import opened Paths
  import opened FileSystem
  import opened Models
  import opened Generation

  function AppPath(projectPath: string, name: string): string
  {
    Join(Join(projectPath, "Apps"), name)
  }

  function Plan(ctx: GenerationContext): Result<Effect, GenerationError>
  {
    match ctx.projectPath
    case None => Err(MissingProjectDirectory)
    case Some(projectPath) =>
      var appPath := AppPath(projectPath, ctx.configuration.name);
      Ok(Effect([MakeDir(appPath)], ctx.(appPath := Some(appPath))))
  }

  method Generate(ctx: GenerationContext, fm: FileManager) returns (r: Result<GenerationContext, GenerationError>)
    modifies fm
    ensures Performed(Plan(ctx), old(fm.State()), r, fm.State())
  {
    if ctx.projectPath.None? {
      return Err(MissingProjectDirectory);
    }
    var projectPath := ctx.projectPath.value;
    var appsPath := Join(projectPath, "Apps");
    var appPath := Join(appsPath, ctx.configuration.name);
    fm.CreateDirectory(appPath);
    r := Ok(ctx.(appPath := Some(appPath)));
  }

  /** Without `projectPath` the stage fails with `missingProjectDirectory`; otherwise
      `<projectPath>/Apps/<name>` exists afterwards together with its ancestors
      (`Apps` among them), no file changes, and only `appPath` is set. */
  lemma CreatesAppDirectory(ctx: GenerationContext, s: FsState)
    ensures ctx.projectPath.None? <==> Plan(ctx) == Err(MissingProjectDirectory)
    ensures ctx.projectPath.Some? ==>
              var p := ctx.projectPath.value;
              var a := Join(Join(p, "Apps"), ctx.configuration.name);
              var e := Plan(ctx).value;
              var after := Apply(s, e.ops);
              && Plan(ctx).Ok?
              && e.context == ctx.(appPath := Some(a))
              && after.dirs == s.dirs + {a} + Ancestors(a)
              && after.files == s.files
              && (SlashFree(ctx.configuration.name) ==> Join(p, "Apps") in after.dirs)
  {
    if ctx.projectPath.Some? {
      var p := ctx.projectPath.value;
      ApplyEffect(s, Plan(ctx).value.ops);
      if SlashFree(ctx.configuration.name) {
        AncestorsOfJoin(Join(p, "Apps"), ctx.configuration.name);
      }
    }
  }
}
