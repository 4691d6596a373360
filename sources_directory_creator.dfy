/** `SourcesDirectoryCreator`: creates `<appPath>/Sources`. Needs `appPath`. */
module SourcesDirectoryCreator {
  import opened Wrappers
  import opened Paths
  import opened FileSystem
  import opened Models
  import opened Generation

  function Plan(ctx: GenerationContext): Result<Effect, GenerationError>
  {
    match ctx.appPath
    case None => Err(MissingAppDirectory)
    case Some(appPath) =>
      var sourcesPath := Join(appPath, "Sources");
      Ok(Effect([MakeDir(sourcesPath)], ctx.(sourcesPath := Some(sourcesPath))))
  }

  method Generate(ctx: GenerationContext, fm: FileManager) returns (r: Result<GenerationContext, GenerationError>)
    modifies fm
    ensures Performed(Plan(ctx), old(fm.State()), r, fm.State())
  {
    if ctx.appPath.None? {
      return Err(MissingAppDirectory);
    }
    var sourcesPath := Join(ctx.appPath.value, "Sources");
    fm.CreateDirectory(sourcesPath);
    r := Ok(ctx.(sourcesPath := Some(sourcesPath)));
  }

  /** Without `appPath` the stage fails with `missingAppDirectory`; otherwise
      `<appPath>/Sources` exists afterwards, no file changes, and only `sourcesPath` is set. */
  lemma CreatesSourcesDirectory(ctx: GenerationContext, s: FsState)
    ensures ctx.appPath.None? <==> Plan(ctx) == Err(MissingAppDirectory)
    ensures ctx.appPath.Some? ==>
              var src := Join(ctx.appPath.value, "Sources");
              var e := Plan(ctx).value;
              var after := Apply(s, e.ops);
              && Plan(ctx).Ok?
              && e.context == ctx.(sourcesPath := Some(src))
              && after.dirs == s.dirs + {src} + Ancestors(src)
              && after.files == s.files
  {
    if ctx.appPath.Some? {
      ApplyEffect(s, Plan(ctx).value.ops);
    }
  }
}
