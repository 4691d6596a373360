/** `ProjectDirectoryCreator`: creates `<path>/<name>` with its `Apps` and `Packages`
    subdirectories. It needs nothing from earlier stages. */
module ProjectDirectoryCreator {
  import opened Wrappers
  import opened Paths
  import opened FileSystem
  import opened Models
  import opened Generation

  function ProjectPath(config: ProjectConfiguration): string
  {
    Join(config.path, config.name)
  }

  function Plan(ctx: GenerationContext): Result<Effect, GenerationError>
  {
    var projectPath := ProjectPath(ctx.configuration);
    var packagesPath := Join(projectPath, "Packages");
    Ok(Effect(
      [MakeDir(projectPath), MakeDir(Join(projectPath, "Apps")), MakeDir(packagesPath)],
      ctx.(projectPath := Some(projectPath), packagesPath := Some(packagesPath))))
  }

  method Generate(ctx: GenerationContext, fm: FileManager) returns (r: Result<GenerationContext, GenerationError>)
    modifies fm
    ensures Performed(Plan(ctx), old(fm.State()), r, fm.State())
  {
    ghost var before := fm.State();
    var config := ctx.configuration;
    var projectPath := Join(config.path, config.name);
    fm.CreateDirectory(projectPath);
    ApplySnoc(before, [], MakeDir(projectPath));
    var appsPath := Join(projectPath, "Apps");
    fm.CreateDirectory(appsPath);
    ApplySnoc(before, [MakeDir(projectPath)], MakeDir(appsPath));
    var packagesPath := Join(projectPath, "Packages");
    fm.CreateDirectory(packagesPath);
    ApplySnoc(before, [MakeDir(projectPath), MakeDir(appsPath)], MakeDir(packagesPath));
    r := Ok(ctx.(projectPath := Some(projectPath), packagesPath := Some(packagesPath)));
  }

  /** The stage never fails; afterwards `<path>/<name>` (with its ancestors), `Apps` and
      `Packages` exist, no file has changed, and only `projectPath` and `packagesPath`
      are set in the context. */
  lemma CreatesProjectLayout(ctx: GenerationContext, s: FsState)
    ensures Plan(ctx).Ok?
    ensures var e := Plan(ctx).value;
            var p := Join(ctx.configuration.path, ctx.configuration.name);
            var after := Apply(s, e.ops);
            && e.context.projectPath == Some(p)
            && e.context.packagesPath == Some(Join(p, "Packages"))
            && e.context.configuration == ctx.configuration
            && e.context.appPath == ctx.appPath && e.context.sourcesPath == ctx.sourcesPath
            && after.dirs == s.dirs + {p, Join(p, "Apps"), Join(p, "Packages")} + Ancestors(p)
                             + Ancestors(Join(p, "Apps")) + Ancestors(Join(p, "Packages"))
            && p in after.dirs && Join(p, "Apps") in after.dirs && Join(p, "Packages") in after.dirs
            && after.files == s.files
  {
    var ops := Plan(ctx).value.ops;
    assert ops == [ops[0]] + ([ops[1]] + ([ops[2]] + []));
    EffectCons(ops[2], []);
    EffectCons(ops[1], [ops[2]]);
    EffectCons(ops[0], [ops[1], ops[2]]);
    ApplyEffect(s, ops);
  }

  /** Running the stage a second time leaves the context and the file system exactly
      as the first run left them. */
  lemma RunningTwiceIsRunningOnce(ctx: GenerationContext, s: FsState)
    ensures var first := Plan(ctx).value;
            var second := Plan(first.context).value;
            && second.context == first.context
            && Apply(Apply(s, first.ops), second.ops) == Apply(s, first.ops)
  {
    var first := Plan(ctx).value;
    assert Plan(first.context).value.ops == first.ops;
    ApplyIdempotent(s, first.ops);
  }
}
