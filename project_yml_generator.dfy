/** `ProjectYMLGenerator`: writes `<appPath>/project.yml`, the XcodeGen specification
    of the app target. Needs `appPath`. */
module ProjectYMLGenerator {
  import opened Wrappers
  import opened Strings
  import opened Paths
  import opened FileSystem
  import opened Models
  import opened Generation

  /** `<bundleIdPrefix>.<name lowercased>`, used for both bundle identifier settings. */
  function BundleIdentifier(config: ProjectConfiguration): string
  {
    config.bundleIdPrefix + "." + ToLower(config.name)
  }

  function ProjectYmlLines(config: ProjectConfiguration): seq<string>
  {
    [ "name: " + config.name,
      "options:",
      "  bundleIdPrefix: " + config.bundleIdPrefix,
      "  deploymentTarget:",
      "    iOS: " + config.deploymentTarget,
      "  xcodeVersion: \"" + config.xcodeVersion + "\"",
      "settings:",
      "  base:",
      "    INFOPLIST_FILE: Sources/Info.plist",
      "    PRODUCT_BUNDLE_IDENTIFIER: " + BundleIdentifier(config),
      "targets:",
      "  " + config.name + ":",
      "    type: application",
      "    platform: iOS",
      "    sources:",
      "      - path: Sources",
      "    settings:",
      "      base:",
      "        INFOPLIST_FILE: Sources/Info.plist",
      "        PRODUCT_BUNDLE_IDENTIFIER: " + BundleIdentifier(config) ]
  }

  function ProjectYml(config: ProjectConfiguration): string
  {
    Unlines(ProjectYmlLines(config))
  }

  function ProjectYmlPath(appPath: string): string
  {
    Join(appPath, "project.yml")
  }

  function Plan(ctx: GenerationContext): Result<Effect, GenerationError>
  {
    match ctx.appPath
    case None => Err(MissingAppDirectory)
    case Some(appPath) =>
      Ok(Effect([WriteFile(ProjectYmlPath(appPath), ProjectYml(ctx.configuration))], ctx))
  }

  method Generate(ctx: GenerationContext, fm: FileManager) returns (r: Result<GenerationContext, GenerationError>)
    modifies fm
    ensures Performed(Plan(ctx), old(fm.State()), r, fm.State())
  {
    if ctx.appPath.None? {
      return Err(MissingAppDirectory);
    }
    ghost var before := fm.State();
    var config := ctx.configuration;
    var projectYmlPath := Join(ctx.appPath.value, "project.yml");
    var projectYmlContents := Unlines(ProjectYmlLines(config));
    fm.Write(projectYmlPath, projectYmlContents);
    ApplySnoc(before, [], WriteFile(projectYmlPath, projectYmlContents));
    r := Ok(ctx);
  }

  /** Without `appPath` the stage fails with `missingAppDirectory`. Otherwise it writes
      `project.yml` into the app directory and nothing else: no directory is created
      and the context is left as it was. */
  lemma WritesProjectYml(ctx: GenerationContext, s: FsState)
    ensures ctx.appPath.None? <==> Plan(ctx) == Err(MissingAppDirectory)
    ensures ctx.appPath.Some? ==>
              var e := Plan(ctx).value;
              var after := Apply(s, e.ops);
              var path := Join(ctx.appPath.value, "project.yml");
              && Plan(ctx).Ok?
              && e.context == ctx
              && after.dirs == s.dirs
              && after.files == s.files[path := ProjectYml(ctx.configuration)]
              && Parent(path) == ctx.appPath.value
  {
    if ctx.appPath.Some? {
      var ops := Plan(ctx).value.ops;
      assert ops == [ops[0]] + [];
      EffectCons(ops[0], []);
      ApplyEffect(s, ops);
      ParentOfJoin(ctx.appPath.value, "project.yml");
    }
  }

  /** `project.yml` names the project and sets the bundle id prefix, each on a line
      of its own. */
  lemma ProjectYmlIdentity(config: ProjectConfiguration)
    ensures var yml := ProjectYml(config);
            && HasLine(yml, "name: " + config.name)
            && HasLine(yml, "  bundleIdPrefix: " + config.bundleIdPrefix)
  {
    var yml := ProjectYml(config);
    var lines := ProjectYmlLines(config);
    assert HasLine(yml, "name: " + config.name) by { UnlinesHasLine(lines, 0); }
    assert HasLine(yml, "  bundleIdPrefix: " + config.bundleIdPrefix) by { UnlinesHasLine(lines, 2); }
  }

  /** `project.yml` sets the iOS deployment target and the quoted Xcode version. */
  lemma ProjectYmlToolchain(config: ProjectConfiguration)
    ensures var yml := ProjectYml(config);
            && HasLine(yml, "    iOS: " + config.deploymentTarget)
            && HasLine(yml, "  xcodeVersion: \"" + config.xcodeVersion + "\"")
  {
    var yml := ProjectYml(config);
    var lines := ProjectYmlLines(config);
    assert HasLine(yml, "    iOS: " + config.deploymentTarget) by { UnlinesHasLine(lines, 4); }
    assert HasLine(yml, "  xcodeVersion: \"" + config.xcodeVersion + "\"") by { UnlinesHasLine(lines, 5); }
  }

  /** `project.yml` declares an application target keyed by the project name. */
  lemma ProjectYmlTarget(config: ProjectConfiguration)
    ensures var yml := ProjectYml(config);
            && HasLine(yml, "  " + config.name + ":")
            && HasLine(yml, "    type: application")
  {
    var yml := ProjectYml(config);
    var lines := ProjectYmlLines(config);
    assert HasLine(yml, "  " + config.name + ":") by { UnlinesHasLine(lines, 11); }
    assert HasLine(yml, "    type: application") by { UnlinesHasLine(lines, 12); }
  }

  /** `project.yml` sets the bundle identifier `<prefix>.<lowercased name>` both in the
      project settings and in the target settings. */
  lemma ProjectYmlBundleIdentifier(config: ProjectConfiguration)
    ensures var yml := ProjectYml(config);
            var id := config.bundleIdPrefix + "." + ToLower(config.name);
            && HasLine(yml, "    PRODUCT_BUNDLE_IDENTIFIER: " + id)
            && HasLine(yml, "        PRODUCT_BUNDLE_IDENTIFIER: " + id)
  {
    var yml := ProjectYml(config);
    var lines := ProjectYmlLines(config);
    var id := config.bundleIdPrefix + "." + ToLower(config.name);
    assert HasLine(yml, "    PRODUCT_BUNDLE_IDENTIFIER: " + id) by { UnlinesHasLine(lines, 9); }
    assert HasLine(yml, "        PRODUCT_BUNDLE_IDENTIFIER: " + id) by { UnlinesHasLine(lines, 19); }
  }
}
