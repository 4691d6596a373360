/** `WorkspaceGenerator`: writes `<projectPath>/Main.xcworkspace/contents.xcworkspacedata`,
    a workspace referring to the `Packages` group and to the app's Xcode project.
    Needs `projectPath`. */
module WorkspaceGenerator {
  import opened Wrappers
  import opened Strings
  import opened Paths
  import opened FileSystem
  import opened Models
  import opened Generation

  function WorkspaceLines(appName: string): seq<string>
  {
    [ "<?xml version=\"1.0\" encoding=\"UTF-8\"?>",
      "<Workspace version = \"1.0\">",
      "    <FileRef location = \"group:Packages\"/>",
      "    <FileRef location = \"group:Apps/" + appName + "/" + appName + ".xcodeproj\"/>",
      "</Workspace>" ]
  }

  function WorkspaceContents(appName: string): string
  {
    Unlines(WorkspaceLines(appName))
  }

  function WorkspacePath(projectPath: string): string
  {
    Join(projectPath, "Main.xcworkspace")
  }

  function ContentsPath(projectPath: string): string
  {
    Join(WorkspacePath(projectPath), "contents.xcworkspacedata")
  }

  function Plan(ctx: GenerationContext): Result<Effect, GenerationError>
  {
    match ctx.projectPath
    case None => Err(MissingProjectDirectory)
    case Some(projectPath) =>
      Ok(Effect([MakeDir(WorkspacePath(projectPath)),
                 WriteFile(ContentsPath(projectPath), WorkspaceContents(ctx.configuration.name))],
                ctx))
  }

  method Generate(ctx: GenerationContext, fm: FileManager) returns (r: Result<GenerationContext, GenerationError>)
    modifies fm
    ensures Performed(Plan(ctx), old(fm.State()), r, fm.State())
  {
    if ctx.projectPath.None? {
      return Err(MissingProjectDirectory);
    }
    ghost var before := fm.State();
    var projectPath := ctx.projectPath.value;
    var appName := ctx.configuration.name;
    var workspacePath := Join(projectPath, "Main.xcworkspace");
    var contentsPath := Join(workspacePath, "contents.xcworkspacedata");
    fm.CreateDirectory(workspacePath);
    ApplySnoc(before, [], MakeDir(workspacePath));
    var workspaceContents := Unlines(WorkspaceLines(appName));
    fm.Write(contentsPath, workspaceContents);
    ApplySnoc(before, [MakeDir(workspacePath)], WriteFile(contentsPath, workspaceContents));
    r := Ok(ctx);
  }

  /** Without `projectPath` the stage fails with `missingProjectDirectory`. Otherwise it
      creates `Main.xcworkspace`, writes the workspace data into that same directory,
      changes no other file and leaves the context as it was. */
  lemma WritesWorkspace(ctx: GenerationContext, s: FsState)
    ensures ctx.projectPath.None? <==> Plan(ctx) == Err(MissingProjectDirectory)
    ensures ctx.projectPath.Some? ==>
              var p := ctx.projectPath.value;
              var ws := Join(p, "Main.xcworkspace");
              var e := Plan(ctx).value;
              var after := Apply(s, e.ops);
              && Plan(ctx).Ok?
              && e.context == ctx
              && after.dirs == s.dirs + {ws} + Ancestors(ws)
              && after.files == s.files[Join(ws, "contents.xcworkspacedata") := WorkspaceContents(ctx.configuration.name)]
              && WritesIntoExistingDirs(s, e.ops)
  {
    if ctx.projectPath.Some? {
      WorkspaceEffect(ctx, s);
      WorkspaceWriteLands(ctx, s);
    }
  }

  lemma WorkspaceEffect(ctx: GenerationContext, s: FsState)
    requires ctx.projectPath.Some?
    ensures var p := ctx.projectPath.value;
            var after := Apply(s, Plan(ctx).value.ops);
            && after.dirs == s.dirs + {WorkspacePath(p)} + Ancestors(WorkspacePath(p))
            && after.files == s.files[ContentsPath(p) := WorkspaceContents(ctx.configuration.name)]
  {
    var ops := Plan(ctx).value.ops;
    assert ops == [ops[0]] + ([ops[1]] + []);
    EffectCons(ops[1], []);
    EffectCons(ops[0], [ops[1]]);
    ApplyEffect(s, ops);
  }

  lemma WorkspaceWriteLands(ctx: GenerationContext, s: FsState)
    requires ctx.projectPath.Some?
    ensures WritesIntoExistingDirs(s, Plan(ctx).value.ops)
  {
    var p := ctx.projectPath.value;
    var ops := Plan(ctx).value.ops;
    ParentOfJoin(WorkspacePath(p), "contents.xcworkspacedata");
    var s1 := Perform(s, ops[0]);
    assert WritesIntoExistingDirs(Perform(s1, ops[1]), ops[1..][1..]);
    assert WritesIntoExistingDirs(s1, ops[1..]);
  }


  /** The workspace data refers, each on a line of its own, to the `Packages` group
      and to the app's `Apps/<name>/<name>.xcodeproj`, the packages first and the app
      project on the very next line. */
  lemma WorkspaceReferences(appName: string)
    ensures HasLine(WorkspaceContents(appName), "    <FileRef location = \"group:Packages\"/>")
    ensures HasLine(WorkspaceContents(appName),
                    "    <FileRef location = \"group:Apps/" + appName + "/" + appName + ".xcodeproj\"/>")
    ensures HasLine(WorkspaceContents(appName),
                    "    <FileRef location = \"group:Packages\"/>" + "\n"
                    + ("    <FileRef location = \"group:Apps/" + appName + "/" + appName + ".xcodeproj\"/>"))
  {
    var lines := WorkspaceLines(appName);
    assert HasLine(WorkspaceContents(appName), lines[2]) by {
      UnlinesHasLine(lines, 2);
    }
    assert HasLine(WorkspaceContents(appName), lines[3]) by {
      UnlinesHasLine(lines, 3);
    }
    assert HasLine(WorkspaceContents(appName), lines[2] + "\n" + lines[3]) by {
      UnlinesHasRun(lines, 2, 4);
      assert lines[2..4] == [lines[2], lines[3]];
      UnlinesPair(lines[2], lines[3]);
    }
  }
}
