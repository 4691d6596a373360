/** `SourceFilesGenerator`: writes the app's `Info.plist`, `App.swift` and
    `ContentView.swift` into `sourcesPath`, in that order. Needs `sourcesPath`. */
module SourceFilesGenerator {
  import opened Wrappers
  import opened Strings
  import opened Paths
  import opened FileSystem
  import opened Models
  import opened Generation

  /** The lines of `Info.plist` before the bundle name, ending with its key. */
  const InfoPlistHead: seq<string> := [
      "<?xml version=\"1.0\" encoding=\"UTF-8\"?>",
      "<!DOCTYPE plist PUBLIC \"-//Apple//DTD PLIST 1.0//EN\" \"http://www.apple.com/DTDs/PropertyList-1.0.dtd\">",
      "<plist version=\"1.0\">",
      "<dict>",
      "    <key>CFBundleDevelopmentRegion</key>",
      "    <string>$(DEVELOPMENT_LANGUAGE)</string>",
      "    <key>CFBundleExecutable</key>",
      "    <string>$(EXECUTABLE_NAME)</string>",
      "    <key>CFBundleIdentifier</key>",
      "    <string>$(PRODUCT_BUNDLE_IDENTIFIER)</string>",
      "    <key>CFBundleInfoDictionaryVersion</key>",
      "    <string>6.0</string>",
      "    <key>CFBundleName</key>" ]

  /** The lines of `Info.plist` after the bundle name. */
  const InfoPlistTail: seq<string> := [
      "    <key>CFBundlePackageType</key>",
      "    <string>$(PRODUCT_BUNDLE_PACKAGE_TYPE)</string>",
      "    <key>CFBundleShortVersionString</key>",
      "    <string>1.0</string>",
      "    <key>CFBundleVersion</key>",
      "    <string>1</string>",
      "    <key>LSRequiresIPhoneOS</key>",
      "    <true/>",
      "    <key>UIApplicationSceneManifest</key>",
      "    <dict>",
      "        <key>UIApplicationSupportsMultipleScenes</key>",
      "        <false/>",
      "    </dict>",
      "    <key>UILaunchScreen</key>",
      "    <dict/>",
      "    <key>UIRequiredDeviceCapabilities</key>",
      "    <array>",
      "        <string>armv7</string>",
      "    </array>",
      "    <key>UISupportedInterfaceOrientations</key>",
      "    <array>",
      "        <string>UIInterfaceOrientationPortrait</string>",
      "        <string>UIInterfaceOrientationLandscapeLeft</string>",
      "        <string>UIInterfaceOrientationLandscapeRight</string>",
      "    </array>",
      "</dict>",
      "</plist>" ]

  function InfoPlistLines(appName: string): seq<string>
  {
    InfoPlistHead + ["    <string>" + appName + "</string>"] + InfoPlistTail
  }

  function InfoPlist(appName: string): string
  {
    Unlines(InfoPlistLines(appName))
  }

  function AppSwiftLines(appName: string): seq<string>
  {
    [
      "import SwiftUI",
      "",
      "@main",
      "struct " + appName + "App: App {",
      "    var body: some Scene {",
      "        WindowGroup {",
      "            ContentView()",
      "        }",
      "    }",
      "}" ]
  }

  function AppSwift(appName: string): string
  {
    Unlines(AppSwiftLines(appName))
  }

  /** The content view takes nothing from the configuration. */
  const ContentViewLines: seq<string> := [
      "import SwiftUI",
      "",
      "struct ContentView: View {",
      "    var body: some View {",
      "        VStack {",
      "            Image(systemName: \"globe\")",
      "                .imageScale(.large)",
      "                .foregroundStyle(.tint)",
      "            Text(\"Hello, world!\")",
      "        }",
      "        .padding()",
      "    }",
      "}",
      "",
      "#Preview {",
      "    ContentView()",
      "}" ]

  function ContentView(): string
  {
    Unlines(ContentViewLines)
  }

  function InfoPlistPath(sourcesPath: string): string { Join(sourcesPath, "Info.plist") }
  function AppSwiftPath(sourcesPath: string): string { Join(sourcesPath, "App.swift") }
  function ContentViewPath(sourcesPath: string): string { Join(sourcesPath, "ContentView.swift") }

  function Plan(ctx: GenerationContext): Result<Effect, GenerationError>
  {
    match ctx.sourcesPath
    case None => Err(MissingSourcesDirectory)
    case Some(sourcesPath) =>
      var name := ctx.configuration.name;
      Ok(Effect([WriteFile(InfoPlistPath(sourcesPath), InfoPlist(name)),
                 WriteFile(AppSwiftPath(sourcesPath), AppSwift(name)),
                 WriteFile(ContentViewPath(sourcesPath), ContentView())],
                ctx))
  }

  method Generate(ctx: GenerationContext, fm: FileManager) returns (r: Result<GenerationContext, GenerationError>)
    modifies fm
    ensures Performed(Plan(ctx), old(fm.State()), r, fm.State())
  {
    if ctx.sourcesPath.None? {
      return Err(MissingSourcesDirectory);
    }
    ghost var before := fm.State();
    var sourcesPath := ctx.sourcesPath.value;
    var config := ctx.configuration;
    GenerateInfoPlist(sourcesPath, config, fm);
    GenerateAppSwift(sourcesPath, config, fm);
    GenerateContentView(sourcesPath, fm);
    ApplyThreeWrites(before, InfoPlistPath(sourcesPath), InfoPlist(config.name),
                     AppSwiftPath(sourcesPath), AppSwift(config.name),
                     ContentViewPath(sourcesPath), ContentView());
    r := Ok(ctx);
  }

  method GenerateInfoPlist(sourcesPath: string, config: ProjectConfiguration, fm: FileManager)
    modifies fm
    ensures fm.State() == Perform(old(fm.State()), WriteFile(InfoPlistPath(sourcesPath), InfoPlist(config.name)))
  {
    var infoPlistPath := Join(sourcesPath, "Info.plist");
    var infoPlistContents := Unlines(InfoPlistLines(config.name));
    fm.Write(infoPlistPath, infoPlistContents);
  }

  method GenerateAppSwift(sourcesPath: string, config: ProjectConfiguration, fm: FileManager)
    modifies fm
    ensures fm.State() == Perform(old(fm.State()), WriteFile(AppSwiftPath(sourcesPath), AppSwift(config.name)))
  {
    var appSwiftPath := Join(sourcesPath, "App.swift");
    var appSwiftContents := Unlines(AppSwiftLines(config.name));
    fm.Write(appSwiftPath, appSwiftContents);
  }

  method GenerateContentView(sourcesPath: string, fm: FileManager)
    modifies fm
    ensures fm.State() == Perform(old(fm.State()), WriteFile(ContentViewPath(sourcesPath), ContentView()))
  {
    var contentViewPath := Join(sourcesPath, "ContentView.swift");
    fm.Write(contentViewPath, ContentView());
  }

  /** Without `sourcesPath` the stage fails with `missingSourcesDirectory`. Otherwise it
      writes `Info.plist`, `App.swift` and `ContentView.swift` into the sources
      directory, creates no directory and leaves the context as it was; the content
      view is the same whatever the configuration. */
  lemma WritesSourceFiles(ctx: GenerationContext, s: FsState)
    ensures ctx.sourcesPath.None? <==> Plan(ctx) == Err(MissingSourcesDirectory)
    ensures ctx.sourcesPath.Some? ==>
              var src := ctx.sourcesPath.value;
              var name := ctx.configuration.name;
              var e := Plan(ctx).value;
              var after := Apply(s, e.ops);
              var info := Join(src, "Info.plist");
              var app := Join(src, "App.swift");
              var view := Join(src, "ContentView.swift");
              && Plan(ctx).Ok?
              && e.context == ctx
              && after.dirs == s.dirs
              && after.files == s.files[info := InfoPlist(name)][app := AppSwift(name)][view := ContentView()]
  {
    if ctx.sourcesPath.Some? {
      var src := ctx.sourcesPath.value;
      var name := ctx.configuration.name;
      ApplyThreeWrites(s, InfoPlistPath(src), InfoPlist(name), AppSwiftPath(src), AppSwift(name),
                       ContentViewPath(src), ContentView());
    }
  }

  /** The files after the stage, for a context with `sourcesPath`. */
  lemma SourceFilesWritten(ctx: GenerationContext, s: FsState)
    requires ctx.sourcesPath.Some?
    ensures var src := ctx.sourcesPath.value;
            var name := ctx.configuration.name;
            && Plan(ctx).Ok? && Plan(ctx).value.context == ctx
            && Apply(s, Plan(ctx).value.ops).files
               == s.files[InfoPlistPath(src) := InfoPlist(name)][AppSwiftPath(src) := AppSwift(name)]
                         [ContentViewPath(src) := ContentView()]
  {
    var src := ctx.sourcesPath.value;
    var name := ctx.configuration.name;
    ApplyThreeWrites(s, InfoPlistPath(src), InfoPlist(name), AppSwiftPath(src), AppSwift(name),
                     ContentViewPath(src), ContentView());
  }

  /** The three files are distinct files of the sources directory. */
  lemma SourceFilePaths(src: string)
    ensures var info := InfoPlistPath(src);
            var app := AppSwiftPath(src);
            var view := ContentViewPath(src);
            && info != app && app != view && info != view
            && Parent(info) == src && Parent(app) == src && Parent(view) == src
  {
    JoinDiffers(src, "Info.plist", src, "App.swift");
    JoinDiffers(src, "App.swift", src, "ContentView.swift");
    JoinDiffers(src, "Info.plist", src, "ContentView.swift");
    ParentOfJoin(src, "Info.plist");
    ParentOfJoin(src, "App.swift");
    ParentOfJoin(src, "ContentView.swift");
  }

  /** `Info.plist` gives the project name as the bundle name: the `CFBundleName` key is
      followed on the next line by the name. */
  lemma InfoPlistBundleName(appName: string)
    ensures HasLine(InfoPlist(appName),
                    "    <key>CFBundleName</key>" + "\n" + ("    <string>" + appName + "</string>"))
  {
    var lines := InfoPlistLines(appName);
    assert |InfoPlistHead| == 13;
    assert InfoPlistHead[12] == "    <key>CFBundleName</key>";
    assert lines[12..14] == ["    <key>CFBundleName</key>", "    <string>" + appName + "</string>"];
    UnlinesHasRun(lines, 12, 14);
    UnlinesPair("    <key>CFBundleName</key>", "    <string>" + appName + "</string>");
  }

  /** `App.swift` declares `<name>App` as the application entry point (`@main` on the
      line before it), and its window shows the `ContentView` that `ContentView.swift`
      declares. */
  lemma AppSwiftEntryPoint(appName: string)
    ensures HasLine(AppSwift(appName), "@main" + "\n" + ("struct " + appName + "App: App {"))
    ensures HasLine(AppSwift(appName), "            ContentView()")
    ensures HasLine(ContentView(), "struct ContentView: View {")
  {
    var lines := AppSwiftLines(appName);
    assert HasLine(AppSwift(appName), "@main" + "\n" + ("struct " + appName + "App: App {")) by {
      UnlinesHasRun(lines, 2, 4);
      assert lines[2..4] == ["@main", "struct " + appName + "App: App {"];
      UnlinesPair("@main", "struct " + appName + "App: App {");
    }
    assert HasLine(AppSwift(appName), "            ContentView()") by {
      UnlinesHasLine(lines, 6);
    }
    UnlinesHasLine(ContentViewLines, 2);
  }
}
