/** `PackageGenerator`: lays out the local Swift package under `packagesPath`: the
    `Sources` and `Tests` directories, one source module per configured module (and a
    test module for those that ask for tests), then `Package.swift` listing them all.
    Needs `packagesPath`. */
module PackageGenerator {
  import opened Wrappers
  import opened Strings
  import opened Paths
  import opened FileSystem
  import opened Models
  import opened Generation

  /** Products and targets in `Package.swift` are joined by a comma, a line feed and
      sixteen spaces. */
  const Separator: string := ",\n                "

  /** `name.replacing("Feature", with: "")`: the module's view is named after it, less
      every occurrence of `Feature`. */
  function ViewNamePrefix(moduleName: string): string
  {
    RemoveAll(moduleName, "Feature")
  }

  /** `version.replacingOccurrences(of: ".0", with: "")`: the iOS version as written
      in `.iOS(.v…)`. */
  function PlatformVersion(deploymentTarget: string): string
  {
    RemoveAll(deploymentTarget, ".0")
  }

  // ---------------------------------------------------------------------------
  // Layout
  // ---------------------------------------------------------------------------

  function SourcesDir(packagesPath: string): string { Join(packagesPath, "Sources") }
  function TestsDir(packagesPath: string): string { Join(packagesPath, "Tests") }
  function PackageSwiftPath(packagesPath: string): string { Join(packagesPath, "Package.swift") }

  function ModuleDir(packagesPath: string, m: Module): string
  {
    Join(SourcesDir(packagesPath), m.name)
  }

  function ModuleFile(packagesPath: string, m: Module): string
  {
    Join(ModuleDir(packagesPath, m), ViewNamePrefix(m.name) + "View.swift")
  }

  function TestDir(packagesPath: string, m: Module): string
  {
    Join(TestsDir(packagesPath), m.name + "Tests")
  }

  function TestFile(packagesPath: string, m: Module): string
  {
    Join(TestDir(packagesPath, m), m.name + "Tests.swift")
  }

  // ---------------------------------------------------------------------------
  // File contents
  // ---------------------------------------------------------------------------

  function ModuleSourceLines(viewNamePrefix: string): seq<string>
  {
    [ "import SwiftUI",
      "",
      "public struct " + viewNamePrefix + "View: View {",
      "    public init() { }",
      "    ",
      "    public var body: some View {",
      "        Text(\"Hello, World!\")",
      "    }",
      "}" ]
  }

  function ModuleSource(viewNamePrefix: string): string
  {
    Unlines(ModuleSourceLines(viewNamePrefix))
  }

  function TestSourceLines(moduleName: string): seq<string>
  {
    [ "import Testing",
      "@testable import " + moduleName,
      "",
      "@Suite(\"" + moduleName + " tests\")",
      "struct " + moduleName + "Tests {",
      "    @Test(\"Example\")",
      "    func example() async throws {",
      "        #expect(true)",
      "    }",
      "}" ]
  }

  function TestSource(moduleName: string): string
  {
    Unlines(TestSourceLines(moduleName))
  }

  function ProductEntry(m: Module): string
  {
    ".singleTargetLibrary(\"" + m.name + "\")"
  }

  function TargetEntry(m: Module): string
  {
    ".target(name: \"" + m.name + "\")"
  }

  function TestTargetEntry(m: Module): string
  {
    Unlines([ ".testTarget(",
              "    name: \"" + m.name + "Tests\",",
              "    dependencies: [\"" + m.name + "\"]",
              ")" ])
  }

  function ProductEntries(ms: seq<Module>): seq<string>
  {
    seq(|ms|, i requires 0 <= i < |ms| => ProductEntry(ms[i]))
  }

  function TargetEntries(ms: seq<Module>): seq<string>
  {
    seq(|ms|, i requires 0 <= i < |ms| => TargetEntry(ms[i]))
  }

  function TestTargetEntries(ms: seq<Module>): seq<string>
  {
    seq(|ms|, i requires 0 <= i < |ms| => TestTargetEntry(ms[i]))
  }

  /** Package.swift for the default configuration, as written, declares the root
      target twice. */
  lemma DefaultDeclaresRootTargetTwice(desktop: Option<string>, home: string)
    ensures var entries := TargetEntries(DefaultConfiguration(desktop, home).modules);
            |entries| == 2 && entries[0] == entries[1] == TargetEntry(AppFeature)
  {
  }

  /** `modules.filter { $0.includeTests }`. */
  function TestModules(ms: seq<Module>): seq<Module>
    decreases |ms|
  {
    if ms == [] then []
    else (if ms[0].includeTests then [ms[0]] else []) + TestModules(ms[1..])
  }

  /** `filter { !$0.isEmpty }`. */
  function NonEmptyParts(parts: seq<string>): seq<string>
    decreases |parts|
  {
    if parts == [] then []
    else (if parts[0] != "" then [parts[0]] else []) + NonEmptyParts(parts[1..])
  }

  function Products(ms: seq<Module>): string
  {
    JoinWith(ProductEntries(ms), Separator)
  }

  function RegularTargets(ms: seq<Module>): string
  {
    JoinWith(TargetEntries(ms), Separator)
  }

  function TestTargets(ms: seq<Module>): string
  {
    JoinWith(TestTargetEntries(TestModules(ms)), Separator)
  }

  function AllTargets(ms: seq<Module>): string
  {
    JoinWith(NonEmptyParts([RegularTargets(ms), TestTargets(ms)]), Separator)
  }

  /** The manifest up to the package name. */
  const PackageSwiftHead: seq<string> :=
    [ "// swift-tools-version: 6.1",
      "",
      "import PackageDescription",
      "",
      "let package = Package(",
      "    name: \"Main\"," ]

  /** The platform, the products and the targets of the configuration. */
  function PackageSwiftBody(config: ProjectConfiguration): seq<string>
  {
    [ "    platforms: [.iOS(.v" + PlatformVersion(config.deploymentTarget) + ")],",
      "    products: [",
      "        " + Products(config.modules),
      "    ],",
      "    targets: [",
      "        " + AllTargets(config.modules),
      "    ]" ]
  }

  /** The end of the `Package(...)` call and the `singleTargetLibrary` helper. */
  const PackageSwiftTail: seq<string> :=
    [ ")",
      "",
      "extension Product {",
      "    static func singleTargetLibrary(_ name: String) -> Product {",
      "        .library(name: name, targets: [name])",
      "    }",
      "}" ]

  function PackageSwiftLines(config: ProjectConfiguration): seq<string>
  {
    PackageSwiftHead + PackageSwiftBody(config) + PackageSwiftTail
  }

  function PackageSwift(config: ProjectConfiguration): string
  {
    Unlines(PackageSwiftLines(config))
  }

  // ---------------------------------------------------------------------------
  // The stage
  // ---------------------------------------------------------------------------

  /** `generateModule`: the module directory and its view; then, when the module asks
      for tests, the test directory and its test file. */
  function ModuleOps(packagesPath: string, m: Module): seq<FsOp>
  {
    [MakeDir(ModuleDir(packagesPath, m)),
     WriteFile(ModuleFile(packagesPath, m), ModuleSource(ViewNamePrefix(m.name)))]
    + (if m.includeTests
       then [MakeDir(TestDir(packagesPath, m)), WriteFile(TestFile(packagesPath, m), TestSource(m.name))]
       else [])
  }

  /** The modules generated one after the other, in configuration order. */
  function ModulesOps(packagesPath: string, ms: seq<Module>): seq<FsOp>
    decreases |ms|
  {
    if ms == [] then []
    else ModulesOps(packagesPath, ms[..|ms| - 1]) + ModuleOps(packagesPath, ms[|ms| - 1])
  }

  function Ops(packagesPath: string, config: ProjectConfiguration): seq<FsOp>
  {
    [MakeDir(SourcesDir(packagesPath)), MakeDir(TestsDir(packagesPath))]
    + ModulesOps(packagesPath, config.modules)
    + [WriteFile(PackageSwiftPath(packagesPath), PackageSwift(config))]
  }

  function Plan(ctx: GenerationContext): Result<Effect, GenerationError>
  {
    match ctx.packagesPath
    case None => Err(MissingPackagesDirectory)
    case Some(packagesPath) => Ok(Effect(Ops(packagesPath, ctx.configuration), ctx))
  }

  method Generate(ctx: GenerationContext, fm: FileManager) returns (r: Result<GenerationContext, GenerationError>)
    modifies fm
    ensures Performed(Plan(ctx), old(fm.State()), r, fm.State())
  {
    if ctx.packagesPath.None? {
      return Err(MissingPackagesDirectory);
    }
    ghost var before := fm.State();
    var packagesPath := ctx.packagesPath.value;
    var pkgSourcesPath := Join(packagesPath, "Sources");
    var pkgTestsPath := Join(packagesPath, "Tests");
    fm.CreateDirectory(pkgSourcesPath);
    fm.CreateDirectory(pkgTestsPath);
    ghost var start := [MakeDir(pkgSourcesPath), MakeDir(pkgTestsPath)];
    ghost var afterDirs := fm.State();
    ApplyTwoDirs(before, pkgSourcesPath, pkgTestsPath);

    var modules := ctx.configuration.modules;
    for i := 0 to |modules|
      invariant fm.State() == Apply(afterDirs, ModulesOps(packagesPath, modules[..i]))
    {
      GenerateModule(modules[i], packagesPath, fm);
      ModulesOpsStep(packagesPath, modules, i);
      ApplyAppend(afterDirs, ModulesOps(packagesPath, modules[..i]), ModuleOps(packagesPath, modules[i]));
    }
    assert modules[..|modules|] == modules;
    ghost var afterModules := fm.State();

    GeneratePackageSwift(packagesPath, ctx.configuration, fm);
    ghost var write := [WriteFile(PackageSwiftPath(packagesPath), PackageSwift(ctx.configuration))];
    assert fm.State() == Apply(afterModules, write);
    ApplyAppend(before, start, ModulesOps(packagesPath, modules));
    ApplyAppend(before, start + ModulesOps(packagesPath, modules), write);
    r := Ok(ctx);
  }

  lemma ModulesOpsStep(packagesPath: string, ms: seq<Module>, i: nat)
    requires i < |ms|
    ensures ModulesOps(packagesPath, ms[..i + 1]) == ModulesOps(packagesPath, ms[..i]) + ModuleOps(packagesPath, ms[i])
  {
    assert ms[..i + 1][..i] == ms[..i];
  }

  method GenerateModule(m: Module, packagesPath: string, fm: FileManager)
    modifies fm
    ensures fm.State() == Apply(old(fm.State()), ModuleOps(packagesPath, m))
  {
    ghost var before := fm.State();
    var pkgSourcesPath := Join(packagesPath, "Sources");
    var modulePath := Join(pkgSourcesPath, m.name);
    fm.CreateDirectory(modulePath);
    var viewNamePrefix := RemoveAll(m.name, "Feature");
    var moduleFilePath := Join(modulePath, viewNamePrefix + "View.swift");
    var moduleContents := Unlines(ModuleSourceLines(viewNamePrefix));
    fm.Write(moduleFilePath, moduleContents);
    ghost var done := [MakeDir(modulePath), WriteFile(moduleFilePath, moduleContents)];
    ApplySnoc(before, [], done[0]);
    ApplySnoc(before, [done[0]], done[1]);
    assert [done[0]] + [done[1]] == done;

    if m.includeTests {
      var pkgTestsPath := Join(packagesPath, "Tests");
      var testModulePath := Join(pkgTestsPath, m.name + "Tests");
      fm.CreateDirectory(testModulePath);
      var testFilePath := Join(testModulePath, m.name + "Tests.swift");
      var testContents := Unlines(TestSourceLines(m.name));
      fm.Write(testFilePath, testContents);
      ApplySnoc(before, done, MakeDir(testModulePath));
      ApplySnoc(before, done + [MakeDir(testModulePath)], WriteFile(testFilePath, testContents));
      assert done + [MakeDir(testModulePath)] + [WriteFile(testFilePath, testContents)]
          == ModuleOps(packagesPath, m);
    } else {
      assert done == ModuleOps(packagesPath, m);
    }
  }

  method GeneratePackageSwift(packagesPath: string, config: ProjectConfiguration, fm: FileManager)
    modifies fm
    ensures fm.State() == Perform(old(fm.State()), WriteFile(PackageSwiftPath(packagesPath), PackageSwift(config)))
  {
    var packageSwiftPath := Join(packagesPath, "Package.swift");
    var products := JoinWith(ProductEntries(config.modules), Separator);
    var regularTargets := JoinWith(TargetEntries(config.modules), Separator);
    var testTargets := JoinWith(TestTargetEntries(TestModules(config.modules)), Separator);
    var allTargets := JoinWith(NonEmptyParts([regularTargets, testTargets]), Separator);
    assert products == Products(config.modules) && allTargets == AllTargets(config.modules);
    var packageSwiftContents := Unlines(PackageSwiftLines(config));
    fm.Write(packageSwiftPath, packageSwiftContents);
  }

  // ---------------------------------------------------------------------------
  // What the stage does to the file system
  // ---------------------------------------------------------------------------

  /** The files one module gets, with their contents. */
  function ModuleFiles(packagesPath: string, m: Module): map<string, string>
  {
    if m.includeTests
    then map[ModuleFile(packagesPath, m) := ModuleSource(ViewNamePrefix(m.name)),
             TestFile(packagesPath, m) := TestSource(m.name)]
    else map[ModuleFile(packagesPath, m) := ModuleSource(ViewNamePrefix(m.name))]
  }

  /** The files of all modules; a later module's file replaces an earlier one's. */
  function ModulesFiles(packagesPath: string, ms: seq<Module>): map<string, string>
    decreases |ms|
  {
    if ms == [] then map[]
    else ModulesFiles(packagesPath, ms[..|ms| - 1]) + ModuleFiles(packagesPath, ms[|ms| - 1])
  }

  /** What `generateModule` creates and writes: the module directory and its view,
      and the test directory and its test file when asked for. */
  lemma ModuleEffect(packagesPath: string, m: Module)
    ensures Written(ModuleOps(packagesPath, m)) == ModuleFiles(packagesPath, m)
    ensures ModuleDir(packagesPath, m) in Created(ModuleOps(packagesPath, m))
    ensures m.includeTests ==> TestDir(packagesPath, m) in Created(ModuleOps(packagesPath, m))
  {
    var view := [MakeDir(ModuleDir(packagesPath, m)),
                 WriteFile(ModuleFile(packagesPath, m), ModuleSource(ViewNamePrefix(m.name)))];
    EffectOfDirAndFile(ModuleDir(packagesPath, m), ModuleFile(packagesPath, m), ModuleSource(ViewNamePrefix(m.name)));
    if m.includeTests {
      var tests := [MakeDir(TestDir(packagesPath, m)), WriteFile(TestFile(packagesPath, m), TestSource(m.name))];
      EffectOfDirAndFile(TestDir(packagesPath, m), TestFile(packagesPath, m), TestSource(m.name));
      WrittenAppend(view, tests);
      CreatedAppend(view, tests);
    } else {
      assert ModuleOps(packagesPath, m) == view;
    }
  }

  /** What the module loop creates and writes: every module directory, every requested
      test directory, and exactly the files of `ModulesFiles`. */
  lemma {:induction false} ModulesEffect(packagesPath: string, ms: seq<Module>)
    ensures Written(ModulesOps(packagesPath, ms)) == ModulesFiles(packagesPath, ms)
    ensures forall m | m in ms :: ModuleDir(packagesPath, m) in Created(ModulesOps(packagesPath, ms))
    ensures forall m | m in ms && m.includeTests :: TestDir(packagesPath, m) in Created(ModulesOps(packagesPath, ms))
    decreases |ms|
  {
    if ms != [] {
      var init := ms[..|ms| - 1];
      var last := ms[|ms| - 1];
      assert ms == init + [last];
      ModulesEffect(packagesPath, init);
      WrittenAppend(ModulesOps(packagesPath, init), ModuleOps(packagesPath, last));
      CreatedAppend(ModulesOps(packagesPath, init), ModuleOps(packagesPath, last));
      ModuleEffect(packagesPath, last);
    }
  }

  /** The source file of every module, and the test file of every module that asks
      for tests. */
  function GeneratedFiles(packagesPath: string, ms: seq<Module>): set<string>
  {
    (set m | m in ms :: ModuleFile(packagesPath, m))
    + (set m | m in ms && m.includeTests :: TestFile(packagesPath, m))
  }

  /** The modules write exactly their view files and the test files of the modules
      that ask for tests. */
  lemma {:induction false} ModulesFilesKeys(packagesPath: string, ms: seq<Module>)
    ensures ModulesFiles(packagesPath, ms).Keys == GeneratedFiles(packagesPath, ms)
    decreases |ms|
  {
    if ms != [] {
      var init := ms[..|ms| - 1];
      var last := ms[|ms| - 1];
      ModulesFilesKeys(packagesPath, init);
      assert ms == init + [last];
      GeneratedFilesSnoc(packagesPath, init, last);
    }
  }

  lemma GeneratedFilesSnoc(packagesPath: string, init: seq<Module>, last: Module)
    ensures GeneratedFiles(packagesPath, init + [last])
            == GeneratedFiles(packagesPath, init) + ModuleFiles(packagesPath, last).Keys
  {
    var ms := init + [last];
    forall f | f in GeneratedFiles(packagesPath, ms)
      ensures f in GeneratedFiles(packagesPath, init) + ModuleFiles(packagesPath, last).Keys
    {
      var m :| m in ms && (f == ModuleFile(packagesPath, m) || (m.includeTests && f == TestFile(packagesPath, m)));
      if m != last {
        assert m in init;
      }
    }
  }

  /** A module's view file never coincides with a test file. */
  lemma ModuleFileIsNotTestFile(packagesPath: string, m: Module, n: Module)
    ensures ModuleFile(packagesPath, m) != TestFile(packagesPath, n)
  {
    var a := ModuleFile(packagesPath, m);
    var b := TestFile(packagesPath, n);
    // the two paths share `packagesPath + "/"` and then differ: `S` against `T`
    var k := |packagesPath| + 1;
    assert a[k] == 'S';
    assert b[k] == 'T';
  }

  /** Every module file holds its view and every requested test file its test
      template, provided module names hold no slash (two modules of the same name
      write the same file with the same contents). */
  lemma {:induction false} ModulesFilesContents(packagesPath: string, ms: seq<Module>)
    requires forall m | m in ms :: SlashFree(m.name)
    ensures forall m | m in ms ::
              && ModuleFile(packagesPath, m) in ModulesFiles(packagesPath, ms)
              && ModulesFiles(packagesPath, ms)[ModuleFile(packagesPath, m)] == ModuleSource(ViewNamePrefix(m.name))
    ensures forall m | m in ms && m.includeTests ::
              && TestFile(packagesPath, m) in ModulesFiles(packagesPath, ms)
              && ModulesFiles(packagesPath, ms)[TestFile(packagesPath, m)] == TestSource(m.name)
    decreases |ms|
  {
    if ms != [] {
      var init := ms[..|ms| - 1];
      var last := ms[|ms| - 1];
      assert ms == init + [last];
      ModulesFilesContents(packagesPath, init);
      var w := ModulesFiles(packagesPath, ms);
      var lastFiles := ModuleFiles(packagesPath, last);
      forall m | m in ms
        ensures ModuleFile(packagesPath, m) in w
        ensures w[ModuleFile(packagesPath, m)] == ModuleSource(ViewNamePrefix(m.name))
      {
        if ModuleFile(packagesPath, m) in lastFiles {
          ModuleFileIsNotTestFile(packagesPath, m, last);
          ModuleFileDeterminesName(packagesPath, m, last);
        } else {
          assert m in init;
        }
      }
      forall m | m in ms && m.includeTests
        ensures TestFile(packagesPath, m) in w
        ensures w[TestFile(packagesPath, m)] == TestSource(m.name)
      {
        if TestFile(packagesPath, m) in lastFiles {
          ModuleFileIsNotTestFile(packagesPath, last, m);
          TestFileDeterminesName(packagesPath, m, last);
        } else {
          assert m in init;
        }
      }
    }
  }

  lemma ModuleFileDeterminesName(packagesPath: string, m: Module, n: Module)
    requires SlashFree(m.name) && SlashFree(n.name)
    requires ModuleFile(packagesPath, m) == ModuleFile(packagesPath, n)
    ensures m.name == n.name
  {
    ViewFileNameSlashFree(m.name);
    ViewFileNameSlashFree(n.name);
    JoinInjective(ModuleDir(packagesPath, m), ViewNamePrefix(m.name) + "View.swift",
                  ModuleDir(packagesPath, n), ViewNamePrefix(n.name) + "View.swift");
    JoinInjective(SourcesDir(packagesPath), m.name, SourcesDir(packagesPath), n.name);
  }

  lemma TestFileDeterminesName(packagesPath: string, m: Module, n: Module)
    requires SlashFree(m.name) && SlashFree(n.name)
    requires TestFile(packagesPath, m) == TestFile(packagesPath, n)
    ensures m.name == n.name
  {
    JoinInjective(TestDir(packagesPath, m), m.name + "Tests.swift",
                  TestDir(packagesPath, n), n.name + "Tests.swift");
    SameSuffixCancels(m.name, n.name, "Tests.swift");
  }

  lemma ViewFileNameSlashFree(moduleName: string)
    requires SlashFree(moduleName)
    ensures SlashFree(ViewNamePrefix(moduleName) + "View.swift")
  {
    RemoveAllKeepsOut(moduleName, "Feature", '/');
  }

  /** With distinct, slash-free module names, a test file is written for a module
      exactly when that module asks for tests. */
  lemma TestFileIffIncludeTests(packagesPath: string, ms: seq<Module>, k: nat)
    requires k < |ms|
    requires forall m | m in ms :: SlashFree(m.name)
    requires forall i, j | 0 <= i < j < |ms| :: ms[i].name != ms[j].name
    ensures TestFile(packagesPath, ms[k]) in ModulesFiles(packagesPath, ms) <==> ms[k].includeTests
  {
    var tf := TestFile(packagesPath, ms[k]);
    assert tf in ModulesFiles(packagesPath, ms) <==> tf in GeneratedFiles(packagesPath, ms) by {
      ModulesFilesKeys(packagesPath, ms);
    }
    if ms[k].includeTests {
      assert ms[k] in ms;
    } else {
      TestFileOnlyIfIncludeTests(packagesPath, ms, k);
    }
  }

  /** The hard half: a test file names its module, and only testing modules have one. */
  lemma TestFileOnlyIfIncludeTests(packagesPath: string, ms: seq<Module>, k: nat)
    requires k < |ms|
    requires forall m | m in ms :: SlashFree(m.name)
    requires forall i, j | 0 <= i < j < |ms| :: ms[i].name != ms[j].name
    ensures TestFile(packagesPath, ms[k]) in GeneratedFiles(packagesPath, ms) ==> ms[k].includeTests
  {
    var tf := TestFile(packagesPath, ms[k]);
    if tf in GeneratedFiles(packagesPath, ms) {
      var m :| m in ms && (ModuleFile(packagesPath, m) == tf || (m.includeTests && TestFile(packagesPath, m) == tf));
      ModuleFileIsNotTestFile(packagesPath, m, ms[k]);
      TestFileDeterminesName(packagesPath, m, ms[k]);
      var j :| 0 <= j < |ms| && ms[j] == m;
      assert !(j < k) && !(k < j);
    }
  }

  /** `Package.swift` is no module's file: it lies directly in the packages
      directory, while module files lie under `Sources` and `Tests`. */
  lemma ManifestIsNoModuleFile(packagesPath: string, ms: seq<Module>)
    ensures PackageSwiftPath(packagesPath) !in ModulesFiles(packagesPath, ms)
  {
    ModulesFilesKeys(packagesPath, ms);
    var p := PackageSwiftPath(packagesPath);
    var k := |packagesPath| + 1;
    assert p[k] == 'P';
    forall m | m in ms
      ensures ModuleFile(packagesPath, m) != p && TestFile(packagesPath, m) != p
    {
      assert ModuleFile(packagesPath, m)[k] == 'S';
      assert TestFile(packagesPath, m)[k] == 'T';
    }
  }

  /** What the whole stage creates and writes. */
  lemma OpsEffect(packagesPath: string, config: ProjectConfiguration)
    ensures var created := Created(Ops(packagesPath, config));
            && SourcesDir(packagesPath) in created && TestsDir(packagesPath) in created
            && (forall m | m in config.modules :: ModuleDir(packagesPath, m) in created)
            && (forall m | m in config.modules && m.includeTests :: TestDir(packagesPath, m) in created)
    ensures Written(Ops(packagesPath, config))
            == ModulesFiles(packagesPath, config.modules)[PackageSwiftPath(packagesPath) := PackageSwift(config)]
  {
    var mods := ModulesOps(packagesPath, config.modules);
    EffectThenWrite([MakeDir(SourcesDir(packagesPath)), MakeDir(TestsDir(packagesPath))] + mods,
                    PackageSwiftPath(packagesPath), PackageSwift(config));
    DirsThenEffect(SourcesDir(packagesPath), TestsDir(packagesPath), mods);
    ModulesEffect(packagesPath, config.modules);
  }

  /** The files after the stage: the module files over what was there, then
      `Package.swift`. */
  lemma PackageFilesEffect(ctx: GenerationContext, s: FsState)
    requires ctx.packagesPath.Some?
    ensures var pk := ctx.packagesPath.value;
            && Plan(ctx).value.context == ctx
            && Apply(s, Plan(ctx).value.ops).files
               == (s.files + ModulesFiles(pk, ctx.configuration.modules))[PackageSwiftPath(pk) := PackageSwift(ctx.configuration)]
  {
    var pk := ctx.packagesPath.value;
    var ops := Ops(pk, ctx.configuration);
    assert Plan(ctx).value.ops == ops;
    ApplyEffect(s, ops);
    OpsEffect(pk, ctx.configuration);
    UnionThenUpdate(s.files, ModulesFiles(pk, ctx.configuration.modules), PackageSwiftPath(pk), PackageSwift(ctx.configuration));
  }

  /** The stage fails exactly when `packagesPath` is missing, and then changes
      nothing; otherwise it keeps the context, creates `Sources`, `Tests` and every
      module (and requested test) directory, and its files are those of the modules
      followed by `Package.swift`, which no module file overwrites. */
  lemma GeneratesPackage(ctx: GenerationContext, s: FsState)
    ensures Plan(ctx) == Err(MissingPackagesDirectory) <==> ctx.packagesPath.None?
    ensures ctx.packagesPath.Some? ==>
              var pk := ctx.packagesPath.value;
              var ms := ctx.configuration.modules;
              var after := Apply(s, Plan(ctx).value.ops);
              && Plan(ctx).value.context == ctx
              && SourcesDir(pk) in after.dirs && TestsDir(pk) in after.dirs
              && (forall m | m in ms :: ModuleDir(pk, m) in after.dirs)
              && (forall m | m in ms && m.includeTests :: TestDir(pk, m) in after.dirs)
              && after.files == (s.files + ModulesFiles(pk, ms))[PackageSwiftPath(pk) := PackageSwift(ctx.configuration)]
              && PackageSwiftPath(pk) !in ModulesFiles(pk, ms)
  {
    if ctx.packagesPath.Some? {
      var pk := ctx.packagesPath.value;
      var ms := ctx.configuration.modules;
      var ops := Ops(pk, ctx.configuration);
      assert Plan(ctx).value.ops == ops;
      ApplyEffect(s, ops);
      OpsEffect(pk, ctx.configuration);
      UnionThenUpdate(s.files, ModulesFiles(pk, ms), PackageSwiftPath(pk), PackageSwift(ctx.configuration));
      ManifestIsNoModuleFile(pk, ms);
    }
  }

  /** A module writes its view into the directory it has just created, and its test
      file likewise, whatever state it starts from. */
  lemma ModuleWritesLand(packagesPath: string, m: Module, s: FsState)
    requires SlashFree(m.name)
    ensures WritesIntoExistingDirs(s, ModuleOps(packagesPath, m))
  {
    ViewFileNameSlashFree(m.name);
    ParentOfJoin(ModuleDir(packagesPath, m), ViewNamePrefix(m.name) + "View.swift");
    var view := [MakeDir(ModuleDir(packagesPath, m)),
                 WriteFile(ModuleFile(packagesPath, m), ModuleSource(ViewNamePrefix(m.name)))];
    assert WritesIntoExistingDirs(s, view) by {
      assert view[1..][1..] == [];
      assert WritesIntoExistingDirs(Perform(s, view[0]), view[1..]);
    }
    if m.includeTests {
      var tests := [MakeDir(TestDir(packagesPath, m)), WriteFile(TestFile(packagesPath, m), TestSource(m.name))];
      ParentOfJoin(TestDir(packagesPath, m), m.name + "Tests.swift");
      var s' := Apply(s, view);
      assert WritesIntoExistingDirs(s', tests) by {
        assert tests[1..][1..] == [];
        assert WritesIntoExistingDirs(Perform(s', tests[0]), tests[1..]);
      }
      WritesIntoExistingDirsAppend(s, view, tests);
    } else {
      assert ModuleOps(packagesPath, m) == view;
    }
  }

  lemma {:induction false} ModulesWritesLand(packagesPath: string, ms: seq<Module>, s: FsState)
    requires forall m | m in ms :: SlashFree(m.name)
    ensures WritesIntoExistingDirs(s, ModulesOps(packagesPath, ms))
    decreases |ms|
  {
    if ms != [] {
      var init := ms[..|ms| - 1];
      var last := ms[|ms| - 1];
      assert last in ms;
      assert forall m | m in init :: m in ms;
      ModulesWritesLand(packagesPath, init, s);
      ModuleWritesLand(packagesPath, last, Apply(s, ModulesOps(packagesPath, init)));
      WritesIntoExistingDirsAppend(s, ModulesOps(packagesPath, init), ModuleOps(packagesPath, last));
    } else {
      assert ModulesOps(packagesPath, ms) == [];
    }
  }

  /** With slash-free module names and a non-empty packages path, every file the
      stage writes goes into a directory that exists by then: `Package.swift` into
      the packages directory, which creating `Sources` has created. */
  lemma PackageWritesLand(ctx: GenerationContext, s: FsState)
    requires ctx.packagesPath.Some? && ctx.packagesPath.value != ""
    requires forall m | m in ctx.configuration.modules :: SlashFree(m.name)
    ensures WritesIntoExistingDirs(s, Plan(ctx).value.ops)
  {
    var pk := ctx.packagesPath.value;
    var config := ctx.configuration;
    var src := SourcesDir(pk);
    var tests := TestsDir(pk);
    assert Parent(PackageSwiftPath(pk)) in {src} + Ancestors(src) + {tests} + Ancestors(tests) by {
      AncestorsOfJoin(pk, "Sources");
      ParentOfJoin(pk, "Package.swift");
    }
    ModulesWritesLand(pk, config.modules, Apply(s, [MakeDir(src), MakeDir(tests)]));
    WritesLandAroundDirs(s, src, tests, ModulesOps(pk, config.modules), PackageSwiftPath(pk), PackageSwift(config));
  }

  // ---------------------------------------------------------------------------
  // Package.swift
  // ---------------------------------------------------------------------------

  /** The test modules are the modules that ask for tests, in configuration order. */
  lemma {:induction false} TestModulesFilter(ms: seq<Module>)
    ensures forall m :: m in TestModules(ms) <==> m in ms && m.includeTests
    ensures |TestModules(ms)| <= |ms|
    decreases |ms|
  {
    if ms != [] {
      TestModulesFilter(ms[1..]);
      assert ms == [ms[0]] + ms[1..];
    }
  }

  lemma {:induction false} TestModulesAppend(a: seq<Module>, b: seq<Module>)
    ensures TestModules(a + b) == TestModules(a) + TestModules(b)
    decreases |a|
  {
    if a == [] {
      assert a + b == b;
    } else {
      assert (a + b)[0] == a[0] && (a + b)[1..] == a[1..] + b;
      TestModulesAppend(a[1..], b);
    }
  }

  /** The `targets:` list holds one regular target per module, in order, followed by
      one test target per module that asks for tests, in order: filtering out an empty
      test-target list never leaves a stray separator. */
  lemma AllTargetsLists(ms: seq<Module>)
    ensures AllTargets(ms) == JoinWith(TargetEntries(ms) + TestTargetEntries(TestModules(ms)), Separator)
  {
    var regular := TargetEntries(ms);
    var tests := TestTargetEntries(TestModules(ms));
    var parts := [RegularTargets(ms), TestTargets(ms)];
    NonEmptyPair(RegularTargets(ms), TestTargets(ms));
    if ms == [] {
      assert TestModules(ms) == [];
      assert regular + tests == [];
    } else {
      assert regular[0] == TargetEntry(ms[0]);
      JoinWithNonEmpty(regular, Separator);
      if TestModules(ms) == [] {
        assert regular + tests == regular;
      } else {
        var first := TestModules(ms)[0];
        assert tests[0] == TestTargetEntry(first);
        TestTargetEntryNonEmpty(first);
        JoinWithNonEmpty(tests, Separator);
        JoinWithAppend(regular, tests, Separator);
        assert JoinWith(parts, Separator) == RegularTargets(ms) + Separator + TestTargets(ms);
      }
    }
  }

  lemma TestTargetEntryNonEmpty(m: Module)
    ensures TestTargetEntry(m) != ""
  {
    JoinWithNonEmpty([ ".testTarget(",
                       "    name: \"" + m.name + "Tests\",",
                       "    dependencies: [\"" + m.name + "\"]",
                       ")" ], "\n");
  }

  lemma NonEmptyPair(a: string, b: string)
    ensures NonEmptyParts([a, b]) == (if a != "" then [a] else []) + (if b != "" then [b] else [])
  {
    assert [a, b][1..] == [b];
    assert [b][1..] == [];
    assert NonEmptyParts([b]) == (if b != "" then [b] else []) + NonEmptyParts([]);
    assert NonEmptyParts([a, b]) == (if a != "" then [a] else []) + NonEmptyParts([b]);
  }

  /** `Package.swift` names the iOS platform version the deployment target asks for. */
  lemma PackageSwiftPlatform(config: ProjectConfiguration)
    ensures HasLine(PackageSwift(config), "    platforms: [.iOS(.v" + PlatformVersion(config.deploymentTarget) + ")],")
  {
    UnlinesHasMiddleLine(PackageSwiftHead, PackageSwiftBody(config), PackageSwiftTail, 0);
  }

  /** `Package.swift` lists the products, and then the targets, each list on a line of
      its own. */
  lemma PackageSwiftLists(config: ProjectConfiguration)
    ensures HasLine(PackageSwift(config), "        " + Products(config.modules))
    ensures HasLine(PackageSwift(config), "        " + AllTargets(config.modules))
  {
    var body := PackageSwiftBody(config);
    assert HasLine(PackageSwift(config), "        " + Products(config.modules)) by {
      UnlinesHasMiddleLine(PackageSwiftHead, body, PackageSwiftTail, 2);
    }
    assert HasLine(PackageSwift(config), "        " + AllTargets(config.modules)) by {
      UnlinesHasMiddleLine(PackageSwiftHead, body, PackageSwiftTail, 5);
    }
  }

  /** The view file of a module declares the public view it is named after, and its
      public initializer is followed by a line of four spaces: the literal strips only
      the indentation of its closing delimiter. */
  lemma ModuleSourceDeclaresView(viewNamePrefix: string)
    ensures HasLine(ModuleSource(viewNamePrefix), "public struct " + viewNamePrefix + "View: View {")
    ensures HasLine(ModuleSource(viewNamePrefix), "    public init() { }" + "\n" + "    ")
  {
    var lines := ModuleSourceLines(viewNamePrefix);
    assert HasLine(ModuleSource(viewNamePrefix), lines[2]) by {
      UnlinesHasLine(lines, 2);
    }
    assert HasLine(ModuleSource(viewNamePrefix), lines[3] + "\n" + lines[4]) by {
      UnlinesHasRun(lines, 3, 5);
      assert lines[3..5] == [lines[3], lines[4]];
      UnlinesPair(lines[3], lines[4]);
    }
  }

  /** The test file imports the module under test and declares `<name>Tests`. */
  lemma TestSourceTestsModule(moduleName: string)
    ensures HasLine(TestSource(moduleName), "@testable import " + moduleName)
    ensures HasLine(TestSource(moduleName), "struct " + moduleName + "Tests {")
  {
    var lines := TestSourceLines(moduleName);
    assert HasLine(TestSource(moduleName), "@testable import " + moduleName) by {
      UnlinesHasLine(lines, 1);
    }
    assert HasLine(TestSource(moduleName), "struct " + moduleName + "Tests {") by {
      UnlinesHasLine(lines, 4);
    }
  }

  /** The test target of a module carries the name of the directory its test file is
      written to, and depends on the module. */
  lemma TestTargetMatchesTestDirectory(packagesPath: string, m: Module)
    ensures var testTarget := m.name + "Tests";
            && TestDir(packagesPath, m) == Join(TestsDir(packagesPath), testTarget)
            && HasLine(TestTargetEntry(m), "    name: \"" + testTarget + "\",")
            && HasLine(TestTargetEntry(m), "    dependencies: [\"" + m.name + "\"]")
  {
    var lines := [ ".testTarget(",
                   "    name: \"" + m.name + "Tests\",",
                   "    dependencies: [\"" + m.name + "\"]",
                   ")" ];
    UnlinesHasLine(lines, 1);
    UnlinesHasLine(lines, 2);
    assert "    name: \"" + m.name + "Tests\"," == "    name: \"" + (m.name + "Tests") + "\",";
  }

  lemma FeatureBorderFree()
    ensures BorderFree("Feature")
  {
    forall k | 0 < k < 7 ensures "Feature"[..k] != "Feature"[7 - k..] {
      assert "Feature"[..k][0] == 'F';
      assert "Feature"[7 - k..][0] != 'F';
    }
  }

  /** A module name without `Feature` names its view as it is; one ending in `Feature`
      names it without that suffix. */
  lemma ViewNamePrefixDropsFeature(base: string)
    requires !Contains(base, "Feature")
    ensures ViewNamePrefix(base) == base
    ensures ViewNamePrefix(base + "Feature") == base
  {
    RemoveAllAbsent(base, "Feature");
    FeatureBorderFree();
    RemoveAllSplit(base, "Feature", "");
    assert base + "Feature" + "" == base + "Feature";
  }

  /** The root module `AppFeature` gets the view `AppView`. */
  lemma RootModuleView()
    ensures ViewNamePrefix(AppFeature.name) == "App"
  {
    ContainsNeedsChar("App", "Feature", 'F');
    ViewNamePrefixDropsFeature("App");
    assert "App" + "Feature" == AppFeature.name;
  }

  /** A whole-number deployment target `N.0` becomes the platform version `N`, and a
      version without `.0` is kept as it is. */
  lemma PlatformVersionDropsDotZero(major: string)
    requires '.' !in major
    ensures PlatformVersion(major) == major
    ensures PlatformVersion(major + ".0") == major
  {
    ContainsNeedsChar(major, ".0", '.');
    RemoveAllAbsent(major, ".0");
    assert BorderFree(".0") by {
      assert ".0"[..1] != ".0"[1..];
    }
    RemoveAllSplit(major, ".0", "");
    assert major + ".0" + "" == major + ".0";
  }

  /** The default deployment target `15.0` is written `.iOS(.v15)`. */
  lemma DefaultPlatformVersion()
    ensures PlatformVersion("15.0") == "15"
  {
    PlatformVersionDropsDotZero("15");
    assert "15" + ".0" == "15.0";
  }
}
