# ProjectBuilder, modelled in Dafny

ProjectBuilder is a command-line tool that scaffolds a modular Xcode project. It
reads a project name, an optional path and options from the command line. Then it
runs a fixed pipeline of seven stages over a shared `GenerationContext`:

1. the project directory with `Apps` and `Packages`;
2. the app directory;
3. its `Sources` directory;
4. the `Main.xcworkspace` workspace;
5. `project.yml`;
6. `Info.plist`, `App.swift` and `ContentView.swift`;
7. the Swift package with one target per feature module and its `Package.swift`.

After the pipeline, it runs xcodegen in the app directory.

This project models that core:

- **Command line** (`ArgumentParser`). The index-driven scanner is a method with a
  loop. It is proved equal to a recursive specification, `Parse`. Round-trip lemmas
  relate `Parse` to an independent rendering of well-formed options (`Render`) and
  to their meaning (`ApplyAll`).
- **Configuration** (`Models`). `ProjectConfiguration.init` always puts the root
  module `AppFeature` first. `ProjectConfiguration.default` goes through the same
  initialiser.
- **File system** (`FileSystem`, `Paths`). The file system is a value: a set of
  directories and a map from file paths to contents. `createDirectory` adds the path
  and every ancestor, and creates only what is absent. `write(toFile:)` replaces the
  whole file. The `FileManager` class holds that state and changes it in place, one
  call at a time. `appendingPathComponent` is `dir + "/" + component`.
- **Stages** (`ProjectDirectoryCreator`, `AppDirectoryCreator`,
  `SourcesDirectoryCreator`, `WorkspaceGenerator`, `ProjectYMLGenerator`,
  `SourceFilesGenerator`, `PackageGenerator`). Each stage is:
  - a pure `Plan`: the error it throws, or the file-system changes it makes and the
    context it leaves;
  - an imperative `Generate` that drives the `FileManager` and is proved to perform
    exactly that plan.

  The file contents are pure functions of the configuration, with lemmas about what
  they say.
- **Pipeline** (`FileGenerator`). `generateFiles` is a loop over the stages, proved
  against the pure `Pipeline`. Lemmas tie the pipeline to two tables:
  - the path each stage guards on;
  - the paths each stage fills in.

  From these follow:
  - the default order never fails;
  - a reordered list fails with the right error;
  - the files the default order leaves behind.
- **Build** (`ProjectBuilder`). The files are generated first. xcodegen runs only if
  that succeeds, in the app directory. The runner is an abstract object that records
  where it was run.
- **Result builder** (`FileStructureBuilder`). The `File`/`Folder` tree, `MimeType`,
  and the builder combinators, with `buildArray` proved to concatenate in order.

## Model

| member | source | states |
|---|---|---|
| ArgumentParser.Parse | Sources/ArgumentParser.swift:12-21 | fails with `insufficientArguments` exactly when there are fewer than two arguments; the project name is always `arguments[1]`; with no further argument the result is the defaults (home directory, `com.example`, `15.0`, `16.3`, no modules) |
| ArgumentParser.ParseArguments | Sources/ArgumentParser.swift:4-77 | the index-driven loop over the arguments returns exactly what `Parse` specifies, error or tuple |
| ArgumentParser.Step | Sources/ArgumentParser.swift:24-66 | one iteration either throws or strictly advances the index without passing the end (so the loop terminates); it never reports too few arguments, keeps the project name and only appends modules |
| ArgumentParser.ScanPreserves | Sources/ArgumentParser.swift:24-67 | the whole scan never reports too few arguments, keeps the project name, and only appends modules |
| ArgumentParser.StepOneOption | Sources/ArgumentParser.swift:28-56 | a value option consumes two tokens and sets its value; `--module X --include-tests` consumes three and yields `Module(X, true)`, `--module X` without the flag consumes two and yields `Module(X, false)` |
| ArgumentParser.ParseRoundTrip | Sources/ArgumentParser.swift:23-76 | any list of well-formed options, written out after the project name, parses to the defaults with those options applied left to right |
| ArgumentParser.ParseWithPath | Sources/ArgumentParser.swift:58-62 | a non-option token at index 2 becomes the path, and the options after it still apply |
| ArgumentParser.ParseMissingValue | Sources/ArgumentParser.swift:28-53 | after well-formed options, with or without a path, a value flag left as the last argument fails with `missingValue` naming it (a value flag followed by another flag takes that flag as its value) |
| ArgumentParser.ParseUnknownArgument | Sources/ArgumentParser.swift:49-65 | a non-option token anywhere after index 2 (following well-formed options) fails with `unknownArgument` naming that token, whatever follows; this includes `--include-tests` unless it directly follows a module without tests |
| ArgumentParser.ApplyAllModules | Sources/ArgumentParser.swift:49-56 | options keep the project name and path and append their modules in command-line order |
| ArgumentParser.LastValueWins | Sources/ArgumentParser.swift:28-47 | a value option given several times keeps the value of its last occurrence |
| Models.MakeConfiguration | Sources/Models/ProjectConfiguration.swift:30-44 | name, path, bundle id prefix, deployment target and Xcode version are stored unchanged; the modules are `[AppFeature] + modules`, so the list is one longer and never empty, and its first module is `AppFeature` without tests |
| Models.DefaultConfiguration | Sources/Models/ProjectConfiguration.swift:18-28 | `default` has an empty name, the desktop directory (else the home directory) as path, `com.example`, `15.0`, `16.3`, and modules `[AppFeature, AppFeature]` |
| Models.DefaultConfigurationRepeatsRoot | Sources/Models/ProjectConfiguration.swift:18-28 | the module names of `default` are not distinct |
| Models.IntendedDefaultConfiguration | Sources/Models/ProjectConfiguration.swift:18-28 | `default` with the root module once: the same values otherwise, headed by `AppFeature`, with distinct module names |
| FileSystem.FileManager.CreateDirectory | Sources/Services/Generators/ProjectDirectoryCreator.swift:11 | `createDirectory(withIntermediateDirectories: true)` adds the path and all its ancestors and leaves the files alone |
| FileSystem.FileManager.Write | Sources/Services/Generators/WorkspaceGenerator.swift:22 | `write(toFile:)` replaces the whole file at that path and changes nothing else |
| FileSystem.ApplyEffect | Sources/Services/Generators/PackageGenerator.swift:14-25 | a run of changes adds exactly the directories it creates and leaves every file it writes with its last contents; nothing else changes |
| FileSystem.ApplyIdempotent | Sources/Services/Generators/ProjectDirectoryCreator.swift:11-18 | performing the same changes again changes nothing more |
| Paths.JoinInjective | Sources/Services/Generators/AppDirectoryCreator.swift:9-10 | joining a slash-free component can be undone: equal joins have equal directories and components |
| Paths.ParentOfJoin | Sources/Services/Generators/ProjectYMLGenerator.swift:10 | the directory of `dir/component` is `dir` |
| Paths.AncestorsOfJoin | Sources/Services/Generators/ProjectDirectoryCreator.swift:14-18 | the ancestors of `dir/component` are `dir` and the ancestors of `dir` |
| Strings.SplitUnlines | Sources/Services/Generators/ProjectYMLGenerator.swift:12-33 | a multi-line literal split at its line feeds gives back its lines |
| Strings.ToLowerProperties | Sources/Services/Generators/ProjectYMLGenerator.swift:22 | lower-casing keeps the length, leaves no upper-case letter and is idempotent |
| Strings.RemoveAllSplit | Sources/Services/Generators/PackageGenerator.swift:34 | `replacing` deletes the first occurrence wherever it stands and goes on after it |
| Strings.JoinWithAppend | Sources/Services/Generators/PackageGenerator.swift:95-97 | joining two non-empty groups puts exactly one separator between them |
| ProjectDirectoryCreator.Generate | Sources/Services/Generators/ProjectDirectoryCreator.swift:7-24 | the method performs the stage's plan on the file manager and returns its context |
| ProjectDirectoryCreator.CreatesProjectLayout | Sources/Services/Generators/ProjectDirectoryCreator.swift:9-21 | the stage never fails; it creates `<path>/<name>`, its `Apps` and `Packages` and their ancestors, writes no file, sets `projectPath` and `packagesPath` and leaves the other fields unchanged |
| ProjectDirectoryCreator.RunningTwiceIsRunningOnce | Sources/Services/Generators/ProjectDirectoryCreator.swift:11-21 | running the stage a second time leaves the same context and file system as running it once |
| AppDirectoryCreator.Generate | Sources/Services/Generators/AppDirectoryCreator.swift:7-15 | the method performs the stage's plan: on a refused plan it throws and changes nothing |
| AppDirectoryCreator.CreatesAppDirectory | Sources/Services/Generators/AppDirectoryCreator.swift:8-12 | it throws `missingProjectDirectory` exactly when `projectPath` is missing; otherwise it creates `projectPath/Apps/<name>` with its ancestors, writes nothing and assigns only `appPath` |
| SourcesDirectoryCreator.Generate | Sources/Services/Generators/SourcesDirectoryCreator.swift:7-14 | the method performs the stage's plan |
| SourcesDirectoryCreator.CreatesSourcesDirectory | Sources/Services/Generators/SourcesDirectoryCreator.swift:8-11 | it throws `missingAppDirectory` exactly when `appPath` is missing; otherwise it creates `appPath/Sources`, writes nothing and assigns only `sourcesPath` |
| WorkspaceGenerator.Generate | Sources/Services/Generators/WorkspaceGenerator.swift:7-25 | the method performs the stage's plan |
| WorkspaceGenerator.WritesWorkspace | Sources/Services/Generators/WorkspaceGenerator.swift:8-22 | it throws `missingProjectDirectory` exactly when `projectPath` is missing; otherwise it creates `Main.xcworkspace`, overwrites `contents.xcworkspacedata` inside it, writes into an existing directory and leaves the context alone |
| WorkspaceGenerator.WorkspaceReferences | Sources/Services/Generators/WorkspaceGenerator.swift:15-21 | the workspace data refers to `group:Packages` and then, on the next line, to `group:Apps/<name>/<name>.xcodeproj` |
| ProjectYMLGenerator.Generate | Sources/Services/Generators/ProjectYMLGenerator.swift:7-38 | the method performs the stage's plan |
| ProjectYMLGenerator.WritesProjectYml | Sources/Services/Generators/ProjectYMLGenerator.swift:8-35 | it throws `missingAppDirectory` exactly when `appPath` is missing; otherwise it writes exactly one file, `appPath/project.yml`, creates no directory and leaves the context alone |
| ProjectYMLGenerator.ProjectYmlIdentity | Sources/Services/Generators/ProjectYMLGenerator.swift:13-15 | the project name and the bundle id prefix stand verbatim on lines of their own |
| ProjectYMLGenerator.ProjectYmlToolchain | Sources/Services/Generators/ProjectYMLGenerator.swift:16-18 | the iOS deployment target is given verbatim, and the Xcode version inside double quotes |
| ProjectYMLGenerator.ProjectYmlTarget | Sources/Services/Generators/ProjectYMLGenerator.swift:23-26 | an application target is keyed by the project name |
| ProjectYMLGenerator.ProjectYmlBundleIdentifier | Sources/Services/Generators/ProjectYMLGenerator.swift:22-32 | `PRODUCT_BUNDLE_IDENTIFIER` is `<prefix>.<lower-cased name>` in both settings blocks |
| SourceFilesGenerator.Generate | Sources/Services/Generators/SourceFilesGenerator.swift:7-16 | the method performs the stage's plan, calling the three file writers in order |
| SourceFilesGenerator.GenerateInfoPlist | Sources/Services/Generators/SourceFilesGenerator.swift:18-65 | writes `Info.plist` in the sources directory and nothing else |
| SourceFilesGenerator.GenerateAppSwift | Sources/Services/Generators/SourceFilesGenerator.swift:67-83 | writes `App.swift` in the sources directory and nothing else |
| SourceFilesGenerator.GenerateContentView | Sources/Services/Generators/SourceFilesGenerator.swift:85-108 | writes `ContentView.swift`, whose text does not depend on the configuration |
| SourceFilesGenerator.WritesSourceFiles | Sources/Services/Generators/SourceFilesGenerator.swift:8-13 | it throws `missingSourcesDirectory` exactly when `sourcesPath` is missing; otherwise it writes `Info.plist`, `App.swift` and `ContentView.swift` in that order, creates no directory and leaves the context alone |
| SourceFilesGenerator.SourceFilePaths | Sources/Services/Generators/SourceFilesGenerator.swift:19-86 | the three files are distinct and lie directly in the sources directory |
| SourceFilesGenerator.InfoPlistBundleName | Sources/Services/Generators/SourceFilesGenerator.swift:33-34 | the `CFBundleName` key is followed, on the next line, by the project name |
| SourceFilesGenerator.AppSwiftEntryPoint | Sources/Services/Generators/SourceFilesGenerator.swift:72-76 | `@main` marks `struct <name>App: App`, whose window shows `ContentView()`; `ContentView.swift` declares `ContentView` |
| PackageGenerator.Generate | Sources/Services/Generators/PackageGenerator.swift:7-27 | the method, with its loop over the modules, performs the stage's plan |
| PackageGenerator.GenerateModule | Sources/Services/Generators/PackageGenerator.swift:29-73 | performs one module's changes, in order |
| PackageGenerator.GeneratePackageSwift | Sources/Services/Generators/PackageGenerator.swift:75-123 | writes `Package.swift` in the packages directory and nothing else |
| PackageGenerator.GeneratesPackage | Sources/Services/Generators/PackageGenerator.swift:9-25 | it throws `missingPackagesDirectory` exactly when `packagesPath` is missing; otherwise `Sources`, `Tests`, every module directory and every requested test directory exist, the files are the module files over the old ones with `Package.swift` last, and the context is unchanged |
| PackageGenerator.OpsEffect | Sources/Services/Generators/PackageGenerator.swift:12-25 | `Packages/Sources` and `Packages/Tests` are created even when no module asks for tests; the stage writes the module files and `Package.swift` |
| PackageGenerator.ModuleEffect | Sources/Services/Generators/PackageGenerator.swift:29-73 | a module gets its directory and its view file, and a test directory and test file exactly when it asks for tests |
| PackageGenerator.ModulesEffect | Sources/Services/Generators/PackageGenerator.swift:20-22 | the module loop writes the union of the modules' files, a later module's file replacing an earlier one's |
| PackageGenerator.ModulesFilesKeys | Sources/Services/Generators/PackageGenerator.swift:20-22 | the loop writes exactly the modules' view files and the test files of the modules that ask for tests |
| PackageGenerator.ModulesFilesContents | Sources/Services/Generators/PackageGenerator.swift:37-70 | with slash-free names, every module's view file holds its view and every requested test file holds its tests |
| PackageGenerator.TestFileIffIncludeTests | Sources/Services/Generators/PackageGenerator.swift:53-57 | with distinct, slash-free names, a module's test file is written if and only if it asks for tests |
| PackageGenerator.ManifestIsNoModuleFile | Sources/Services/Generators/PackageGenerator.swift:76 | `Package.swift` is never one of the module files |
| PackageGenerator.PackageWritesLand | Sources/Services/Generators/PackageGenerator.swift:14-25 | with slash-free names every file is written into a directory that exists at that moment |
| PackageGenerator.ModuleFileDeterminesName | Sources/Services/Generators/PackageGenerator.swift:31-37 | two slash-free modules share a view file only if they share a name |
| PackageGenerator.TestFileDeterminesName | Sources/Services/Generators/PackageGenerator.swift:55-57 | two slash-free modules share a test file only if they share a name |
| PackageGenerator.ViewNamePrefixDropsFeature | Sources/Services/Generators/PackageGenerator.swift:34 | a name without `Feature` is its own view prefix, and `<base>Feature` gives `<base>` |
| PackageGenerator.RootModuleView | Sources/Services/Generators/PackageGenerator.swift:34 | `AppFeature` gets the view `AppView` |
| PackageGenerator.ModuleSourceDeclaresView | Sources/Services/Generators/PackageGenerator.swift:38-48 | the view file declares `public struct <prefix>View: View`, and the line after its initializer holds four spaces, the indentation the literal keeps beyond its closing delimiter's |
| PackageGenerator.TestSourceTestsModule | Sources/Services/Generators/PackageGenerator.swift:58-69 | the test file imports the module under test and declares `<name>Tests` |
| PackageGenerator.TestModulesFilter | Sources/Services/Generators/PackageGenerator.swift:86 | the test modules are exactly the modules asking for tests, no more of them than modules |
| PackageGenerator.TestModulesAppend | Sources/Services/Generators/PackageGenerator.swift:86 | the filter keeps module order across a split of the list |
| PackageGenerator.AllTargetsLists | Sources/Services/Generators/PackageGenerator.swift:82-97 | the targets are one regular target per module in order followed by one test target per testing module in order, with no empty group and so no stray separator |
| PackageGenerator.TestTargetMatchesTestDirectory | Sources/Services/Generators/PackageGenerator.swift:86-93 | the test target is named after the test directory and depends on exactly its module |
| PackageGenerator.PackageSwiftPlatform | Sources/Services/Generators/PackageGenerator.swift:106 | `Package.swift` names `.iOS(.v<D>)`, with D the deployment target without `.0` |
| PackageGenerator.PackageSwiftLists | Sources/Services/Generators/PackageGenerator.swift:107-112 | the products and the targets each stand on a line of their own |
| PackageGenerator.PlatformVersionDropsDotZero | Sources/Services/Generators/PackageGenerator.swift:106 | a major version `N` stays `N`, and `N.0` becomes `N` |
| PackageGenerator.DefaultPlatformVersion | Sources/Services/Generators/PackageGenerator.swift:106 | `15.0` becomes `15` |
| PackageGenerator.DefaultDeclaresRootTargetTwice | Sources/Services/Generators/PackageGenerator.swift:82-84 | for `default`, the regular targets are `AppFeature` twice |
| FileGenerator.Generate | Sources/Services/Generators/ComponentGenerator.swift:2-4 | each stage's `generate(with:)` performs its plan on the file manager |
| FileGenerator.GenerateFiles | Sources/Services/FileGenerator.swift:34-38 | running the stages in order from a context holding only the configuration changes the file system exactly as the pipeline does and throws exactly the pipeline's error |
| FileGenerator.NothingPresentAtStart | Sources/Services/FileGenerator.swift:36 | the seeded context holds none of the four paths |
| FileGenerator.StageGuard | Sources/Services/FileGenerator.swift:6-11 | every stage throws exactly when the path it guards on is missing, with the matching `missing*` error |
| FileGenerator.StageProvides | Sources/Services/FileGenerator.swift:14-20 | a successful stage sets the paths it provides, keeps every other path and never changes the configuration |
| FileGenerator.PresentAfterStage | Sources/Services/FileGenerator.swift:14-20 | after a successful stage the present paths are the old ones plus what it provides |
| FileGenerator.PipelineFollowsTables | Sources/Services/FileGenerator.swift:37 | a list of stages fails exactly when some stage guards on a path no earlier stage provided, with that stage's error; otherwise every provided path is present |
| FileGenerator.OnlyProjectDirectoryCanComeFirst | Sources/Services/FileGenerator.swift:36-37 | from the seeded context, any list that does not start with the project directory stage fails at once and changes nothing |
| FileGenerator.ProjectDirectoryMustPrecede | Sources/Services/FileGenerator.swift:37 | putting the app directory or workspace stage before the project directory stage makes the run fail, at that stage or earlier; when every earlier stage passes its guard, the error is `missingProjectDirectory` |
| FileGenerator.DefaultStagesCheck | Sources/Services/FileGenerator.swift:41-51 | the default order passes every guard and provides all four paths |
| FileGenerator.DefaultStagesSucceed | Sources/Services/FileGenerator.swift:41-51 | with the default order no stage throws, the configuration is untouched and all four paths end up present |
| FileGenerator.DefaultProvidesEachPathOnce | Sources/Services/FileGenerator.swift:41-51 | in the default order each path is provided by exactly one stage |
| FileGenerator.DefaultRun | Sources/Services/FileGenerator.swift:41-51 | the default order ends with `<path>/<name>`, `…/Apps/<name>`, `…/Sources` and `<path>/<name>/Packages` |
| FileGenerator.DefaultFromAppDirectory | Sources/Services/FileGenerator.swift:44-49 | from the app directory stage on, the default order sets the app and sources paths and leaves the workspace data, `project.yml`, the three source files, the module files and `Package.swift` over the old files |
| FileGenerator.DefaultFromSourcesDirectory | Sources/Services/FileGenerator.swift:45-49 | from the sources directory stage on, the files left are the same layout |
| FileGenerator.DefaultFromWorkspace | Sources/Services/FileGenerator.swift:46-49 | from the workspace stage on, the files left are the workspace data and everything after it |
| FileGenerator.DefaultFromProjectYml | Sources/Services/FileGenerator.swift:47-49 | from the `project.yml` stage on, the files left are `project.yml` and everything after it |
| FileGenerator.DefaultFromSourceFiles | Sources/Services/FileGenerator.swift:48-49 | from the source files stage on, the files left are the three source files and the package files |
| FileGenerator.DefaultFromPackage | Sources/Services/FileGenerator.swift:49 | the last stage leaves the module files and `Package.swift` over the old files |
| ProjectBuilder.XcodegenRunner.RunXcodegen | Sources/Services/XcodegenRunner.swift:4-6 | a run records its directory and returns the runner's outcome: success, `notInstalled` or `generationFailed` |
| ProjectBuilder.BuildProject | Sources/Services/ProjectBuilder.swift:15-27 | the files are generated first; if that throws, the error is returned and the runner is never called; otherwise the runner is called once, on `path/name/Apps/name`, and its error comes back unchanged |
| ProjectBuilder.RunnerDirectoryIsAppPath | Sources/Services/ProjectBuilder.swift:20-24 | the runner's directory is the `appPath` the default stages set |
| ProjectBuilder.DefaultBuildOutcome | Sources/Services/ProjectBuilder.swift:17-24 | with the default stages the build fails exactly when the runner does, with the runner's own error |
| ProjectBuilder.DefaultBuildLeavesProjectYml | Sources/Services/ProjectBuilder.swift:17-24 | the directory the runner is given holds `project.yml` once the default stages have run, whatever the disk held before |
| FileStructureBuilder.RawValueRoundTrip | Sources/FileStructureBuilder.swift:5-9 | reading back a mime type's raw value gives that mime type |
| FileStructureBuilder.FromRawValueExact | Sources/FileStructureBuilder.swift:5-9 | a string names a mime type exactly when it is that type's case name, `swift`, `plist` or `yaml` |
| FileStructureBuilder.BuildBlock | Sources/FileStructureBuilder.swift:35-37 | the components come back unchanged and in order |
| FileStructureBuilder.BuildOptional | Sources/FileStructureBuilder.swift:38-40 | a skipped `if` gives no items; a taken one gives its items |
| FileStructureBuilder.BuildEitherFirst | Sources/FileStructureBuilder.swift:41-43 | the first branch's items come back unchanged |
| FileStructureBuilder.BuildEitherSecond | Sources/FileStructureBuilder.swift:44-46 | the second branch's items come back unchanged |
| FileStructureBuilder.BuildArrayLength | Sources/FileStructureBuilder.swift:47-49 | `buildArray` yields as many items as all passes together |
| FileStructureBuilder.BuildArrayAppend | Sources/FileStructureBuilder.swift:47-49 | `buildArray` of joined lists is the join of their results |
| FileStructureBuilder.BuildArrayPosition | Sources/FileStructureBuilder.swift:47-49 | item `j` of pass `i` sits after all the items of earlier passes, at index (their count + `j`) |
| FileStructureBuilder.BuildArrayMembership | Sources/FileStructureBuilder.swift:47-49 | an item is in the result exactly when some pass produced it |
| FileStructureBuilder.BuildArrayOfSingletons | Sources/FileStructureBuilder.swift:47-49 | passes of one item each give back those items in order |

## Left out

- Console output: every `print`, the argument summary and exit codes in `Sources/main.swift`, the usage text in `Sources/HelpText.swift`, and the `localizedDescription` texts of the error types. These only produce text for the terminal.
- Sources/main.swift itself, which parses the arguments, builds the configuration and calls `buildProject`. Each step is modelled: `ParseArguments`, `MakeConfiguration` and `BuildProject`.
- The xcodegen process in `Sources/Services/XcodegenRunner.swift` and `Sources/Services/ProcessRunner.swift`: process spawning, pipes and the `which` lookup. The runner is abstract, and its outcome is fixed when it is made.
- `Sources/Networking/OpenAIClient.swift`, `Sources/Support/Prompt.swift` and `Sources/Support/Prompts.swift`: network calls and static prompt text.
- `Sources/Support/Helpers.swift`: a one-line wrapper over `String.write`.
- The tool's own `Package.swift`: it is the tool's build manifest.
- File-system failures (permissions, a full disk, atomic-write errors): `FileManager` calls always succeed. The only errors a stage throws are its missing-path guards.
- `NSString` and `URL` path normalisation (trailing slashes, `..`, relative paths resolved against the working directory): joining is `dir + "/" + component`.
- `lowercased()` beyond ASCII: `ToLower` changes only `A`–`Z`.
- Other conformances of `ComponentGenerator` and `FileGenerating`: the stages form a closed `Stage` datatype.
- `Project.body` and `Folder.subStructure` as closures: each is modelled by the list of items it evaluates to.
- `print(configuration.description)` at the end of `buildProject`.
- ProjectBuilder.BuildProject: the file manager and the runner are distinct objects, so one cannot change the other's state. What xcodegen itself writes (the `.xcodeproj` in the app directory) is not modelled: the runner never touches the file manager.
- ProjectBuilder.DefaultBuildLeavesProjectYml: states that `project.yml` is present, not its contents after the later stages. Those contents follow from `FileGenerator.DefaultFromAppDirectory` only when the later paths differ.
- FileGenerator.DefaultRun: states the final context only. The files the default order leaves are stated stage by stage by the `FileGenerator.DefaultFrom…` lemmas.
- PackageGenerator.TestFileIffIncludeTests: assumes slash-free, distinct module names. With a repeated name, two modules share one test file, and "iff" is not the right statement.
- PackageGenerator.ModulesFilesContents and PackageGenerator.PackageWritesLand: assume slash-free module names. A name with a slash would place files in nested directories that the model does not reason about.

## Findings

| source | as written | input that shows it | evidently intended | confidence | as-written member | corrected member |
|---|---|---|---|---|---|---|
| Sources/Models/ProjectConfiguration.swift:18-28 | `default` passes `[.appFeature]` to the initialiser, which itself prepends `.appFeature`, so the module list is `[AppFeature, AppFeature]`, and a package generated from it would declare the `AppFeature` target twice | `ProjectConfiguration.default` | `default` holds `AppFeature` once, like every configuration built by the initialiser from an empty module list | not executed; medium (`default` is not referenced elsewhere in the repository) | Models.DefaultConfigurationRepeatsRoot | Models.IntendedDefaultConfiguration |
