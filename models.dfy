/** `Module` and `ProjectConfiguration`: the immutable description of the project to
    scaffold. */
module Models {
  import opened Wrappers
  import opened Paths

  /** A feature module; `includeTests` asks for a paired test target. */
  datatype Module = Module(name: string, includeTests: bool)

  /** `Module.appFeature`: the root UI module every configuration starts with. */
  const AppFeature: Module := Module("AppFeature", false)

  datatype ProjectConfiguration = ProjectConfiguration(
    name: string,
    path: string,
    bundleIdPrefix: string,
    deploymentTarget: string,
    xcodeVersion: string,
    modules: seq<Module>)

  /** The module list of every configuration built by `MakeConfiguration`: never
      empty, and headed by `AppFeature`. */
  predicate HeadedByAppFeature(config: ProjectConfiguration)
  {
    |config.modules| >= 1 && config.modules[0] == AppFeature
  }

  /** `ProjectConfiguration.init`: stores every value as given, except that the root
      module is put in front of the modules the caller supplies. */
  function MakeConfiguration(
    name: string,
    path: string,
    bundleIdPrefix: string,
    deploymentTarget: string,
    xcodeVersion: string,
    modules: seq<Module>): (config: ProjectConfiguration)
    ensures config.name == name && config.path == path
    ensures config.bundleIdPrefix == bundleIdPrefix
    ensures config.deploymentTarget == deploymentTarget && config.xcodeVersion == xcodeVersion
    ensures HeadedByAppFeature(config)
    ensures config.modules[0].name == "AppFeature" && !config.modules[0].includeTests
    ensures |config.modules| == |modules| + 1 && config.modules[1..] == modules
  {
    ProjectConfiguration(name, path, bundleIdPrefix, deploymentTarget, xcodeVersion, [AppFeature] + modules)
  }

  /** `ProjectConfiguration.default`. The path is the user's desktop directory when
      Foundation reports one, else the home directory. It passes `[.appFeature]`
      through the prepending initialiser, so the root module appears twice. */
  function DefaultConfiguration(desktop: Option<string>, home: string): (config: ProjectConfiguration)
    ensures config.name == ""
    ensures config.path == (if desktop.Some? then desktop.value else home)
    ensures config.bundleIdPrefix == "com.example"
    ensures config.deploymentTarget == "15.0" && config.xcodeVersion == "16.3"
    ensures config.modules == [AppFeature, AppFeature]
  {
    MakeConfiguration(
      "",
      if desktop.Some? then desktop.value else home,
      "com.example",
      "15.0",
      "16.3",
      [AppFeature])
  }

  /** No two modules share a name, so every Swift package target is declared once. */
  predicate DistinctModuleNames(config: ProjectConfiguration)
  {
    forall i, j :: 0 <= i < j < |config.modules| ==> config.modules[i].name != config.modules[j].name
  }

  /** The default configuration, as written, names the root module twice. */
  lemma DefaultConfigurationRepeatsRoot(desktop: Option<string>, home: string)
    ensures !DistinctModuleNames(DefaultConfiguration(desktop, home))
  {
    var config := DefaultConfiguration(desktop, home);
    assert config.modules[0].name == config.modules[1].name;
  }

  /** The default configuration with the root module once, as the initialiser adds it
      itself: the same values, and module names that stay distinct. */
  function IntendedDefaultConfiguration(desktop: Option<string>, home: string): (config: ProjectConfiguration)
    ensures config == DefaultConfiguration(desktop, home).(modules := [AppFeature])
    ensures HeadedByAppFeature(config) && DistinctModuleNames(config)
  {
    MakeConfiguration(
      "",
      if desktop.Some? then desktop.value else home,
      "com.example",
      "15.0",
      "16.3",
      [])
  }

  /** The names that become single path components (the project name and every
      module name) hold no slash. */
  predicate SimpleNames(config: ProjectConfiguration)
  {
    SlashFree(config.name) && forall m :: m in config.modules ==> SlashFree(m.name)
  }
}
