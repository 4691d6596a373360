/** `ArgumentParser.parse`: the command line scanner. `arguments[0]` is the program,
    `arguments[1]` the project name; then an optional path (only right after the name),
    value options, and `--module <name>` with an optional `--include-tests`. */
module ArgumentParser {
  import opened Wrappers
  import opened Models

  datatype ArgumentError =
    | InsufficientArguments
    | MissingValue(argument: string)
    | UnknownArgument(argument: string)

  /** The tuple `parse` returns. */
  datatype Arguments = Arguments(
    projectName: string,
    path: string,
    bundleIdPrefix: string,
    deploymentTarget: string,
    xcodeVersion: string,
    modules: seq<Module>)

  const BundleIdPrefixFlag: string := "--bundle-id-prefix"
  const DeploymentTargetFlag: string := "--deployment-target"
  const XcodeVersionFlag: string := "--xcode-version"
  const ModuleFlag: string := "--module"
  const IncludeTestsFlag: string := "--include-tests"

  /** The four options that take a value. */
  predicate IsOption(arg: string)
  {
    arg == BundleIdPrefixFlag || arg == DeploymentTargetFlag || arg == XcodeVersionFlag || arg == ModuleFlag
  }

  /** What `parse` starts from; `home` stands for `NSHomeDirectory()`. */
  function Defaults(projectName: string, home: string): Arguments
  {
    Arguments(projectName, home, "com.example", "15.0", "16.3", [])
  }

  /** Where one iteration of the scanning loop leaves it: the next index to look at and
      the values gathered so far. */
  datatype Progress = Progress(next: nat, acc: Arguments)

  /** One iteration of the scanning loop at index `i`. It always moves forward, never
      reports too few arguments, keeps the project name and only appends modules. */
  function Step(args: seq<string>, i: nat, acc: Arguments): (r: Result<Progress, ArgumentError>)
    requires i < |args|
    ensures r.Ok? ==> i < r.value.next <= |args|
    ensures r != Err(InsufficientArguments)
    ensures r.Ok? ==> r.value.acc.projectName == acc.projectName && acc.modules <= r.value.acc.modules
  {
    var arg := args[i];
    if arg == BundleIdPrefixFlag then
      if i + 1 < |args| then Ok(Progress(i + 2, acc.(bundleIdPrefix := args[i + 1])))
      else Err(MissingValue(arg))
    else if arg == DeploymentTargetFlag then
      if i + 1 < |args| then Ok(Progress(i + 2, acc.(deploymentTarget := args[i + 1])))
      else Err(MissingValue(arg))
    else if arg == XcodeVersionFlag then
      if i + 1 < |args| then Ok(Progress(i + 2, acc.(xcodeVersion := args[i + 1])))
      else Err(MissingValue(arg))
    else if arg == ModuleFlag then
      if i + 1 < |args| then
        var includeTests := i + 2 < |args| && args[i + 2] == IncludeTestsFlag;
        Ok(Progress(if includeTests then i + 3 else i + 2,
                    acc.(modules := acc.modules + [Module(args[i + 1], includeTests)])))
      else Err(MissingValue(arg))
    else if i == 2 then Ok(Progress(i + 1, acc.(path := arg)))
    else Err(UnknownArgument(arg))
  }

  /** The scanning loop from index `i`, with the values gathered so far in `acc`. */
  function Scan(args: seq<string>, i: nat, acc: Arguments): Result<Arguments, ArgumentError>
    decreases |args| - i
  {
    if i >= |args| then Ok(acc)
    else
      match Step(args, i, acc)
      case Err(e) => Err(e)
      case Ok(p) => Scan(args, p.next, p.acc)
  }

  /** The scan never reports too few arguments, keeps the project name, and only
      appends modules. */
  lemma {:induction false} ScanPreserves(args: seq<string>, i: nat, acc: Arguments)
    ensures Scan(args, i, acc) != Err(InsufficientArguments)
    ensures Scan(args, i, acc).Ok? ==>
              Scan(args, i, acc).value.projectName == acc.projectName &&
              acc.modules <= Scan(args, i, acc).value.modules
    decreases |args| - i
  {
    if i < |args| {
      var st := Step(args, i, acc);
      if st.Ok? {
        ScanPreserves(args, st.value.next, st.value.acc);
      }
    }
  }

  /** The meaning of `parse`: fewer than two arguments is the only way to get
      `insufficientArguments`; the project name is `arguments[1]`; with nothing after
      the name every other value is its default. */
  function Parse(home: string, args: seq<string>): (r: Result<Arguments, ArgumentError>)
    ensures r == Err(InsufficientArguments) <==> |args| < 2
    ensures r.Ok? ==> r.value.projectName == args[1]
    ensures |args| == 2 ==> r == Ok(Arguments(args[1], home, "com.example", "15.0", "16.3", []))
  {
    if |args| < 2 then Err(InsufficientArguments)
    else
      ScanPreserves(args, 2, Defaults(args[1], home));
      Scan(args, 2, Defaults(args[1], home))
  }

  /** `ArgumentParser.parse`, with its index-driven loop. */
  method ParseArguments(home: string, arguments: seq<string>) returns (r: Result<Arguments, ArgumentError>)
    ensures r == Parse(home, arguments)
  {
    if |arguments| < 2 {
      return Err(InsufficientArguments);
    }
    var projectName := arguments[1];
    var path := home;
    var bundleIdPrefix := "com.example";
    var deploymentTarget := "15.0";
    var xcodeVersion := "16.3";
    var modules: seq<Module> := [];
    var currentIndex := 2;
    while currentIndex < |arguments|
      invariant 2 <= currentIndex <= |arguments|
      invariant Scan(arguments, currentIndex,
                     Arguments(projectName, path, bundleIdPrefix, deploymentTarget, xcodeVersion, modules))
                == Parse(home, arguments)
      decreases |arguments| - currentIndex
    {
      var arg := arguments[currentIndex];
      if arg == BundleIdPrefixFlag {
        if currentIndex + 1 >= |arguments| {
          return Err(MissingValue(arg));
        }
        bundleIdPrefix := arguments[currentIndex + 1];
        currentIndex := currentIndex + 2;
      } else if arg == DeploymentTargetFlag {
        if currentIndex + 1 >= |arguments| {
          return Err(MissingValue(arg));
        }
        deploymentTarget := arguments[currentIndex + 1];
        currentIndex := currentIndex + 2;
      } else if arg == XcodeVersionFlag {
        if currentIndex + 1 >= |arguments| {
          return Err(MissingValue(arg));
        }
        xcodeVersion := arguments[currentIndex + 1];
        currentIndex := currentIndex + 2;
      } else if arg == ModuleFlag {
        if currentIndex + 1 >= |arguments| {
          return Err(MissingValue(arg));
        }
        var moduleName := arguments[currentIndex + 1];
        var includeTests := currentIndex + 2 < |arguments| && arguments[currentIndex + 2] == IncludeTestsFlag;
        modules := modules + [Module(moduleName, includeTests)];
        currentIndex := currentIndex + if includeTests then 3 else 2;
      } else {
        // not an option: accepted as the path only right after the project name
        if currentIndex == 2 {
          path := arg;
          currentIndex := currentIndex + 1;
        } else {
          return Err(UnknownArgument(arg));
        }
      }
    }
    return Ok(Arguments(projectName, path, bundleIdPrefix, deploymentTarget, xcodeVersion, modules));
  }

  // ---------------------------------------------------------------------------
  // A reference reading of the command line: a list of options, each rendered
  // as the tokens a user types, and the values they stand for.

  datatype ValueFlag = BundleIdPrefix | DeploymentTarget | XcodeVersion

  datatype CommandOption =
    | ValueOption(flag: ValueFlag, value: string)
    | ModuleOption(mod: Module)

  function FlagText(f: ValueFlag): string
  {
    match f
    case BundleIdPrefix => BundleIdPrefixFlag
    case DeploymentTarget => DeploymentTargetFlag
    case XcodeVersion => XcodeVersionFlag
  }

  /** The tokens of one option. */
  function RenderOption(o: CommandOption): seq<string>
  {
    match o
    case ValueOption(f, v) => [FlagText(f), v]
    case ModuleOption(m) => [ModuleFlag, m.name] + (if m.includeTests then [IncludeTestsFlag] else [])
  }

  /** The tokens of a list of options, in order. */
  function Render(opts: seq<CommandOption>): seq<string>
    decreases |opts|
  {
    if opts == [] then [] else RenderOption(opts[0]) + Render(opts[1..])
  }

  /** The value one option stands for. */
  function Setting(a: Arguments, f: ValueFlag): string
  {
    match f
    case BundleIdPrefix => a.bundleIdPrefix
    case DeploymentTarget => a.deploymentTarget
    case XcodeVersion => a.xcodeVersion
  }

  function ApplyOption(acc: Arguments, o: CommandOption): Arguments
  {
    match o
    case ValueOption(BundleIdPrefix, v) => acc.(bundleIdPrefix := v)
    case ValueOption(DeploymentTarget, v) => acc.(deploymentTarget := v)
    case ValueOption(XcodeVersion, v) => acc.(xcodeVersion := v)
    case ModuleOption(m) => acc.(modules := acc.modules + [m])
  }

  /** The options applied left to right. */
  function ApplyAll(acc: Arguments, opts: seq<CommandOption>): Arguments
    decreases |opts|
  {
    if opts == [] then acc else ApplyAll(ApplyOption(acc, opts[0]), opts[1..])
  }

  /** The modules named by the options, in command-line order. */
  function ModulesOf(opts: seq<CommandOption>): seq<Module>
    decreases |opts|
  {
    if opts == [] then []
    else (if opts[0].ModuleOption? then [opts[0].mod] else []) + ModulesOf(opts[1..])
  }

  /** Options keep the project name and the path, and append their modules in order. */
  lemma {:induction false} ApplyAllModules(acc: Arguments, opts: seq<CommandOption>)
    ensures ApplyAll(acc, opts).modules == acc.modules + ModulesOf(opts)
    ensures ApplyAll(acc, opts).projectName == acc.projectName
    ensures ApplyAll(acc, opts).path == acc.path
    decreases |opts|
  {
    if opts != [] {
      ApplyAllModules(ApplyOption(acc, opts[0]), opts[1..]);
    }
  }

  /** A value option given several times keeps the last value. */
  lemma {:induction false} LastValueWins(acc: Arguments, before: seq<CommandOption>, f: ValueFlag, v: string,
                                         after: seq<CommandOption>)
    requires forall k :: 0 <= k < |after| ==> !(after[k].ValueOption? && after[k].flag == f)
    ensures Setting(ApplyAll(acc, before + [ValueOption(f, v)] + after), f) == v
    decreases |before|
  {
    if before == [] {
      assert before + [ValueOption(f, v)] + after == [ValueOption(f, v)] + after;
      LaterOptionsKeep(ApplyOption(acc, ValueOption(f, v)), f, after);
    } else {
      assert (before + [ValueOption(f, v)] + after)[1..] == before[1..] + [ValueOption(f, v)] + after;
      LastValueWins(ApplyOption(acc, before[0]), before[1..], f, v, after);
    }
  }

  lemma {:induction false} LaterOptionsKeep(acc: Arguments, f: ValueFlag, opts: seq<CommandOption>)
    requires forall k :: 0 <= k < |opts| ==> !(opts[k].ValueOption? && opts[k].flag == f)
    ensures Setting(ApplyAll(acc, opts), f) == Setting(acc, f)
    decreases |opts|
  {
    if opts != [] {
      LaterOptionsKeep(ApplyOption(acc, opts[0]), f, opts[1..]);
    }
  }

  lemma RenderStartsWithOption(opts: seq<CommandOption>)
    requires opts != []
    ensures |Render(opts)| >= 2 && IsOption(Render(opts)[0])
    ensures Render(opts)[0] != IncludeTestsFlag
  {
    OptionIsNotIncludeTests(Render(opts)[0]);
  }

  /** No option flag is `--include-tests`. */
  lemma OptionIsNotIncludeTests(arg: string)
    requires IsOption(arg)
    ensures arg != IncludeTestsFlag
  {
    if arg == XcodeVersionFlag {
      assert arg[2] != IncludeTestsFlag[2];
    } else {
      assert |arg| != |IncludeTestsFlag|;
    }
  }

  /** One iteration of the loop on the tokens of one option consumes exactly them and
      applies the option. */
  lemma StepOneOption(args: seq<string>, i: nat, o: CommandOption, acc: Arguments)
    requires i + |RenderOption(o)| <= |args|
    requires args[i..i + |RenderOption(o)|] == RenderOption(o)
    requires o.ModuleOption? && !o.mod.includeTests && i + 2 < |args| ==> args[i + 2] != IncludeTestsFlag
    ensures Step(args, i, acc) == Ok(Progress(i + |RenderOption(o)|, ApplyOption(acc, o)))
  {
    var r := RenderOption(o);
    assert forall k :: 0 <= k < |r| ==> args[i + k] == r[k];
    match o {
      case ValueOption(f, v) =>
        assert args[i] == FlagText(f) && args[i + 1] == v;
      case ModuleOption(m) =>
        assert r[0] == ModuleFlag && r[1] == m.name;
        assert args[i] == ModuleFlag && args[i + 1] == m.name;
        if m.includeTests {
          assert r[2] == IncludeTestsFlag;
          assert args[i + 2] == IncludeTestsFlag;
        }
    }
  }

  /** `args` holds, from index `i` on, the tokens of `opts`, option by option. */
  predicate Tokens(args: seq<string>, i: nat, opts: seq<CommandOption>)
    decreases |opts|
  {
    opts == [] ||
    (i + |RenderOption(opts[0])| <= |args| && args[i..i + |RenderOption(opts[0])|] == RenderOption(opts[0])
     && Tokens(args, i + |RenderOption(opts[0])|, opts[1..]))
  }

  /** The last of `opts` is a module without tests, which a following
      `--include-tests` would join. */
  predicate EndsWithBareModule(opts: seq<CommandOption>)
  {
    opts != [] && opts[|opts| - 1].ModuleOption? && !opts[|opts| - 1].mod.includeTests
  }

  /** Scanning the tokens of well-formed options consumes exactly those tokens and
      applies the options, provided no `--include-tests` follows a last module
      without tests. */
  lemma {:induction false} ScanRendered(args: seq<string>, i: nat, opts: seq<CommandOption>, acc: Arguments, end: nat)
    requires Tokens(args, i, opts) && end == i + |Render(opts)|
    requires end < |args| && args[end] == IncludeTestsFlag ==> !EndsWithBareModule(opts)
    ensures Scan(args, i, acc) == Scan(args, end, ApplyAll(acc, opts))
    decreases |opts|
  {
    if opts != [] {
      var o := opts[0];
      var n := |RenderOption(o)|;
      assert end == i + n + |Render(opts[1..])| by {
        RenderLength(opts);
      }
      assert Step(args, i, acc) == Ok(Progress(i + n, ApplyOption(acc, o))) by {
        if o.ModuleOption? && !o.mod.includeTests {
          AfterModuleWithoutTests(args, i, opts, end);
        }
        StepOneOption(args, i, o, acc);
      }
      if opts[1..] != [] {
        assert opts[1..][|opts[1..]| - 1] == opts[|opts| - 1];
      }
      ScanRendered(args, i + n, opts[1..], ApplyOption(acc, o), end);
      ScanAfterStep(args, i, acc, i + n, ApplyOption(acc, o), end, ApplyAll(acc, opts));
    }
  }

  /** The scan goes on from wherever one iteration of the loop leaves it. */
  lemma ScanAfterStep(args: seq<string>, i: nat, acc: Arguments, j: nat, next: Arguments, k: nat, last: Arguments)
    requires i < |args| && Step(args, i, acc) == Ok(Progress(j, next))
    requires Scan(args, j, next) == Scan(args, k, last)
    ensures Scan(args, i, acc) == Scan(args, k, last)
  {
  }

  lemma RenderLength(opts: seq<CommandOption>)
    requires opts != []
    ensures |Render(opts)| == |RenderOption(opts[0])| + |Render(opts[1..])|
  {
  }

  /** A slice holding the tokens of `opts` holds them option by option. */
  lemma {:induction false} TokensOfSlice(args: seq<string>, i: nat, opts: seq<CommandOption>)
    requires i + |Render(opts)| <= |args| && args[i..i + |Render(opts)|] == Render(opts)
    ensures Tokens(args, i, opts)
    decreases |opts|
  {
    if opts != [] {
      RenderedFirst(args, i, opts);
      TokensOfSlice(args, i + |RenderOption(opts[0])|, opts[1..]);
    }
  }

  /** The tokens of a non-empty list of options, taken apart at its first option. */
  lemma RenderedFirst(args: seq<string>, i: nat, opts: seq<CommandOption>)
    requires opts != []
    requires i + |Render(opts)| <= |args| && args[i..i + |Render(opts)|] == Render(opts)
    ensures var n := |RenderOption(opts[0])|;
            && |Render(opts)| == n + |Render(opts[1..])|
            && args[i..i + n] == RenderOption(opts[0])
            && args[i + n..i + n + |Render(opts[1..])|] == Render(opts[1..])
  {
    RenderSplit(opts);
    SliceOfAppend(args, i, Render(opts), RenderOption(opts[0]), Render(opts[1..]));
  }

  lemma RenderSplit(opts: seq<CommandOption>)
    requires opts != []
    ensures Render(opts) == RenderOption(opts[0]) + Render(opts[1..])
  {
  }

  /** After the two tokens of a module option without tests comes either the next
      option's flag or whatever follows the options, so never `--include-tests`. */
  lemma AfterModuleWithoutTests(args: seq<string>, i: nat, opts: seq<CommandOption>, end: nat)
    requires opts != [] && opts[0].ModuleOption? && !opts[0].mod.includeTests
    requires Tokens(args, i, opts) && end == i + |Render(opts)|
    requires end < |args| && args[end] == IncludeTestsFlag ==> !EndsWithBareModule(opts)
    ensures i + 2 < |args| ==> args[i + 2] != IncludeTestsFlag
  {
    var rest := opts[1..];
    assert |RenderOption(opts[0])| == 2;
    RenderLength(opts);
    if rest == [] {
      assert EndsWithBareModule(opts);
    } else {
      var r := RenderOption(rest[0]);
      assert args[i + 2] == r[0] by {
        assert args[i + 2..i + 2 + |r|] == r;
      }
      assert IsOption(r[0]);
      OptionIsNotIncludeTests(r[0]);
    }
  }

  /** A slice that holds `a + b` holds `a` and then `b`. */
  lemma SliceOfAppend(s: seq<string>, i: nat, whole: seq<string>, a: seq<string>, b: seq<string>)
    requires whole == a + b
    requires i + |whole| <= |s| && s[i..i + |whole|] == whole
    ensures |whole| == |a| + |b|
    ensures s[i..i + |a|] == a && s[i + |a|..i + |a| + |b|] == b
  {
    assert s[i..i + |a|] == s[i..i + |whole|][..|a|];
    assert s[i + |a|..i + |a| + |b|] == s[i..i + |whole|][|a|..];
  }

  /** A command line of well-formed options parses to the values those options stand
      for: modules in command-line order, the last of each value option. */
  lemma ParseRoundTrip(home: string, program: string, name: string, opts: seq<CommandOption>)
    ensures Parse(home, [program, name] + Render(opts)) == Ok(ApplyAll(Defaults(name, home), opts))
  {
    var args := [program, name] + Render(opts);
    assert args[2..2 + |Render(opts)|] == Render(opts);
    ScanSlice(args, 2, opts, Defaults(name, home), 2 + |Render(opts)|);
  }

  /** A non-option token right after the project name is the path. */
  lemma ParseWithPath(home: string, program: string, name: string, path: string, opts: seq<CommandOption>)
    requires !IsOption(path)
    ensures Parse(home, [program, name, path] + Render(opts))
            == Ok(ApplyAll(Defaults(name, home).(path := path), opts))
  {
    var args := [program, name, path] + Render(opts);
    assert args[2] == path;
    assert args[3..3 + |Render(opts)|] == Render(opts);
    ScanSlice(args, 3, opts, Defaults(name, home).(path := path), 3 + |Render(opts)|);
  }

  /** After well-formed options, with or without a path, an option that takes a
      value and is left without one at the end is reported by name. */
  lemma ParseMissingValue(home: string, program: string, name: string, lead: seq<string>,
                          opts: seq<CommandOption>, flag: string)
    requires |lead| <= 1 && (lead != [] ==> !IsOption(lead[0]))
    requires IsOption(flag)
    ensures Parse(home, [program, name] + lead + Render(opts) + [flag]) == Err(MissingValue(flag))
  {
    var pre := [program, name] + lead;
    var args := pre + Render(opts) + [flag];
    var start := if lead == [] then Defaults(name, home) else Defaults(name, home).(path := lead[0]);
    var k := |pre| + |Render(opts)|;
    assert Scan(args, 2, Defaults(name, home)) == Scan(args, |pre|, start) by {
      if lead != [] {
        assert args[2] == lead[0];
      }
    }
    assert Scan(args, |pre|, start) == Scan(args, k, ApplyAll(start, opts)) by {
      assert args[|pre|..k] == Render(opts);
      assert args[k] == flag;
      OptionIsNotIncludeTests(flag);
      ScanSlice(args, |pre|, opts, start, k);
    }
    assert args[k] == flag && k == |args| - 1;
  }

  /** A non-option token anywhere but right after the project name is refused; so is
      `--include-tests` there, unless it follows a module without tests. */
  lemma ParseUnknownArgument(home: string, program: string, name: string, lead: seq<string>,
                             opts: seq<CommandOption>, arg: string, rest: seq<string>)
    requires |lead| <= 1 && (lead != [] ==> !IsOption(lead[0]))
    requires lead != [] || opts != []
    requires !IsOption(arg)
    requires arg == IncludeTestsFlag ==> !EndsWithBareModule(opts)
    ensures Parse(home, [program, name] + lead + Render(opts) + [arg] + rest) == Err(UnknownArgument(arg))
  {
    var pre := [program, name] + lead;
    var args := pre + Render(opts) + ([arg] + rest);
    assert [program, name] + lead + Render(opts) + [arg] + rest == args;
    var start := if lead == [] then Defaults(name, home) else Defaults(name, home).(path := lead[0]);
    var k := |pre| + |Render(opts)|;
    assert Scan(args, 2, Defaults(name, home)) == Scan(args, |pre|, start) by {
      if lead != [] {
        assert args[2] == lead[0];
      }
    }
    assert Scan(args, |pre|, start) == Scan(args, k, ApplyAll(start, opts)) by {
      assert args[|pre|..k] == Render(opts);
      assert args[k] == arg;
      ScanSlice(args, |pre|, opts, start, k);
    }
    assert k != 2 && args[k] == arg by {
      if lead == [] {
        RenderStartsWithOption(opts);
      }
    }
    UnknownAt(args, k, ApplyAll(start, opts));
  }

  /** Scanning a slice that holds the tokens of `opts` applies them. */
  lemma ScanSlice(args: seq<string>, i: nat, opts: seq<CommandOption>, acc: Arguments, end: nat)
    requires end == i + |Render(opts)| && end <= |args| && args[i..end] == Render(opts)
    requires end < |args| && args[end] == IncludeTestsFlag ==> !EndsWithBareModule(opts)
    ensures Scan(args, i, acc) == Scan(args, end, ApplyAll(acc, opts))
  {
    TokensOfSlice(args, i, opts);
    ScanRendered(args, i, opts, acc, end);
  }

  /** Past index 2, a token that is not an option stops the scan. */
  lemma UnknownAt(args: seq<string>, k: nat, acc: Arguments)
    requires 2 < k < |args| && !IsOption(args[k])
    ensures Scan(args, k, acc) == Err(UnknownArgument(args[k]))
  {
  }
}
