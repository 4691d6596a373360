/** The declarative description of a project's file tree: files and folders, the
    kinds of file, and the result-builder combinators that assemble the children of a
    folder from the statements of its body. A body is modelled by the list of items it
    evaluates to. */
module FileStructureBuilder {
  import opened Wrappers

  /** `MimeType`, a string-backed enumeration. */
  datatype MimeType = Swift | Plist | Yaml

  /** `rawValue`: the case name. */
  function RawValue(m: MimeType): string
  {
    match m
    case Swift => "swift"
    case Plist => "plist"
    case Yaml => "yaml"
  }

  /** `MimeType(rawValue:)`: the case whose name is `s`, if there is one. */
  function FromRawValue(s: string): Option<MimeType>
  {
    if s == "swift" then Some(Swift)
    else if s == "plist" then Some(Plist)
    else if s == "yaml" then Some(Yaml)
    else None
  }

  /** Reading a raw value back gives the case it came from. */
  lemma RawValueRoundTrip(m: MimeType)
    ensures FromRawValue(RawValue(m)) == Some(m)
  {
  }

  /** A string names a case exactly when it is that case's raw value: no two cases
      share a raw value, and nothing else is accepted. */
  lemma FromRawValueExact(s: string, m: MimeType)
    ensures FromRawValue(s) == Some(m) <==> s == RawValue(m)
  {
    if s == RawValue(m) {
      RawValueRoundTrip(m);
    }
  }

  /** `ProjectItem`: a `File`, or a `Folder` whose children are its evaluated
      `subStructure`. */
  datatype ProjectItem =
    | File(name: string, path: string, mimeType: MimeType)
    | Folder(name: string, path: string, subStructure: seq<ProjectItem>)

  /** `Project`, with its evaluated `body`. */
  datatype Project = Project(body: seq<ProjectItem>)

  /** `buildBlock`: the statements of a block, in order. */
  function BuildBlock(components: seq<ProjectItem>): (r: seq<ProjectItem>)
    ensures |r| == |components|
    ensures forall i :: 0 <= i < |r| ==> r[i] == components[i]
  {
    components
  }

  /** `buildOptional`: the items of an `if` without `else`, or nothing when it is
      skipped. */
  function BuildOptional(component: Option<seq<ProjectItem>>): (r: seq<ProjectItem>)
    ensures component.None? ==> r == []
    ensures component.Some? ==> r == component.value
  {
    match component
    case None => []
    case Some(c) => c
  }

  /** `buildEither(first:)`: the items of the branch taken. */
  function BuildEitherFirst(component: seq<ProjectItem>): (r: seq<ProjectItem>)
    ensures r == component
  {
    component
  }

  /** `buildEither(second:)`: the items of the branch taken. */
  function BuildEitherSecond(component: seq<ProjectItem>): (r: seq<ProjectItem>)
    ensures r == component
  {
    component
  }

  /** `buildArray`: the items of every pass of a `for` loop, one pass after another. */
  function BuildArray(components: seq<seq<ProjectItem>>): seq<ProjectItem>
  {
    if components == [] then [] else components[0] + BuildArray(components[1..])
  }

  /** The number of items in all the passes together. */
  function TotalLength(components: seq<seq<ProjectItem>>): nat
  {
    if components == [] then 0 else |components[0]| + TotalLength(components[1..])
  }

  /** `buildArray` loses no item and adds none. */
  lemma {:induction false} BuildArrayLength(components: seq<seq<ProjectItem>>)
    ensures |BuildArray(components)| == TotalLength(components)
    decreases |components|
  {
    if components != [] {
      BuildArrayLength(components[1..]);
    }
  }

  /** Passes built in two runs and then joined are the passes built in one run. */
  lemma {:induction false} BuildArrayAppend(a: seq<seq<ProjectItem>>, b: seq<seq<ProjectItem>>)
    ensures BuildArray(a + b) == BuildArray(a) + BuildArray(b)
    decreases |a|
  {
    if a == [] {
      assert a + b == b;
    } else {
      assert (a + b)[1..] == a[1..] + b;
      BuildArrayAppend(a[1..], b);
    }
  }

  /** `buildArray` keeps the order: item `j` of pass `i` comes after every item of
      the earlier passes, and before the rest of its own. */
  lemma {:induction false} BuildArrayPosition(components: seq<seq<ProjectItem>>, i: nat, j: nat)
    requires i < |components| && j < |components[i]|
    ensures TotalLength(components[..i]) + j < |BuildArray(components)|
    ensures BuildArray(components)[TotalLength(components[..i]) + j] == components[i][j]
    decreases i
  {
    BuildArrayLength(components);
    if i == 0 {
      assert components[..0] == [];
    } else {
      var rest := components[1..];
      assert components[..i][0] == components[0];
      assert components[..i][1..] == rest[..i - 1];
      BuildArrayPosition(rest, i - 1, j);
    }
  }

  /** An item is built by `buildArray` exactly when some pass produced it. */
  lemma {:induction false} BuildArrayMembership(components: seq<seq<ProjectItem>>, x: ProjectItem)
    ensures x in BuildArray(components) <==> exists i :: 0 <= i < |components| && x in components[i]
    decreases |components|
  {
    if components != [] {
      BuildArrayMembership(components[1..], x);
      if x in BuildArray(components[1..]) {
        var i :| 0 <= i < |components[1..]| && x in components[1..][i];
        assert x in components[i + 1];
      }
      if exists i :: 0 <= i < |components| && x in components[i] {
        var i :| 0 <= i < |components| && x in components[i];
        if i > 0 {
          assert x in components[1..][i - 1];
        }
      }
    }
  }

  /** A loop whose passes each give one item builds exactly those items, in order. */
  lemma {:induction false} BuildArrayOfSingletons(items: seq<ProjectItem>)
    ensures BuildArray(seq(|items|, k requires 0 <= k < |items| => [items[k]])) == items
    decreases |items|
  {
    var passes := seq(|items|, k requires 0 <= k < |items| => [items[k]]);
    if items != [] {
      assert passes[1..] == seq(|items[1..]|, k requires 0 <= k < |items[1..]| => [items[1..][k]]);
      BuildArrayOfSingletons(items[1..]);
      assert items == [items[0]] + items[1..];
    }
  }
}
