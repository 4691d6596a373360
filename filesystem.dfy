/** The part of Foundation's `FileManager` and `String.write(toFile:)` that the
    generators use, over an abstract file system: a set of directory paths and a map
    from file path to contents. */
module FileSystem {
  import opened Paths

  datatype FsState = FsState(dirs: set<string>, files: map<string, string>)

  /** One change to the file system. */
  datatype FsOp =
    | MakeDir(path: string)                     // createDirectory(atPath:withIntermediateDirectories: true)
    | WriteFile(path: string, contents: string) // write(toFile:atomically:encoding:)

  /** Creating a directory also creates every missing ancestor, and is create-if-absent;
      writing a file replaces the whole file. */
  function Perform(s: FsState, op: FsOp): FsState
  {
    match op
    case MakeDir(p) => s.(dirs := s.dirs + {p} + Ancestors(p))
    case WriteFile(p, c) => s.(files := s.files[p := c])
  }

  /** The changes performed one after the other. */
  function Apply(s: FsState, ops: seq<FsOp>): FsState
    decreases |ops|
  {
    if ops == [] then s else Apply(Perform(s, ops[0]), ops[1..])
  }

  /** The directories one change creates. */
  function CreatedBy(op: FsOp): set<string>
  {
    match op
    case MakeDir(p) => {p} + Ancestors(p)
    case WriteFile(_, _) => {}
  }

  /** The file one change writes. */
  function WrittenBy(op: FsOp): map<string, string>
  {
    match op
    case MakeDir(_) => map[]
    case WriteFile(p, c) => map[p := c]
  }

  /** Every directory the changes create. */
  function Created(ops: seq<FsOp>): set<string>
    decreases |ops|
  {
    if ops == [] then {} else CreatedBy(ops[0]) + Created(ops[1..])
  }

  /** Every file the changes write, with the contents of the last write to it. */
  function Written(ops: seq<FsOp>): map<string, string>
    decreases |ops|
  {
    if ops == [] then map[] else WrittenBy(ops[0]) + Written(ops[1..])
  }

  lemma {:induction false} ApplyAppend(s: FsState, a: seq<FsOp>, b: seq<FsOp>)
    ensures Apply(s, a + b) == Apply(Apply(s, a), b)
    decreases |a|
  {
    if a != [] {
      assert (a + b)[0] == a[0] && (a + b)[1..] == a[1..] + b;
      ApplyAppend(Perform(s, a[0]), a[1..], b);
    } else {
      assert a + b == b;
    }
  }

  /** One more change after a run of changes. */
  lemma ApplySnoc(s: FsState, ops: seq<FsOp>, op: FsOp)
    ensures Apply(s, ops + [op]) == Perform(Apply(s, ops), op)
  {
    ApplyAppend(s, ops, [op]);
    assert Apply(Apply(s, ops), [op]) == Apply(Perform(Apply(s, ops), op), []);
  }

  /** Two directories in a row. */
  lemma ApplyTwoDirs(s: FsState, d1: string, d2: string)
    ensures Apply(s, [MakeDir(d1), MakeDir(d2)]) == Perform(Perform(s, MakeDir(d1)), MakeDir(d2))
  {
    ApplySnoc(s, [], MakeDir(d1));
    ApplySnoc(s, [MakeDir(d1)], MakeDir(d2));
    assert [MakeDir(d1)] + [MakeDir(d2)] == [MakeDir(d1), MakeDir(d2)];
  }

  /** Three writes in a row. */
  lemma ApplyThreeWrites(s: FsState, p1: string, c1: string, p2: string, c2: string, p3: string, c3: string)
    ensures Apply(s, [WriteFile(p1, c1), WriteFile(p2, c2), WriteFile(p3, c3)])
            == s.(files := s.files[p1 := c1][p2 := c2][p3 := c3])
  {
    var ops := [WriteFile(p1, c1), WriteFile(p2, c2), WriteFile(p3, c3)];
    ApplySnoc(s, [], ops[0]);
    ApplySnoc(s, [ops[0]], ops[1]);
    ApplySnoc(s, [ops[0], ops[1]], ops[2]);
    assert [ops[0]] + [ops[1]] == [ops[0], ops[1]];
    assert [ops[0], ops[1]] + [ops[2]] == ops;
  }

  /** A directory and a file written into it. */
  lemma EffectOfDirAndFile(d: string, f: string, c: string)
    ensures Created([MakeDir(d), WriteFile(f, c)]) == {d} + Ancestors(d)
    ensures Written([MakeDir(d), WriteFile(f, c)]) == map[f := c]
  {
    var ops := [MakeDir(d), WriteFile(f, c)];
    EffectCons(ops[1], []);
    EffectCons(ops[0], [ops[1]]);
    assert ops == [ops[0]] + ([ops[1]] + []);
  }

  /** What a run of changes creates and writes, taken apart at its first change. */
  lemma EffectCons(op: FsOp, rest: seq<FsOp>)
    ensures Created([op] + rest) == CreatedBy(op) + Created(rest)
    ensures Written([op] + rest) == WrittenBy(op) + Written(rest)
  {
    assert ([op] + rest)[1..] == rest;
  }

  lemma {:induction false} CreatedAppend(a: seq<FsOp>, b: seq<FsOp>)
    ensures Created(a + b) == Created(a) + Created(b)
    decreases |a|
  {
    if a != [] {
      assert (a + b)[0] == a[0] && (a + b)[1..] == a[1..] + b;
      CreatedAppend(a[1..], b);
    } else {
      assert a + b == b;
    }
  }

  lemma {:induction false} WrittenAppend(a: seq<FsOp>, b: seq<FsOp>)
    ensures Written(a + b) == Written(a) + Written(b)
    decreases |a|
  {
    if a != [] {
      assert (a + b)[0] == a[0] && (a + b)[1..] == a[1..] + b;
      WrittenAppend(a[1..], b);
      MapUnionAssociative(WrittenBy(a[0]), Written(a[1..]), Written(b));
    } else {
      assert a + b == b;
    }
  }

  /** The net effect of a run of changes: the directories they create are added, the
      files they write hold their last contents, and nothing else changes. */
  lemma {:induction false} ApplyEffect(s: FsState, ops: seq<FsOp>)
    ensures Apply(s, ops) == FsState(s.dirs + Created(ops), s.files + Written(ops))
    decreases |ops|
  {
    if ops != [] {
      var s' := Perform(s, ops[0]);
      ApplyEffect(s', ops[1..]);
      match ops[0]
      case MakeDir(p) =>
        assert WrittenBy(ops[0]) == map[];
        assert Written(ops) == Written(ops[1..]);
      case WriteFile(p, c) =>
        UpdateThenUnion(s.files, p, c, Written(ops[1..]));
    }
  }

  lemma MapUnionAssociative(x: map<string, string>, y: map<string, string>, z: map<string, string>)
    ensures (x + y) + z == x + (y + z)
  {
  }

  lemma UnionThenUpdate(m: map<string, string>, w: map<string, string>, p: string, c: string)
    ensures m + w[p := c] == (m + w)[p := c]
  {
  }

  lemma UpdateThenUnion(m: map<string, string>, p: string, c: string, w: map<string, string>)
    ensures m[p := c] + w == m + (map[p := c] + w)
  {
  }

  /** Performing the same changes a second time changes nothing more: directory creation
      is create-if-absent and every write replaces a whole file. */
  lemma ApplyIdempotent(s: FsState, ops: seq<FsOp>)
    ensures Apply(Apply(s, ops), ops) == Apply(s, ops)
  {
    ApplyEffect(s, ops);
    ApplyEffect(Apply(s, ops), ops);
    var w := Written(ops);
    assert (s.files + w) + w == s.files + w;
  }

  /** Each write goes to a file whose directory exists at that moment, so
      `write(toFile:)` never fails for a missing directory. */
  predicate WritesIntoExistingDirs(s: FsState, ops: seq<FsOp>)
    decreases |ops|
  {
    ops == [] ||
    ((ops[0].WriteFile? ==> Parent(ops[0].path) in s.dirs) &&
     WritesIntoExistingDirs(Perform(s, ops[0]), ops[1..]))
  }

  lemma {:induction false} WritesIntoExistingDirsAppend(s: FsState, a: seq<FsOp>, b: seq<FsOp>)
    requires WritesIntoExistingDirs(s, a) && WritesIntoExistingDirs(Apply(s, a), b)
    ensures WritesIntoExistingDirs(s, a + b)
    decreases |a|
  {
    if a != [] {
      assert (a + b)[0] == a[0] && (a + b)[1..] == a[1..] + b;
      WritesIntoExistingDirsAppend(Perform(s, a[0]), a[1..], b);
    } else {
      assert a + b == b;
    }
  }

  /** A run of changes followed by one last write. */
  lemma EffectThenWrite(ops: seq<FsOp>, p: string, c: string)
    ensures Created(ops + [WriteFile(p, c)]) == Created(ops)
    ensures Written(ops + [WriteFile(p, c)]) == Written(ops)[p := c]
  {
    var w := [WriteFile(p, c)];
    assert Created(w) == {} && Written(w) == map[p := c] by {
      EffectCons(WriteFile(p, c), []);
      assert [WriteFile(p, c)] + [] == w;
    }
    assert Created(ops + w) == Created(ops) by {
      CreatedAppend(ops, w);
    }
    assert Written(ops + w) == Written(ops) + map[p := c] by {
      WrittenAppend(ops, w);
    }
    UnionSingleton(Written(ops), p, c);
  }

  lemma UnionSingleton(m: map<string, string>, p: string, c: string)
    ensures m + map[p := c] == m[p := c]
  {
  }

  /** Two directories created before a run of changes. */
  lemma DirsThenEffect(d1: string, d2: string, ops: seq<FsOp>)
    ensures Created([MakeDir(d1), MakeDir(d2)] + ops) == {d1} + Ancestors(d1) + {d2} + Ancestors(d2) + Created(ops)
    ensures Written([MakeDir(d1), MakeDir(d2)] + ops) == Written(ops)
  {
    var start := [MakeDir(d1), MakeDir(d2)];
    EffectCons(start[1], ops);
    EffectCons(start[0], [start[1]] + ops);
    assert start + ops == [start[0]] + ([start[1]] + ops);
  }

  /** Writes land in a run that starts with two directories, continues with changes
      whose writes land, and ends with a write into one of the run's directories. */
  lemma WritesLandAroundDirs(s: FsState, d1: string, d2: string, ops: seq<FsOp>, p: string, c: string)
    requires WritesIntoExistingDirs(Apply(s, [MakeDir(d1), MakeDir(d2)]), ops)
    requires Parent(p) in {d1} + Ancestors(d1) + {d2} + Ancestors(d2)
    ensures WritesIntoExistingDirs(s, [MakeDir(d1), MakeDir(d2)] + ops + [WriteFile(p, c)])
  {
    var start := [MakeDir(d1), MakeDir(d2)];
    assert WritesIntoExistingDirs(s, start) by {
      assert start[1..][1..] == [];
      assert WritesIntoExistingDirs(Perform(s, start[0]), start[1..]);
    }
    WritesIntoExistingDirsAppend(s, start, ops);
    ApplyEffect(s, start + ops);
    DirsThenEffect(d1, d2, ops);
    var write := [WriteFile(p, c)];
    assert WritesIntoExistingDirs(Apply(s, start + ops), write) by {
      assert write[1..] == [];
    }
    WritesIntoExistingDirsAppend(s, start + ops, write);
  }

  /** The file manager: its state is changed in place, one call at a time. */
  class FileManager {
    var directories: set<string>
    var files: map<string, string>

    function State(): FsState
      reads this
    {
      FsState(directories, files)
    }

    constructor (initial: FsState)
      ensures State() == initial
    {
      directories := initial.dirs;
      files := initial.files;
    }

    /** `createDirectory(atPath: path, withIntermediateDirectories: true)`. */
    method CreateDirectory(path: string)
      modifies this
      ensures State() == Perform(old(State()), MakeDir(path))
    {
      directories := directories + {path} + Ancestors(path);
    }

    /** `contents.write(toFile: path, atomically: true, encoding: .utf8)`. */
    method Write(path: string, contents: string)
      modifies this
      ensures State() == Perform(old(State()), WriteFile(path, contents))
    {
      files := files[path := contents];
    }
  }
}
