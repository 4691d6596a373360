/** File-system paths as strings. `appendingPathComponent` on `NSString` and on `URL`
    is modelled as plain joining with a slash; components that the lemmas compare are
    required to hold no slash of their own. */
module Paths {

  /** `(dir as NSString).appendingPathComponent(component)`. */
  function Join(dir: string, component: string): string
  {
    dir + "/" + component
  }

  predicate SlashFree(component: string)
  {
    '/' !in component
  }

  /** Joining with slash-free components can be undone: equal paths have equal
      directories and equal last components. */
  lemma JoinInjective(a: string, b: string, c: string, d: string)
    requires SlashFree(b) && SlashFree(d)
    requires Join(a, b) == Join(c, d)
    ensures a == c && b == d
  {
    var p := Join(a, b);
    ParentOfJoin(a, b);
    ParentOfJoin(c, d);
    assert a == c;
    assert b == p[|a| + 1..] == d;
  }

  /** Contrapositive of JoinInjective, in the form the layout proofs use. */
  lemma JoinDiffers(a: string, b: string, c: string, d: string)
    requires SlashFree(b) && SlashFree(d)
    requires a != c || b != d
    ensures Join(a, b) != Join(c, d)
  {
    if Join(a, b) == Join(c, d) {
      JoinInjective(a, b, c, d);
    }
  }

  /** The directories above `p`: every prefix of `p` that ends just before a slash
      (the empty prefix of an absolute path excluded). */
  function Ancestors(p: string): set<string>
  {
    set i | 0 < i < |p| && p[i] == '/' :: p[..i]
  }

  /** The ancestors of `dir/c` are `dir` itself and the ancestors of `dir`. */
  lemma AncestorsOfJoin(dir: string, c: string)
    requires SlashFree(c) && dir != ""
    ensures Ancestors(Join(dir, c)) == Ancestors(dir) + {dir}
  {
    var p := Join(dir, c);
    forall q | q in Ancestors(p) ensures q in Ancestors(dir) + {dir} {
      var i :| 0 < i < |p| && p[i] == '/' && q == p[..i];
      if i < |dir| {
        assert dir[i] == '/' && q == dir[..i];
      } else {
        assert q == dir;
      }
    }
    forall q | q in Ancestors(dir) + {dir} ensures q in Ancestors(p) {
      if q == dir {
        assert p[|dir|] == '/' && p[..|dir|] == dir;
      } else {
        var i :| 0 < i < |dir| && dir[i] == '/' && q == dir[..i];
        assert p[i] == '/' && p[..i] == q;
      }
    }
  }

  /** The path up to its last slash: the directory a file path lies in. */
  function Parent(p: string): string
    decreases |p|
  {
    if p == [] then []
    else if p[|p| - 1] == '/' then p[..|p| - 1]
    else Parent(p[..|p| - 1])
  }

  lemma {:induction false} ParentOfJoin(dir: string, c: string)
    requires SlashFree(c)
    ensures Parent(Join(dir, c)) == dir
    decreases |c|
  {
    var p := Join(dir, c);
    if c == [] {
      assert p[..|p| - 1] == dir;
    } else {
      var c' := c[..|c| - 1];
      assert p[|p| - 1] == c[|c| - 1];
      assert p[..|p| - 1] == Join(dir, c');
      ParentOfJoin(dir, c');
    }
  }
}
