/**
The two lexical path normalisers and the overlap guard built on one of them.

A path is its list of components, as the platform parses it (Unix: no prefixes; a root only in front). `Walk` is
the reference meaning of a path: the directory it leads to, from a given one, where `..` stops at the root.
*/
module Paths {
  import opened Wrappers

  datatype Component = RootDir | CurDir | ParentDir | Normal(name: string)

  type Path = seq<Component>

  predicate Relative(p: Path) { forall i :: 0 <= i < |p| ==> !p[i].RootDir? }

  predicate Absolute(p: Path) { p != [] && p[0].RootDir? && Relative(p[1..]) }

  // ----- what a path means

  function WalkOne(dir: seq<string>, c: Component): seq<string> {
    match c
    case RootDir => []
    case CurDir => dir
    case ParentDir => if dir == [] then [] else dir[..|dir| - 1]
    case Normal(name) => dir + [name]
  }

  /** The directory reached from `dir`, as the names below the root. */
  function Walk(dir: seq<string>, p: Path): seq<string> {
    if p == [] then dir else WalkOne(Walk(dir, p[..|p| - 1]), p[|p| - 1])
  }

  function Named(dir: seq<string>): (p: Path)
    ensures |p| == |dir| && forall i :: 0 <= i < |p| ==> p[i] == Normal(dir[i])
  {
    seq(|dir|, i requires 0 <= i < |dir| => Normal(dir[i]))
  }

  function Rooted(dir: seq<string>): Path { [RootDir] + Named(dir) }

  lemma {:induction false} WalkConcat(dir: seq<string>, p: Path, q: Path)
    ensures Walk(dir, p + q) == Walk(Walk(dir, p), q)
  {
    if q == [] {
      assert p + q == p;
    } else {
      WalkConcat(dir, p, q[..|q| - 1]);
      assert (p + q)[..|p + q| - 1] == p + q[..|q| - 1];
    }
  }

  // ----- normalize_path_lexically

  predicate EndsInName(out: Path) { out != [] && out[|out| - 1].Normal? }

  predicate HasRoot(out: Path) { out != [] && out[0].RootDir? }

  function NormOne(out: Path, c: Component): Path {
    match c
    case RootDir => [RootDir]
    case CurDir => out
    case ParentDir => if EndsInName(out) then out[..|out| - 1] else if !HasRoot(out) then out + [ParentDir] else out
    case Normal(_) => out + [c]
  }

  function NormFrom(out: Path, p: Path): Path {
    if p == [] then out else NormOne(NormFrom(out, p[..|p| - 1]), p[|p| - 1])
  }

  function OrDot(out: Path): Path { if out == [] then [CurDir] else out }

  function Norm(p: Path): Path { OrDot(NormFrom([], p)) }

  method NormalizePathLexically(p: Path) returns (r: Path)
    ensures r == Norm(p)
  {
    var out: Path := [];
    for i := 0 to |p|
      invariant out == NormFrom([], p[..i])
    {
      assert p[..i + 1][..i] == p[..i];
      match p[i] {
        case RootDir => out := [RootDir];
        case CurDir =>
        case ParentDir =>
          if EndsInName(out) {
            out := out[..|out| - 1];
          } else if !HasRoot(out) {
            out := out + [ParentDir];
          }
        case Normal(_) => out := out + [p[i]];
      }
    }
    assert p[..|p|] == p;
    r := if out == [] then [CurDir] else out;
  }

  // ----- absolute_lexical

  function AbsOne(out: Path, c: Component): Path {
    match c
    case RootDir => [RootDir]
    case CurDir => out
    case ParentDir => if |out| <= 1 && (out == [] || out[0].RootDir?) then out else out[..|out| - 1]
    case Normal(_) => out + [c]
  }

  function AbsFrom(p: Path): Path {
    if p == [] then [] else AbsOne(AbsFrom(p[..|p| - 1]), p[|p| - 1])
  }

  /** `cwd` is the current directory, or the root when there is none. */
  function AbsoluteOf(cwd: seq<string>, p: Path): Path { if HasRoot(p) then AbsFrom(p) else AbsFrom(Rooted(cwd) + p) }

  method AbsoluteLexical(cwd: seq<string>, p: Path) returns (r: Path)
    ensures r == AbsoluteOf(cwd, p)
  {
    var abs := if HasRoot(p) then p else Rooted(cwd) + p;
    r := [];
    for i := 0 to |abs|
      invariant r == AbsFrom(abs[..i])
    {
      assert abs[..i + 1][..i] == abs[..i];
      match abs[i] {
        case CurDir =>
        case ParentDir =>
          if !(|r| <= 1 && (r == [] || r[0].RootDir?)) {
            r := r[..|r| - 1];
          }
        case RootDir => r := [RootDir];
        case Normal(_) => r := r + [abs[i]];
      }
    }
    assert abs[..|abs|] == abs;
  }

  // ----- they mean the same

  lemma {:induction false} AbsIsWalk(p: Path)
    requires Absolute(p)
    ensures AbsFrom(p) == Rooted(Walk([], p))
  {
    var n := |p| - 1;
    if n == 0 {
      assert p[..0] == [];
    } else {
      AbsIsWalk(p[..n]);
      AbsWalkStep(Walk([], p[..n]), p[n]);
    }
  }

  lemma AbsWalkStep(dir: seq<string>, c: Component)
    ensures AbsOne(Rooted(dir), c) == Rooted(WalkOne(dir, c))
    ensures NormOne(Rooted(dir), c) == Rooted(WalkOne(dir, c))
  {
  }

  lemma {:induction false} WalkRooted(dir: seq<string>, base: seq<string>)
    ensures Walk(base, Rooted(dir)) == dir
  {
    if dir == [] {
      assert Rooted(dir) == [RootDir];
      assert Rooted(dir)[..0] == [];
    } else {
      var n := |dir| - 1;
      WalkRooted(dir[..n], base);
      assert Rooted(dir)[..|dir|] == Rooted(dir[..n]);
    }
  }

  /** Whatever the path, `absolute_lexical` names the directory the path leads to from the current one. */
  lemma AbsoluteMeans(cwd: seq<string>, p: Path)
    requires Relative(p) || Absolute(p)
    ensures AbsoluteOf(cwd, p) == Rooted(Walk(cwd, p))
  {
    if HasRoot(p) {
      AbsIsWalk(p);
      assert p == [RootDir] + p[1..];
      WalkConcat(cwd, [RootDir], p[1..]);
      WalkConcat([], [RootDir], p[1..]);
      WalkRooted([], cwd);
      WalkRooted([], []);
      assert Rooted([]) == [RootDir];
    } else {
      AbsIsWalk(Rooted(cwd) + p);
      WalkConcat([], Rooted(cwd), p);
      WalkRooted(cwd, []);
    }
  }

  predicate UpThenNames(out: Path, k: nat) {
    k <= |out| && (forall i :: 0 <= i < k ==> out[i].ParentDir?) && (forall i :: k <= i < |out| ==> out[i].Normal?)
  }

  /** Normal forms: the root and names below it, or parents and then names. */
  ghost predicate IsNormal(out: Path) {
    (HasRoot(out) && forall i :: 1 <= i < |out| ==> out[i].Normal?) || exists k: nat :: UpThenNames(out, k)
  }

  lemma NormOneIsNormal(out: Path, c: Component)
    requires IsNormal(out)
    ensures IsNormal(NormOne(out, c))
  {
    if !HasRoot(out) && !c.RootDir? {
      var k: nat :| UpThenNames(out, k);
      var now := NormOne(out, c);
      var k' := if c.ParentDir? && !EndsInName(out) then |now| else k;
      assert UpThenNames(now, k');
    }
  }

  lemma {:induction false} NormIsNormal(p: Path)
    ensures IsNormal(NormFrom([], p))
  {
    if p == [] {
      assert UpThenNames([], 0);
    } else {
      NormIsNormal(p[..|p| - 1]);
      NormOneIsNormal(NormFrom([], p[..|p| - 1]), p[|p| - 1]);
    }
  }

  lemma {:induction false} NormalStays(p: Path)
    requires IsNormal(p)
    ensures NormFrom([], p) == p
  {
    if p != [] {
      var n := |p| - 1;
      PrefixIsNormal(p);
      NormalStays(p[..n]);
      assert p == p[..n] + [p[n]];
    }
  }

  lemma PrefixIsNormal(p: Path)
    requires p != [] && IsNormal(p)
    ensures IsNormal(p[..|p| - 1]) && (p[|p| - 1].ParentDir? ==> !EndsInName(p[..|p| - 1]) && !HasRoot(p[..|p| - 1]))
    ensures !p[|p| - 1].CurDir? && (p[|p| - 1].RootDir? ==> |p| == 1)
  {
    var init := p[..|p| - 1];
    if HasRoot(p) {
      if init == [] { assert UpThenNames([], 0); }
    } else {
      var k: nat :| UpThenNames(p, k);
      var k' := if k == |p| then k - 1 else k;
      assert UpThenNames(init, k');
    }
  }

  lemma NormFromOrDot(p: Path)
    ensures NormFrom([], OrDot(p)) == NormFrom([], p)
  {
    if p == [] { assert OrDot(p)[..0] == []; }
  }

  /** Normalising twice is normalising once. */
  lemma NormIsIdempotent(p: Path)
    ensures Norm(Norm(p)) == Norm(p)
  {
    NormIsNormal(p);
    NormalStays(NormFrom([], p));
    NormFromOrDot(NormFrom([], p));
  }

  lemma {:induction false} NormFromConcat(out: Path, p: Path, q: Path)
    ensures NormFrom(out, p + q) == NormFrom(NormFrom(out, p), q)
  {
    if q == [] {
      assert p + q == p;
    } else {
      NormFromConcat(out, p, q[..|q| - 1]);
      assert (p + q)[..|p + q| - 1] == p + q[..|q| - 1];
    }
  }

  /** Normalising a directory first does not change what a path below it normalises to. */
  lemma NormOfJoin(p: Path, q: Path)
    requires Relative(q)
    ensures Norm(p + q) == Norm(Norm(p) + q)
  {
    NormFromConcat([], p, q);
    NormFromConcat([], Norm(p), q);
    NormIsNormal(p);
    NormalStays(NormFrom([], p));
    NormFromOrDot(NormFrom([], p));
  }

  lemma {:induction false} NormKeepsWalk(dir: seq<string>, p: Path)
    requires Relative(p) || Absolute(p)
    ensures Walk(dir, NormFrom([], p)) == Walk(dir, p)
  {
    if p != [] {
      var n := |p| - 1;
      assert Relative(p[..n]) || Absolute(p[..n]);
      NormKeepsWalk(dir, p[..n]);
      NormIsNormal(p[..n]);
      NormOneWalks(dir, NormFrom([], p[..n]), p[n]);
    }
  }

  lemma NormOneWalks(dir: seq<string>, out: Path, c: Component)
    requires IsNormal(out)
    ensures Walk(dir, NormOne(out, c)) == WalkOne(Walk(dir, out), c)
  {
    match c
    case RootDir => assert [c][..0] == [];
    case CurDir =>
    case Normal(_) => assert (out + [c])[..|out|] == out;
    case ParentDir =>
      if EndsInName(out) {
      } else if !HasRoot(out) {
        assert (out + [c])[..|out|] == out;
      } else {
        assert out == [RootDir];
        assert out[..0] == [];
      }
  }

  /** `normalize_path_lexically` keeps the meaning of every path, from wherever it is read. */
  lemma NormMeans(dir: seq<string>, p: Path)
    requires Relative(p) || Absolute(p)
    ensures Walk(dir, Norm(p)) == Walk(dir, p)
  {
    NormKeepsWalk(dir, p);
    if NormFrom([], p) == [] { assert Norm(p)[..0] == []; }
  }

  lemma {:induction false} RootStays(p: Path)
    requires Relative(p) || Absolute(p)
    ensures HasRoot(NormFrom([], p)) <==> Absolute(p)
  {
    if p != [] {
      var n := |p| - 1;
      assert Relative(p[..n]) || Absolute(p[..n]);
      RootStays(p[..n]);
      if n == 0 { assert p[..0] == []; }
    }
  }

  /** A normal form is a dot, or parents and then names, or the root and then names; a rooted path stays rooted. */
  lemma NormShape(p: Path)
    requires Relative(p) || Absolute(p)
    ensures var r := Norm(p);
            if Absolute(p) then r != [] && r[0] == RootDir && forall i :: 1 <= i < |r| ==> r[i].Normal?
            else r == [CurDir] || (r != [] && exists k: nat :: UpThenNames(r, k))
  {
    NormIsNormal(p);
    RootStays(p);
  }

  /** The two normalisers agree on absolute paths. */
  lemma NormalisersAgree(cwd: seq<string>, p: Path)
    requires Absolute(p)
    ensures Norm(p) == AbsoluteOf(cwd, p)
  {
    AbsoluteMeans(cwd, p);
    AbsoluteMeans([], p);
    AbsIsWalk(p);
    NormIsRooted(p);
  }

  lemma {:induction false} NormIsRooted(p: Path)
    requires Absolute(p)
    ensures NormFrom([], p) == Rooted(Walk([], p))
  {
    var n := |p| - 1;
    if n == 0 {
      assert p[..0] == [];
    } else {
      NormIsRooted(p[..n]);
      AbsWalkStep(Walk([], p[..n]), p[n]);
    }
  }

  // ----- assert_disjoint

  /** `dir` is `top` or lies inside it. */
  predicate Inside(dir: seq<string>, top: seq<string>) { top <= dir }

  /** Both overlap tests, component by component. */
  method AssertDisjoint(cwd: seq<string>, a: Path, b: Path) returns (ok: bool)
    requires (Relative(a) || Absolute(a)) && (Relative(b) || Absolute(b))
    ensures ok <==> forall dir :: !(Inside(dir, Walk(cwd, a)) && Inside(dir, Walk(cwd, b)))
  {
    var na := AbsoluteLexical(cwd, a);
    var nb := AbsoluteLexical(cwd, b);
    AbsoluteMeans(cwd, a);
    AbsoluteMeans(cwd, b);
    RootedPrefix(Walk(cwd, a), Walk(cwd, b));
    RootedPrefix(Walk(cwd, b), Walk(cwd, a));
    SharedIffNested(Walk(cwd, a), Walk(cwd, b));
    ok := !(nb <= na || na <= nb);
  }

  lemma RootedPrefix(a: seq<string>, b: seq<string>)
    ensures Rooted(a) <= Rooted(b) <==> a <= b
  {
    if Rooted(a) <= Rooted(b) {
      forall i | 0 <= i < |a| ensures i < |b| && a[i] == b[i] { assert Rooted(a)[i + 1] == Rooted(b)[i + 1]; }
    }
  }

  /** Two subtrees share a directory exactly when one contains the other's root. */
  lemma SharedIffNested(a: seq<string>, b: seq<string>)
    ensures (exists dir :: Inside(dir, a) && Inside(dir, b)) <==> a <= b || b <= a
  {
    if a <= b { assert Inside(b, a) && Inside(b, b); }
    if b <= a { assert Inside(a, a) && Inside(a, b); }
    if dir :| Inside(dir, a) && Inside(dir, b) {
      assert a == dir[..|a|] && b == dir[..|b|];
    }
  }
}
