/** Absolute clean paths as component sequences, and the overlap test of the share manager. */
module Paths {

  type Path = seq<string>

  /** One path lies inside the other, or they are equal. */
  predicate Overlap(a: Path, b: Path) { a <= b || b <= a }

  predicate ValidComponent(c: string) { c != "" && c != "." && c != ".." && '/' !in c }

  predicate ValidPath(p: Path) { forall i :: 0 <= i < |p| ==> ValidComponent(p[i]) }

  // ---- The program's test, on the text of a relative path ------------------

  function Common(a: Path, b: Path): nat {
    if a != [] && b != [] && a[0] == b[0] then 1 + Common(a[1..], b[1..]) else 0
  }

  function Ups(n: nat): seq<string> {
    if n == 0 then [] else [".."] + Ups(n - 1)
  }

  function Join(cs: seq<string>): string {
    if cs == [] then "." else if |cs| == 1 then cs[0] else cs[0] + "/" + Join(cs[1..])
  }

  lemma {:induction false} CommonBounds(a: Path, b: Path)
    ensures Common(a, b) <= |a| && Common(a, b) <= |b|
    ensures Common(a, b) == |a| <==> a <= b
  {
    if a != [] && b != [] && a[0] == b[0] {
      CommonBounds(a[1..], b[1..]);
      assert a == [a[0]] + a[1..] && b == [b[0]] + b[1..];
    }
  }

  /** filepath.Rel of two absolute clean paths. */
  function Rel(parent: Path, child: Path): string {
    CommonBounds(parent, child);
    Join(Ups(|parent| - Common(parent, child)) + child[Common(parent, child)..])
  }

  predicate Within(parent: Path, child: Path) {
    var r := Rel(parent, child);
    r != ".." && !("../" <= r)
  }

  /** pathsOverlap. */
  predicate PathsOverlap(a: Path, b: Path) { Within(a, b) || Within(b, a) }

  lemma JoinStartsUp(cs: seq<string>)
    requires cs != [] && '/' !in cs[0]
    ensures (Join(cs) == ".." || "../" <= Join(cs)) <==> cs[0] == ".."
  {
    var r := Join(cs);
    assert forall i :: 0 <= i < |cs[0]| ==> r[i] == cs[0][i] && cs[0][i] != '/';
    if |cs| > 1 {
      assert r == cs[0] + ("/" + Join(cs[1..]));
      assert r[|cs[0]|] == '/' && '/' in r && '/' !in "..";
      assert "../" <= r <==> |r| >= 3 && r[0] == '.' && r[1] == '.' && r[2] == '/';
      assert cs[0] == ".." <==> |cs[0]| == 2 && cs[0][0] == '.' && cs[0][1] == '.';
    } else {
      assert |r| >= 3 ==> r[2] != '/' && "../"[2] == '/';
    }
  }

  lemma WithinIsPrefix(parent: Path, child: Path)
    requires ValidPath(parent) && ValidPath(child)
    ensures Within(parent, child) <==> parent <= child
  {
    CommonBounds(parent, child);
    var n := Common(parent, child);
    var cs := Ups(|parent| - n) + child[n..];
    if |parent| > n {
      assert cs[0] == "..";
      JoinStartsUp(cs);
    } else if child[n..] != [] {
      assert cs[0] == child[n];
      JoinStartsUp(cs);
    }
  }

  /** pathsOverlap is component-prefix containment, either way round, and so symmetric. */
  lemma PathsOverlapIsContainment(a: Path, b: Path)
    requires ValidPath(a) && ValidPath(b)
    ensures PathsOverlap(a, b) <==> Overlap(a, b)
    ensures PathsOverlap(a, b) <==> PathsOverlap(b, a)
  {
    WithinIsPrefix(a, b);
    WithinIsPrefix(b, a);
  }

  predicate Inside(a: Path, p: Path) { a <= p }

  /** Two paths overlap exactly when some path lies inside both. */
  lemma OverlapIsSharedDescendant(a: Path, b: Path)
    ensures Overlap(a, b) <==> exists p: Path :: Inside(a, p) && Inside(b, p)
  {
    if p: Path :| Inside(a, p) && Inside(b, p) {
      if |a| <= |b| {
        assert a == p[..|a|] && b == p[..|b|] && p[..|b|][..|a|] == p[..|a|];
      } else {
        assert p[..|a|][..|b|] == p[..|b|];
      }
    }
    if Overlap(a, b) {
      assert (Inside(a, b) && Inside(b, b)) || (Inside(a, a) && Inside(b, a));
    }
  }
}
