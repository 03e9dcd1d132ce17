/** Staging the entries of a layer archive: files are written as they come, a hard link is made at once if
    its target is there and otherwise after the whole archive, from this layer or from a parent's copy. */
module LayerStage {
  import opened Options
  import opened Paths

  /** Opaque contents of a file. */
  type Content = string

  datatype Entry = File(name: Path, content: Content) | Link(name: Path, target: Path)

  type Tree = map<Path, Content>

  datatype Deferred = Deferred(target: Path, link: Path)

  datatype Pass = Pass(tree: Tree, deferred: seq<Deferred>)

  /** The copy in the topmost parent that has one. */
  function Topmost(parents: seq<Tree>, p: Path): (c: Option<Content>)
    ensures c.Some? <==> exists i :: 0 <= i < |parents| && p in parents[i]
    ensures c.Some? ==> exists i :: 0 <= i < |parents| && p in parents[i] && parents[i][p] == c.value && forall j :: 0 <= j < i ==> p !in parents[j]
  {
    if parents == [] then None
    else if p in parents[0] then Some(parents[0][p])
    else
      var c := Topmost(parents[1..], p);
      assert forall i :: 0 <= i < |parents[1..]| ==> parents[1..][i] == parents[i + 1];
      c
  }

  // ---- What the passes do ---------------------------------------------------

  /** A hard link fails when its target is missing or its name is taken. */
  predicate CanLink(tree: Tree, target: Path, link: Path) { target in tree && link !in tree }

  function Take(s: Pass, e: Entry): Pass {
    match e
    case File(name, content) => s.(tree := s.tree[name := content])
    case Link(name, target) =>
      if CanLink(s.tree, target, name) then s.(tree := s.tree[name := s.tree[target]])
      else s.(deferred := s.deferred + [Deferred(target, name)])
  }

  function FirstPass(es: seq<Entry>): Pass {
    if es == [] then Pass(map[], []) else Take(FirstPass(es[..|es| - 1]), es[|es| - 1])
  }

  function LinkLate(tree: Tree, d: Deferred, parents: seq<Tree>): Option<Tree> {
    if CanLink(tree, d.target, d.link) then Some(tree[d.link := tree[d.target]])
    else match Topmost(parents, d.target)
         case Some(c) => Some(tree[d.link := c])
         case None => None
  }

  function SecondPass(tree: Tree, ds: seq<Deferred>, parents: seq<Tree>): Option<Tree> {
    if ds == [] then Some(tree)
    else match SecondPass(tree, ds[..|ds| - 1], parents)
         case None => None
         case Some(t) => LinkLate(t, ds[|ds| - 1], parents)
  }

  function Staged(es: seq<Entry>, parents: seq<Tree>): Option<Tree> {
    var s := FirstPass(es);
    SecondPass(s.tree, s.deferred, parents)
  }

  method Stage(es: seq<Entry>, parents: seq<Tree>) returns (r: Option<Tree>)
    ensures r == Staged(es, parents)
  {
    var tree: Tree := map[];
    var deferred: seq<Deferred> := [];
    for i := 0 to |es|
      invariant Pass(tree, deferred) == FirstPass(es[..i])
    {
      assert es[..i + 1][..i] == es[..i];
      match es[i]
      case File(name, content) => tree := tree[name := content];
      case Link(name, target) =>
        if CanLink(tree, target, name) {
          tree := tree[name := tree[target]];
        } else {
          deferred := deferred + [Deferred(target, name)];
        }
    }
    assert es[..|es|] == es;
    ghost var first := tree;
    for i := 0 to |deferred|
      invariant Some(tree) == SecondPass(first, deferred[..i], parents)
    {
      assert deferred[..i + 1][..i] == deferred[..i];
      var d := deferred[i];
      if CanLink(tree, d.target, d.link) {
        tree := tree[d.link := tree[d.target]];
      } else {
        var c := Topmost(parents, d.target);
        if c.None? {
          MissingStaysMissing(first, deferred, parents, i + 1);
          return None;
        }
        tree := tree[d.link := c.value];
      }
    }
    assert deferred[..|deferred|] == deferred;
    r := Some(tree);
  }

  lemma {:induction false} MissingStaysMissing(tree: Tree, ds: seq<Deferred>, parents: seq<Tree>, n: nat)
    requires n <= |ds| && SecondPass(tree, ds[..n], parents) == None
    ensures SecondPass(tree, ds, parents) == None
    decreases |ds| - n
  {
    if n < |ds| {
      assert ds[..n + 1][..n] == ds[..n];
      MissingStaysMissing(tree, ds, parents, n + 1);
    } else {
      assert ds[..n] == ds;
    }
  }

  // ---- What the result should be ------------------------------------------------

  predicate Distinct(es: seq<Entry>) { forall i, j :: 0 <= i < j < |es| ==> es[i].name != es[j].name }

  /** The content of the archive's file of that name. */
  function InArchive(es: seq<Entry>, p: Path): (c: Option<Content>)
    ensures c.Some? ==> File(p, c.value) in es
    ensures c.None? ==> forall e :: e in es && e.File? ==> e.name != p
  {
    if es == [] then None
    else if es[0].File? && es[0].name == p then Some(es[0].content)
    else InArchive(es[1..], p)
  }

  /** What a link to `target` stands for: a file of the archive, or else the copy in the topmost parent that has one. */
  function Source(es: seq<Entry>, parents: seq<Tree>, target: Path): Option<Content> {
    if InArchive(es, target).Some? then InArchive(es, target) else Topmost(parents, target)
  }

  predicate AllResolvable(es: seq<Entry>, parents: seq<Tree>) {
    forall e :: e in es && e.Link? ==> Source(es, parents, e.target).Some?
  }

  /** A link to a link stands for the same as the parents' copy of that link's name. */
  predicate ChainsAgree(es: seq<Entry>, parents: seq<Tree>) {
    forall e, f :: e in es && f in es && Chained(e, f) ==> Agree(es, parents, f)
  }

  predicate Chained(e: Entry, f: Entry) { e.Link? && f.Link? && e.target == f.name && e != f }

  predicate Agree(es: seq<Entry>, parents: seq<Tree>, f: Entry) requires f.Link? {
    Topmost(parents, f.name).Some? && Topmost(parents, f.name) == Source(es, parents, f.target)
  }

  ghost predicate Suits(es: seq<Entry>, parents: seq<Tree>, e: Entry, c: Content) {
    match e
    case File(_, content) => c == content
    case Link(_, target) => Source(es, parents, target) == Some(c)
  }

  ghost predicate Made(es: seq<Entry>, parents: seq<Tree>, p: Path, c: Content) {
    exists e :: e in es && e.name == p && Suits(es, parents, e, c)
  }

  ghost predicate TreeOk(es: seq<Entry>, parents: seq<Tree>, tree: Tree) {
    forall p :: p in tree ==> Made(es, parents, p, tree[p])
  }

  /** The tree the archive describes, without regard to order. */
  ghost predicate Describes(es: seq<Entry>, parents: seq<Tree>, tree: Tree) {
    TreeOk(es, parents, tree) && forall e :: e in es ==> e.name in tree
  }

  lemma SameEntry(es: seq<Entry>, e: Entry, f: Entry)
    requires Distinct(es) && e in es && f in es && e.name == f.name
    ensures e == f
  {
    var i :| 0 <= i < |es| && es[i] == e;
    var j :| 0 <= j < |es| && es[j] == f;
    assert !(i < j) && !(j < i);
  }

  // ---- The first pass -----------------------------------------------------------

  /** After the first pass every entry is in the tree or a deferred link, and nothing else is. */
  ghost predicate Shape(es: seq<Entry>, s: Pass) {
    && (forall e :: e in es ==> e.name in s.tree || (e.Link? && Deferred(e.target, e.name) in s.deferred))
    && (forall p :: p in s.tree ==> exists e :: e in es && e.name == p)
    && (forall d :: d in s.deferred ==> Link(d.link, d.target) in es && d.link !in s.tree)
    && (forall i, j :: 0 <= i < j < |s.deferred| ==> s.deferred[i].link != s.deferred[j].link)
  }

  lemma {:induction false} FirstShape(es: seq<Entry>)
    requires Distinct(es)
    ensures Shape(es, FirstPass(es))
  {
    if es != [] {
      var before, e := es[..|es| - 1], es[|es| - 1];
      FirstShape(before);
      assert es == before + [e];
      TakeShape(before, FirstPass(before), e);
    }
  }

  lemma TakeShape(es: seq<Entry>, s: Pass, e: Entry)
    requires Shape(es, s) && forall f :: f in es ==> f.name != e.name
    ensures Shape(es + [e], Take(s, e))
  {
    var s' := Take(s, e);
    assert e.name !in s.tree;
    forall x | x in es + [e] ensures x.name in s'.tree || (x.Link? && Deferred(x.target, x.name) in s'.deferred) {
      if x !in es { assert x == e; }
    }
    forall p | p in s'.tree ensures exists x :: x in es + [e] && x.name == p {
      if p in s.tree { var x :| x in es && x.name == p; assert x in es + [e]; } else { assert e in es + [e]; }
    }
    forall d | d in s'.deferred ensures Link(d.link, d.target) in es + [e] && d.link !in s'.tree {
      if d in s.deferred { assert Link(d.link, d.target) in es; } else { assert e in es + [e]; }
    }
    forall d | d in s.deferred ensures d.link != e.name { assert Link(d.link, d.target) in es; }
  }

  /** What is copied for a link to something in the tree is what the link stands for. */
  lemma Copies(es: seq<Entry>, parents: seq<Tree>, tree: Tree, e: Entry)
    requires Distinct(es) && ChainsAgree(es, parents) && TreeOk(es, parents, tree)
    requires e in es && e.Link? && e.target in tree && e.target != e.name
    ensures Source(es, parents, e.target) == Some(tree[e.target])
  {
    var x :| x in es && x.name == e.target && Suits(es, parents, x, tree[e.target]);
    var c := InArchive(es, e.target);
    if c.Some? { SameEntry(es, x, File(e.target, c.value)); }
    if x.Link? { assert Chained(e, x) && Agree(es, parents, x); }
  }

  lemma {:induction false} FirstTree(es: seq<Entry>, parents: seq<Tree>, n: nat)
    requires Distinct(es) && ChainsAgree(es, parents) && n <= |es|
    ensures TreeOk(es, parents, FirstPass(es[..n]).tree)
  {
    hide ChainsAgree, Source, Suits;
    if n > 0 {
      FirstTree(es, parents, n - 1);
      var e := es[n - 1];
      assert es[..n][..n - 1] == es[..n - 1];
      TakeTree(es, parents, FirstPass(es[..n - 1]), e);
    }
  }

  lemma TakeTree(es: seq<Entry>, parents: seq<Tree>, s: Pass, e: Entry)
    requires Distinct(es) && ChainsAgree(es, parents) && TreeOk(es, parents, s.tree) && e in es
    ensures TreeOk(es, parents, Take(s, e).tree)
  {
    if e.Link? && CanLink(s.tree, e.target, e.name) {
      Copies(es, parents, s.tree, e);
      assert Suits(es, parents, e, s.tree[e.target]);
    }
    if e.File? { assert Suits(es, parents, e, e.content); }
  }

  // ---- The second pass ----------------------------------------------------------

  /** Deferred links that have been made, over what the first pass left. */
  ghost predicate LateOk(es: seq<Entry>, parents: seq<Tree>, tree: Tree, ds: seq<Deferred>, t: Tree) {
    && TreeOk(es, parents, t) && t.Keys == tree.Keys + (set d | d in ds :: d.link)
  }

  lemma {:induction false} SecondPassOk(es: seq<Entry>, parents: seq<Tree>, s: Pass, n: nat)
    requires Distinct(es) && ChainsAgree(es, parents) && Shape(es, s) && TreeOk(es, parents, s.tree) && n <= |s.deferred|
    ensures var r := SecondPass(s.tree, s.deferred[..n], parents);
            && (r.Some? <==> forall i :: 0 <= i < n ==> Source(es, parents, s.deferred[i].target).Some?)
            && (r.Some? ==> LateOk(es, parents, s.tree, s.deferred[..n], r.value))
  {
    hide LinkLate, Source, Shape, Distinct, ChainsAgree, TreeOk, LateOk, Topmost;
    if n == 0 {
      LateStart(es, parents, s.tree);
    } else {
      SecondPassOk(es, parents, s, n - 1);
      assert s.deferred[..n][..n - 1] == s.deferred[..n - 1];
      assert s.deferred[..n] == s.deferred[..n - 1] + [s.deferred[n - 1]];
      var r := SecondPass(s.tree, s.deferred[..n - 1], parents);
      if r.Some? { LateStep(es, parents, s, n - 1, r.value); }
    }
  }

  lemma LateStart(es: seq<Entry>, parents: seq<Tree>, tree: Tree)
    requires TreeOk(es, parents, tree)
    ensures LateOk(es, parents, tree, [], tree)
  {
  }

  lemma LateStep(es: seq<Entry>, parents: seq<Tree>, s: Pass, n: nat, t: Tree)
    requires Distinct(es) && ChainsAgree(es, parents) && Shape(es, s) && n < |s.deferred|
    requires LateOk(es, parents, s.tree, s.deferred[..n], t)
    ensures var r := LinkLate(t, s.deferred[n], parents);
            && (r.Some? <==> Source(es, parents, s.deferred[n].target).Some?)
            && (r.Some? ==> LateOk(es, parents, s.tree, s.deferred[..n] + [s.deferred[n]], r.value))
  {
    hide ChainsAgree, Distinct, TreeOk, Source;
    var d := s.deferred[n];
    var e := Link(d.link, d.target);
    assert d in s.deferred && e in es && d.link !in t;
    LateSource(es, parents, s, e, t);
    var r := LinkLate(t, d, parents);
    if r.Some? {
      TreeMore(es, parents, t, e, r.value[d.link]);
      assert r.value.Keys == s.tree.Keys + (set x | x in s.deferred[..n] + [d] :: x.link);
    }
  }

  /** What a deferred link is made of is what it stands for. */
  lemma LateSource(es: seq<Entry>, parents: seq<Tree>, s: Pass, e: Entry, t: Tree)
    requires Distinct(es) && ChainsAgree(es, parents) && Shape(es, s) && TreeOk(es, parents, t) && s.tree.Keys <= t.Keys
    requires e in es && e.Link? && e.name !in t
    ensures Source(es, parents, e.target) == if e.target in t then Some(t[e.target]) else Topmost(parents, e.target)
  {
    if e.target in t { Copies(es, parents, t, e); } else { NotInArchive(es, s, e.target, t); }
  }

  lemma TreeMore(es: seq<Entry>, parents: seq<Tree>, t: Tree, e: Entry, c: Content)
    requires TreeOk(es, parents, t) && e in es && Suits(es, parents, e, c)
    ensures TreeOk(es, parents, t[e.name := c])
  {
  }

  /** The archive's files are in the tree after the first pass. */
  lemma NotInArchive(es: seq<Entry>, s: Pass, p: Path, t: Tree)
    requires Shape(es, s) && s.tree.Keys <= t.Keys && p !in t
    ensures InArchive(es, p).None?
  {
    assert forall e :: e in es && e.File? ==> e.name in s.tree;
    assert forall c :: File(p, c) in es ==> File(p, c).name in s.tree;
  }

  /** If chains agree, staging succeeds exactly when every link stands for something, and then the tree is the one
      the archive describes. */
  lemma StageExact(es: seq<Entry>, parents: seq<Tree>)
    requires Distinct(es) && ChainsAgree(es, parents)
    ensures Staged(es, parents).Some? <==> AllResolvable(es, parents)
    ensures Staged(es, parents).Some? ==> Describes(es, parents, Staged(es, parents).value)
  {
    FirstShape(es);
    FirstTree(es, parents, |es|);
    assert es[..|es|] == es;
    var s := FirstPass(es);
    SecondPassOk(es, parents, s, |s.deferred|);
    assert s.deferred[..|s.deferred|] == s.deferred;
    DeferredDecide(es, parents, s);
    hide TreeOk, ChainsAgree, Distinct, Source, SecondPass;
    if Staged(es, parents).Some? {
      forall e | e in es ensures e.name in Staged(es, parents).value {}
    }
  }

  lemma DeferredDecide(es: seq<Entry>, parents: seq<Tree>, s: Pass)
    requires Distinct(es) && ChainsAgree(es, parents) && Shape(es, s) && TreeOk(es, parents, s.tree)
    ensures AllResolvable(es, parents) <==> forall i :: 0 <= i < |s.deferred| ==> Source(es, parents, s.deferred[i].target).Some?
  {
    hide ChainsAgree, Source;
    forall i | 0 <= i < |s.deferred| ensures Link(s.deferred[i].link, s.deferred[i].target) in es { assert s.deferred[i] in s.deferred; }
    forall e | e in es && e.Link? && e.name in s.tree ensures Source(es, parents, e.target).Some? {
      var x :| x in es && x.name == e.name && Suits(es, parents, x, s.tree[e.name]);
      SameEntry(es, x, e);
    }
    if forall i :: 0 <= i < |s.deferred| ==> Source(es, parents, s.deferred[i].target).Some? {
      forall e | e in es && e.Link? ensures Source(es, parents, e.target).Some? {
        if e.name !in s.tree { var i :| 0 <= i < |s.deferred| && s.deferred[i] == Deferred(e.target, e.name); }
      }
    }
  }

  // ---- Order --------------------------------------------------------------------------

  /** One archive describes one tree. */
  lemma DescribedOnce(es: seq<Entry>, parents: seq<Tree>, t: Tree, u: Tree)
    requires Distinct(es) && Describes(es, parents, t) && Describes(es, parents, u)
    ensures t == u
  {
    hide Source, Distinct;
    forall p | p in t || p in u ensures p in t && p in u && t[p] == u[p] {
      var e :| e in es && e.name == p;
      assert e.name in t && e.name in u;
      var x :| x in es && x.name == p && Suits(es, parents, x, t[p]);
      var y :| y in es && y.name == p && Suits(es, parents, y, u[p]);
      SameEntry(es, x, y);
    }
  }

  lemma {:induction false} DistinctCounts(es: seq<Entry>, e: Entry)
    requires Distinct(es)
    ensures multiset(es)[e] <= 1
  {
    if es != [] {
      DistinctCounts(es[1..], e);
      assert es == [es[0]] + es[1..];
      if e == es[0] { assert e !in es[1..]; }
    }
  }

  lemma TwiceCounts(es: seq<Entry>, i: nat, j: nat)
    requires i < j < |es| && es[i] == es[j]
    ensures multiset(es)[es[i]] >= 2
  {
    assert es == es[..j] + es[j..];
    assert es[..j][i] in es[..j] && es[j..][0] in es[j..];
  }

  lemma PermutedDistinct(es: seq<Entry>, fs: seq<Entry>)
    requires Distinct(es) && multiset(fs) == multiset(es)
    ensures Distinct(fs) && forall e :: e in es <==> e in fs
  {
    assert forall e :: e in es <==> e in multiset(es);
    assert forall e :: e in fs <==> e in multiset(fs);
    forall i, j | 0 <= i < j < |fs| ensures fs[i].name != fs[j].name {
      assert fs[i] in es && fs[j] in es;
      if fs[i].name == fs[j].name {
        SameEntry(es, fs[i], fs[j]);
        TwiceCounts(fs, i, j);
        DistinctCounts(es, fs[i]);
      }
    }
  }

  lemma SameSource(es: seq<Entry>, fs: seq<Entry>, parents: seq<Tree>, p: Path)
    requires Distinct(es) && forall e :: e in es <==> e in fs
    ensures Source(fs, parents, p) == Source(es, parents, p)
  {
    var c, d := InArchive(es, p), InArchive(fs, p);
    if c.Some? && d.Some? { SameEntry(es, File(p, c.value), File(p, d.value)); }
  }

  /** If chains agree the order of the entries does not matter: every permutation succeeds or fails alike, with the
      same tree. */
  lemma OrderIrrelevant(es: seq<Entry>, fs: seq<Entry>, parents: seq<Tree>)
    requires Distinct(es) && ChainsAgree(es, parents) && multiset(fs) == multiset(es)
    ensures Staged(fs, parents) == Staged(es, parents)
  {
    PermutedDistinct(es, fs);
    forall p ensures Source(fs, parents, p) == Source(es, parents, p) { SameSource(es, fs, parents, p); }
    hide Source, Distinct, Staged, Topmost;
    assert ChainsAgree(fs, parents) by {
      forall e, f | e in fs && f in fs && Chained(e, f) ensures Agree(fs, parents, f) { assert e in es && f in es && Agree(es, parents, f); }
    }
    StageExact(es, parents);
    StageExact(fs, parents);
    if Staged(es, parents).Some? {
      DescribesSame(es, fs, parents, Staged(fs, parents).value);
      DescribedOnce(es, parents, Staged(es, parents).value, Staged(fs, parents).value);
    }
  }

  lemma DescribesSame(es: seq<Entry>, fs: seq<Entry>, parents: seq<Tree>, t: Tree)
    requires (forall e :: e in es <==> e in fs) && (forall p :: Source(fs, parents, p) == Source(es, parents, p)) && Describes(fs, parents, t)
    ensures Describes(es, parents, t)
  {
    hide Source;
    forall p | p in t ensures Made(es, parents, p, t[p]) {
      var e :| e in fs && e.name == p && Suits(fs, parents, e, t[p]);
      assert e in es && Suits(es, parents, e, t[p]);
    }
  }
}
