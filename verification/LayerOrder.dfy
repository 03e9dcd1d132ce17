/** When the order of an archive's entries matters to staging: exactly when a link to a link could stand for
    something else in the parents than in the archive. */
module LayerOrder {
  import opened Options
  import opened Paths
  import opened LayerStage

  // ---- Two orders -------------------------------------------------------------

  function Links(es: seq<Entry>): (ls: seq<Entry>)
    ensures forall e :: e in ls <==> e in es && e.Link?
  {
    if es == [] then [] else (if es[0].Link? then [es[0]] else []) + Links(es[1..])
  }

  function Files(es: seq<Entry>): (fs: seq<Entry>)
    ensures forall e :: e in fs <==> e in es && e.File?
  {
    if es == [] then [] else (if es[0].File? then [es[0]] else []) + Files(es[1..])
  }

  function Without(es: seq<Entry>, e: Entry): (rest: seq<Entry>)
    ensures forall x :: x in rest <==> x in es && x != e
  {
    if es == [] then [] else (if es[0] == e then [] else [es[0]]) + Without(es[1..], e)
  }

  lemma {:induction false} Partition(es: seq<Entry>)
    ensures multiset(Links(es)) + multiset(Files(es)) == multiset(es)
  {
    if es != [] {
      Partition(es[1..]);
      assert es == [es[0]] + es[1..];
    }
  }

  lemma {:induction false} WithoutCounts(es: seq<Entry>, e: Entry)
    ensures multiset(Without(es, e)) == multiset(es)[e := 0]
  {
    if es != [] {
      WithoutCounts(es[1..], e);
      assert es == [es[0]] + es[1..];
    }
  }

  function Rest(es: seq<Entry>, e: Entry, f: Entry): seq<Entry> { Without(Without(es, e), f) }

  /** The link before the link it names, and all links before all files. */
  function Early(es: seq<Entry>, e: Entry, f: Entry): seq<Entry> {
    [e, f] + Links(Rest(es, e, f)) + Files(Rest(es, e, f))
  }

  /** The link after the link it names, and that one after its own file if it has one. */
  function Late(es: seq<Entry>, e: Entry, f: Entry): seq<Entry> requires f.Link? {
    if InArchive(es, f.target).Some? then Files(Rest(es, e, f)) + [f, e] + Links(Rest(es, e, f))
    else [f, e] + Links(Rest(es, e, f)) + Files(Rest(es, e, f))
  }

  lemma TwoOrders(es: seq<Entry>, e: Entry, f: Entry)
    requires Distinct(es) && e in es && f in es && Chained(e, f)
    ensures multiset(Early(es, e, f)) == multiset(es) == multiset(Late(es, e, f))
  {
    hide Links, Files, Without, InArchive, Distinct;
    WithoutCounts(es, e);
    WithoutCounts(Without(es, e), f);
    OnceCounts(es, e);
    OnceCounts(es, f);
    TwoOut(multiset(es), e, f);
    Partition(Rest(es, e, f));
  }

  lemma OnceCounts(es: seq<Entry>, e: Entry)
    requires Distinct(es) && e in es
    ensures multiset(es)[e] == 1
  {
    DistinctCounts(es, e);
    assert e in multiset(es);
  }

  lemma TwoOut(m: multiset<Entry>, e: Entry, f: Entry)
    requires m[e] == 1 && m[f] == 1 && e != f
    ensures m[e := 0][f := 0] + multiset{e, f} == m
  {
  }

  // ---- Passes over such orders ----------------------------------------------------

  function Deferrals(ls: seq<Entry>): (ds: seq<Deferred>)
    requires forall l :: l in ls ==> l.Link?
    ensures |ds| == |ls| && forall i :: 0 <= i < |ls| ==> ds[i] == Deferred(ls[i].target, ls[i].name)
  {
    seq(|ls|, i requires 0 <= i < |ls| => Deferred(ls[i].target, ls[i].name))
  }

  lemma FirstMore(es: seq<Entry>, e: Entry)
    ensures FirstPass(es + [e]) == Take(FirstPass(es), e)
  {
    assert (es + [e])[..|es|] == es;
  }

  /** Links before all files are all deferred, in order. */
  lemma {:induction false} LinksOnly(ls: seq<Entry>)
    requires forall l :: l in ls ==> l.Link?
    ensures FirstPass(ls) == Pass(map[], Deferrals(ls))
  {
    if ls != [] {
      var before, l := ls[..|ls| - 1], ls[|ls| - 1];
      assert ls == before + [l] && l in ls;
      assert forall x :: x in before ==> x in ls;
      LinksOnly(before);
      FirstMore(before, l);
      assert Deferrals(ls) == Deferrals(before) + [Deferred(l.target, l.name)];
    }
  }

  lemma {:induction false} LinksThenFiles(ls: seq<Entry>, fs: seq<Entry>)
    requires (forall l :: l in ls ==> l.Link?) && forall x :: x in fs ==> x.File?
    ensures FirstPass(ls + fs).deferred == Deferrals(ls)
    ensures forall p :: p in FirstPass(ls + fs).tree ==> exists x :: x in fs && x.name == p
  {
    if fs == [] {
      assert ls + fs == ls;
      LinksOnly(ls);
    } else {
      var before, x := fs[..|fs| - 1], fs[|fs| - 1];
      assert forall y :: y in before ==> y in fs;
      assert x in fs && ls + fs == (ls + before) + [x];
      LinksThenFiles(ls, before);
      FirstMore(ls + before, x);
    }
  }

  /** Entries of other names leave a path of the first pass alone. */
  lemma {:induction false} FirstKeeps(es: seq<Entry>, more: seq<Entry>, p: Path)
    requires p in FirstPass(es).tree && forall e :: e in more ==> e.name != p
    ensures p in FirstPass(es + more).tree && FirstPass(es + more).tree[p] == FirstPass(es).tree[p]
  {
    if more == [] {
      assert es + more == es;
    } else {
      var before, e := more[..|more| - 1], more[|more| - 1];
      assert forall x :: x in before ==> x in more;
      assert e in more && es + more == (es + before) + [e];
      FirstKeeps(es, before, p);
      FirstMore(es + before, e);
    }
  }

  /** If the second pass succeeds so does its beginning, and what that made of a path other links do not name stays. */
  lemma {:induction false} SecondKeeps(t: Tree, ds: seq<Deferred>, parents: seq<Tree>, n: nat, p: Path)
    requires n <= |ds| && SecondPass(t, ds, parents).Some? && forall i :: n <= i < |ds| ==> ds[i].link != p
    ensures SecondPass(t, ds[..n], parents).Some?
    ensures var early := SecondPass(t, ds[..n], parents).value; var all := SecondPass(t, ds, parents).value;
            p in early ==> p in all && all[p] == early[p]
  {
    if n == |ds| {
      assert ds[..n] == ds;
    } else {
      var before := ds[..|ds| - 1];
      SecondKeeps(t, before, parents, n, p);
      assert before[..n] == ds[..n];
    }
  }

  lemma SecondMore(t: Tree, ds: seq<Deferred>, parents: seq<Tree>, n: nat)
    requires n < |ds|
    ensures SecondPass(t, ds[..n + 1], parents)
            == match SecondPass(t, ds[..n], parents) case None => None case Some(u) => LinkLate(u, ds[n], parents)
  {
    assert ds[..n + 1][..n] == ds[..n];
  }

  lemma SecondNone(t: Tree, ds: seq<Deferred>, parents: seq<Tree>)
    ensures SecondPass(t, ds[..0], parents) == Some(t)
  {
  }

  lemma NameApart(es: seq<Entry>, i: nat, j: nat)
    requires Distinct(es) && i < |es| && j < |es| && i != j
    ensures es[i].name != es[j].name
  {
  }

  /** Before the link it names, a link becomes the parents' copy of that name, or staging fails. */
  lemma EarlyContent(e: Entry, f: Entry, ls: seq<Entry>, fs: seq<Entry>, parents: seq<Tree>)
    requires Distinct([e, f] + ls + fs) && Chained(e, f) && (forall l :: l in ls ==> l.Link?) && forall x :: x in fs ==> x.File?
    requires Staged([e, f] + ls + fs, parents).Some?
    ensures var t := Staged([e, f] + ls + fs, parents).value; e.name in t && Topmost(parents, f.name) == Some(t[e.name])
  {
    var es := [e, f] + ls + fs;
    var s := FirstPass(es);
    LinksThenFiles([e, f] + ls, fs);
    NamesApart(es, 2 + |ls|);
    var ds := s.deferred;
    assert f.name !in s.tree && e.name !in s.tree by {
      assert es[0] == e && es[1] == f;
    }
    SecondNone(s.tree, ds, parents);
    SecondMore(s.tree, ds, parents, 0);
    forall i | 1 <= i < |ds| ensures ds[i].link != e.name { assert ds[i].link == es[i].name; NameApart(es, 0, i); }
    hide SecondPass, FirstPass;
    SecondKeeps(s.tree, ds, parents, 1, e.name);
  }

  /** After the link it names, a link becomes what that one stands for, or staging fails: with no file behind it, ... */
  lemma LateContent(e: Entry, f: Entry, ls: seq<Entry>, fs: seq<Entry>, parents: seq<Tree>)
    requires Distinct([f, e] + ls + fs) && Chained(e, f) && (forall l :: l in ls ==> l.Link?) && forall x :: x in fs ==> x.File?
    requires (forall x :: x in fs ==> x.name != f.target) && Staged([f, e] + ls + fs, parents).Some?
    ensures var t := Staged([f, e] + ls + fs, parents).value; e.name in t && Topmost(parents, f.target) == Some(t[e.name])
  {
    var es := [f, e] + ls + fs;
    var s := FirstPass(es);
    LinksThenFiles([f, e] + ls, fs);
    NamesApart(es, 2 + |ls|);
    var ds := s.deferred;
    assert f.target !in s.tree && f.name !in s.tree && e.name !in s.tree && e.name != f.name by {
      assert es[0] == f && es[1] == e;
      NameApart(es, 0, 1);
    }
    SecondNone(s.tree, ds, parents);
    SecondMore(s.tree, ds, parents, 0);
    SecondMore(s.tree, ds, parents, 1);
    forall i | 2 <= i < |ds| ensures ds[i].link != e.name { assert ds[i].link == es[i].name; NameApart(es, 1, i); }
    hide SecondPass, FirstPass;
    SecondKeeps(s.tree, ds, parents, 2, e.name);
  }

  /** ... and with a file behind it. */
  lemma LateFileContent(e: Entry, f: Entry, ls: seq<Entry>, fs: seq<Entry>, parents: seq<Tree>, c: Content)
    requires Distinct(fs + [f, e] + ls) && Chained(e, f) && (forall l :: l in ls ==> l.Link?) && forall x :: x in fs ==> x.File?
    requires File(f.target, c) in fs && Staged(fs + [f, e] + ls, parents).Some?
    ensures var t := Staged(fs + [f, e] + ls, parents).value; e.name in t && t[e.name] == c
  {
    var es := fs + [f, e] + ls;
    var n := |fs|;
    FilesOnly(fs, File(f.target, c), es);
    assert es[n] == f && es[n + 1] == e;
    NameApart(es, n, n + 1);
    FirstMore(fs, f);
    FirstMore(fs + [f], e);
    assert fs + [f] + [e] == fs + [f, e];
    NotAmongFiles(fs, es, n);
    NotAmongFiles(fs, es, n + 1);
    forall l | l in ls ensures l.name != e.name {
      var i :| 0 <= i < |ls| && ls[i] == l;
      assert es[n + 2 + i] == l;
      NameApart(es, n + 1, n + 2 + i);
    }
    FirstKeeps(fs + [f, e], ls, e.name);
    FirstShape(es);
    var s := FirstPass(es);
    forall i | 0 <= i < |s.deferred| ensures s.deferred[i].link != e.name { assert s.deferred[i] in s.deferred; }
    SecondNone(s.tree, s.deferred, parents);
    hide SecondPass, FirstPass;
    SecondKeeps(s.tree, s.deferred, parents, 0, e.name);
  }

  /** Files alone make the tree of their contents. */
  lemma {:induction false} FilesOnly(fs: seq<Entry>, x: Entry, es: seq<Entry>)
    requires fs <= es && Distinct(es) && (forall y :: y in fs ==> y.File?) && x in fs
    ensures x.name in FirstPass(fs).tree && FirstPass(fs).tree[x.name] == x.content
  {
    var before, y := fs[..|fs| - 1], fs[|fs| - 1];
    assert fs == before + [y] && y in fs;
    FirstMore(before, y);
    if x != y {
      assert forall z :: z in before ==> z in fs;
      FilesOnly(before, x, es);
      var i :| 0 <= i < |before| && before[i] == x;
      NameApart(es, i, |fs| - 1);
    }
  }

  lemma {:induction false} NotAmongFiles(fs: seq<Entry>, es: seq<Entry>, n: nat)
    requires fs <= es && Distinct(es) && |fs| <= n < |es|
    ensures es[n].name !in FirstPass(fs).tree
    decreases |fs|
  {
    if fs != [] {
      var before := fs[..|fs| - 1];
      assert fs == before + [fs[|fs| - 1]];
      FirstMore(before, fs[|fs| - 1]);
      NotAmongFiles(before, es, n);
      NameApart(es, |fs| - 1, n);
    }
  }

  /** The names of the files at the end are not those of the entries before. */
  lemma NamesApart(es: seq<Entry>, n: nat)
    requires Distinct(es) && n <= |es|
    ensures forall i, x :: 0 <= i < n && x in es[n..] ==> x.name != es[i].name
  {
    forall i, x | 0 <= i < n && x in es[n..] ensures x.name != es[i].name {
      var j :| 0 <= j < |es[n..]| && es[n..][j] == x;
      assert es[n + j] == x;
    }
  }

  // ---- The exact condition -------------------------------------------------------------

  /** If a link to a link could stand for something else in the parents, two orders of an archive that some order
      stages end differently. */
  lemma ChainsMatter(es: seq<Entry>, parents: seq<Tree>, staged: seq<Entry>, e: Entry, f: Entry) returns (fs: seq<Entry>, gs: seq<Entry>)
    requires Distinct(es) && multiset(staged) == multiset(es) && Staged(staged, parents).Some?
    requires e in es && f in es && Chained(e, f) && !Agree(es, parents, f)
    ensures multiset(fs) == multiset(es) == multiset(gs) && Staged(fs, parents) != Staged(gs, parents)
  {
    TwoOrders(es, e, f);
    fs, gs := Early(es, e, f), Late(es, e, f);
    if Staged(fs, parents).None? { return fs, staged; }
    if Staged(gs, parents).None? { return gs, staged; }
    EarlyOf(es, parents, e, f);
    LateOf(es, parents, e, f);
  }

  lemma EarlyOf(es: seq<Entry>, parents: seq<Tree>, e: Entry, f: Entry)
    requires Distinct(es) && e in es && f in es && Chained(e, f) && Staged(Early(es, e, f), parents).Some?
    ensures var t := Staged(Early(es, e, f), parents).value; e.name in t && Topmost(parents, f.name) == Some(t[e.name])
  {
    TwoOrders(es, e, f);
    PermutedDistinct(es, Early(es, e, f));
    EarlyContent(e, f, Links(Rest(es, e, f)), Files(Rest(es, e, f)), parents);
  }

  lemma LateOf(es: seq<Entry>, parents: seq<Tree>, e: Entry, f: Entry)
    requires Distinct(es) && e in es && f in es && Chained(e, f) && Staged(Late(es, e, f), parents).Some?
    ensures var t := Staged(Late(es, e, f), parents).value; e.name in t && Source(es, parents, f.target) == Some(t[e.name])
  {
    TwoOrders(es, e, f);
    PermutedDistinct(es, Late(es, e, f));
    var ls, fs := Links(Rest(es, e, f)), Files(Rest(es, e, f));
    var c := InArchive(es, f.target);
    if c.Some? {
      assert File(f.target, c.value) in fs;
      LateFileContent(e, f, ls, fs, parents, c.value);
    } else {
      LateContent(e, f, ls, fs, parents);
    }
  }

  /** An archive that some order stages is staged alike by all orders if and only if its chains agree. */
  lemma OrderExact(es: seq<Entry>, staged: seq<Entry>, parents: seq<Tree>)
    requires Distinct(es) && multiset(staged) == multiset(es) && Staged(staged, parents).Some?
    ensures ChainsAgree(es, parents) <==> forall fs :: multiset(fs) == multiset(es) ==> Staged(fs, parents) == Staged(staged, parents)
  {
    hide Distinct, Staged, Agree;
    if ChainsAgree(es, parents) {
      forall fs | multiset(fs) == multiset(es) ensures Staged(fs, parents) == Staged(staged, parents) {
        OrderIrrelevant(es, fs, parents);
        OrderIrrelevant(es, staged, parents);
      }
    } else {
      var e, f :| e in es && f in es && Chained(e, f) && !Agree(es, parents, f);
      var fs, gs := ChainsMatter(es, parents, staged, e, f);
    }
  }

  // ---- An example ---------------------------------------------------------------------

  /** A link to another link does depend on the order: here it is the parent's copy or the archive's. */
  lemma ChainsDependOnOrder()
    ensures var a, b, c := ["a"], ["b"], ["c"]; var parents := [map[b := "old"]];
            var es, fs := [File(c, "new"), Link(b, c), Link(a, b)], [Link(a, b), Link(b, c), File(c, "new")];
            && multiset(es) == multiset(fs) && Distinct(es)
            && Staged(es, parents) == Some(map[c := "new", b := "new", a := "new"])
            && Staged(fs, parents) == Some(map[c := "new", b := "new", a := "old"])
  {
    var a, b, c := ["a"], ["b"], ["c"];
    assert a[0] != b[0] && b[0] != c[0] && a[0] != c[0];
    TargetsFirst(a, b, c);
    TargetsLast(a, b, c);
    hide Staged;
  }

  lemma TargetsFirst(a: Path, b: Path, c: Path)
    requires a != b && b != c && a != c
    ensures Staged([File(c, "new"), Link(b, c), Link(a, b)], [map[b := "old"]]) == Some(map[c := "new", b := "new", a := "new"])
  {
    FirstThree(File(c, "new"), Link(b, c), Link(a, b));
    SecondEmpty(map[c := "new", b := "new", a := "new"], [map[b := "old"]]);
    hide FirstPass, SecondPass, LinkLate, Topmost;
    assert FirstPass([File(c, "new"), Link(b, c), Link(a, b)]) == Pass(map[c := "new", b := "new", a := "new"], []);
  }

  lemma TargetsLast(a: Path, b: Path, c: Path)
    requires a != b && b != c && a != c
    ensures Staged([Link(a, b), Link(b, c), File(c, "new")], [map[b := "old"]]) == Some(map[c := "new", b := "new", a := "old"])
  {
    FirstThree(Link(a, b), Link(b, c), File(c, "new"));
    TargetsLate(a, b, c);
    hide FirstPass, SecondPass, LinkLate, Topmost;
    assert FirstPass([Link(a, b), Link(b, c), File(c, "new")]) == Pass(map[c := "new"], [Deferred(b, a), Deferred(c, b)]);
  }

  lemma TargetsLate(a: Path, b: Path, c: Path)
    requires a != b && b != c && a != c
    ensures SecondPass(map[c := "new"], [Deferred(b, a), Deferred(c, b)], [map[b := "old"]]) == Some(map[c := "new", b := "new", a := "old"])
  {
    var parents := [map[b := "old"]];
    assert Topmost(parents, b) == Some("old");
    assert LinkLate(map[c := "new"], Deferred(b, a), parents) == Some(map[c := "new", a := "old"]);
    SecondTwo(map[c := "new"], Deferred(b, a), Deferred(c, b), parents);
    hide SecondPass, Topmost;
    var t: Tree := map[c := "new", a := "old"];
    assert t[b := "new"] == map[c := "new", b := "new", a := "old"];
  }

  lemma FirstThree(x: Entry, y: Entry, z: Entry)
    ensures FirstPass([x, y, z]) == Take(Take(Take(Pass(map[], []), x), y), z)
  {
    assert [x, y, z][..2] == [x, y] && [x, y][..1] == [x] && [x][..0] == [];
    assert FirstPass([x]) == Take(FirstPass([]), x);
    assert FirstPass([x, y]) == Take(FirstPass([x]), y);
  }

  lemma SecondEmpty(t: Tree, parents: seq<Tree>)
    ensures SecondPass(t, [], parents) == Some(t)
  {
  }

  lemma SecondTwo(t: Tree, d: Deferred, e: Deferred, parents: seq<Tree>)
    requires LinkLate(t, d, parents).Some?
    ensures SecondPass(t, [d, e], parents) == LinkLate(LinkLate(t, d, parents).value, e, parents)
  {
    assert [d, e][..1] == [d] && [d][..0] == [];
    assert SecondPass(t, [], parents) == Some(t);
    assert SecondPass(t, [d], parents) == LinkLate(t, d, parents);
  }
}
