/** Whiteouts of a layer: collected from the archive's entries into tombstones.txt when staging, read back
    and emitted beside their directories when walking the staged layer. */
module Whiteouts {
  import opened Options
  import opened Paths
  import opened Text

  const Prefix := ".wh."
  const FirstLine := "\U{ef}\U{bb}\U{bf}Version 1.0"
  const Files := "Files"

  /** The longest line the line reader accepts. */
  const MaxLine := 65535

  // ---- Paths ---------------------------------------------------------------------

  predicate Plain(c: string) { c != "" && c != "." && c != ".." }

  /** Lexical cleaning of a relative path's components. */
  function Clean(cs: Path): (r: Path) {
    if cs == [] then []
    else
      var before, c := Clean(cs[..|cs| - 1]), cs[|cs| - 1];
      if c == "" || c == "." then before
      else if c == ".." && before != [] && before[|before| - 1] != ".." then before[..|before| - 1]
      else before + [c]
  }

  lemma {:induction false} CleanPlain(cs: Path)
    requires forall c :: c in cs ==> Plain(c)
    ensures Clean(cs) == cs
  {
    if cs != [] {
      assert forall c :: c in cs[..|cs| - 1] ==> c in cs;
      CleanPlain(cs[..|cs| - 1]);
      assert cs[|cs| - 1] in cs && Plain(cs[|cs| - 1]);
      assert cs == cs[..|cs| - 1] + [cs[|cs| - 1]];
    }
  }

  lemma CleanOne(a: Path, a': Path, c: string)
    requires Clean(a) == Clean(a')
    ensures Clean(a + [c]) == Clean(a' + [c])
  {
    assert (a + [c])[..|a|] == a && (a' + [c])[..|a'|] == a';
  }

  /** What follows sees only the cleaned beginning. */
  lemma {:induction false} CleanOn(a: Path, a': Path, b: Path)
    requires Clean(a) == Clean(a')
    ensures Clean(a + b) == Clean(a' + b)
  {
    hide Clean;
    if b == [] {
      assert a + b == a && a' + b == a';
    } else {
      var init := b[..|b| - 1];
      CleanOn(a, a', init);
      CleanOne(a + init, a' + init, b[|b| - 1]);
      assert a + b == a + init + [b[|b| - 1]] && a' + b == a' + init + [b[|b| - 1]];
    }
  }

  /** Anywhere in a path a name followed by ".." cancels, and "." and empty names do nothing. */
  lemma CleanSteps(a: Path, x: string, b: Path)
    ensures Plain(x) ==> Clean(a + [x, ".."] + b) == Clean(a + b)
    ensures x == "." || x == "" ==> Clean(a + [x] + b) == Clean(a + b)
  {
    assert (a + [x])[..|a|] == a && (a + [x, ".."])[..|a| + 1] == a + [x];
    if Plain(x) {
      assert Clean(a + [x]) == Clean(a) + [x];
      assert Clean(a + [x, ".."]) == Clean(a);
      CleanOn(a + [x, ".."], a, b);
    } else if x == "." || x == "" {
      CleanOn(a + [x], a, b);
    }
  }

  // ---- Staging ---------------------------------------------------------------------

  /** The base of an entry marks a whiteout. */
  predicate IsWhiteout(name: Path) { name != [] && Prefix <= name[|name| - 1] }

  /** The deleted path, when it lies below the Files directory. */
  function Target(name: Path): (t: Option<Path>)
    requires IsWhiteout(name)
  {
    var t := Clean(name[..|name| - 1] + [name[|name| - 1][|Prefix|..]]);
    if |t| >= 2 && t[0] == Files then Some(t[1..]) else None
  }

  function Line(rel: Path): string { "\\" + Merge(rel, '\\') }

  function Tombs(names: seq<Path>): seq<string> {
    if names == [] then []
    else
      var name := names[|names| - 1];
      Tombs(names[..|names| - 1])
      + if IsWhiteout(name) && Target(name).Some? then [Line(Target(name).value)] else []
  }

  function FileText(tombs: seq<string>): string {
    FirstLine + "\n" + if tombs == [] then "" else Merge(tombs, '\n') + "\n"
  }

  method Stage(names: seq<Path>) returns (text: string)
    ensures text == FileText(Tombs(names))
  {
    var tombs: seq<string> := [];
    for i := 0 to |names|
      invariant tombs == Tombs(names[..i])
    {
      assert names[..i + 1][..i] == names[..i];
      if IsWhiteout(names[i]) {
        var t := Target(names[i]);
        if t.Some? { tombs := tombs + [Line(t.value)]; }
      }
    }
    assert names[..|names|] == names;
    text := FirstLine + "\n";
    if |tombs| > 0 { text := text + (Merge(tombs, '\n') + "\n"); }
  }

  // ---- Reading back ------------------------------------------------------------------

  function DropReturn(s: string): string {
    if s != "" && s[|s| - 1] == '\r' then s[..|s| - 1] else s
  }

  /** The lines of a text, up to the first that is too long; a last line without a newline counts if it is not empty. */
  function Scan(s: string): (ls: seq<string>) {
    var ps := Split(s, '\n');
    if ps[|ps| - 1] == "" then ps[..|ps| - 1] else ps
  }

  function ReadLine(raw: string): Option<Path> {
    var line := DropReturn(raw);
    if |raw| <= MaxLine && line != "" && line[0] == '\\' then Some(Clean([Files] + Split(line[1..], '\\'))) else None
  }

  /** The deleted paths, in order; one bad or overlong line spoils the file. */
  function ReadLines(ls: seq<string>): Option<seq<Path>> {
    if ls == [] then Some([])
    else match ReadLines(ls[..|ls| - 1])
         case None => None
         case Some(ts) =>
           match ReadLine(ls[|ls| - 1])
           case None => None
           case Some(t) => Some(ts + [t])
  }

  function ReadText(text: string): Option<seq<Path>> {
    var ls := Scan(text);
    if ls == [] || DropReturn(ls[0]) != FirstLine then None else ReadLines(ls[1..])
  }

  function Parent(t: Path): Path { if t == [] then [] else t[..|t| - 1] }

  /** The deleted paths of one directory. */
  function Of(ts: seq<Path>, dir: Path): seq<Path> {
    if ts == [] then []
    else Of(ts[..|ts| - 1], dir) + if Parent(ts[|ts| - 1]) == dir then [ts[|ts| - 1]] else []
  }

  type Index = map<Path, seq<Path>>

  function At(m: Index, dir: Path): seq<Path> { if dir in m then m[dir] else [] }

  method ReadTombstones(text: string) returns (r: Option<Index>)
    ensures r.Some? <==> ReadText(text).Some?
    ensures r.Some? ==> forall dir :: At(r.value, dir) == Of(ReadText(text).value, dir)
  {
    hide ReadLine, Split, Scan, DropReturn;
    var ls := Scan(text);
    if |ls| == 0 || DropReturn(ls[0]) != FirstLine { return None; }
    var m: Index := map[];
    for i := 1 to |ls|
      invariant ReadLines(ls[1..][..i - 1]).Some?
      invariant forall dir :: At(m, dir) == Of(ReadLines(ls[1..][..i - 1]).value, dir)
    {
      var t := ReadLine(ls[i]);
      ReadMore(ls[1..], i);
      assert ls[1..][i - 1] == ls[i];
      if t.None? {
        BadLineSpoils(ls[1..], i);
        return None;
      }
      var dir := Parent(t.value);
      ghost var before := ReadLines(ls[1..][..i - 1]).value;
      OfMore(before, t.value);
      assert ReadLines(ls[1..][..i]).value == before + [t.value];
      ghost var was := m;
      m := m[dir := At(m, dir) + [t.value]];
      assert forall d :: At(m, d) == if d == dir then At(was, d) + [t.value] else At(was, d);
    }
    assert ls[1..][..|ls| - 1] == ls[1..];
    r := Some(m);
  }

  lemma ReadMore(ls: seq<string>, n: nat)
    requires 0 < n <= |ls| && ReadLines(ls[..n - 1]).Some?
    ensures ReadLines(ls[..n]) == match ReadLine(ls[n - 1]) case None => None case Some(t) => Some(ReadLines(ls[..n - 1]).value + [t])
  {
    assert ls[..n][..n - 1] == ls[..n - 1];
  }

  lemma OfMore(ts: seq<Path>, t: Path)
    ensures forall dir :: Of(ts + [t], dir) == if Parent(t) == dir then Of(ts, dir) + [t] else Of(ts, dir)
  {
    assert (ts + [t])[..|ts|] == ts;
  }

  lemma {:induction false} BadLineSpoils(ls: seq<string>, n: nat)
    requires n <= |ls| && ReadLines(ls[..n]) == None
    ensures ReadLines(ls) == None
    decreases |ls| - n
  {
    if n < |ls| {
      assert ls[..n + 1][..n] == ls[..n];
      BadLineSpoils(ls, n + 1);
    } else {
      assert ls[..n] == ls;
    }
  }

  // ---- Walking -------------------------------------------------------------------------

  /** The archive entry of a deleted path. */
  function Entry(t: Path): Path { if t == [] then [Prefix + "."] else t[..|t| - 1] + [Prefix + t[|t| - 1]] }

  function Entries(ts: seq<Path>): (es: seq<Path>)
    ensures |es| == |ts| && forall i :: 0 <= i < |ts| ==> es[i] == Entry(ts[i])
  {
    seq(|ts|, i requires 0 <= i < |ts| => Entry(ts[i]))
  }

  /** Each visited directory is followed by its whiteouts. */
  function Emitted(dirs: seq<Path>, ts: seq<Path>): seq<Path> {
    if dirs == [] then [] else Emitted(dirs[..|dirs| - 1], ts) + Entries(Of(ts, dirs[|dirs| - 1]))
  }

  method Walk(dirs: seq<Path>, text: string) returns (r: Option<seq<Path>>)
    ensures match ReadText(text)
            case None => r == None
            case Some(ts) => r == Some(Emitted(dirs, ts))
  {
    var m := ReadTombstones(text);
    if m.None? { return None; }
    var out: seq<Path> := [];
    for i := 0 to |dirs|
      invariant out == Emitted(dirs[..i], ReadText(text).value)
    {
      assert dirs[..i + 1][..i] == dirs[..i];
      out := out + Entries(At(m.value, dirs[i]));
    }
    assert dirs[..|dirs|] == dirs;
    r := Some(out);
  }

  // ---- Round trip ------------------------------------------------------------------------

  /** A component that survives as part of a line. */
  predicate Written(c: string) { Plain(c) && '\\' !in c && '\n' !in c }

  predicate ProperLeaf(leaf: string) { Written(leaf) && leaf[|leaf| - 1] != '\r' }

  predicate WrittenPath(cs: Path) { forall c :: c in cs ==> Written(c) }

  function Name(dir: Path, leaf: string): Path { [Files] + dir + [Prefix + leaf] }

  /** A whiteout below Files with a proper leaf, in a directory with a usable name, and not too long. */
  predicate Proper(name: Path) {
    && |name| >= 2 && name[0] == Files && IsWhiteout(name)
    && WrittenPath(name[1..|name| - 1]) && ProperLeaf(name[|name| - 1][|Prefix|..])
    && |Line(name[1..|name| - 1] + [name[|name| - 1][|Prefix|..]])| <= MaxLine
  }

  lemma {:induction false} MergeChars(cs: Path, sep: char, x: char)
    requires x != sep && forall c :: c in cs ==> x !in c
    ensures x !in Merge(cs, sep)
  {
    if |cs| > 1 { MergeChars(cs[1..], sep, x); }
  }

  lemma {:induction false} MergeEnds(cs: Path, sep: char)
    requires cs != [] && cs[|cs| - 1] != ""
    ensures Merge(cs, sep) != "" && Merge(cs, sep)[|Merge(cs, sep)| - 1] == cs[|cs| - 1][|cs[|cs| - 1]| - 1]
  {
    if |cs| > 1 { MergeEnds(cs[1..], sep); }
  }

  /** The line of a proper path reads back as that path. */
  lemma LineRoundTrip(rel: Path)
    requires rel != [] && WrittenPath(rel) && ProperLeaf(rel[|rel| - 1]) && |Line(rel)| <= MaxLine
    ensures ReadLine(Line(rel)) == Some([Files] + rel) && '\n' !in Line(rel)
  {
    MergeChars(rel, '\\', '\n');
    MergeEnds(rel, '\\');
    SplitMerge(rel, '\\');
    var text := Merge(rel, '\\');
    assert Line(rel)[1..] == text && Line(rel)[|Line(rel)| - 1] == text[|text| - 1];
    assert DropReturn(Line(rel)) == Line(rel);
    CleanPlain([Files] + rel);
    assert Split(text, '\\') == rel && Clean([Files] + rel) == [Files] + rel;
    assert ReadLine(Line(rel)) == Some(Clean([Files] + Split(DropReturn(Line(rel))[1..], '\\')));
  }

  lemma ProperTarget(name: Path)
    requires Proper(name)
    ensures Target(name) == Some(name[1..|name| - 1] + [name[|name| - 1][|Prefix|..]])
    ensures Entry([Files] + Target(name).value) == name
  {
    var leaf := name[|name| - 1][|Prefix|..];
    var cs := name[..|name| - 1] + [leaf];
    assert name[..|name| - 1] == [Files] + name[1..|name| - 1];
    CleanPlain(cs);
    assert name[|name| - 1] == Prefix + leaf;
    assert cs[1..] == name[1..|name| - 1] + [leaf];
    assert [Files] + cs[1..] == cs && cs[..|cs| - 1] == name[..|name| - 1];
  }

  predicate Relevant(name: Path) { IsWhiteout(name) && Target(name).Some? }

  /** The whiteouts of an archive that concern Files. */
  function Kept(names: seq<Path>): seq<Path> {
    if names == [] then [] else Kept(names[..|names| - 1]) + if Relevant(names[|names| - 1]) then [names[|names| - 1]] else []
  }

  predicate AllProper(names: seq<Path>) { forall n :: n in names && Relevant(n) ==> Proper(n) }

  lemma EntriesMore(ts: seq<Path>, t: Path)
    ensures Entries(ts + [t]) == Entries(ts) + [Entry(t)]
  {
  }

  /** One more proper whiteout adds one line, which reads back as its target. */
  lemma ProperLine(name: Path)
    requires Proper(name)
    ensures Target(name).Some? && ReadLine(Line(Target(name).value)) == Some([Files] + Target(name).value)
    ensures '\n' !in Line(Target(name).value) && Entry([Files] + Target(name).value) == name
  {
    ProperTarget(name);
    LineRoundTrip(Target(name).value);
  }

  /** The lines of an archive's whiteouts read back as their targets. */
  lemma {:induction false} TombsRead(names: seq<Path>)
    requires AllProper(names)
    ensures ReadLines(Tombs(names)).Some? && Entries(ReadLines(Tombs(names)).value) == Kept(names)
    ensures forall t :: t in Tombs(names) ==> '\n' !in t
  {
    hide Target, Line, ReadLine, Entry, Proper, IsWhiteout;
    if names != [] {
      var before, name := names[..|names| - 1], names[|names| - 1];
      assert forall n :: n in before ==> n in names;
      TombsRead(before);
      if Relevant(name) {
        assert name in names;
        ProperLine(name);
        var ls := Tombs(names);
        assert ls[..|ls| - 1] == Tombs(before);
        EntriesMore(ReadLines(Tombs(before)).value, [Files] + Target(name).value);
      } else {
        assert Tombs(names) == Tombs(before) && Kept(names) == Kept(before);
      }
    }
  }

  lemma ScanFile(tombs: seq<string>)
    requires forall t :: t in tombs ==> '\n' !in t
    ensures Scan(FileText(tombs)) == [FirstLine] + tombs
  {
    hide Split, Merge;
    SplitPart(FirstLine, '\n');
    SplitPart("", '\n');
    if tombs == [] {
      assert FileText(tombs) == FirstLine + ['\n'] + "";
      SplitTwo(FirstLine, "", '\n');
    } else {
      var body := Merge(tombs, '\n') + ['\n'] + "";
      assert FileText(tombs) == FirstLine + ['\n'] + body;
      SplitTwo(FirstLine, body, '\n');
      SplitTwo(Merge(tombs, '\n'), "", '\n');
      SplitMerge(tombs, '\n');
      assert Split(FileText(tombs), '\n') == [FirstLine] + tombs + [""];
    }
  }

  lemma FileReads(tombs: seq<string>)
    requires forall t :: t in tombs ==> '\n' !in t
    ensures ReadText(FileText(tombs)) == ReadLines(tombs)
  {
    ScanFile(tombs);
    assert ([FirstLine] + tombs)[1..] == tombs;
  }

  /** The deleted paths whose directory is visited. */
  function Reached(dirs: seq<Path>, ts: seq<Path>): seq<Path> {
    if ts == [] then [] else Reached(dirs, ts[..|ts| - 1]) + if Parent(ts[|ts| - 1]) in dirs then [ts[|ts| - 1]] else []
  }

  predicate DistinctDirs(dirs: seq<Path>) { forall i, j :: 0 <= i < j < |dirs| ==> dirs[i] != dirs[j] }

  lemma {:induction false} EmitsOneMore(dirs: seq<Path>, ts: seq<Path>, t: Path)
    requires DistinctDirs(dirs)
    ensures multiset(Emitted(dirs, ts + [t])) == multiset(Emitted(dirs, ts)) + if Parent(t) in dirs then multiset{Entry(t)} else multiset{}
  {
    hide Of, Entries, Entry, Parent;
    if dirs != [] {
      var before, d := dirs[..|dirs| - 1], dirs[|dirs| - 1];
      EmitsOneMore(before, ts, t);
      OfMore(ts, t);
      EntriesMore(Of(ts, d), t);
      assert Parent(t) in dirs <==> Parent(t) in before || Parent(t) == d by { assert dirs == before + [d]; }
      assert d !in before;
    }
  }

  /** Whatever the file says: a walk emits exactly the deletions whose directory it visits, each as often as recorded. */
  lemma {:induction false} WalkEmits(dirs: seq<Path>, ts: seq<Path>)
    requires DistinctDirs(dirs)
    ensures multiset(Emitted(dirs, ts)) == multiset(Entries(Reached(dirs, ts)))
  {
    hide Emitted, Entries, Entry, Parent, DistinctDirs;
    if ts == [] {
      EmitsNone(dirs);
      EntriesNone();
    } else {
      var before, t := ts[..|ts| - 1], ts[|ts| - 1];
      WalkEmits(dirs, before);
      EmitsOneMore(dirs, before, t);
      assert before + [t] == ts;
      EntriesMore(Reached(dirs, before), t);
      assert Reached(dirs, before) + [] == Reached(dirs, before);
    }
  }

  lemma EntriesNone()
    ensures Entries([]) == []
  {
  }

  lemma {:induction false} EmitsNone(dirs: seq<Path>)
    ensures Emitted(dirs, []) == []
  {
    if dirs != [] { EmitsNone(dirs[..|dirs| - 1]); }
  }

  lemma {:induction false} AllReached(dirs: seq<Path>, ts: seq<Path>)
    requires forall t :: t in ts ==> Parent(t) in dirs
    ensures Reached(dirs, ts) == ts
  {
    if ts != [] {
      AllReached(dirs, ts[..|ts| - 1]);
      assert ts == ts[..|ts| - 1] + [ts[|ts| - 1]];
    }
  }

  lemma {:induction false} KeptFrom(names: seq<Path>)
    ensures forall n :: n in Kept(names) ==> n in names && Relevant(n)
  {
    if names != [] { KeptFrom(names[..|names| - 1]); }
  }

  /** Staging and walking again gives exactly the archive's whiteouts below Files, as a multiset, if their leaves
      are proper and their directories are visited. */
  lemma WhiteoutsRoundTrip(names: seq<Path>, dirs: seq<Path>)
    requires AllProper(names) && DistinctDirs(dirs)
    requires forall n :: n in names && Relevant(n) ==> n[..|n| - 1] in dirs
    ensures ReadText(FileText(Tombs(names))).Some?
    ensures multiset(Emitted(dirs, ReadText(FileText(Tombs(names))).value)) == multiset(Kept(names))
  {
    TombsRead(names);
    FileReads(Tombs(names));
    var ts := ReadText(FileText(Tombs(names))).value;
    WalkEmits(dirs, ts);
    KeptFrom(names);
    forall t | t in ts ensures Parent(t) in dirs {
      var i :| 0 <= i < |ts| && ts[i] == t;
      var n := Entries(ts)[i];
      assert n in Kept(names) && n == Entry(t);
      assert t != [] by { assert |n| >= 2; }
      assert n[..|n| - 1] == Parent(t);
    }
    AllReached(dirs, ts);
  }

  // ---- Exactly the proper leaves ------------------------------------------------------------

  /** A component that reading a line can yield. */
  predicate Readable(c: string) { c != "" && c != "." && '\\' !in c && '\n' !in c }

  lemma {:induction false} CleanShape(cs: Path)
    requires forall c :: c in cs ==> '\\' !in c && '\n' !in c
    ensures forall c :: c in Clean(cs) ==> Readable(c)
    ensures forall i :: 0 < i < |Clean(cs)| && Clean(cs)[i] == ".." ==> Clean(cs)[i - 1] == ".."
  {
    if cs != [] {
      assert forall c :: c in cs[..|cs| - 1] ==> c in cs;
      CleanShape(cs[..|cs| - 1]);
      assert cs[|cs| - 1] in cs;
    }
  }

  lemma {:induction false} SplitChars(s: string, sep: char, x: char)
    requires x !in s
    ensures forall p :: p in Split(s, sep) ==> x !in p
  {
    if s != "" {
      assert forall y :: y in s[1..] ==> y in s;
      assert s[0] in s;
      SplitChars(s[1..], sep, x);
    }
  }

  /** A deletion that was read from some line has readable components, and ".." only at its start. */
  lemma ReadShape(raw: string)
    requires ReadLine(raw).Some? && '\n' !in raw
    ensures forall c :: c in ReadLine(raw).value ==> Readable(c)
    ensures forall i :: 0 < i < |ReadLine(raw).value| && ReadLine(raw).value[i] == ".." ==> ReadLine(raw).value[i - 1] == ".."
  {
    var line := DropReturn(raw);
    assert forall y :: y in line ==> y in raw;
    assert forall y :: y in line[1..] ==> y in line;
    SplitChars(line[1..], '\\', '\n');
    var cs := [Files] + Split(line[1..], '\\');
    forall c | c in cs ensures '\\' !in c && '\n' !in c { if c != Files { assert c in Split(line[1..], '\\'); } }
    CleanShape(cs);
  }

  lemma {:induction false} ReadFrom(ls: seq<string>, t: Path)
    requires ReadLines(ls).Some? && t in ReadLines(ls).value
    ensures exists l :: l in ls && ReadLine(l) == Some(t)
  {
    var before, l := ls[..|ls| - 1], ls[|ls| - 1];
    if t in ReadLines(before).value {
      ReadFrom(before, t);
      assert forall x :: x in before ==> x in ls;
    } else {
      assert l in ls && ReadLine(l) == Some(t);
    }
  }

  lemma {:induction false} OfFrom(ts: seq<Path>, dir: Path)
    ensures forall t :: t in Of(ts, dir) ==> t in ts
  {
    if ts != [] {
      OfFrom(ts[..|ts| - 1], dir);
      assert forall t :: t in ts[..|ts| - 1] ==> t in ts;
    }
  }

  lemma {:induction false} EmittedFrom(dirs: seq<Path>, ts: seq<Path>, e: Path)
    requires e in Emitted(dirs, ts)
    ensures exists t :: t in ts && Entry(t) == e
  {
    var before, d := dirs[..|dirs| - 1], dirs[|dirs| - 1];
    if e in Emitted(before, ts) {
      EmittedFrom(before, ts, e);
    } else {
      var i :| 0 <= i < |Entries(Of(ts, d))| && Entries(Of(ts, d))[i] == e;
      OfFrom(ts, d);
      assert Of(ts, d)[i] in ts;
    }
  }

  /** Whatever was read: a whiteout that is emitted comes from a line, so its leaf can stand in a line. */
  lemma EmittedReadable(text: string, dirs: seq<Path>, dir: Path, leaf: string)
    requires ReadText(text).Some? && Name(dir, leaf) in Emitted(dirs, ReadText(text).value) && WrittenPath(dir)
    ensures Written(leaf)
    ensures exists l :: l in Scan(text)[1..] && ReadLine(l) == Some([Files] + dir + [leaf])
  {
    hide Emitted, Clean, Split, ReadLines, ReadLine, Entry, DropReturn;
    EmittedFrom(dirs, ReadText(text).value, Name(dir, leaf));
    var t :| t in ReadText(text).value && Entry(t) == Name(dir, leaf);
    EntryInverse(t, dir, leaf);
    ReadFrom(Scan(text)[1..], t);
    var l :| l in Scan(text)[1..] && ReadLine(l) == Some(t);
    assert l in Split(text, '\n');
    ReadShape(l);
    assert t[|t| - 1] == leaf && leaf in t;
    assert t[|t| - 2] == if dir == [] then Files else dir[|dir| - 1];
  }

  lemma EntryInverse(t: Path, dir: Path, leaf: string)
    requires Entry(t) == Name(dir, leaf)
    ensures t == [Files] + dir + [leaf]
  {
    assert t != [] by { assert |Entry([])| == 1; }
    var n := |t| - 1;
    assert Entry(t)[..n] == t[..n] && Entry(t)[n] == Prefix + t[n];
    assert Name(dir, leaf)[..n] == [Files] + dir && Name(dir, leaf)[n] == Prefix + leaf;
    assert (Prefix + t[n])[|Prefix|..] == t[n] && (Prefix + leaf)[|Prefix|..] == leaf;
    assert t == t[..n] + [t[n]];
  }

  lemma {:induction false} MergeLast(cs: Path, c: string, x: string, sep: char)
    ensures Merge(cs + [c + x], sep) == Merge(cs + [c], sep) + x
  {
    if cs != [] {
      MergeLast(cs[1..], c, x, sep);
      assert (cs + [c + x])[1..] == cs[1..] + [c + x] && (cs + [c])[1..] == cs[1..] + [c];
    }
  }

  /** A carriage return at the end of the leaf is lost with the line's end. */
  lemma ReturnIsLost(dir: Path, leaf: string)
    requires WrittenPath(dir) && Written(leaf) && leaf[|leaf| - 1] == '\r'
    ensures ReadLine(Line(dir + [leaf])) != Some([Files] + dir + [leaf])
  {
    hide Clean, Merge, Split;
    var x := leaf[..|leaf| - 1];
    assert leaf == x + "\r";
    MergeLast(dir, x, "\r", '\\');
    assert DropReturn(Line(dir + [leaf])) == Line(dir + [x]) && Line(dir + [x])[1..] == Merge(dir + [x], '\\');
    assert '\\' !in x by { assert forall y :: y in x ==> y in leaf; }
    SplitMerge(dir + [x], '\\');
    assert [Files] + (dir + [x]) == [Files] + dir + [x];
    CleanDiffers(dir, x, leaf);
  }

  lemma CleanDiffers(dir: Path, x: string, leaf: string)
    requires WrittenPath(dir) && x != leaf
    ensures Clean([Files] + dir + [x]) != [Files] + dir + [leaf]
  {
    CleanPlain([Files] + dir);
    var cs := [Files] + dir + [x];
    assert cs[..|cs| - 1] == [Files] + dir;
    assert |Clean(cs)| == |cs| ==> Clean(cs)[|cs| - 1] == x;
  }

  lemma OneTomb(name: Path)
    ensures Tombs([name]) == if Relevant(name) then [Line(Target(name).value)] else []
  {
    assert [name][..0] == [];
    assert Tombs([name][..0]) == [];
  }

  /** A whiteout in a visited directory comes back, alone, exactly when its leaf is proper. */
  lemma ProperLeavesExact(dir: Path, leaf: string, dirs: seq<Path>)
    requires WrittenPath(dir) && DistinctDirs(dirs) && [Files] + dir in dirs && |Line(dir + [leaf])| <= MaxLine
    ensures var r := ReadText(FileText(Tombs([Name(dir, leaf)])));
            r.Some? && Emitted(dirs, r.value) == [Name(dir, leaf)] <==> ProperLeaf(leaf)
  {
    var name := Name(dir, leaf);
    var text := FileText(Tombs([name]));
    var r := ReadText(text);
    if ProperLeaf(leaf) {
      ProperComesBack(dir, leaf, dirs);
    } else if r.Some? && Emitted(dirs, r.value) == [name] {
      assert name in Emitted(dirs, r.value);
      EmittedReadable(text, dirs, dir, leaf);
      WrittenTomb(dir, leaf);
      ReturnIsLost(dir, leaf);
    }
  }

  lemma NameParts(dir: Path, leaf: string)
    ensures var name := Name(dir, leaf);
            && IsWhiteout(name) && name[0] == Files && |name| == |dir| + 2
            && name[1..|name| - 1] == dir && name[|name| - 1][|Prefix|..] == leaf && name[..|name| - 1] == [Files] + dir
  {
    var name := Name(dir, leaf);
    assert name[|name| - 1] == Prefix + leaf;
  }

  /** The one line of a whiteout whose leaf can stand in a line. */
  lemma WrittenTomb(dir: Path, leaf: string)
    requires WrittenPath(dir) && Written(leaf)
    ensures Scan(FileText(Tombs([Name(dir, leaf)])))[1..] == [Line(dir + [leaf])]
  {
    var name := Name(dir, leaf);
    NameParts(dir, leaf);
    CleanPlain([Files] + dir + [leaf]);
    assert ([Files] + dir + [leaf])[1..] == dir + [leaf];
    OneTomb(name);
    MergeChars(dir + [leaf], '\\', '\n');
    ScanFile(Tombs([name]));
  }

  lemma ProperComesBack(dir: Path, leaf: string, dirs: seq<Path>)
    requires WrittenPath(dir) && DistinctDirs(dirs) && [Files] + dir in dirs && |Line(dir + [leaf])| <= MaxLine && ProperLeaf(leaf)
    ensures var r := ReadText(FileText(Tombs([Name(dir, leaf)])));
            r.Some? && Emitted(dirs, r.value) == [Name(dir, leaf)]
  {
    hide Emitted, ReadText, FileText, Tombs, Clean, Split, Merge;
    var name := Name(dir, leaf);
    NameParts(dir, leaf);
    ProperTarget(name);
    WhiteoutsRoundTrip([name], dirs);
    assert [name][..0] == [] && Kept([name][..0]) == [];
    assert Kept([name]) == [name];
    var es := Emitted(dirs, ReadText(FileText(Tombs([name]))).value);
    assert |multiset(es)| == |es| && |multiset([name])| == 1;
    assert es[0] in multiset(es);
  }
}
