/** The table of mounts as text, and what it says about one mount. */
module Mountinfo {
  import opened Options
  import opened Text
  import M = ShareModel

  /** One line: the option list is separated by commas; `extra` are the optional fields before the dash. */
  datatype Row = Row(id: nat, parent: string, device: string, root: string, point: string, options: seq<string>, extra: seq<string>,
                     kind: string, source: string, tail: string)

  datatype Verdict = Same | IdentityChanged | PolicyChanged | Unavailable

  function Decimal(n: nat): (s: string)
    ensures s != "" && forall c :: c in s ==> '0' <= c <= '9'
  {
    var last := [('0' as int + n % 10) as char];
    if n < 10 then last else Decimal(n / 10) + last
  }

  lemma {:induction false} DecimalInjective(a: nat, b: nat)
    requires Decimal(a) == Decimal(b)
    ensures a == b
  {
    var s, t := Decimal(a), Decimal(b);
    assert s[|s| - 1] == ('0' as int + a % 10) as char && t[|t| - 1] == ('0' as int + b % 10) as char;
    if a >= 10 && b >= 10 {
      assert s[..|s| - 1] == Decimal(a / 10) && t[..|t| - 1] == Decimal(b / 10);
      DecimalInjective(a / 10, b / 10);
    }
  }

  // ---- Writing ---------------------------------------------------------------

  function FieldsOf(r: Row): seq<string> {
    [Decimal(r.id), r.parent, r.device, r.root, r.point, Merge(r.options, ',')] + r.extra + ["-", r.kind, r.source, r.tail]
  }

  predicate Word(s: string) { s != "" && ' ' !in s && '\n' !in s }

  /** What the kernel writes: words, with blanks escaped; no optional field is a lone dash. */
  predicate WellFormed(r: Row) {
    && (forall f :: f in FieldsOf(r) ==> Word(f))
    && r.parent != "-" && r.device != "-" && r.root != "-" && r.point != "-" && Merge(r.options, ',') != "-" && "-" !in r.extra
    && r.options != [] && forall o :: o in r.options ==> ',' !in o
  }

  function Lines(rows: seq<Row>): seq<string> {
    if rows == [] then [] else [Merge(FieldsOf(rows[0]), ' ')] + Lines(rows[1..])
  }

  /** Each line ends in a newline. */
  function Render(rows: seq<Row>): string { Merge(Lines(rows) + [""], '\n') }

  // ---- Reading ---------------------------------------------------------------

  /** The words of a line. */
  function Fields(line: string): seq<string> { Words(Split(line, ' ')) }

  function Words(ps: seq<string>): seq<string> {
    if ps == [] then [] else (if ps[0] == "" then [] else [ps[0]]) + Words(ps[1..])
  }

  /** The first lone dash, or the length. */
  function Dash(fs: seq<string>): (i: nat)
    ensures i <= |fs| && (i < |fs| ==> fs[i] == "-") && forall j :: 0 <= j < i ==> fs[j] != "-"
  {
    if fs == [] || fs[0] == "-" then 0 else 1 + Dash(fs[1..])
  }

  /** What a line says about the mount, or nothing if it is another's. */
  function OfLine(line: string, id: nat, source: string, ro: bool): Option<Verdict> {
    var fs := Fields(line);
    if |fs| < 10 || fs[0] != Decimal(id) then None
    else
      var sep := Dash(fs);
      if sep < 6 || sep + 3 >= |fs| || fs[sep + 1] != "virtiofs" || fs[sep + 2] != source then Some(IdentityChanged)
      else if ("ro" in Split(fs[5], ',')) != ro then Some(PolicyChanged)
      else Some(Same)
  }

  function OfLines(ls: seq<string>, id: nat, source: string, ro: bool): Verdict {
    if ls == [] then Unavailable
    else match OfLine(ls[0], id, source, ro)
         case Some(v) => v
         case None => OfLines(ls[1..], id, source, ro)
  }

  method Match(info: string, id: nat, source: string, ro: bool) returns (v: Verdict)
    ensures v == OfLines(Split(info, '\n'), id, source, ro)
  {
    hide Split, Fields, Decimal;
    var ls := Split(info, '\n');
    for n := 0 to |ls|
      invariant OfLines(ls, id, source, ro) == OfLines(ls[n..], id, source, ro)
    {
      assert ls[n..] == [ls[n]] + ls[n + 1..];
      FirstLine(ls[n], ls[n + 1..], id, source, ro);
      var fs := Fields(ls[n]);
      if |fs| < 10 || fs[0] != Decimal(id) { continue; }
      var sep := -1;
      for i := 0 to |fs|
        invariant sep == -1 && forall j :: 0 <= j < i ==> fs[j] != "-"
      {
        if fs[i] == "-" { sep := i; break; }
      }
      if sep < 6 || sep + 3 >= |fs| || fs[sep + 1] != "virtiofs" || fs[sep + 2] != source { return IdentityChanged; }
      var found := false;
      var os := Split(fs[5], ',');
      for i := 0 to |os|
        invariant found <==> "ro" in os[..i]
      {
        if os[i] == "ro" { found := true; }
      }
      assert os[..|os|] == os;
      return if found != ro then PolicyChanged else Same;
    }
    return Unavailable;
  }

  // ---- What the table says -----------------------------------------------------

  /** The verdict on the first mount with that id. */
  function OfRows(rows: seq<Row>, id: nat, source: string, ro: bool): Verdict {
    if rows == [] then Unavailable
    else if rows[0].id != id then OfRows(rows[1..], id, source, ro)
    else if rows[0].kind != "virtiofs" || rows[0].source != source then IdentityChanged
    else if ("ro" in rows[0].options) != ro then PolicyChanged
    else Same
  }

  lemma {:induction false} WordsStay(ps: seq<string>)
    requires "" !in ps
    ensures Words(ps) == ps
  {
    if ps != [] {
      assert ps[0] in ps && forall p :: p in ps[1..] ==> p in ps;
      WordsStay(ps[1..]);
      assert ps == [ps[0]] + ps[1..];
    }
  }

  lemma DashAt(fs: seq<string>, i: nat)
    requires i < |fs| && fs[i] == "-" && "-" !in fs[..i]
    ensures Dash(fs) == i
  {
    assert forall j :: 0 <= j < i ==> fs[j] == fs[..i][j] && fs[..i][j] in fs[..i];
  }

  /** A written row reads back as what it is. */
  lemma RowReads(r: Row, id: nat, source: string, ro: bool)
    requires WellFormed(r)
    ensures OfLine(Merge(FieldsOf(r), ' '), id, source, ro) == if r.id != id then None else Some(OfRows([r], id, source, ro))
  {
    hide Merge, Split, Words, Decimal, Dash;
    var fs := FieldsOf(r);
    SplitMerge(fs, ' ');
    WordsStay(fs);
    var sep := 6 + |r.extra|;
    assert fs[..sep] == fs[..6] + r.extra;
    assert forall c :: c in Decimal(r.id) ==> c != '-';
    assert "-" !in fs[..sep] by { assert fs[..6] == [Decimal(r.id), r.parent, r.device, r.root, r.point, Merge(r.options, ',')]; NotDash(r.id); }
    DashAt(fs, sep);
    SplitMerge(r.options, ',');
    if Decimal(r.id) == Decimal(id) { DecimalInjective(r.id, id); }
  }

  lemma NotDash(n: nat)
    ensures Decimal(n) != "-"
  {
    assert Decimal(n)[0] in Decimal(n);
  }

  lemma {:induction false} NoNewline(fs: seq<string>)
    requires forall f :: f in fs ==> '\n' !in f
    ensures '\n' !in Merge(fs, ' ')
  {
    if |fs| > 1 { NoNewline(fs[1..]); }
  }

  lemma {:induction false} LinesWhole(rows: seq<Row>)
    requires forall r :: r in rows ==> WellFormed(r)
    ensures forall l :: l in Lines(rows) ==> '\n' !in l
  {
    if rows != [] {
      assert rows[0] in rows && forall r :: r in rows[1..] ==> r in rows;
      NoNewline(FieldsOf(rows[0]));
      LinesWhole(rows[1..]);
    }
  }

  lemma FirstLine(line: string, rest: seq<string>, id: nat, source: string, ro: bool)
    ensures OfLines([line] + rest, id, source, ro) == match OfLine(line, id, source, ro) case Some(v) => v case None => OfLines(rest, id, source, ro)
  {
    assert ([line] + rest)[1..] == rest;
  }

  lemma {:induction false} LinesRead(rows: seq<Row>, more: seq<string>, id: nat, source: string, ro: bool)
    requires (forall r :: r in rows ==> WellFormed(r)) && OfLines(more, id, source, ro) == Unavailable
    ensures OfLines(Lines(rows) + more, id, source, ro) == OfRows(rows, id, source, ro)
    decreases |rows|
  {
    hide FieldsOf, Merge, OfLine, WellFormed;
    if rows == [] {
      assert Lines(rows) + more == more;
    } else {
      var r, rest := rows[0], rows[1..];
      assert r in rows && forall x :: x in rest ==> x in rows;
      RowReads(r, id, source, ro);
      LinesRead(rest, more, id, source, ro);
      FirstLine(Merge(FieldsOf(r), ' '), Lines(rest) + more, id, source, ro);
      assert Lines(rows) + more == [Merge(FieldsOf(r), ' ')] + (Lines(rest) + more);
    }
  }

  /** Reading the kernel's table gives the verdict on the mount with that id, whatever other mounts it lists. */
  lemma TableReads(rows: seq<Row>, id: nat, source: string, ro: bool)
    requires forall r :: r in rows ==> WellFormed(r)
    ensures OfLines(Split(Render(rows), '\n'), id, source, ro) == OfRows(rows, id, source, ro)
  {
    LinesWhole(rows);
    SplitMerge(Lines(rows) + [""], '\n');
    SplitPart("", ' ');
    assert OfLines([""], id, source, ro) == Unavailable by { assert [""][1..] == []; }
    LinesRead(rows, [""], id, source, ro);
  }

  /** The row of the mount with that id, if there is one, shows what a descriptor of that mount shows. */
  predicate Shows(rows: seq<Row>, n: M.Node) {
    && (exists r :: r in rows && r.id == n.mid)
    && forall r :: r in rows && r.id == n.mid ==> r.source == n.source && (r.kind == "virtiofs" <==> n.virtiofs) && ("ro" in r.options <==> n.ro)
  }

  /** The text of the table completes the check of the unique id to the share protocol's check of a mount. */
  lemma TableVerifies(rows: seq<Row>, r: M.Record, n: M.Node)
    requires (forall x :: x in rows ==> WellFormed(x)) && Shows(rows, n)
    ensures M.Verified(r, n) <==> r.uid != 0 && n.mid == r.mid && n.uid == r.uid && OfLines(Split(Render(rows), '\n'), n.mid, r.source, r.ro) == Same
  {
    TableReads(rows, n.mid, r.source, r.ro);
    RowsVerify(rows, r, n);
  }

  lemma {:induction false} RowsVerify(rows: seq<Row>, r: M.Record, n: M.Node)
    requires Shows(rows, n)
    ensures OfRows(rows, n.mid, r.source, r.ro) == Same <==> n.virtiofs && n.source == r.source && n.ro == r.ro
  {
    assert rows != [] && rows[0] in rows;
    if rows[0].id != n.mid {
      assert forall x :: x in rows[1..] ==> x in rows;
      var x :| x in rows && x.id == n.mid;
      assert x in rows[1..];
      RowsVerify(rows[1..], r, n);
    }
  }
}
