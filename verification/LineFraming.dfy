/** Framing of a guest's output as lines: whole lines as they arrive, long partial lines in pieces. */
module LineFraming {

  newtype byte = x: int | 0 <= x < 256

  const Newline: byte := 10
  const Return: byte := 13
  const LineCap := 64 * 1024

  /** A piece of the input; `ended` when a newline followed it. */
  datatype Segment = Segment(data: seq<byte>, ended: bool)

  function Raw(g: Segment): seq<byte> { g.data + if g.ended then [Newline] else [] }

  function Join(gs: seq<Segment>): seq<byte> {
    if gs == [] then [] else Join(gs[..|gs| - 1]) + Raw(gs[|gs| - 1])
  }

  function Concat(chunks: seq<seq<byte>>): seq<byte> {
    if chunks == [] then [] else Concat(chunks[..|chunks| - 1]) + chunks[|chunks| - 1]
  }

  /** The text without one trailing carriage return. */
  function Trim(s: seq<byte>): (r: seq<byte>)
    ensures if s != [] && s[|s| - 1] == Return then s == r + [Return] else r == s
  {
    if s != [] && s[|s| - 1] == Return then s[..|s| - 1] else s
  }

  function Trimmed(gs: seq<Segment>): (r: seq<seq<byte>>)
    ensures |r| == |gs| && forall i :: 0 <= i < |gs| ==> r[i] == Trim(gs[i].data)
  {
    seq(|gs|, i requires 0 <= i < |gs| => Trim(gs[i].data))
  }

  /** The first newline, or the length. */
  function Index(s: seq<byte>): (i: nat)
    ensures i <= |s| && Newline !in s[..i] && (i < |s| ==> s[i] == Newline)
  {
    if s == [] || s[0] == Newline then 0 else 1 + Index(s[1..])
  }

  // ---- Reference: the newline split ----------------------------------------

  /** The whole lines of a text, and what follows the last newline. */
  function Lines(s: seq<byte>): (gs: seq<Segment>)
    ensures forall g :: g in gs ==> g.ended && Newline !in g.data
  {
    var i := Index(s);
    if i < |s| then [Segment(s[..i], true)] + Lines(s[i + 1..]) else []
  }

  function Rest(s: seq<byte>): (r: seq<byte>)
    ensures |r| <= |s| && Newline !in r
    ensures Newline !in s ==> r == s
  {
    var i := Index(s);
    if i < |s| then Rest(s[i + 1..]) else s
  }

  lemma SplitStep(s: seq<byte>)
    ensures var i := Index(s);
            if i < |s| then Lines(s) == [Segment(s[..i], true)] + Lines(s[i + 1..]) && Rest(s) == Rest(s[i + 1..])
            else Lines(s) == [] && Rest(s) == s
  {
  }

  function Split(s: seq<byte>): seq<Segment> {
    Lines(s) + if Rest(s) == [] then [] else [Segment(Rest(s), false)]
  }

  // ---- What a writer does with its chunks -----------------------------------

  datatype Fed = Fed(out: seq<Segment>, buf: seq<byte>)

  function Fill(f: Fed, p: seq<byte>): (r: Fed)
    ensures |r.buf| <= LineCap
  {
    var all := f.buf + p;
    var rest := Rest(all);
    if |rest| > LineCap then Fed(f.out + Lines(all) + [Segment(rest, false)], [])
    else Fed(f.out + Lines(all), rest)
  }

  function Feed(chunks: seq<seq<byte>>): Fed {
    if chunks == [] then Fed([], []) else Fill(Feed(chunks[..|chunks| - 1]), chunks[|chunks| - 1])
  }

  function Flush(f: Fed): Fed {
    if f.buf == [] then f else Fed(f.out + [Segment(f.buf, false)], [])
  }

  /** What a reader sees of a raw line: the line, or the line less its one final carriage return. */
  predicate LineOf(line: seq<byte>, raw: seq<byte>) {
    if raw != [] && raw[|raw| - 1] == Return then raw == line + [Return] else line == raw
  }

  class StreamWriter {
    var buf: seq<byte>
    var emitted: seq<seq<byte>>
    ghost var out: seq<Segment>

    ghost function View(): Fed reads this { Fed(out, buf) }

    ghost predicate Valid() reads this { emitted == Trimmed(out) }

    constructor ()
      ensures Valid() && View() == Fed([], [])
    {
      buf, emitted := [], [];
      out := [];
    }

    method Emit(line: seq<byte>, ghost ended: bool)
      requires Valid()
      modifies this
      ensures Valid() && buf == old(buf) && out == old(out) + [Segment(line, ended)]
    {
      emitted := emitted + [Trim(line)];
      out := out + [Segment(line, ended)];
    }

    method Write(p: seq<byte>)
      requires Valid()
      modifies this
      ensures Valid() && View() == Fill(old(View()), p)
      ensures old(buf) == [] && p != [] && p[|p| - 1] == Newline && Newline !in p[..|p| - 1] ==>
                buf == [] && |emitted| == |old(emitted)| + 1 && old(emitted) <= emitted && LineOf(emitted[|old(emitted)|], p[..|p| - 1])
    {
      hide Index, Lines, Rest, Trim;
      buf := buf + p;
      var i := Index(buf);
      while i < |buf|
        invariant Valid() && i == Index(buf)
        invariant out + Lines(buf) == old(out) + Lines(old(buf) + p) && Rest(buf) == Rest(old(buf) + p)
        decreases |buf|
      {
        ghost var before := out;
        SplitStep(buf);
        Emit(buf[..i], true);
        assert before + ([Segment(buf[..i], true)] + Lines(buf[i + 1..])) == out + Lines(buf[i + 1..]);
        buf := buf[i + 1..];
        i := Index(buf);
      }
      SplitStep(buf);
      assert out == out + Lines(buf);
      if |buf| > LineCap {
        Emit(buf, false);
        buf := [];
      }
      if old(buf) == [] && p != [] && p[|p| - 1] == Newline && Newline !in p[..|p| - 1] { OneLine(old(out), p); }
    }

    method Close()
      requires Valid()
      modifies this
      ensures Valid() && View() == Flush(old(View()))
      ensures buf == [] && (old(buf) == [] ==> emitted == old(emitted))
      ensures old(buf) != [] ==>
                |emitted| == |old(emitted)| + 1 && old(emitted) <= emitted && LineOf(emitted[|old(emitted)|], old(buf))
    {
      if |buf| > 0 {
        Emit(buf, false);
        buf := [];
      }
    }
  }

  // ---- Conservation -----------------------------------------------------------

  lemma {:induction false} JoinAppend(a: seq<Segment>, b: seq<Segment>)
    ensures Join(a + b) == Join(a) + Join(b)
  {
    if b == [] {
      assert a + b == a;
    } else {
      var last := |b| - 1;
      assert (a + b)[..|a + b| - 1] == a + b[..last];
      JoinAppend(a, b[..last]);
    }
  }

  lemma {:induction false} SplitConserves(s: seq<byte>)
    ensures Join(Lines(s)) + Rest(s) == s
    decreases |s|
  {
    hide Index, Lines, Rest, Join;
    SplitStep(s);
    JoinNone();
    var i := Index(s);
    if i < |s| {
      SplitConserves(s[i + 1..]);
      var g := Segment(s[..i], true);
      JoinAppend([g], Lines(s[i + 1..]));
      JoinOne(g);
      assert s == s[..i] + [Newline] + s[i + 1..];
    }
  }

  /** Every byte is in what was emitted, with its newlines, or in the buffer; the buffer stays within the cap. */
  lemma {:induction false} FeedConserves(chunks: seq<seq<byte>>)
    ensures Join(Feed(chunks).out) + Feed(chunks).buf == Concat(chunks)
    ensures |Feed(chunks).buf| <= LineCap && Newline !in Feed(chunks).buf
    ensures Join(Flush(Feed(chunks)).out) == Concat(chunks)
  {
    hide Fill, Flush, Join;
    JoinNone();
    if chunks != [] {
      FeedConserves(chunks[..|chunks| - 1]);
      FillConserves(Feed(chunks[..|chunks| - 1]), chunks[|chunks| - 1]);
    }
    FlushConserves(Feed(chunks));
  }

  lemma FillConserves(f: Fed, p: seq<byte>)
    ensures Join(Fill(f, p).out) + Fill(f, p).buf == Join(f.out) + f.buf + p
    ensures Newline !in Fill(f, p).buf
  {
    hide Index, Lines, Rest, Join;
    var all := f.buf + p;
    SplitConserves(all);
    JoinAppend(f.out, Lines(all));
    JoinAppend(f.out + Lines(all), [Segment(Rest(all), false)]);
    JoinOne(Segment(Rest(all), false));
    assert Join(f.out) + f.buf + p == Join(f.out) + all;
  }

  lemma FlushConserves(f: Fed)
    ensures Join(Flush(f).out) == Join(f.out) + f.buf
  {
    hide Join;
    JoinAppend(f.out, [Segment(f.buf, false)]);
    JoinOne(Segment(f.buf, false));
  }

  lemma JoinNone()
    ensures Join([]) == []
  {
  }

  lemma JoinOne(g: Segment)
    ensures Join([g]) == Raw(g)
  {
    assert Join([g]) == Join([]) + Raw(g);
  }

  // ---- Chunking ---------------------------------------------------------------

  /** The split of a text continues from the rest of its beginning. */
  lemma {:induction false} SplitContinues(a: seq<byte>, b: seq<byte>)
    ensures Lines(a + b) == Lines(a) + Lines(Rest(a) + b) && Rest(a + b) == Rest(Rest(a) + b)
    decreases |a|
  {
    hide Index, Lines, Rest;
    SplitStep(a);
    SplitStep(a + b);
    var i := Index(a);
    if i < |a| {
      IndexOfPrefix(a, b);
      assert (a + b)[..i] == a[..i] && (a + b)[i + 1..] == a[i + 1..] + b;
      SplitContinues(a[i + 1..], b);
      assert Lines(a + b) == [Segment(a[..i], true)] + (Lines(a[i + 1..]) + Lines(Rest(a) + b));
    } else {
      assert Lines(a) + Lines(Rest(a) + b) == Lines(Rest(a) + b);
    }
  }

  lemma {:induction false} IndexOfPrefix(a: seq<byte>, b: seq<byte>)
    requires Index(a) < |a|
    ensures Index(a + b) == Index(a)
  {
    if a[0] != Newline {
      assert (a + b)[1..] == a[1..] + b;
      IndexOfPrefix(a[1..], b);
    }
  }

  predicate LinesFit(s: seq<byte>) { forall g :: g in Lines(s) ==> |g.data| <= LineCap }

  /** Every line fits the cap; an unfinished last line may exceed it by the one byte that makes it go out. */
  predicate Fits(s: seq<byte>) { LinesFit(s) && |Rest(s)| <= LineCap + 1 }

  /** What lies in a writer that has been fed a text that fits. */
  predicate Faithful(f: Fed, s: seq<byte>) {
    || (f.out == Lines(s) && f.buf == Rest(s))
    || (|Rest(s)| == LineCap + 1 && f == Fed(Lines(s) + [Segment(Rest(s), false)], []))
  }

  /** An unfinished line that continues: with nothing more, or into a line of the longer text. */
  lemma RestGrows(a: seq<byte>, b: seq<byte>)
    requires Fits(a + b)
    ensures Fits(a) && (|Rest(a)| == LineCap + 1 ==> b == [])
  {
    SplitContinues(a, b);
    var r := Rest(a);
    var i := Index(r + b);
    forall k | 0 <= k < |r| ensures (r + b)[k] != Newline { assert (r + b)[k] == r[k] && r[k] in r; }
    assert i >= |r|;
    forall g | g in Lines(a) ensures |g.data| <= LineCap { assert g in Lines(a + b); }
    if i < |r + b| {
      var g := Segment((r + b)[..i], true);
      assert g == Lines(r + b)[0] && g in Lines(a + b);
    } else {
      assert Rest(r + b) == r + b;
    }
  }

  lemma {:induction false} FeedFaithful(chunks: seq<seq<byte>>)
    requires Fits(Concat(chunks))
    ensures Faithful(Feed(chunks), Concat(chunks))
  {
    if chunks != [] {
      var before, p := chunks[..|chunks| - 1], chunks[|chunks| - 1];
      var a := Concat(before);
      RestGrows(a, p);
      FeedFaithful(before);
      SplitContinues(a, p);
      if Feed(before).out == Lines(a) && Feed(before).buf == Rest(a) {
      } else {
        assert p == [] && a + p == a;
        assert Feed(chunks).out == Feed(before).out;
      }
    }
  }

  /** If every line fits the cap, how the text was cut into writes does not matter: what is emitted is the newline split. */
  lemma ChunkingIrrelevant(chunks: seq<seq<byte>>)
    requires Fits(Concat(chunks))
    ensures Flush(Feed(chunks)) == Fed(Split(Concat(chunks)), [])
  {
    FeedFaithful(chunks);
  }

  /** A text that does not fit has a beginning whose unfinished line goes out on its own, with more to come. */
  lemma {:induction false} LongBeginning(s: seq<byte>) returns (a: seq<byte>)
    requires !Fits(s)
    ensures a <= s && a != s && |Rest(a)| == LineCap + 1
    decreases |s|
  {
    var i := Index(s);
    SplitStep(s);
    hide Index, Lines, Rest;
    if i < |s| && i <= LineCap {
      var rest := s[i + 1..];
      assert LinesFit(rest) ==> LinesFit(s);
      var a' := LongBeginning(rest);
      a := s[..i + 1] + a';
      IndexAt(a, i);
      SplitStep(a);
      assert a[i + 1..] == a';
      assert s == s[..i + 1] + rest;
    } else {
      a := s[..LineCap + 1];
      assert Newline !in a by { assert forall k :: 0 <= k < |a| ==> a[k] == s[..i][k]; }
    }
  }

  lemma {:induction false} IndexAt(s: seq<byte>, i: nat)
    requires i < |s| && s[i] == Newline && Newline !in s[..i]
    ensures Index(s) == i
  {
    if i > 0 {
      assert s[0] == s[..i][0];
      assert forall x :: x in s[1..][..i - 1] ==> x in s[..i];
      IndexAt(s[1..], i - 1);
    }
  }

  /** Otherwise some way of cutting the text emits other lines than its newline split, even to a reader who sees
      the lines only. */
  lemma ChunkingMatters(s: seq<byte>) returns (chunks: seq<seq<byte>>)
    requires !Fits(s)
    ensures Concat(chunks) == s && Trimmed(Flush(Feed(chunks)).out) != Trimmed(Split(s))
  {
    var a := LongBeginning(s);
    var b := s[|a|..];
    chunks := [a, b];
    assert a + b == s;
    FeedTwo(a, b);
    hide *;
    FirstOut(a);
    SecondOut(Lines(a) + [Segment(Rest(a), false)], b);
    SplitCount(a, b);
    assert |Flush(Feed(chunks)).out| == |Split(s)| + 1;
  }

  lemma FirstOut(a: seq<byte>)
    requires |Rest(a)| == LineCap + 1
    ensures Fill(Fed([], []), a) == Fed(Lines(a) + [Segment(Rest(a), false)], [])
  {
    hide Lines, Rest;
    assert [] + a == a;
  }

  /** With nothing buffered, a last chunk adds its split. */
  lemma SecondOut(out: seq<Segment>, b: seq<byte>)
    ensures |Flush(Fill(Fed(out, []), b)).out| == |out| + |Split(b)|
  {
    hide Lines, Rest;
    assert [] + b == b;
  }

  /** An unfinished line that goes on is still one line. */
  lemma SplitOne(r: seq<byte>, b: seq<byte>)
    requires b != [] && Newline !in r
    ensures |Split(r + b)| == |Split(b)|
  {
    hide Lines, Rest, Index;
    SplitStep(b);
    SplitStep(r + b);
    var i := Index(b);
    if i < |b| {
      assert (r + b)[..|r| + i] == r + b[..i];
      IndexAt(r + b, |r| + i);
      assert (r + b)[|r| + i + 1..] == b[i + 1..];
    } else {
      assert b[..i] == b;
      NoIndex(r + b);
    }
  }

  lemma SplitCount(a: seq<byte>, b: seq<byte>)
    requires b != []
    ensures |Split(a + b)| == |Lines(a)| + |Split(b)|
  {
    SplitContinues(a, b);
    SplitOne(Rest(a), b);
    hide Lines, Rest;
  }

  lemma NoIndex(s: seq<byte>)
    requires Newline !in s
    ensures Index(s) == |s|
  {
    assert forall i :: 0 <= i < |s| ==> s[i] in s && s[i] != Newline;
  }

  lemma FeedTwo(a: seq<byte>, b: seq<byte>)
    ensures Feed([a, b]) == Fill(Fill(Fed([], []), a), b)
    ensures Concat([a, b]) == a + b
  {
    hide Lines, Rest;
    assert [a, b][..1] == [a] && [a][..0] == [];
    assert Feed([a]) == Fill(Feed([]), a);
    assert Concat([a]) == Concat([]) + a;
  }

  /** The emitted lines are the newline split however the text is cut, if and only if the text fits. */
  lemma ChunkingExact(s: seq<byte>)
    ensures Fits(s) <==> forall chunks :: Concat(chunks) == s ==> Trimmed(Flush(Feed(chunks)).out) == Trimmed(Split(s))
  {
    hide Fits, Trimmed, Flush, Feed, Split, Concat;
    if Fits(s) {
      forall chunks | Concat(chunks) == s ensures Trimmed(Flush(Feed(chunks)).out) == Trimmed(Split(s)) { ChunkingIrrelevant(chunks); }
    } else {
      var chunks := ChunkingMatters(s);
    }
  }

  /** One whole line at once is one segment. */
  lemma OneLine(out: seq<Segment>, p: seq<byte>)
    requires p != [] && p[|p| - 1] == Newline && Newline !in p[..|p| - 1]
    ensures Fill(Fed(out, []), p) == Fed(out + [Segment(p[..|p| - 1], true)], [])
  {
    var i := |p| - 1;
    IndexAt(p, i);
    SplitStep(p);
    SplitStep([]);
    hide Lines, Rest, Index;
    assert p[i + 1..] == [] && [] + p == p;
    assert out + [Segment(p[..i], true)] == out + ([Segment(p[..i], true)] + []);
  }

  /** A line's ending, either kind, is not part of what goes out, and of two carriage returns only one is. */
  lemma LineEndings(out: seq<Segment>, text: seq<byte>)
    requires Newline !in text
    ensures text == [] || text[|text| - 1] != Return ==>
              Trimmed(Fill(Fed(out, []), text + [Return, Newline]).out) == Trimmed(out) + [text] == Trimmed(Fill(Fed(out, []), text + [Newline]).out)
    ensures Trimmed(Fill(Fed(out, []), text + [Return, Return, Newline]).out) == Trimmed(out) + [text + [Return]]
    ensures Trimmed(Flush(Fed(out, text + [Return])).out) == Trimmed(out) + [text]
  {
    hide Trim, Trimmed, Fill, Flush, Lines, Rest, Index;
    LineGoesOut(out, text);
    LineGoesOut(out, text + [Return]);
    LineGoesOut(out, text + [Return] + [Return]);
    RestGoesOut(out, text + [Return]);
    OneReturn(text);
    OneReturn(text + [Return]);
    assert text + [Return, Newline] == text + [Return] + [Newline];
    assert text + [Return, Return, Newline] == text + [Return] + [Return] + [Newline];
  }

  lemma OneReturn(text: seq<byte>)
    ensures Trim(text + [Return]) == text
    ensures text == [] || text[|text| - 1] != Return ==> Trim(text) == text
  {
  }

  lemma RestGoesOut(out: seq<Segment>, raw: seq<byte>)
    requires raw != []
    ensures Trimmed(Flush(Fed(out, raw)).out) == Trimmed(out) + [Trim(raw)]
  {
  }

  lemma LineGoesOut(out: seq<Segment>, raw: seq<byte>)
    requires Newline !in raw
    ensures Trimmed(Fill(Fed(out, []), raw + [Newline]).out) == Trimmed(out) + [Trim(raw)]
  {
    var p := raw + [Newline];
    assert p[..|p| - 1] == raw;
    OneLine(out, p);
    hide Fill;
    assert Trimmed(out + [Segment(raw, true)]) == Trimmed(out) + [Trim(raw)];
  }
}
