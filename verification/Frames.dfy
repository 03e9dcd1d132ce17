/** Frames on a guest stream: a channel byte, a big-endian length and a payload. */
module Frames {
  import opened Options

  newtype byte = x: int | 0 <= x < 256

  const MaxFrame := 0x10_0000

  datatype Frame = Frame(channel: byte, payload: seq<byte>)

  /** How reading one frame fails.  `Eof` is the bare end of the stream; a payload cut off right after
      its header wraps the end of the stream, one cut off later does not.  The last two are failures of the
      stream itself. */
  datatype Error = Eof | TruncatedHeader | TruncatedPayload(wrapsEof: bool) | TooLong(claimed: nat) | ReadFailed | PayloadReadFailed

  datatype Read = Got(frame: Frame, rest: seq<byte>) | Failed(error: Error)

  // ---- The format ---------------------------------------------------------

  function Big(n: nat): (s: seq<byte>)
    requires n < 0x1_0000_0000
    ensures |s| == 4
  {
    [(n / 0x100_0000) as byte, (n / 0x1_0000 % 0x100) as byte, (n / 0x100 % 0x100) as byte, (n % 0x100) as byte]
  }

  function FromBig(s: seq<byte>): (n: nat)
    requires |s| == 4
    ensures n < 0x1_0000_0000
  {
    s[0] as nat * 0x100_0000 + s[1] as nat * 0x1_0000 + s[2] as nat * 0x100 + s[3] as nat
  }

  lemma BigRoundTrip(n: nat)
    requires n < 0x1_0000_0000
    ensures FromBig(Big(n)) == n
  {
    assert n / 0x1_0000 == n / 0x100_0000 * 0x100 + n / 0x1_0000 % 0x100;
    assert n / 0x100 == n / 0x1_0000 * 0x100 + n / 0x100 % 0x100;
  }

  lemma FromBigRoundTrip(s: seq<byte>)
    requires |s| == 4
    ensures Big(FromBig(s)) == s
  {
    var n := FromBig(s);
    assert n / 0x100 == s[0] as nat * 0x1_0000 + s[1] as nat * 0x100 + s[2] as nat;
    assert n / 0x1_0000 == s[0] as nat * 0x100 + s[1] as nat;
    assert n / 0x100_0000 == s[0] as nat;
  }

  /** Which of two lengths written in four bytes is the smaller shows in the first byte that differs. */
  predicate Precedes(s: seq<byte>, t: seq<byte>) {
    if s == [] || t == [] then false else s[0] < t[0] || (s[0] == t[0] && Precedes(s[1..], t[1..]))
  }

  lemma BigOrdered(m: nat, n: nat)
    requires m < 0x1_0000_0000 && n < 0x1_0000_0000
    ensures m < n <==> Precedes(Big(m), Big(n))
  {
    var s, t := Big(m), Big(n);
    BigRoundTrip(m);
    BigRoundTrip(n);
    assert s[1..][1..] == s[2..] && s[2..][1..] == s[3..] && s[3..][1..] == [];
    assert t[1..][1..] == t[2..] && t[2..][1..] == t[3..] && t[3..][1..] == [];
    assert Precedes(s[3..], t[3..]) <==> s[3] < t[3];
    assert Precedes(s[2..], t[2..]) <==> s[2] < t[2] || (s[2] == t[2] && s[3] < t[3]);
    assert Precedes(s[1..], t[1..]) <==> s[1] < t[1] || (s[1] == t[1] && Precedes(s[2..], t[2..]));
  }

  predicate Fits(f: Frame) { |f.payload| <= MaxFrame }

  function Header(f: Frame): (s: seq<byte>)
    requires Fits(f)
    ensures |s| == 5
  {
    [f.channel] + Big(|f.payload|)
  }

  function Encode(f: Frame): (s: seq<byte>)
    requires Fits(f)
    ensures |s| == 5 + |f.payload|
  {
    Header(f) + f.payload
  }

  function Decode(s: seq<byte>): (r: Read)
    ensures r.Got? ==> Fits(r.frame) && s == Encode(r.frame) + r.rest
    ensures r.Failed? && r.error == Eof <==> s == []
  {
    if s == [] then Failed(Eof)
    else if |s| < 5 then Failed(TruncatedHeader)
    else
      var n := FromBig(s[1..5]);
      if n > MaxFrame then Failed(TooLong(n))
      else if |s| < 5 + n then Failed(TruncatedPayload(|s| == 5))
      else
        FromBigRoundTrip(s[1..5]);
        Got(Frame(s[0], s[5..5 + n]), s[5 + n..])
  }

  function EncodeAll(fs: seq<Frame>): seq<byte>
    requires forall f :: f in fs ==> Fits(f)
  {
    if fs == [] then [] else Encode(fs[0]) + EncodeAll(fs[1..])
  }

  /** Read frames until reading fails; the failure says how the stream ended. */
  function DecodeAll(s: seq<byte>): (r: (seq<Frame>, Error))
    decreases |s|
  {
    match Decode(s)
    case Failed(e) => ([], e)
    case Got(f, rest) => var (fs, e) := DecodeAll(rest); ([f] + fs, e)
  }

  lemma DecodeEncode(f: Frame, rest: seq<byte>)
    requires Fits(f)
    ensures Decode(Encode(f) + rest) == Got(f, rest)
  {
    var s := Encode(f) + rest;
    assert s[1..5] == Big(|f.payload|);
    BigRoundTrip(|f.payload|);
    assert s[5..5 + |f.payload|] == f.payload && s[5 + |f.payload|..] == rest;
  }

  /** A stream of frames decodes to those frames and a bare end. */
  lemma {:induction false} StreamRoundTrip(fs: seq<Frame>, rest: seq<byte>)
    requires forall f :: f in fs ==> Fits(f)
    ensures DecodeAll(EncodeAll(fs) + rest) == (fs + DecodeAll(rest).0, DecodeAll(rest).1)
  {
    hide Decode, Encode, Fits;
    if fs == [] {
      assert EncodeAll(fs) + rest == rest && fs + DecodeAll(rest).0 == DecodeAll(rest).0;
    } else {
      assert EncodeAll(fs) + rest == Encode(fs[0]) + (EncodeAll(fs[1..]) + rest);
      DecodeEncode(fs[0], EncodeAll(fs[1..]) + rest);
      StreamRoundTrip(fs[1..], rest);
      assert fs + DecodeAll(rest).0 == [fs[0]] + (fs[1..] + DecodeAll(rest).0);
    }
  }

  /** What a frame cut after `k` bytes reads as. */
  lemma CutFrame(f: Frame, k: nat)
    requires Fits(f) && k < |Encode(f)|
    ensures Decode(Encode(f)[..k]) == Failed(if k == 0 then Eof else if k < 5 then TruncatedHeader else TruncatedPayload(k == 5))
  {
    var s := Encode(f)[..k];
    if k >= 5 {
      assert s[1..5] == Big(|f.payload|);
      BigRoundTrip(|f.payload|);
    }
  }

  /** A stream cut anywhere yields the whole frames before the cut and then says where in a frame it stopped;
      a bare end means the cut was between frames. */
  lemma {:induction false} CutStream(fs: seq<Frame>, k: nat) returns (j: nat, inside: nat)
    requires (forall f :: f in fs ==> Fits(f)) && k <= |EncodeAll(fs)|
    ensures j <= |fs| && k == |EncodeAll(fs[..j])| + inside && (inside > 0 ==> j < |fs| && inside < |Encode(fs[j])|)
    ensures DecodeAll(EncodeAll(fs)[..k])
            == (fs[..j], if inside == 0 then Eof else if inside < 5 then TruncatedHeader else TruncatedPayload(inside == 5))
  {
    hide Decode, Encode, Fits;
    if fs == [] { return 0, 0; }
    var f, s := fs[0], EncodeAll(fs)[..k];
    if k < |Encode(f)| {
      assert s == Encode(f)[..k];
      CutFrame(f, k);
      return 0, k;
    }
    j, inside := CutStream(fs[1..], k - |Encode(f)|);
    var rest := EncodeAll(fs[1..])[..k - |Encode(f)|];
    assert s == Encode(f) + rest;
    DecodeEncode(f, rest);
    assert fs[..j + 1] == [f] + fs[1..][..j] && fs[..j + 1][1..] == fs[1..][..j];
    j := j + 1;
  }

  /** Whatever the bytes: the frames read are within the limit, and they are a prefix of the stream. */
  lemma {:induction false} DecodedIsPrefix(s: seq<byte>)
    ensures forall f :: f in DecodeAll(s).0 ==> Fits(f)
    ensures EncodeAll(DecodeAll(s).0) <= s
    ensures DecodeAll(s).1 == Eof <==> EncodeAll(DecodeAll(s).0) == s
    decreases |s|
  {
    match Decode(s)
    case Failed(_) =>
    case Got(f, rest) =>
      DecodedIsPrefix(rest);
      var fs := DecodeAll(rest).0;
      assert ([f] + fs)[1..] == fs;
      assert EncodeAll([f] + fs) == Encode(f) + EncodeAll(fs);
  }

  // ---- Reading and writing ------------------------------------------------

  class Writer {
    var written: seq<byte>

    constructor ()
      ensures written == []
    {
      written := [];
    }

    /** Write all of `s`, or fail after part of it. */
    method Write(s: seq<byte>, fails: Option<nat>) returns (ok: bool)
      modifies this
      ensures ok <==> fails.None?
      ensures ok ==> written == old(written) + s
      ensures !ok ==> old(written) <= written <= old(written) + s
    {
      match fails
      case None => written := written + s; ok := true;
      case Some(n) => written := written + s[..if n <= |s| then n else |s|]; ok := false;
    }
  }

  /** A stream that hands out its bytes in pieces of its own choosing, and then ends or, when `broken`, fails. */
  class Reader {
    var rest: seq<byte>
    const broken: bool

    constructor (s: seq<byte>, fails: bool)
      ensures rest == s && broken == fails
    {
      rest, broken := s, fails;
    }

    method Read(most: nat) returns (s: seq<byte>)
      requires most > 0
      modifies this
      ensures old(rest) == s + rest && |s| <= most && (s == [] ==> rest == [])
    {
      if rest == [] { return []; }
      var k :| 1 <= k <= most && k <= |rest|;
      s, rest := rest[..k], rest[k..];
    }

    /** Fill `n` bytes, or take all there is. */
    method ReadFull(n: nat) returns (s: seq<byte>)
      modifies this
      ensures old(rest) == s + rest && |s| <= n && (|s| < n ==> rest == [])
    {
      s := [];
      while |s| < n
        invariant old(rest) == s + rest && |s| <= n
        decreases n - |s|
      {
        var more := Read(n - |s|);
        if more == [] { return; }
        s := s + more;
      }
    }
  }

  datatype WriteResult = Written | WriteTooLong | WriteFailed

  method WriteFrame(w: Writer, channel: byte, payload: seq<byte>, header: Option<nat>, body: Option<nat>) returns (r: WriteResult)
    modifies w
    ensures r == WriteTooLong <==> !Fits(Frame(channel, payload))
    ensures r == WriteTooLong ==> w.written == old(w.written)
    ensures r == Written ==> w.written == old(w.written) + Encode(Frame(channel, payload))
    ensures r == WriteFailed ==> old(w.written) <= w.written <= old(w.written) + Encode(Frame(channel, payload))
    ensures r == Written <==> Fits(Frame(channel, payload)) && header.None? && (payload == [] || body.None?)
  {
    if |payload| > MaxFrame { return WriteTooLong; }
    var hdr := new byte[5];
    hdr[0] := channel;
    var big := Big(|payload|);
    hdr[1], hdr[2], hdr[3], hdr[4] := big[0], big[1], big[2], big[3];
    assert hdr[..] == Header(Frame(channel, payload));
    var ok := w.Write(hdr[..], header);
    if !ok { return WriteFailed; }
    if payload == [] { return Written; }
    ok := w.Write(payload, body);
    r := if ok then Written else WriteFailed;
  }

  /** What a reader reports where the decoding of its bytes ends. */
  function Reported(e: Error, broken: bool): Error {
    if !broken || e.TooLong? then e else if e.TruncatedPayload? then PayloadReadFailed else ReadFailed
  }

  method ReadFrame(r: Reader) returns (got: Option<Frame>, err: Option<Error>)
    modifies r
    ensures match Decode(old(r.rest))
            case Got(f, rest) => got == Some(f) && err == None && r.rest == rest
            case Failed(e) => got == None && err == Some(Reported(e, r.broken))
    ensures err.Some? && !err.value.TooLong? ==> r.rest == []
    ensures err.Some? && (err.value.Eof? || err.value.TruncatedHeader? || err.value.TruncatedPayload?) ==> !r.broken
    ensures err.Some? && (err.value.ReadFailed? || err.value.PayloadReadFailed?) ==> r.broken
  {
    ghost var s := r.rest;
    var hdr := r.ReadFull(5);
    if |hdr| < 5 {
      return None, Some(Reported(if |hdr| == 0 then Eof else TruncatedHeader, r.broken));
    }
    assert hdr[1..5] == s[1..5];
    var n := FromBig(hdr[1..5]);
    if n > MaxFrame { return None, Some(TooLong(n)); }
    if n == 0 {
      assert s[5..5] == [] && s[5..] == r.rest;
      return Some(Frame(hdr[0], [])), None;
    }
    var payload := r.ReadFull(n);
    if |payload| < n { return None, Some(Reported(TruncatedPayload(payload == []), r.broken)); }
    assert s[5..] == payload + r.rest;
    assert s[5..5 + n] == payload && s[5 + n..] == r.rest;
    return Some(Frame(hdr[0], payload)), None;
  }
}
