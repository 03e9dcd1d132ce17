/** Letter case of ASCII names, and texts as parts between separators. */
module Text {

  function LowerChar(c: char): (d: char)
    ensures 'A' <= c <= 'Z' ==> 'a' <= d <= 'z'
    ensures !('A' <= c <= 'Z') ==> d == c
  {
    if 'A' <= c <= 'Z' then (c as int + 32) as char else c
  }

  function Lower(s: string): (r: string)
    ensures |r| == |s|
    ensures forall i :: 0 <= i < |s| ==> r[i] == LowerChar(s[i])
  {
    seq(|s|, i requires 0 <= i < |s| => LowerChar(s[i]))
  }

  predicate EqualFold(a: string, b: string) { Lower(a) == Lower(b) }

  lemma FoldSelf(s: string)
    ensures EqualFold(s, s)
  {
  }

  // ---- Separators ----------------------------------------------------------

  /** The parts of a text between separators; a text without separators is one part. */
  function Split(s: string, sep: char): (ps: seq<string>)
    ensures |ps| > 0 && forall p :: p in ps ==> sep !in p
  {
    if s == "" then [""]
    else
      var ps := Split(s[1..], sep);
      if s[0] == sep then [""] + ps else [[s[0]] + ps[0]] + ps[1..]
  }

  function Merge(ps: seq<string>, sep: char): string {
    if ps == [] then "" else if |ps| == 1 then ps[0] else ps[0] + [sep] + Merge(ps[1..], sep)
  }

  lemma {:induction false} SplitPart(s: string, sep: char)
    requires sep !in s
    ensures Split(s, sep) == [s]
  {
    if s != "" {
      assert s[0] in s && forall x :: x in s[1..] ==> x in s;
      SplitPart(s[1..], sep);
      assert [s[0]] + s[1..] == s;
    }
  }

  lemma {:induction false} SplitTwo(a: string, b: string, sep: char)
    ensures Split(a + [sep] + b, sep) == Split(a, sep) + Split(b, sep)
  {
    var s := a + [sep] + b;
    if a == "" {
      assert s[1..] == b;
    } else {
      assert s[1..] == a[1..] + [sep] + b;
      SplitTwo(a[1..], b, sep);
    }
  }

  lemma {:induction false} SplitMerge(ps: seq<string>, sep: char)
    requires ps != [] && forall p :: p in ps ==> sep !in p
    ensures Split(Merge(ps, sep), sep) == ps
  {
    SplitPart(ps[0], sep);
    if |ps| > 1 {
      SplitTwo(ps[0], Merge(ps[1..], sep), sep);
      SplitMerge(ps[1..], sep);
      assert [ps[0]] + ps[1..] == ps;
    } else {
      assert ps == [ps[0]];
    }
  }
}
