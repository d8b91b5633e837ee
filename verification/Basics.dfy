/** Shared value types: options, byte strings and colon-joined names. */
module Basics {

  datatype Option<+T> = None | Some(value: T)

  type Bytes = seq<bv8>

  function Min(a: int, b: int): int { if a <= b then a else b }

  function Max(a: int, b: int): int { if a <= b then b else a }

  /** Index of the first `c` in `s`, or -1. */
  function IndexOf(s: string, c: char): (i: int)
    ensures -1 <= i < |s|
    ensures i >= 0 ==> s[i] == c && c !in s[..i]
    ensures i < 0 ==> c !in s
  {
    if s == [] then -1
    else if s[0] == c then 0
    else
      var r := IndexOf(s[1..], c);
      if r < 0 then -1
      else
        assert s[..r + 1] == [s[0]] + s[1..][..r];
        r + 1
  }

  /** Two strings cut at a separator that neither left part contains are cut at the same place. */
  lemma CutAtFirst(a: string, b: string, c: string, d: string, sep: char)
    requires a + [sep] + b == c + [sep] + d
    requires sep !in a && sep !in c
    ensures a == c && b == d
  {
    var w := a + [sep] + b;
    assert w[|a|] == sep && w[|c|] == sep;
    assert forall i | 0 <= i < |a| :: w[i] == a[i] && w[i] != sep;
    assert forall i | 0 <= i < |c| :: w[i] == c[i] && w[i] != sep;
    assert a == w[..|a|] && c == w[..|c|];
    assert b == w[|a| + 1..] && d == w[|c| + 1..];
  }

  /** The same, cut at a separator that neither right part contains. */
  lemma CutAtLast(a: string, b: string, c: string, d: string, sep: char)
    requires a + [sep] + b == c + [sep] + d
    requires sep !in b && sep !in d
    ensures a == c && b == d
  {
    var w := a + [sep] + b;
    assert w[|a|] == sep && w[|c|] == sep;
    assert forall i | |a| < i < |w| :: w[i] == b[i - |a| - 1] && w[i] != sep;
    assert forall i | |c| < i < |w| :: w[i] == d[i - |c| - 1] && w[i] != sep;
    assert a == w[..|a|] && c == w[..|c|];
    assert b == w[|a| + 1..] && d == w[|c| + 1..];
  }

  // ---------------------------------------------------------------- names made of segments

  predicate ColonFree(s: string) { ':' !in s }

  predicate AllColonFree(segs: seq<string>) { forall i | 0 <= i < |segs| :: ColonFree(segs[i]) }

  /** Segments joined by colons. */
  function Join(segs: seq<string>): string
    requires segs != []
  {
    if |segs| == 1 then segs[0] else segs[0] + [':'] + Join(segs[1..])
  }

  /** Segments each followed by a colon: the form of a step prefix. */
  function Prefix(segs: seq<string>): string {
    if segs == [] then [] else segs[0] + [':'] + Prefix(segs[1..])
  }

  lemma {:induction false} PrefixThenJoin(p: seq<string>, rest: seq<string>)
    requires rest != []
    ensures Prefix(p) + Join(rest) == Join(p + rest)
  {
    if p == [] {
      assert p + rest == rest;
    } else {
      PrefixThenJoin(p[1..], rest);
      assert (p + rest)[1..] == p[1..] + rest;
    }
  }

  lemma {:induction false} PrefixConcat(p: seq<string>, q: seq<string>)
    ensures Prefix(p + q) == Prefix(p) + Prefix(q)
  {
    if p == [] {
      assert p + q == q;
    } else {
      PrefixConcat(p[1..], q);
      assert (p + q)[1..] == p[1..] + q;
    }
  }

  lemma JoinColon(a: seq<string>)
    requires a != [] && AllColonFree(a)
    ensures |a| == 1 <==> ':' !in Join(a)
  {
    if |a| > 1 {
      assert Join(a)[|a[0]|] == ':';
    }
  }

  /** Colon-free segments can be read back from the joined name. */
  lemma {:induction false} JoinInjective(a: seq<string>, b: seq<string>)
    requires a != [] && b != []
    requires AllColonFree(a) && AllColonFree(b)
    requires Join(a) == Join(b)
    ensures a == b
  {
    JoinColon(a);
    JoinColon(b);
    if |a| > 1 && |b| > 1 {
      CutAtFirst(a[0], Join(a[1..]), b[0], Join(b[1..]), ':');
      JoinInjective(a[1..], b[1..]);
      assert a == [a[0]] + a[1..] && b == [b[0]] + b[1..];
    }
  }
}
