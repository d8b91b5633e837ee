/** Journal step names of the command bus, through compensation nested to any depth (cmdworkflow/bus.go). */
module BusNames {
  import opened Basics

  /** One level of compensation: the subscriber and the first event id of its batch. */
  datatype Hop = Hop(name: string, eventId: string)

  type Path = seq<Hop>

  /** What a journaled step is for. */
  datatype Key =
    | KAppend(path: Path)
    | KEnvelopes(path: Path)
    | KState(path: Path)
    | KSubscriber(path: Path, name: string, eventId: string)
    | KDeadLetter(path: Path, name: string, eventId: string)

  const UUID_LENGTH := 36

  /** The textual form of an event id. */
  predicate UuidLike(s: string) { |s| == UUID_LENGTH && ColonFree(s) }

  predicate PathOk(path: Path) {
    forall i | 0 <= i < |path| :: ColonFree(path[i].name) && ColonFree(path[i].eventId)
  }

  predicate KeyOk(k: Key) {
    && PathOk(k.path)
    && (k.KSubscriber? || k.KDeadLetter? ==> ColonFree(k.name) && UuidLike(k.eventId))
  }

  function Flat(path: Path): seq<string> {
    if path == [] then [] else ["compensate", path[0].name, path[0].eventId] + Flat(path[1..])
  }

  function Local(k: Key): (segs: seq<string>)
    ensures segs != []
  {
    match k
    case KAppend(_) => ["append"]
    case KEnvelopes(_) => ["read-envelopes"]
    case KState(_) => ["read-state"]
    case KSubscriber(_, n, e) => [n, "cmd", e]
    case KDeadLetter(_, n, e) => [n, e, "dlq"]
  }

  /** The step name as the code builds it: the context's prefix, then the local part. */
  function Name(k: Key): string { Prefix(Flat(k.path)) + Join(Local(k)) }

  /** A nested call's prefix extends its parent's. */
  lemma NestedPrefix(path: Path, h: Hop)
    ensures Prefix(Flat(path + [h])) == Prefix(Flat(path)) + "compensate" + ":" + h.name + ":" + h.eventId + ":"
  {
    FlatConcat(path, [h]);
    assert Flat([h]) == ["compensate", h.name, h.eventId] by {
      assert [h][1..] == [];
    }
    PrefixConcat(Flat(path), Flat([h]));
    var s := ["compensate", h.name, h.eventId];
    assert s[1..] == [h.name, h.eventId] && s[1..][1..] == [h.eventId] && s[1..][1..][1..] == [];
    assert Prefix(s[1..][1..]) == h.eventId + ":" + Prefix([]);
    assert Prefix(s[1..]) == h.name + ":" + Prefix(s[1..][1..]);
    assert Prefix(s) == "compensate" + ":" + Prefix(s[1..]);
  }

  lemma {:induction false} FlatConcat(a: Path, b: Path)
    ensures Flat(a + b) == Flat(a) + Flat(b)
    decreases |a|
  {
    if a == [] {
      assert a + b == b;
    } else {
      FlatConcat(a[1..], b);
      assert (a + b)[1..] == a[1..] + b;
    }
  }

  lemma {:induction false} FlatColonFree(path: Path)
    requires PathOk(path)
    ensures AllColonFree(Flat(path)) && |Flat(path)| == 3 * |path|
    decreases |path|
  {
    if path != [] {
      FlatColonFree(path[1..]);
    }
  }

  lemma {:induction false} FlatInjective(a: Path, b: Path)
    requires Flat(a) == Flat(b)
    ensures a == b
    decreases |a|
  {
    if a != [] && b != [] {
      var fa, fb := Flat(a), Flat(b);
      assert fa[1] == a[0].name && fb[1] == b[0].name && fa[2] == a[0].eventId && fb[2] == b[0].eventId;
      assert fa[3..] == Flat(a[1..]) && fb[3..] == Flat(b[1..]);
      FlatInjective(a[1..], b[1..]);
      assert a == [a[0]] + a[1..] && b == [b[0]] + b[1..];
    }
  }

  function Segs(k: Key): seq<string> { Flat(k.path) + Local(k) }

  lemma NameIsJoin(k: Key)
    requires KeyOk(k)
    ensures Name(k) == Join(Segs(k)) && AllColonFree(Segs(k)) && |Flat(k.path)| == 3 * |k.path|
  {
    PrefixThenJoin(Flat(k.path), Local(k));
    FlatColonFree(k.path);
  }

  /** The kinds are told apart by their length and their last segment. */
  lemma SegsInjective(a: Key, b: Key)
    requires KeyOk(a) && KeyOk(b) && Segs(a) == Segs(b)
    requires |Flat(a.path)| == 3 * |a.path| && |Flat(b.path)| == 3 * |b.path|
    ensures a == b
  {
    var s := Segs(a);
    assert |Local(a)| == |Local(b)|;
    assert |a.path| == |b.path|;
    assert Flat(a.path) == s[..|Flat(a.path)|] && Flat(b.path) == s[..|Flat(b.path)|];
    FlatInjective(a.path, b.path);
    assert Local(a) == s[|Flat(a.path)|..] && Local(b) == s[|Flat(b.path)|..];
    assert Local(a)[|Local(a)| - 1] == Local(b)[|Local(b)| - 1];
  }

  /** Different steps never share a journal name. */
  lemma NamesDiffer(a: Key, b: Key)
    requires KeyOk(a) && KeyOk(b) && Name(a) == Name(b)
    ensures a == b
  {
    NameIsJoin(a);
    NameIsJoin(b);
    JoinInjective(Segs(a), Segs(b));
    SegsInjective(a, b);
  }
}
