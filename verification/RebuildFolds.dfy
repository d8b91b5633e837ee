/** What a cache rebuild folds when a stream has events that do not decode, and when Load may use the result
    (aggregate/rebuild.go). */
module RebuildFolds {
  import opened Basics
  import opened StreamIds
  import opened Store
  import opened StoreLaws
  import opened Aggregate
  import opened Interleaving
  import opened InterleavingProofs

  /** The rebuild's entry for a log: the fold of the events that decode, at the version of the last of them. */
  function SkipFold<S, C, E>(rt: Runtime<S, C, E>, log: seq<Envelope>): Option<Loaded<S>> {
    if log == [] then None
    else
      var last := log[|log| - 1];
      var before := SkipFold(rt, log[..|log| - 1]);
      match rt.codec.decode(EncodedOf(last.hashed.content))
      case None => before
      case Some(e) =>
        Some(Loaded(rt.evolve(if before.Some? then before.value.state else rt.initial, e), last.hashed.version))
  }

  /** The entry sits at the last event that decodes; there is none exactly when no event does. */
  lemma {:induction false} SkipFoldEnds<S, C, E>(rt: Runtime<S, C, E>, log: seq<Envelope>)
    requires ContiguousLog(log)
    ensures SkipFold(rt, log).None? <==> NoneDecode(rt, log)
    ensures SkipFold(rt, log).Some? ==>
              var v := SkipFold(rt, log).value.version;
              && 1 <= v <= |log| && Decodable(rt, log[v - 1].hashed.content)
              && forall i | v <= i < |log| :: !Decodable(rt, log[i].hashed.content)
    decreases |log|
  {
    if log != [] {
      var n := |log| - 1;
      SkipFoldEnds(rt, log[..n]);
      if SkipFold(rt, log).None? {
        assert forall i | 0 <= i < n :: log[..n][i] == log[i];
      }
      if NoneDecode(rt, log) {
        assert forall i | 0 <= i < n :: !Decodable(rt, log[..n][i].hashed.content);
      }
    }
  }

  /** Where every event decodes it is the full fold. */
  lemma {:induction false} SkipFoldIsReplay<S, C, E>(rt: Runtime<S, C, E>, log: seq<Envelope>)
    requires ContiguousLog(log) && AllDecode(rt, log)
    ensures Replay(rt, rt.initial, log).Some?
    ensures log != [] ==> SkipFold(rt, log) == Some(Loaded(Replay(rt, rt.initial, log).value, |log|))
    decreases |log|
  {
    ReplayIffDecodes(rt, rt.initial, log);
    if log != [] {
      var n := |log| - 1;
      SkipFoldIsReplay(rt, log[..n]);
      assert log == log[..n] + [log[n]];
      ReplayConcat(rt, rt.initial, log[..n], [log[n]]);
      var s := Replay(rt, rt.initial, log[..n]).value;
      assert [log[n]][1..] == [];
      assert n == 0 ==> log[..n] == [];
      assert Decodable(rt, log[n].hashed.content);
    }
  }

  // ---------------------------------------------------------------- a rebuild in progress

  function Entry<S>(r: Rebuild<S>, sid: StreamId): Option<Loaded<S>> {
    if sid in r.streams then Some(r.streams[sid]) else None
  }

  function EntryFor<S, C, E>(rt: Runtime<S, C, E>, tenant: string, log: seq<Envelope>, sid: StreamId): Option<Loaded<S>> {
    if Covers(tenant, sid) then SkipFold(rt, log) else None
  }

  /** The rebuild's entries are the folds of the first n rows. */
  ghost predicate FoldedTo<S, C, E>(rt: Runtime<S, C, E>, events: seq<Envelope>, r: Rebuild<S>, n: nat)
    requires n <= |events|
  {
    forall sid: StreamId :: Entry(r, sid) == EntryFor(rt, r.tenant, StreamLog(events[..n], sid), sid)
  }

  ghost predicate Folding<S, C, E>(rt: Runtime<S, C, E>, events: seq<Envelope>, r: Rebuild<S>) {
    r.cursor <= |events| && FoldedTo(rt, events, r, r.cursor)
  }

  /** A rebuild that has read everything it covers. */
  ghost predicate Folded<S, C, E>(rt: Runtime<S, C, E>, events: seq<Envelope>, r: Rebuild<S>) {
    forall sid: StreamId :: Entry(r, sid) == EntryFor(rt, r.tenant, StreamLog(events, sid), sid)
  }

  lemma FoldingStep<S, C, E>(rt: Runtime<S, C, E>, events: seq<Envelope>, r: Rebuild<S>, a: nat)
    requires Positioned(events) && Folding(rt, events, r)
    requires r.cursor <= a < |events| && Covers(r.tenant, events[a].hashed.sid)
    requires forall i | r.cursor <= i < a :: !Covers(r.tenant, events[i].hashed.sid)
    ensures var r' := RebuildEvent(rt, r, events[a]);
            Folding(rt, events, r') && r'.cursor == a + 1 && r'.tenant == r.tenant
  {
    hide StreamLog, Covers;
    var r' := RebuildEvent(rt, r, events[a]);
    assert events[a].position == a + 1 && r'.cursor == a + 1;
    forall sid: StreamId ensures Entry(r', sid) == EntryFor(rt, r'.tenant, StreamLog(events[..a + 1], sid), sid) {
      assert Entry(r, sid) == EntryFor(rt, r.tenant, StreamLog(events[..r.cursor], sid), sid);
      CursorSplit(events, r.cursor, a, sid, r.tenant);
      var seen := StreamLog(events[..r.cursor], sid);
      assert (seen + [events[a]])[..|seen|] == seen;
    }
  }

  /** Folding a page read from index a on keeps the entries exact; an empty page of nonzero size means no
      covered event is left. */
  lemma {:induction false} FoldingPage<S, C, E>(rt: Runtime<S, C, E>, events: seq<Envelope>, r: Rebuild<S>, from: nat, a: nat, limit: nat)
    requires Positioned(events) && Folding(rt, events, r) && from <= r.cursor <= a <= |events|
    requires forall i | r.cursor <= i < a :: !Covers(r.tenant, events[i].hashed.sid)
    ensures Folding(rt, events, RebuildPage(rt, r, ReadAll(events[a..], r.tenant, from, limit)))
    ensures limit > 0 && ReadAll(events[a..], r.tenant, from, limit) == [] ==>
              forall i | r.cursor <= i < |events| :: !Covers(r.tenant, events[i].hashed.sid)
    decreases |events| - a
  {
    hide Folding, RebuildEvent;
    if a < |events| && limit > 0 {
      assert events[a..][0] == events[a] && events[a..][1..] == events[a + 1..];
      assert events[a].position == a + 1;
      if Covers(r.tenant, events[a].hashed.sid) {
        FoldingStep(rt, events, r, a);
        var r' := RebuildEvent(rt, r, events[a]);
        var rest := ReadAll(events[a + 1..], r.tenant, from, limit - 1);
        assert ReadAll(events[a..], r.tenant, from, limit) == [events[a]] + rest;
        assert ([events[a]] + rest)[1..] == rest;
        FoldingPage(rt, events, r', from, a + 1, limit - 1);
      } else {
        FoldingPage(rt, events, r, from, a + 1, limit);
      }
    }
  }

  lemma FoldingEnds<S, C, E>(rt: Runtime<S, C, E>, events: seq<Envelope>, r: Rebuild<S>)
    requires Folding(rt, events, r) && forall i | r.cursor <= i < |events| :: !Covers(r.tenant, events[i].hashed.sid)
    ensures Folded(rt, events, r)
  {
    hide StreamLog;
    forall sid: StreamId ensures Entry(r, sid) == EntryFor(rt, r.tenant, StreamLog(events, sid), sid) {
      assert Entry(r, sid) == EntryFor(rt, r.tenant, StreamLog(events[..r.cursor], sid), sid);
      if Covers(r.tenant, sid) {
        assert events == events[..r.cursor] + events[r.cursor..];
        StreamLogConcat(events[..r.cursor], events[r.cursor..], sid);
        StreamLogAbsent(events[r.cursor..], sid);
        assert StreamLog(events, sid) == StreamLog(events[..r.cursor], sid);
      }
    }
  }

  // ---------------------------------------------------------------- loading from the rebuilt row

  /** The cache holds what a rebuild writes for the stream. */
  ghost predicate HasRebuiltRow<S, C, E>(rt: Runtime<S, C, E>, db: Db, sid: StreamId) {
    && rt.stateCodec.Some? && SkipFold(rt, StreamLog(db.events, sid)).Some? && sid in db.cache
    && Some(db.cache[sid]) == RebuiltRow(rt, SkipFold(rt, StreamLog(db.events, sid)).value)
  }

  /** A rebuild skips what does not decode. Loading from the row it writes is full replay exactly when the row is
      not used, or every event decodes, or the last one does not. In the remaining case an event is missing from
      the middle: full replay fails, and Load succeeds at the head with a state that left the event out. */
  lemma RebuiltLoadIff<S(!new), C, E>(rt: Runtime<S, C, E>, db: Db, sid: StreamId)
    requires Contiguous(db.events) && StateCodecRoundTrips(rt) && HasRebuiltRow(rt, db, sid)
    ensures var log := StreamLog(db.events, sid);
            var last := log[|log| - 1];
            Load(rt, db, sid) == FullReplay(rt, db, sid) <==>
            EffectiveSchema(rt) != 1 || AllDecode(rt, log) || !Decodable(rt, last.hashed.content)
    ensures Load(rt, db, sid) != FullReplay(rt, db, sid) ==>
              FullReplay(rt, db, sid).None? && Load(rt, db, sid) == SkipFold(rt, StreamLog(db.events, sid))
  {
    hide StreamLog, Contiguous, ReadStream;
    var log := StreamLog(db.events, sid);
    var l := SkipFold(rt, log).value;
    assert ContiguousLog(log) by { LogIsContiguous(db.events, sid); }
    SkipFoldEnds(rt, log);
    ReadStreamIsSuffix(db.events, sid, 0);
    ReplayIffDecodes(rt, rt.initial, log[0..]);
    assert log[0..] == log;
    if EffectiveSchema(rt) == 1 {
      assert CacheBase(rt, db.cache, sid, true) == l;
      ReadStreamIsSuffix(db.events, sid, l.version);
      ReplayIffDecodes(rt, l.state, log[l.version..]);
      if l.version == |log| {
        assert Load(rt, db, sid) == Some(l);
      } else {
        assert log[l.version..][0] == log[l.version];
      }
      if AllDecode(rt, log) {
        SkipFoldIsReplay(rt, log);
      }
    }
  }

  lemma LogIsContiguous(events: seq<Envelope>, sid: StreamId)
    requires Contiguous(events)
    ensures ContiguousLog(StreamLog(events, sid))
  {
  }

  // ---------------------------------------------------------------- a stream where they differ

  datatype Unit = Unit

  /** An aggregate that knows the event type "e" only. */
  function UnitRuntime(): Runtime<Unit, Unit, Unit> {
    Runtime(Unit, (s: Unit, c: Unit) => Accept([], []), (s: Unit, e: Unit) => Unit, (s: Unit) => false,
            Codec((e: Unit) => Some(Encoded("e", 1, [])), (x: Encoded) => if x.typeUrl == "e" then Some(Unit) else None),
            Some(StateCodec((s: Unit) => Some(EncodedState([], "s")), (b: Bytes) => Some(Unit))), 1)
  }

  function EventRow(sid: StreamId, typeUrl: string, n: nat, eventId: string): Envelope {
    Envelope(Hashed(eventId, sid, n, Content(typeUrl, 1, 0, "", "", "", Actor(0, "", "", "", map[]), [], [])), n, [], [])
  }

  /** An event of an unknown type, then one that decodes, and the row that a rebuild writes. */
  function MixedStore(sid: StreamId): Db {
    Db([EventRow(sid, "x", 1, "a"), EventRow(sid, "e", 2, "b")], [], map[], map[sid := CacheRow("s", [], 2, false, 1)])
  }

  lemma MixedLog(sid: StreamId, other: StreamId)
    ensures StreamLog(MixedStore(sid).events, other) == if other == sid then MixedStore(sid).events else []
  {
    var events := MixedStore(sid).events;
    assert events[..1] == [events[0]] && events[..1][..0] == [];
    assert StreamLog(events[..1], other) == if other == sid then [events[0]] else [];
  }

  /** Load succeeds at the head although full replay of the stream fails. */
  lemma MixedStreamLoads(sid: StreamId)
    ensures var rt, db := UnitRuntime(), MixedStore(sid);
            && Contiguous(db.events) && StateCodecRoundTrips(rt) && HasRebuiltRow(rt, db, sid)
            && FullReplay(rt, db, sid).None? && Load(rt, db, sid) == Some(Loaded(Unit, 2))
  {
    var rt, db := UnitRuntime(), MixedStore(sid);
    var log := db.events;
    forall s: Unit ensures rt.stateCodec.value.decode(rt.stateCodec.value.encode(s).value.bytes) == Some(s) {
      assert s == Unit;
    }
    hide StreamLog, Load, FullReplay;
    forall other: StreamId ensures ContiguousLog(StreamLog(db.events, other)) {
      MixedLog(sid, other);
    }
    MixedLog(sid, sid);
    assert log[..1] == [log[0]] && log[..1][..0] == [];
    assert SkipFold(rt, log[..1]) == None;
    assert SkipFold(rt, log) == Some(Loaded(Unit, 2));
    RebuiltLoadIff(rt, db, sid);
    assert !Decodable(rt, log[0].hashed.content) && Decodable(rt, log[1].hashed.content);
  }
}
