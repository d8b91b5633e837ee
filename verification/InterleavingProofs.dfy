/** Every interleaving keeps versions contiguous and every usable cache row a fold of its stream,
    and is equivalent to running its committed commands one at a time. */
module InterleavingProofs {
  import opened Basics
  import opened StreamIds
  import opened Store
  import opened StoreLaws
  import opened Aggregate
  import opened Interleaving

  // ---------------------------------------------------------------- folds

  lemma {:induction false} ReplayConcat<S, C, E>(rt: Runtime<S, C, E>, s: S, a: seq<Envelope>, b: seq<Envelope>)
    ensures Replay(rt, s, a + b) ==
            match Replay(rt, s, a) { case None => None case Some(m) => Replay(rt, m, b) }
    decreases |a|
  {
    if a == [] {
      assert a + b == b;
    } else {
      assert (a + b)[1..] == a[1..] + b;
      match rt.codec.decode(EncodedOf(a[0].hashed.content))
      case None =>
      case Some(e) => ReplayConcat(rt, rt.evolve(s, e), a[1..], b);
    }
  }

  /** A list folds exactly when all of it decodes. */
  lemma {:induction false} ReplayIffDecodes<S, C, E>(rt: Runtime<S, C, E>, s: S, envs: seq<Envelope>)
    ensures Replay(rt, s, envs).Some? <==> AllDecode(rt, envs)
    decreases |envs|
  {
    if envs != [] {
      if Decodable(rt, envs[0].hashed.content) {
        ReplayIffDecodes(rt, rt.evolve(s, rt.codec.decode(EncodedOf(envs[0].hashed.content)).value), envs[1..]);
        assert AllDecode(rt, envs) <==> AllDecode(rt, envs[1..]) by {
          assert envs == [envs[0]] + envs[1..];
        }
      }
    }
  }

  lemma FoldIsGrows<S, C, E>(rt: Runtime<S, C, E>, events: seq<Envelope>, events': seq<Envelope>, sid: StreamId, l: Loaded<S>)
    requires StreamLog(events, sid) <= StreamLog(events', sid)
    requires FoldIs(rt, events, sid, l)
    ensures FoldIs(rt, events', sid, l)
  {
    assert StreamLog(events', sid)[..l.version] == StreamLog(events, sid)[..l.version];
  }

  /** What a handler reads first is a fold of some prefix of its stream. */
  lemma CacheBaseGood<S, C, E>(rt: Runtime<S, C, E>, db: Db, sid: StreamId, readOk: bool)
    requires CacheGood(rt, db)
    ensures FoldIs(rt, db.events, sid, CacheBase(rt, db.cache, sid, readOk))
  {
    var b := CacheBase(rt, db.cache, sid, readOk);
    if b.version == 0 {
      assert StreamLog(db.events, sid)[..0] == [];
    }
    if sid in db.cache && Usable(rt, db.cache[sid]) {
      assert FoldIs(rt, db.events, sid, Loaded(rt.stateCodec.value.decode(db.cache[sid].state).value, db.cache[sid].version));
    }
  }

  /** Folding the tail on top of any prefix fold is folding the whole stream. */
  lemma TailGood<S, C, E>(rt: Runtime<S, C, E>, events: seq<Envelope>, sid: StreamId, base: Loaded<S>)
    requires Contiguous(events)
    requires FoldIs(rt, events, sid, base)
    ensures var r, log := ReplayTail(rt, base, ReadStream(events, sid, base.version)), StreamLog(events, sid);
            && (r.Some? <==> Replay(rt, rt.initial, log).Some?)
            && (r.Some? ==> r.value.version == |log| && Some(r.value.state) == Replay(rt, rt.initial, log) && FoldIs(rt, events, sid, r.value))
  {
    var log := StreamLog(events, sid);
    var v := base.version;
    ReadStreamIsSuffix(events, sid, v);
    assert log == log[..v] + log[v..];
    ReplayConcat(rt, rt.initial, log[..v], log[v..]);
    assert ContiguousLog(log);
    assert log[..|log|] == log;
  }

  // ---------------------------------------------------------------- encoded batches

  lemma {:induction false} EncodedBatch<S, C, E(!new)>(rt: Runtime<S, C, E>, meta: Meta, events: seq<E>)
    requires CodecRoundTrips(rt)
    requires EncodeEvents(rt, meta, events).Some?
    ensures |EncodeEvents(rt, meta, events).value| == |events|
    ensures forall i | 0 <= i < |events| ::
              rt.codec.decode(EncodedOf(EncodeEvents(rt, meta, events).value[i].content)) == Some(events[i])
  {
    if events != [] {
      EncodedBatch(rt, meta, events[..|events| - 1]);
    }
  }

  lemma {:induction false} ReplayIsFold<S, C, E>(rt: Runtime<S, C, E>, s: S, envs: seq<Envelope>, events: seq<E>)
    requires |envs| == |events|
    requires forall i | 0 <= i < |events| :: rt.codec.decode(EncodedOf(envs[i].hashed.content)) == Some(events[i])
    ensures Replay(rt, s, envs) == Some(FoldEvents(rt, s, events))
    decreases |envs|
  {
    if events != [] {
      assert rt.codec.decode(EncodedOf(envs[0].hashed.content)) == Some(events[0]);
      ReplayIsFold(rt, rt.evolve(s, events[0]), envs[1..], events[1..]);
    }
  }

  // ---------------------------------------------------------------- growth of the events table

  /** Append only ever adds rows at the end, each decoding if its content does. */
  ghost predicate Grows(db: Db, db': Db) { db.events <= db'.events }

  lemma StreamLogGrows(events: seq<Envelope>, events': seq<Envelope>, sid: StreamId)
    requires events <= events'
    ensures StreamLog(events, sid) <= StreamLog(events', sid)
  {
    assert events' == events + events'[|events|..];
    StreamLogConcat(events, events'[|events|..], sid);
  }

  lemma HandlerGrows<S, C, E>(rt: Runtime<S, C, E>, events: seq<Envelope>, events': seq<Envelope>, h: Handler<S, C>)
    requires events <= events' && HandlerGood(rt, events, h)
    ensures HandlerGood(rt, events', h)
  {
    match h
    case Based(sid, _, _, b) => StreamLogGrows(events, events', sid); FoldIsGrows(rt, events, events', sid, b);
    case Ready(sid, _, _, l) => StreamLogGrows(events, events', sid); FoldIsGrows(rt, events, events', sid, l);
    case _ =>
  }

  lemma RebuildGrows<S, C, E>(rt: Runtime<S, C, E>, events: seq<Envelope>, events': seq<Envelope>, r: Rebuild<S>)
    requires events <= events' && RebuildGood(rt, events, r)
    ensures RebuildGood(rt, events', r)
  {
    assert events'[..r.cursor] == events[..r.cursor];
    forall sid: StreamId ensures StreamGood(rt, events', r, sid) {
      assert StreamGood(rt, events, r, sid);
      if sid in r.streams {
        StreamLogGrows(events, events', sid);
        FoldIsGrows(rt, events, events', sid, r.streams[sid]);
      }
    }
  }

  lemma CacheGrows<S, C, E>(rt: Runtime<S, C, E>, db: Db, db': Db)
    requires Grows(db, db') && db'.cache == db.cache && CacheGood(rt, db)
    ensures CacheGood(rt, db')
  {
    forall sid | sid in db'.cache && Usable(rt, db'.cache[sid])
      ensures FoldIs(rt, db'.events, sid, Loaded(rt.stateCodec.value.decode(db'.cache[sid].state).value, db'.cache[sid].version))
    {
      StreamLogGrows(db.events, db'.events, sid);
      FoldIsGrows(rt, db.events, db'.events, sid, Loaded(rt.stateCodec.value.decode(db.cache[sid].state).value, db.cache[sid].version));
    }
  }

  /** The appended stream's log after a commit: the old log and one row per event. */
  lemma AppendLog(ch: ChainFns, db: Db, p: AppendParams) returns (rows: seq<Envelope>)
    requires AppendTx(ch, db, p).1.Ok?
    ensures StreamLog(AppendTx(ch, db, p).0.events, p.sid) == StreamLog(db.events, p.sid) + rows
    ensures |rows| == |p.events| && forall k | 0 <= k < |rows| :: rows[k].hashed == HashedAt(p, k)
  {
    rows := AppendAddsRows(ch, db, p);
    StreamLogConcat(db.events, rows, p.sid);
    StreamLogUniform(rows, p.sid, p.sid);
  }

  /** A commit that expected no version beyond the head, to a stream of the same aggregate as its
      events, keeps the events table good. */
  lemma AppendKeepsEventsGood<S, C, E>(rt: Runtime<S, C, E>, ch: ChainFns, db: Db, p: AppendParams)
    requires EventsGood(rt, db.events)
    requires AppendTx(ch, db, p).1.Ok?
    requires PlainAppendOk(rt, db, p.(newState := None))
    ensures EventsGood(rt, AppendTx(ch, db, p).0.events)
    ensures Grows(db, AppendTx(ch, db, p).0)
  {
    hide AppendTx, Contiguous, Positioned;
    AppendKeepsContiguity(ch, db, p);
    AppendKeepsPositions(ch, db, p);
    var all := AppendAddsRows(ch, db, p);
    var rows := AppendLog(ch, db, p);
    assert forall k | 0 <= k < |rows| :: rows[k].hashed.content == p.events[k].content;
    var db' := AppendTx(ch, db, p).0;
    forall sid: StreamId ensures AllDecode(rt, StreamLog(db'.events, sid)) || NoneDecode(rt, StreamLog(db'.events, sid)) {
      assert AllDecode(rt, StreamLog(db.events, sid)) || NoneDecode(rt, StreamLog(db.events, sid));
      if sid != p.sid {
        AppendGrowsOneStream(ch, db, p, sid);
      }
    }
  }

  // ---------------------------------------------------------------- one committed Handle

  /** What a committed Handle submitted. */
  lemma CommittedPlan<S, C, E>(rt: Runtime<S, C, E>, ch: ChainFns, db: Db, sid: StreamId, cmd: C, meta: Meta, l: Loaded<S>)
    returns (p: AppendParams, batch: seq<E>)
    requires HandleFrom(rt, ch, db, sid, cmd, meta, l).1.Committed?
    ensures !rt.isTerminal(l.state) && rt.decide(l.state, cmd).Accept? && batch == rt.decide(l.state, cmd).events
    ensures batch != []
    ensures p.sid == sid && p.expected == l.version && p.ops == rt.decide(l.state, cmd).ops
    ensures EncodeEvents(rt, meta, batch) == Some(p.events)
    ensures StateToCache(rt, FoldEvents(rt, l.state, batch)) == Some(p.newState)
    ensures AppendTx(ch, db, p).1.Ok?
    ensures HandleFrom(rt, ch, db, sid, cmd, meta, l) == (AppendTx(ch, db, p).0, Committed(AppendTx(ch, db, p).1.result))
  {
    p := PlanAppend(rt, sid, cmd, meta, l).params;
    batch := rt.decide(l.state, cmd).events;
  }

  /** Appending an encoded batch at the head extends the fold by that batch. */
  lemma AppendExtendsFold<S(!new), C, E(!new)>(rt: Runtime<S, C, E>, ch: ChainFns, db: Db, p: AppendParams, meta: Meta, s: S, batch: seq<E>)
    requires CodecRoundTrips(rt) && EventsGood(rt, db.events)
    requires FoldIs(rt, db.events, p.sid, Loaded(s, p.expected))
    requires AppendTx(ch, db, p).1.Ok? && EncodeEvents(rt, meta, batch) == Some(p.events)
    ensures p.expected == |StreamLog(db.events, p.sid)| && |p.events| == |batch|
    ensures EventsGood(rt, AppendTx(ch, db, p).0.events) && Grows(db, AppendTx(ch, db, p).0)
    ensures FoldIs(rt, AppendTx(ch, db, p).0.events, p.sid, Loaded(FoldEvents(rt, s, batch), p.expected + |batch|))
    ensures |StreamLog(AppendTx(ch, db, p).0.events, p.sid)| == p.expected + |batch|
  {
    hide AppendTx, StreamLog, EncodeEvents, Replay, Contiguous, Positioned, Homogeneous, PlainAppendOk;
    EncodedBatch(rt, meta, batch);
    CommitExpectsHead(ch, db, p);
    BatchIsOwn(rt, db, p, s);
    AppendKeepsEventsGood(rt, ch, db, p);
    var rows := AppendLog(ch, db, p);
    ExtendFold(rt, StreamLog(db.events, p.sid), rows, s, batch);
  }

  /** A decodable batch on top of a stream that folds is an append of the stream's own aggregate. */
  lemma BatchIsOwn<S, C, E>(rt: Runtime<S, C, E>, db: Db, p: AppendParams, s: S)
    requires p.expected == |StreamLog(db.events, p.sid)| && FoldIs(rt, db.events, p.sid, Loaded(s, p.expected))
    requires forall i | 0 <= i < |p.events| :: Decodable(rt, p.events[i].content)
    ensures PlainAppendOk(rt, db, p.(newState := None))
  {
    var log := StreamLog(db.events, p.sid);
    assert log[..|log|] == log;
    ReplayIffDecodes(rt, rt.initial, log);
  }

  lemma ExtendFold<S, C, E>(rt: Runtime<S, C, E>, log: seq<Envelope>, rows: seq<Envelope>, s: S, batch: seq<E>)
    requires Replay(rt, rt.initial, log[..|log|]) == Some(s)
    requires |rows| == |batch|
    requires forall i | 0 <= i < |batch| :: rt.codec.decode(EncodedOf(rows[i].hashed.content)) == Some(batch[i])
    ensures Replay(rt, rt.initial, (log + rows)[..|log| + |batch|]) == Some(FoldEvents(rt, s, batch))
  {
    assert log[..|log|] == log && (log + rows)[..|log| + |batch|] == log + rows;
    ReplayConcat(rt, rt.initial, log, rows);
    ReplayIsFold(rt, s, rows, batch);
  }

  /** The cache after a commit: every row as before except the stream's own, which holds the new fold. */
  lemma CommitCache<S(!new), C, E(!new)>(rt: Runtime<S, C, E>, ch: ChainFns, db: Db, p: AppendParams, l': Loaded<S>)
    requires StateCodecRoundTrips(rt) && CacheGood(rt, db)
    requires AppendTx(ch, db, p).1.Ok? && Grows(db, AppendTx(ch, db, p).0)
    requires FoldIs(rt, AppendTx(ch, db, p).0.events, p.sid, l') && l'.version == p.expected + |p.events|
    requires StateToCache(rt, l'.state) == Some(p.newState)
    ensures CacheGood(rt, AppendTx(ch, db, p).0)
    ensures rt.stateCodec.Some? ==> RowHolds(rt, AppendTx(ch, db, p).0, p.sid, l')
  {
    var db' := AppendTx(ch, db, p).0;
    assert db'.cache == WithState(db.cache, p);
    assert p.events != [];
    forall sid | sid in db'.cache && Usable(rt, db'.cache[sid])
      ensures FoldIs(rt, db'.events, sid, Loaded(rt.stateCodec.value.decode(db'.cache[sid].state).value, db'.cache[sid].version))
    {
      if sid != p.sid {
        assert db'.cache[sid] == db.cache[sid];
        StreamLogGrows(db.events, db'.events, sid);
        FoldIsGrows(rt, db.events, db'.events, sid, Loaded(rt.stateCodec.value.decode(db.cache[sid].state).value, db.cache[sid].version));
      }
    }
  }

  /** The stream's cache row is one Load will use, and holds exactly l. */
  ghost predicate RowHolds<S, C, E>(rt: Runtime<S, C, E>, db: Db, sid: StreamId, l: Loaded<S>) {
    && sid in db.cache && Usable(rt, db.cache[sid]) && db.cache[sid].version == l.version
    && rt.stateCodec.value.decode(db.cache[sid].state) == Some(l.state)
  }

  /** A handler that commits had read the whole stream and was not on a terminal state; its batch is
      the decision on that fold, the new log folds to the decided state, and with a state codec the
      cache row holds that state at EndVersion. */
  lemma CommitFacts<S(!new), C, E(!new)>(rt: Runtime<S, C, E>, ch: ChainFns, db: Db, sid: StreamId, cmd: C, meta: Meta, l: Loaded<S>)
    returns (batch: seq<E>)
    requires Lawful(rt) && EventsGood(rt, db.events) && CacheGood(rt, db) && FoldIs(rt, db.events, sid, l)
    requires HandleFrom(rt, ch, db, sid, cmd, meta, l).1.Committed?
    ensures l.version == |StreamLog(db.events, sid)|
    ensures !rt.isTerminal(l.state) && rt.decide(l.state, cmd).Accept? && batch == rt.decide(l.state, cmd).events
    ensures var (db', o) := HandleFrom(rt, ch, db, sid, cmd, meta, l);
            var l' := Loaded(FoldEvents(rt, l.state, batch), l.version + |batch|);
            && EventsGood(rt, db'.events) && Grows(db, db') && CacheGood(rt, db')
            && |StreamLog(db'.events, sid)| == l'.version
            && FoldIs(rt, db'.events, sid, l')
            && o.result.startVersion == l.version + 1 && o.result.endVersion == l'.version
            && (rt.stateCodec.Some? ==> RowHolds(rt, db', sid, l'))
  {
    hide HandleFrom, AppendTx, PlanAppend, CacheGood, FoldIs, RowHolds, StreamLog, EncodeEvents;
    hide Contiguous, Positioned, Homogeneous, CodecRoundTrips, StateCodecRoundTrips;
    var p;
    p, batch := CommittedPlan(rt, ch, db, sid, cmd, meta, l);
    AppendExtendsFold(rt, ch, db, p, meta, l.state, batch);
    CommitCache(rt, ch, db, p, Loaded(FoldEvents(rt, l.state, batch), l.version + |batch|));
    var rows := AppendAddsRows(ch, db, p);
  }

  // ---------------------------------------------------------------- rebuild pages

  /** Folding the next covered event keeps the rebuild's folds exact up to its cursor. */
  lemma RebuildEventGood<S, C, E>(rt: Runtime<S, C, E>, events: seq<Envelope>, r: Rebuild<S>, a: nat)
    requires EventsGood(rt, events) && RebuildGood(rt, events, r)
    requires r.cursor <= a < |events| && Covers(r.tenant, events[a].hashed.sid)
    requires forall i | r.cursor <= i < a :: !Covers(r.tenant, events[i].hashed.sid)
    ensures RebuildGood(rt, events, RebuildEvent(rt, r, events[a]))
    ensures RebuildEvent(rt, r, events[a]).cursor == a + 1 && RebuildEvent(rt, r, events[a]).tenant == r.tenant
  {
    var r' := RebuildEvent(rt, r, events[a]);
    assert events[a].position == a + 1 && r'.cursor == a + 1;
    forall sid: StreamId ensures StreamGood(rt, events, r', sid) {
      assert StreamGood(rt, events, r, sid);
      CursorSplit(events, r.cursor, a, sid, r.tenant);
      if sid == events[a].hashed.sid {
        FoldOneMore(rt, events, r, a);
      }
    }
  }

  /** The covered rows between the cursor and the next covered event are none. */
  lemma CursorSplit(events: seq<Envelope>, c: nat, a: nat, sid: StreamId, tenant: string)
    requires c <= a < |events|
    requires forall i | c <= i < a :: !Covers(tenant, events[i].hashed.sid)
    ensures Covers(tenant, sid) ==>
              StreamLog(events[..a + 1], sid) ==
              if events[a].hashed.sid == sid then StreamLog(events[..c], sid) + [events[a]] else StreamLog(events[..c], sid)
  {
    if Covers(tenant, sid) {
      assert events[..a + 1] == events[..c] + events[c..a] + [events[a]];
      StreamLogConcat(events[..c] + events[c..a], [events[a]], sid);
      StreamLogConcat(events[..c], events[c..a], sid);
      StreamLogAbsent(events[c..a], sid);
      assert [events[a]][..0] == [];
      assert StreamLog([], sid) == [];
    }
  }

  lemma {:induction false} StreamLogAbsent(events: seq<Envelope>, sid: StreamId)
    requires forall i | 0 <= i < |events| :: events[i].hashed.sid != sid
    ensures StreamLog(events, sid) == []
  {
    if events != [] {
      StreamLogAbsent(events[..|events| - 1], sid);
    }
  }

  lemma GoodStream<S, C, E>(rt: Runtime<S, C, E>, events: seq<Envelope>, sid: StreamId)
    requires EventsGood(rt, events)
    ensures ContiguousLog(StreamLog(events, sid))
    ensures AllDecode(rt, StreamLog(events, sid)) || NoneDecode(rt, StreamLog(events, sid))
  {
  }

  lemma FoldOneMore<S, C, E>(rt: Runtime<S, C, E>, events: seq<Envelope>, r: Rebuild<S>, a: nat)
    requires EventsGood(rt, events) && RebuildGood(rt, events, r)
    requires r.cursor <= a < |events| && Covers(r.tenant, events[a].hashed.sid)
    requires forall i | r.cursor <= i < a :: !Covers(r.tenant, events[i].hashed.sid)
    ensures RebuildEvent(rt, r, events[a]).cursor == a + 1
    ensures StreamGood(rt, events, RebuildEvent(rt, r, events[a]), events[a].hashed.sid)
  {
    hide Contiguous, Homogeneous, StreamLog;
    var sid := events[a].hashed.sid;
    var seen := StreamLog(events[..r.cursor], sid);
    var k := |seen|;
    var log := StreamLog(events, sid);
    assert StreamGood(rt, events, r, sid);
    assert StreamLog(events[..a + 1], sid) == seen + [events[a]] by { CursorSplit(events, r.cursor, a, sid, r.tenant); }
    StreamLogGrows(events[..a + 1], events, sid);
    assert log[k] == events[a] && log[..k + 1] == seen + [events[a]] && log[..k] == seen;
    GoodStream(rt, events, sid);
    if Decodable(rt, events[a].hashed.content) {
      assert AllDecode(rt, log);
      assert forall i | 0 <= i < k :: seen[i] == log[i];
      ReplayConcat(rt, rt.initial, seen, [events[a]]);
    }
  }

  /** Folding a page read from index a on keeps the rebuild exact; an empty page of nonzero size
      means no covered event is left. */
  lemma {:induction false} RebuildPageGood<S, C, E>(rt: Runtime<S, C, E>, events: seq<Envelope>, r: Rebuild<S>, from: nat, a: nat, limit: nat)
    requires EventsGood(rt, events) && RebuildGood(rt, events, r)
    requires from <= r.cursor <= a <= |events|
    requires forall i | r.cursor <= i < a :: !Covers(r.tenant, events[i].hashed.sid)
    ensures RebuildGood(rt, events, RebuildPage(rt, r, ReadAll(events[a..], r.tenant, from, limit)))
    ensures limit > 0 && ReadAll(events[a..], r.tenant, from, limit) == [] ==>
              forall i | r.cursor <= i < |events| :: !Covers(r.tenant, events[i].hashed.sid)
    decreases |events| - a
  {
    if a < |events| && limit > 0 {
      assert events[a..][0] == events[a] && events[a..][1..] == events[a + 1..];
      assert events[a].position == a + 1;
      if Covers(r.tenant, events[a].hashed.sid) {
        RebuildEventGood(rt, events, r, a);
        var r' := RebuildEvent(rt, r, events[a]);
        var rest := ReadAll(events[a + 1..], r.tenant, from, limit - 1);
        assert ReadAll(events[a..], r.tenant, from, limit) == [events[a]] + rest;
        assert ([events[a]] + rest)[1..] == rest;
        RebuildPageGood(rt, events, r', from, a + 1, limit - 1);
      } else {
        RebuildPageGood(rt, events, r, from, a + 1, limit);
      }
    }
  }
}
