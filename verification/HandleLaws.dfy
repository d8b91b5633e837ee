/** What Handle answers, from the events of the stream and the decider alone, and what a commit puts in the store
    (aggregate/runtime.go). */
module HandleLaws {
  import opened Basics
  import opened StreamIds
  import opened Store
  import opened StoreLaws
  import opened AppendLaws
  import opened Aggregate
  import opened Interleaving
  import opened InterleavingProofs
  import opened Serializability

  predicate EventsEncode<S, C, E>(rt: Runtime<S, C, E>, events: seq<E>) {
    forall i | 0 <= i < |events| :: rt.codec.encode(events[i]).Some?
  }

  predicate StateEncodes<S, C, E>(rt: Runtime<S, C, E>, s: S) {
    rt.stateCodec.Some? ==> rt.stateCodec.value.encode(s).Some?
  }

  /** What the i-th event of a batch is stored as: the event's encoding under the call's metadata. */
  function StoredAs<S, C, E>(rt: Runtime<S, C, E>, sid: StreamId, version: nat, meta: Meta, events: seq<E>, i: nat): Hashed
    requires i < |events| && EventsEncode(rt, events)
  {
    var enc := rt.codec.encode(events[i]).value;
    Hashed(meta.ids(i), sid, version,
           Content(enc.typeUrl, enc.schemaVersion, meta.occurredAt, meta.correlationId, meta.causationId, meta.commandId,
                   meta.actor, enc.payload, []))
  }

  /** Nothing in the store stands in the way of the batch. */
  ghost predicate StoreTakes<S, C, E>(rt: Runtime<S, C, E>, ch: ChainFns, db: Db, sid: StreamId, meta: Meta,
                                      events: seq<E>, ops: seq<ConstraintOp>)
    requires EventsEncode(rt, events)
  {
    && IsValid(sid) && AllOpsGo(db.claims, sid, ops) && HeadHashSized(db, sid)
    && (forall i, e | 0 <= i < |events| && e in db.events && e.hashed.sid.tenant == sid.tenant :: e.hashed.eventId != meta.ids(i))
    && (forall i, j | 0 <= i < j < |events| :: meta.ids(i) != meta.ids(j))
    && (forall i | 0 <= i < |events| :: RowMarshals(rt, ch, sid, |StreamLog(db.events, sid)|, meta, events, i))
  }

  predicate RowMarshals<S, C, E>(rt: Runtime<S, C, E>, ch: ChainFns, sid: StreamId, head: nat, meta: Meta, events: seq<E>, i: nat)
    requires i < |events| && EventsEncode(rt, events)
  {
    ch.marshal(WireOf(StoredAs(rt, sid, head + i + 1, meta, events, i))).Some?
  }

  lemma {:induction false} EncodesIff<S, C, E>(rt: Runtime<S, C, E>, meta: Meta, events: seq<E>)
    ensures var r := EncodeEvents(rt, meta, events);
            && (r.Some? <==> EventsEncode(rt, events))
            && (r.Some? ==> |r.value| == |events| && forall i | 0 <= i < |events| ::
                  && r.value[i].eventId == meta.ids(i)
                  && r.value[i].content == StoredAs(rt, StreamId("", "", ""), 0, meta, events, i).content)
    decreases |events|
  {
    if events != [] {
      var n := |events| - 1;
      EncodesIff(rt, meta, events[..n]);
      if EventsEncode(rt, events) {
        assert EventsEncode(rt, events[..n]);
      }
      if EventsEncode(rt, events[..n]) && rt.codec.encode(events[n]).Some? {
        forall i | 0 <= i < |events| ensures rt.codec.encode(events[i]).Some? {
          assert i < n ==> events[..n][i] == events[i];
        }
      }
    }
  }

  lemma VersionsFree(events: seq<Envelope>, sid: StreamId, e: Envelope)
    requires Contiguous(events) && e in events && e.hashed.sid == sid
    ensures e.hashed.version <= |StreamLog(events, sid)|
  {
    assert ContiguousLog(StreamLog(events, sid));
    hide StreamLog, Contiguous;
    var i :| 0 <= i < |events| && events[i] == e;
    assert events == events[..i] + [e] + events[i + 1..];
    StreamLogConcat(events[..i] + [e], events[i + 1..], sid);
    StreamLogConcat(events[..i], [e], sid);
    StreamLogUniform([e], sid, sid);
    assert StreamLog(events, sid)[|StreamLog(events[..i], sid)|] == e;
  }

  /** The rows of the batch can go in exactly when the store takes it. */
  lemma TakesIff<S, C, E>(rt: Runtime<S, C, E>, ch: ChainFns, db: Db, sid: StreamId, meta: Meta, events: seq<E>, p: AppendParams)
    requires Contiguous(db.events) && EventsEncode(rt, events) && EncodeEvents(rt, meta, events) == Some(p.events)
    requires p.sid == sid && p.expected == |StreamLog(db.events, sid)|
    ensures StoreTakes(rt, ch, db, sid, meta, events, p.ops)
       <==> IsValid(sid) && AllOpsGo(db.claims, sid, p.ops) && HeadHashSized(db, sid) && RowsGo(ch, db.events, p, 0)
  {
    hide Contiguous, StreamLog, AllOpsGo, HeadHashSized, EncodeEvents, WireOf;
    EncodesIff(rt, meta, events);
    forall i | 0 <= i < |events|
      ensures Marshals(ch, p, i) <==> RowMarshals(rt, ch, sid, p.expected, meta, events, i)
      ensures RowFree(db.events, p, i) <==> forall e | e in db.events && e.hashed.sid.tenant == sid.tenant :: e.hashed.eventId != meta.ids(i)
    {
      forall e | e in db.events && e.hashed.sid == sid ensures e.hashed.version <= p.expected {
        VersionsFree(db.events, sid, e);
      }
    }
  }

  /** The outcome that the stream's state, the decider and the store call for: the stream cannot be read; its state
      is terminal; the decider rejects; it accepts nothing; something does not encode; the store refuses the batch;
      or the batch is committed right after the stream's head. */
  ghost predicate CalledFor<S, C, E>(rt: Runtime<S, C, E>, ch: ChainFns, db: Db, sid: StreamId, cmd: C, meta: Meta, o: HandleOutcome) {
    var head := |StreamLog(db.events, sid)|;
    match Replay(rt, rt.initial, StreamLog(db.events, sid))
    case None => o == LoadFailed
    case Some(s) => if rt.isTerminal(s) then o == Terminal else DecisionCallsFor(rt, ch, db, sid, meta, s, rt.decide(s, cmd), head, o)
  }

  ghost predicate DecisionCallsFor<S, C, E>(rt: Runtime<S, C, E>, ch: ChainFns, db: Db, sid: StreamId, meta: Meta, s: S,
                                            decision: Decision<E>, head: nat, o: HandleOutcome) {
    match decision
    case Reject(reason) => o == Refused(reason)
    case Accept(events, ops) =>
      if events == [] then o == NoChange
      else if !EventsEncode(rt, events) || !StateEncodes(rt, FoldEvents(rt, s, events)) then o == EncodeFailed
      else if !StoreTakes(rt, ch, db, sid, meta, events, ops) then o.AppendFailed?
      else o == Committed(AppendResult(head + 1, head + |events|, |db.events| + 1, |db.events| + |events|))
  }

  /** On a store with contiguous versions and good cache rows Handle answers exactly what is called for. */
  lemma HandleAnswers<S, C, E>(rt: Runtime<S, C, E>, ch: ChainFns, db: Db, sid: StreamId, cmd: C, meta: Meta)
    requires Contiguous(db.events) && CacheGood(rt, db) && Sha256Sized(ch)
    ensures CalledFor(rt, ch, db, sid, cmd, meta, Handle(rt, ch, db, sid, cmd, meta).1)
  {
    hide CacheGood, Contiguous, Load, Replay, StreamLog, AppendTx, StoreTakes, Sha256Sized, RowsGo, AllOpsGo, EncodeEvents;
    InvLoad(rt, db, sid);
    LoadFacts(rt, db, sid);
    var log := StreamLog(db.events, sid);
    if Replay(rt, rt.initial, log).Some? {
      var s := Replay(rt, rt.initial, log).value;
      var d := rt.decide(s, cmd);
      if !rt.isTerminal(s) && d.Accept? && d.events != [] {
        EncodesIff(rt, meta, d.events);
        if EventsEncode(rt, d.events) && StateEncodes(rt, FoldEvents(rt, s, d.events)) {
          var ns := StateToCache(rt, FoldEvents(rt, s, d.events)).value;
          var p := AppendParams(sid, |log|, EncodeEvents(rt, meta, d.events).value, d.ops, ns);
          TakesIff(rt, ch, db, sid, meta, d.events, p);
          AppendCommitsIff(ch, db, p);
        }
      }
    }
  }

  /** So it does in every store that the runtime can reach. */
  lemma ReachableHandleAnswers<S(!new), C, E(!new)>(rt: Runtime<S, C, E>, ch: ChainFns, steps: seq<Step<C>>,
                                                    sid: StreamId, cmd: C, meta: Meta)
    requires Lawful(rt) && Sha256Sized(ch)
    ensures var db := Run(rt, ch, steps).db; CalledFor(rt, ch, db, sid, cmd, meta, Handle(rt, ch, db, sid, cmd, meta).1)
  {
    hide CalledFor, Handle, Contiguous, CacheGood, Sha256Sized;
    RunKeepsInv(rt, ch, steps);
    HandleAnswers(rt, ch, Run(rt, ch, steps).db, sid, cmd, meta);
  }

  lemma LoadFacts<S, C, E>(rt: Runtime<S, C, E>, db: Db, sid: StreamId)
    requires LoadIsReplay(rt, db, sid)
    ensures Load(rt, db, sid)
         == match Replay(rt, rt.initial, StreamLog(db.events, sid))
            case None => None
            case Some(s) => Some(Loaded(s, |StreamLog(db.events, sid)|))
  {
    hide Load, StreamLog, FullReplay;
    ReplayIffDecodes(rt, rt.initial, StreamLog(db.events, sid));
  }

  /** The table after a commit: one more row per decided event, in order and right after the head, with the event's
      own encoding and the ids, time, correlation, causation, command and actor of the call. */
  ghost predicate HasBatch<S, C, E>(rt: Runtime<S, C, E>, db: Db, db': Db, sid: StreamId, meta: Meta, events: seq<E>) {
    && EventsEncode(rt, events) && |db'.events| == |db.events| + |events| && db.events <= db'.events
    && forall k | |db.events| <= k < |db'.events| ::
         var i := k - |db.events|;
         db'.events[k].hashed == StoredAs(rt, sid, |StreamLog(db.events, sid)| + i + 1, meta, events, i)
  }

  lemma CommittedRows<S, C, E>(rt: Runtime<S, C, E>, ch: ChainFns, db: Db, sid: StreamId, cmd: C, meta: Meta) returns (s: S)
    requires Contiguous(db.events) && CacheGood(rt, db) && Sha256Sized(ch)
    requires Handle(rt, ch, db, sid, cmd, meta).1.Committed?
    ensures Replay(rt, rt.initial, StreamLog(db.events, sid)) == Some(s) && rt.decide(s, cmd).Accept?
    ensures HasBatch(rt, db, Handle(rt, ch, db, sid, cmd, meta).0, sid, meta, rt.decide(s, cmd).events)
  {
    hide CacheGood, Contiguous, Load, Replay, StreamLog, AppendTx, StoreTakes, Sha256Sized, AllOpsGo, EncodeEvents, HandleFrom;
    InvLoad(rt, db, sid);
    LoadFacts(rt, db, sid);
    HandleIsFrom(rt, ch, db, sid, cmd, meta);
    var l := Load(rt, db, sid).value;
    s := l.state;
    var p, batch := CommittedPlan(rt, ch, db, sid, cmd, meta, l);
    EncodesIff(rt, meta, batch);
    var rows := AppendAddsRows(ch, db, p);
    forall k | |db.events| <= k < |db.events + rows|
      ensures var i := k - |db.events|; (db.events + rows)[k].hashed == StoredAs(rt, sid, l.version + i + 1, meta, batch, i)
    {
      assert rows[k - |db.events|].hashed == HashedAt(p, 0 + (k - |db.events|));
    }
  }

  lemma HandleIsFrom<S, C, E>(rt: Runtime<S, C, E>, ch: ChainFns, db: Db, sid: StreamId, cmd: C, meta: Meta)
    requires Load(rt, db, sid).Some?
    ensures Handle(rt, ch, db, sid, cmd, meta) == HandleFrom(rt, ch, db, sid, cmd, meta, Load(rt, db, sid).value)
  {
    hide Load, HandleFrom;
  }
}
