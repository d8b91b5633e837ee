/** The hash chain inside the store: appends keep it intact, and rebuild runs against the tables. */
module ChainStore {
  import opened Basics
  import opened StreamIds
  import opened Store
  import opened StoreLaws
  import opened Aggregate
  import opened Interleaving
  import opened Serializability
  import opened Chain

  // ---------------------------------------------------------------- append keeps the chain

  /** Linked rows added after an intact log, chained to its last hash, leave it intact. */
  lemma IntactExtend(ch: ChainFns, log: seq<Envelope>, rows: seq<Envelope>)
    requires Verify(ch, log) == Intact
    requires VerifyFrom(ch, PrevOf(log, ZERO_HASH, |log|), rows) == Intact
    ensures Verify(ch, log + rows) == Intact
  {
    IntactIffLinked(ch, ZERO_HASH, log);
    IntactIffLinked(ch, PrevOf(log, ZERO_HASH, |log|), rows);
    IntactIffLinked(ch, ZERO_HASH, log + rows);
    forall i | 0 <= i < |log + rows| ensures LinkOk(ch, ZERO_HASH, log + rows, i) {
      if i < |log| {
        assert LinkOk(ch, ZERO_HASH, log, i);
      } else {
        assert LinkOk(ch, PrevOf(log, ZERO_HASH, |log|), rows, i - |log|);
      }
    }
  }

  lemma AppendedRowsIntact(ch: ChainFns, p: AppendParams, prev: Bytes, before: nat, rows: seq<Envelope>)
    requires RowsFor(ch, p, 0, prev, before, rows)
    ensures VerifyFrom(ch, prev, rows) == Intact
  {
    IntactIffLinked(ch, prev, rows);
    forall i | 0 <= i < |rows| ensures LinkOk(ch, prev, rows, i) {
      assert rows[i].prevHash == PrevOf(rows, prev, i);
    }
  }

  lemma IntactHashesAreFull(ch: ChainFns, log: seq<Envelope>, i: nat)
    requires Sha256Sized(ch) && Verify(ch, log) == Intact && i < |log|
    ensures |log[i].hash| == HASH_SIZE
  {
    IntactIffLinked(ch, ZERO_HASH, log);
    assert LinkOk(ch, ZERO_HASH, log, i);
  }

  lemma StreamGetsRows(ch: ChainFns, db: Db, p: AppendParams) returns (rows: seq<Envelope>)
    requires AppendTx(ch, db, p).1.Ok?
    ensures StreamLog(AppendTx(ch, db, p).0.events, p.sid) == StreamLog(db.events, p.sid) + rows && rows != []
    ensures RowsFor(ch, p, 0, LastStreamHash(db.events, p.sid), |db.events|, rows)
  {
    hide AppendTx, ComputeChainHash;
    rows := AppendAddsRows(ch, db, p);
    StreamLogConcat(db.events, rows, p.sid);
    StreamLogUniform(rows, p.sid, p.sid);
  }

  /** An Append at the head of a verifying stream leaves a verifying stream. */
  lemma AppendKeepsChain(ch: ChainFns, db: Db, p: AppendParams)
    requires Sha256Sized(ch) && Contiguous(db.events)
    requires Verify(ch, StreamLog(db.events, p.sid)) == Intact
    requires AppendTx(ch, db, p).1.Ok?
    ensures Verify(ch, StreamLog(AppendTx(ch, db, p).0.events, p.sid)) == Intact
  {
    hide AppendTx, VerifyFrom, ComputeChainHash, RowsFor;
    var log := StreamLog(db.events, p.sid);
    var rows := StreamGetsRows(ch, db, p);
    SortIdentity(log);
    if log != [] {
      IntactHashesAreFull(ch, log, |log| - 1);
    }
    assert LastStreamHash(db.events, p.sid) == PrevOf(log, ZERO_HASH, |log|);
    AppendedRowsIntact(ch, p, LastStreamHash(db.events, p.sid), |db.events|, rows);
    IntactExtend(ch, log, rows);
  }

  ghost predicate AllIntact(ch: ChainFns, events: seq<Envelope>) {
    forall sid: StreamId :: Verify(ch, StreamLog(events, sid)) == Intact
  }

  lemma AppendKeepsAllIntact(ch: ChainFns, db: Db, p: AppendParams)
    requires Sha256Sized(ch) && Contiguous(db.events) && AllIntact(ch, db.events)
    ensures AllIntact(ch, AppendTx(ch, db, p).0.events)
  {
    if AppendTx(ch, db, p).1.Ok? {
      forall sid: StreamId ensures Verify(ch, StreamLog(AppendTx(ch, db, p).0.events, sid)) == Intact {
        if sid == p.sid {
          AppendKeepsChain(ch, db, p);
        } else {
          AppendGrowsOneStream(ch, db, p, sid);
        }
      }
    }
  }

  /** Every stream of every reachable database verifies, whatever interleaving of commands, plain
      appends, wipes and rebuilds led there. */
  lemma {:induction false} EveryReachableStreamVerifies<S(!new), C, E(!new)>(rt: Runtime<S, C, E>, ch: ChainFns, steps: seq<Step<C>>)
    requires Lawful(rt) && Sha256Sized(ch)
    ensures AllIntact(ch, Run(rt, ch, steps).db.events)
  {
    if steps != [] {
      var s := Run(rt, ch, steps[..|steps| - 1]);
      EveryReachableStreamVerifies(rt, ch, steps[..|steps| - 1]);
      RunKeepsInv(rt, ch, steps[..|steps| - 1]);
      StepKeepsAllIntact(rt, ch, s, steps[|steps| - 1]);
    }
  }

  lemma StepKeepsAllIntact<S(!new), C, E(!new)>(rt: Runtime<S, C, E>, ch: ChainFns, s: Sys<S, C>, step: Step<C>)
    requires Sha256Sized(ch) && Contiguous(s.db.events) && AllIntact(ch, s.db.events)
    ensures AllIntact(ch, Next(rt, ch, s, step).db.events)
  {
    match step
    case Submit(h) =>
      if h in s.handlers && s.handlers[h].Ready? {
        var r := s.handlers[h];
        match PlanAppend(rt, r.sid, r.cmd, r.meta, r.loaded)
        case Stop(_) =>
        case Submit(p) => AppendKeepsAllIntact(ch, s.db, p);
      }
    case PlainAppend(p) => AppendKeepsAllIntact(ch, s.db, p);
    case _ => assert Next(rt, ch, s, step).db.events == s.db.events;
  }

  // ---------------------------------------------------------------- appending before a backfill

  /** The hash that recomputation reaches at the end of an agreeing list. */
  ghost function ChainEnd(ch: ChainFns, prev: Bytes, envs: seq<Envelope>): Bytes
    requires Agrees(ch, prev, envs)
    decreases |envs|
  {
    if envs == [] then prev else ChainEnd(ch, ComputeChainHash(ch, prev, envs[0].hashed).value, envs[1..])
  }

  lemma {:induction false} AgreesConcat(ch: ChainFns, prev: Bytes, a: seq<Envelope>, b: seq<Envelope>)
    requires Agrees(ch, prev, a)
    ensures Agrees(ch, prev, a + b) <==> Agrees(ch, ChainEnd(ch, prev, a), b)
    decreases |a|
  {
    if a == [] {
      assert a + b == b;
    } else {
      assert (a + b)[1..] == a[1..] + b;
      AgreesConcat(ch, ComputeChainHash(ch, prev, a[0].hashed).value, a[1..], b);
    }
  }

  lemma {:induction false} ChainEndIsADigest(ch: ChainFns, prev: Bytes, envs: seq<Envelope>) returns (x: Bytes)
    requires Agrees(ch, prev, envs) && envs != []
    ensures ChainEnd(ch, prev, envs) == ch.sha(x)
    ensures envs[|envs| - 1].hash != [] ==> envs[|envs| - 1].hash == ChainEnd(ch, prev, envs)
    decreases |envs|
  {
    var h := ComputeChainHash(ch, prev, envs[0].hashed).value;
    if |envs| == 1 {
      x := prev + ch.marshal(WireOf(envs[0].hashed)).value;
      assert envs[1..] == [];
    } else {
      x := ChainEndIsADigest(ch, h, envs[1..]);
    }
  }

  lemma {:induction false} IntactAgrees(ch: ChainFns, prev: Bytes, envs: seq<Envelope>)
    requires VerifyFrom(ch, prev, envs) == Intact
    ensures Agrees(ch, prev, envs)
    decreases |envs|
  {
    if envs != [] {
      IntactAgrees(ch, envs[0].hash, envs[1..]);
    }
  }

  /** A stream written before the chain existed must be rebuilt before it is appended to. Append takes an
      empty head hash for the start of a stream, so after an Append at the head of a stream whose hashes
      agree with recomputation they still agree, and a rebuild still succeeds, exactly when the stream was
      empty or its head row already had a hash. (Unless a collision, or a digest of 32 zero bytes, is found.) */
  lemma AppendThenRebuild(ch: ChainFns, db: Db, p: AppendParams) returns (x: Bytes, y: Bytes)
    requires Sha256Sized(ch) && MarshalInjective(ch) && Contiguous(db.events)
    requires Agrees(ch, ZERO_HASH, StreamLog(db.events, p.sid))
    requires AppendTx(ch, db, p).1.Ok? && p.expected <= |StreamLog(db.events, p.sid)|
    ensures var log := StreamLog(db.events, p.sid);
            var log' := StreamLog(AppendTx(ch, db, p).0.events, p.sid);
            || Collision(ch, x, y)
            || ch.sha(x) == ZERO_HASH
            || (RebuildLog(ch, log').outcome == Rebuilt <==> log == [] || log[|log| - 1].hash != [])
  {
    hide AppendTx, VerifyFrom, ComputeChainHash, RowsFor, RebuildFrom;
    var log := StreamLog(db.events, p.sid);
    var prev := LastStreamHash(db.events, p.sid);
    var rows := StreamGetsRows(ch, db, p);
    SortIdentity(log);
    RebuildLaws(ch, ZERO_HASH, log + rows);
    AgreesConcat(ch, ZERO_HASH, log, rows);
    AppendedRowsIntact(ch, p, prev, |db.events|, rows);
    IntactAgrees(ch, prev, rows);
    x, y := [], [];
    if log != [] {
      x := ChainEndIsADigest(ch, ZERO_HASH, log);
      if log[|log| - 1].hash == [] && ch.sha(x) != ZERO_HASH && Agrees(ch, ChainEnd(ch, ZERO_HASH, log), rows) {
        x, y := ForeignStart(ch, ChainEnd(ch, ZERO_HASH, log), prev, rows);
      }
    }
  }

  /** Rows chained from one start do not agree with another, short of a collision. */
  lemma ForeignStart(ch: ChainFns, p: Bytes, q: Bytes, rows: seq<Envelope>) returns (x: Bytes, y: Bytes)
    requires Sha256Sized(ch) && MarshalInjective(ch) && p != q && rows != []
    requires Agrees(ch, p, rows) && VerifyFrom(ch, q, rows) == Intact
    ensures Collision(ch, x, y)
  {
    x, y := EqualHashes(ch, p, rows[0].hashed, q, rows[0].hashed);
  }

  // ---------------------------------------------------------------- an append to an unhashed head

  /** A store with one row from before the chain existed. */
  function OldStore(h: Hashed): Db { Db([Envelope(h, 1, [], [])], [], map[], map[]) }

  function SecondEvent(h: Hashed, ne: NewEvent): Hashed { Hashed(ne.eventId, h.sid, 2, ne.content) }

  lemma OldStoreReads(h: Hashed)
    ensures StreamLog(OldStore(h).events, h.sid) == OldStore(h).events && LastStreamHash(OldStore(h).events, h.sid) == ZERO_HASH
  {
    var events := OldStore(h).events;
    assert events[..0] == [] && StreamLog(events[..0], h.sid) == [] && SortByVersion(events[..0]) == [];
    assert StreamLog(events, h.sid) == events && SortByVersion(events) == events;
  }

  lemma OldStoreAppend(ch: ChainFns, h: Hashed, ne: NewEvent)
    requires IsValid(h.sid) && h.version == 1 && ne.eventId != h.eventId
    requires ComputeChainHash(ch, ZERO_HASH, SecondEvent(h, ne)).Some?
    ensures var (db', reply) := AppendTx(ch, OldStore(h), AppendParams(h.sid, 1, [ne], [], None));
            var hash := ComputeChainHash(ch, ZERO_HASH, SecondEvent(h, ne)).value;
            && reply.Ok?
            && StreamLog(db'.events, h.sid) == [Envelope(h, 1, [], []), Envelope(SecondEvent(h, ne), 2, hash, ZERO_HASH)]
  {
    hide ComputeChainHash, Canonical, StreamLog, LastStreamHash;
    var p := AppendParams(h.sid, 1, [ne], [], None);
    var before := OldStore(h).events;
    OldStoreReads(h);
    var e := Envelope(SecondEvent(h, ne), 2, ComputeChainHash(ch, ZERO_HASH, SecondEvent(h, ne)).value, ZERO_HASH);
    assert HashedAt(p, 0) == SecondEvent(h, ne);
    assert !KeyTaken(before, HashedAt(p, 0));
    assert InsertEvents(ch, before, [], p, 0, ZERO_HASH) == Inserted(before + [e], [] + [OutboxRowFor(e)]);
    StreamLogAround(before, e, [], h.sid);
    assert before + [e] + [] == before + [e];
    StreamLogNone(h.sid);
  }

  lemma StreamLogNone(sid: StreamId)
    ensures StreamLog([], sid) == []
  {
  }

  lemma RebuildOfTwo(ch: ChainFns, a: Envelope, b: Envelope)
    requires a.hash == [] && b.hash != [] && ComputeChainHash(ch, ZERO_HASH, a.hashed).Some?
    requires ComputeChainHash(ch, ComputeChainHash(ch, ZERO_HASH, a.hashed).value, b.hashed).Some?
    ensures RebuildLog(ch, [a]).outcome == Rebuilt && Agrees(ch, ZERO_HASH, [a])
    ensures RebuildLog(ch, [a, b]).outcome
         == if ComputeChainHash(ch, ComputeChainHash(ch, ZERO_HASH, a.hashed).value, b.hashed) == Some(b.hash)
            then Rebuilt else ChainBroken(b.hashed.version)
  {
    hide ComputeChainHash;
    assert [a][1..] == [] && [a, b][1..] == [b] && [b][1..] == [];
    var first := ComputeChainHash(ch, ZERO_HASH, a.hashed).value;
    var second := ComputeChainHash(ch, first, b.hashed).value;
    assert RebuildFrom(ch, first, [a][1..]).outcome == Rebuilt && Agrees(ch, first, [a][1..]);
    assert RebuildFrom(ch, second, [b][1..]).outcome == Rebuilt;
    assert RebuildFrom(ch, first, [a, b][1..]).outcome == if second == b.hash then Rebuilt else ChainBroken(b.hashed.version);
    assert RebuildLog(ch, [a, b]) == RebuildFrom(ch, ZERO_HASH, [a, b]);
  }

  /** The failing input: one unhashed row that rebuilds, then an append, which is accepted. The rebuild is then
      broken at the new row, except where the digest does not depend on the hash that it is chained to. */
  lemma AppendToUnhashedHead(ch: ChainFns, h: Hashed, ne: NewEvent)
    requires Sha256Sized(ch) && forall x: Wire :: ch.marshal(x).Some?
    requires IsValid(h.sid) && h.version == 1 && ne.eventId != h.eventId
    ensures var (db', reply) := AppendTx(ch, OldStore(h), AppendParams(h.sid, 1, [ne], [], None));
            var first := ComputeChainHash(ch, ZERO_HASH, h);
            && first.Some? && reply.Ok?
            && RebuildLog(ch, StreamLog(OldStore(h).events, h.sid)).outcome == Rebuilt
            && RebuildLog(ch, StreamLog(db'.events, h.sid)).outcome
            == if ComputeChainHash(ch, first.value, SecondEvent(h, ne)) == ComputeChainHash(ch, ZERO_HASH, SecondEvent(h, ne))
               then Rebuilt else ChainBroken(2)
  {
    hide StreamLog, RebuildLog, AppendTx, Canonical;
    OldStoreReads(h);
    assert ch.marshal(WireOf(h)).Some? && ch.marshal(WireOf(SecondEvent(h, ne))).Some?;
    OldStoreAppend(ch, h, ne);
    var second := ComputeChainHash(ch, ZERO_HASH, SecondEvent(h, ne)).value;
    RebuildOfTwo(ch, Envelope(h, 1, [], []), Envelope(SecondEvent(h, ne), 2, second, ZERO_HASH));
  }

  /** A digest that only tells a zero start from another one. */
  function StartDigest(b: Bytes): Bytes { if b != [] && b[0] == 0 then OneHash() else ZERO_HASH }

  function OneHash(): Bytes { [1] + ZERO_HASH[1..] }

  function StartChain(): ChainFns { ChainFns(StartDigest, (x: Wire) => Some([])) }

  lemma OneHashFacts()
    ensures |OneHash()| == HASH_SIZE && OneHash()[0] == 1 && |ZERO_HASH| == HASH_SIZE && ZERO_HASH[0] == 0
  {
  }

  lemma StartChainFacts(h: Hashed)
    ensures Sha256Sized(StartChain()) && forall x: Wire :: StartChain().marshal(x).Some?
    ensures ComputeChainHash(StartChain(), ZERO_HASH, h) == Some(OneHash()) && OneHash() != ZERO_HASH
    ensures ComputeChainHash(StartChain(), OneHash(), h) == Some(ZERO_HASH)
  {
    hide WireOf, OneHash;
    OneHashFacts();
    var ch := StartChain();
    assert ch.marshal(WireOf(h)) == Some([]);
    assert (ZERO_HASH + [])[0] == 0 && (OneHash() + [])[0] == 1;
  }

  lemma UnhashedHeadBreaks(h: Hashed, ne: NewEvent)
    requires IsValid(h.sid) && h.version == 1 && ne.eventId != h.eventId
    ensures var ch := StartChain();
            var (db', reply) := AppendTx(ch, OldStore(h), AppendParams(h.sid, 1, [ne], [], None));
            && Sha256Sized(ch) && reply.Ok? && RebuildLog(ch, StreamLog(OldStore(h).events, h.sid)).outcome == Rebuilt
            && RebuildLog(ch, StreamLog(db'.events, h.sid)).outcome == ChainBroken(2)
  {
    hide StreamLog, RebuildLog, AppendTx, Canonical, ComputeChainHash, StartChain, Sha256Sized;
    StartChainFacts(h);
    StartChainFacts(SecondEvent(h, ne));
    AppendToUnhashedHead(StartChain(), h, ne);
  }

  // ---------------------------------------------------------------- rebuild against the tables

  ghost predicate UniqueIds(events: seq<Envelope>) {
    forall i, j | 0 <= i < j < |events| ::
      !(events[i].hashed.sid.tenant == events[j].hashed.sid.tenant && events[i].hashed.eventId == events[j].hashed.eventId)
  }

  lemma StreamLogUpdate(events: seq<Envelope>, i: nat, e: Envelope, sid: StreamId) returns (k: nat)
    requires i < |events| && e.hashed.sid == events[i].hashed.sid
    ensures sid != e.hashed.sid ==> StreamLog(events[i := e], sid) == StreamLog(events, sid)
    ensures sid == e.hashed.sid ==> k < |StreamLog(events, sid)| && StreamLog(events, sid)[k] == events[i]
    ensures sid == e.hashed.sid ==> StreamLog(events[i := e], sid) == StreamLog(events, sid)[k := e]
  {
    var pre, post := events[..i], events[i + 1..];
    k := |StreamLog(pre, sid)|;
    assert events == pre + [events[i]] + post;
    assert events[i := e] == pre + [e] + post;
    StreamLogAround(pre, events[i], post, sid);
    StreamLogAround(pre, e, post, sid);
  }

  lemma StreamLogAround(pre: seq<Envelope>, e: Envelope, post: seq<Envelope>, sid: StreamId)
    ensures StreamLog(pre + [e] + post, sid)
         == StreamLog(pre, sid) + (if e.hashed.sid == sid then [e] else []) + StreamLog(post, sid)
  {
    StreamLogConcat(pre + [e], post, sid);
    StreamLogConcat(pre, [e], sid);
    StreamLogUniform([e], e.hashed.sid, sid);
  }

  datatype Backfill = Backfill(tenant: string, eventId: string, hash: Bytes, prev: Bytes)

  function AfterBackfills(events: seq<Envelope>, calls: seq<Backfill>): seq<Envelope> {
    if calls == [] then events
    else
      var c := calls[|calls| - 1];
      BackfillRows(AfterBackfills(events, calls[..|calls| - 1]), c.tenant, c.eventId, c.hash, c.prev)
  }

  predicate Named(calls: seq<Backfill>, h: Hashed) {
    exists c :: c in calls && c.tenant == h.sid.tenant && c.eventId == h.eventId
  }

  /** However often backfills are asked for, a stored hash is never overwritten, no row that no call names changes, and
      no hashed field or position ever does. */
  lemma {:induction false} HashesAreKept(events: seq<Envelope>, calls: seq<Backfill>)
    ensures var events' := AfterBackfills(events, calls);
            |events'| == |events| && forall i | 0 <= i < |events| ::
              && events'[i].hashed == events[i].hashed && events'[i].position == events[i].position
              && (events[i].hash != [] || !Named(calls, events[i].hashed) ==> events'[i] == events[i])
    decreases |calls|
  {
    if calls != [] {
      var n := |calls| - 1;
      HashesAreKept(events, calls[..n]);
      assert calls[n] in calls && forall c | c in calls[..n] :: c in calls;
    }
  }

  /** Backfilling by event id changes exactly one row of one stream. */
  lemma BackfillOneRow(events: seq<Envelope>, sid: StreamId, k: nat, hash: Bytes, prev: Bytes)
    requires Contiguous(events) && UniqueIds(events)
    requires k < |StreamLog(events, sid)| && StreamLog(events, sid)[k].hash == []
    ensures var row := StreamLog(events, sid)[k];
            var events' := BackfillRows(events, sid.tenant, row.hashed.eventId, hash, prev);
            && (exists i | 0 <= i < |events| :: Backfills(events[i], sid.tenant, row.hashed.eventId))
            && StreamLog(events', sid) == StreamLog(events, sid)[k := row.(hash := hash, prevHash := prev)]
            && (forall other: StreamId | other != sid :: StreamLog(events', other) == StreamLog(events, other))
            && Contiguous(events') && UniqueIds(events')
  {
    var log := StreamLog(events, sid);
    var i := StreamLogMember(events, sid, k);
    var id := log[k].hashed.eventId;
    var e := events[i].(hash := hash, prevHash := prev);
    var events' := BackfillRows(events, sid.tenant, id, hash, prev);
    assert Backfills(events[i], sid.tenant, id);
    assert events' == events[i := e];
    var k' := StreamLogUpdate(events, i, e, sid);
    assert ContiguousLog(log);
    assert k' == k;
    forall other: StreamId ensures other != sid ==> StreamLog(events', other) == StreamLog(events, other)
                           ensures ContiguousLog(StreamLog(events', other)) {
      var _ := StreamLogUpdate(events, i, e, other);
      assert ContiguousLog(StreamLog(events, other));
    }
  }

  /** Where a rebuild stands after i rows: the rows done, the counts, and what is left to compute. */
  ghost predicate Midway(ch: ChainFns, envs: seq<Envelope>, i: nat, done: seq<Envelope>, prev: Bytes, backfilled: nat, verified: nat) {
    && i == |done| <= |envs|
    && var r, rest := RebuildLog(ch, envs), RebuildFrom(ch, prev, envs[i..]);
       && r.envs == done + rest.envs && r.outcome == rest.outcome
       && r.backfilled == backfilled + rest.backfilled && r.verified == verified + rest.verified
  }

  datatype RowStep = Filled(hash: Bytes) | Checked(hash: Bytes) | Stopped(outcome: RebuildOutcome)

  /** What a rebuild does with one row. */
  function RowStepFor(ch: ChainFns, prev: Bytes, row: Envelope): RowStep {
    match ComputeChainHash(ch, prev, row.hashed)
    case None => Stopped(RecomputeFailed(row.hashed.version))
    case Some(h) =>
      if row.hash == [] then Filled(h)
      else if row.hash != h then Stopped(ChainBroken(row.hashed.version))
      else Checked(h)
  }

  function RowAfter(step: RowStep, prev: Bytes, row: Envelope): Envelope {
    if step.Filled? then row.(hash := step.hash, prevHash := prev) else row
  }

  lemma MidwayStep(ch: ChainFns, envs: seq<Envelope>, i: nat, done: seq<Envelope>, prev: Bytes, backfilled: nat, verified: nat)
    requires Midway(ch, envs, i, done, prev, backfilled, verified) && i < |envs|
    ensures var step := RowStepFor(ch, prev, envs[i]);
            match step
            case Stopped(o) => RebuildLog(ch, envs) == ChainRebuild(done + envs[i..], backfilled, verified, o)
            case Filled(h) => Midway(ch, envs, i + 1, done + [RowAfter(step, prev, envs[i])], h, backfilled + 1, verified)
            case Checked(h) => Midway(ch, envs, i + 1, done + [envs[i]], h, backfilled, verified + 1)
  {
    hide ComputeChainHash;
    assert envs[i..][0] == envs[i] && envs[i..][1..] == envs[i + 1..];
  }

  lemma MidwayEnds(ch: ChainFns, envs: seq<Envelope>, done: seq<Envelope>, prev: Bytes, backfilled: nat, verified: nat)
    ensures Midway(ch, envs, 0, [], ZERO_HASH, 0, 0)
    ensures Midway(ch, envs, |envs|, done, prev, backfilled, verified) ==>
              RebuildLog(ch, envs) == ChainRebuild(done, backfilled, verified, Rebuilt)
  {
    assert envs[0..] == envs && envs[|envs|..] == [] && done + [] == done;
  }

  /** The tables of a store during a rebuild: only this stream's first rows differ from before. */
  ghost predicate TablesMidway(events: seq<Envelope>, before: seq<Envelope>, sid: StreamId, log: seq<Envelope>) {
    && Contiguous(events) && UniqueIds(events)
    && StreamLog(events, sid) == log
    && forall other: StreamId | other != sid :: StreamLog(events, other) == StreamLog(before, other)
  }

  lemma TablesStep(events: seq<Envelope>, before: seq<Envelope>, sid: StreamId, done: seq<Envelope>, todo: seq<Envelope>,
                   hash: Bytes, prev: Bytes)
    requires TablesMidway(events, before, sid, done + todo) && todo != [] && todo[0].hash == []
    ensures var row := todo[0];
            TablesMidway(BackfillRows(events, sid.tenant, row.hashed.eventId, hash, prev), before, sid,
                         done + [row.(hash := hash, prevHash := prev)] + todo[1..])
  {
    assert (done + todo)[|done|] == todo[0];
    BackfillOneRow(events, sid, |done|, hash, prev);
    var row := todo[0].(hash := hash, prevHash := prev);
    assert (done + todo)[|done| := row] == done + [row] + todo[1..];
  }

  /** The events table once the rows of a stream read as envs have become done, as far as done goes. */
  function FillRows(events: seq<Envelope>, tenant: string, envs: seq<Envelope>, done: seq<Envelope>): seq<Envelope>
    requires |done| <= |envs|
    decreases |done|
  {
    if done == [] then events
    else
      var k := |done| - 1;
      var sofar := FillRows(events, tenant, envs, done[..k]);
      if envs[k].hash == [] then BackfillRows(sofar, tenant, envs[k].hashed.eventId, done[k].hash, done[k].prevHash)
      else sofar
  }

  ghost predicate OnlyHashesDiffer(envs: seq<Envelope>, done: seq<Envelope>) {
    && |done| <= |envs|
    && forall k | 0 <= k < |done| ::
         done[k] == if envs[k].hash == [] then envs[k].(hash := done[k].hash, prevHash := done[k].prevHash) else envs[k]
  }

  /** Filling by event id rewrites exactly the stream's own rows. */
  lemma {:induction false} FillRowsTables(before: seq<Envelope>, sid: StreamId, envs: seq<Envelope>, done: seq<Envelope>)
    requires TablesMidway(before, before, sid, envs)
    requires OnlyHashesDiffer(envs, done)
    ensures TablesMidway(FillRows(before, sid.tenant, envs, done), before, sid, done + envs[|done|..])
    decreases |done|
  {
    hide TablesMidway, BackfillRows;
    if done == [] {
      assert done + envs[0..] == envs;
    } else {
      var k := |done| - 1;
      FillRowsTables(before, sid, envs, done[..k]);
      assert envs[k..][0] == envs[k] && envs[k..][1..] == envs[k + 1..];
      if envs[k].hash == [] {
        TablesStep(FillRows(before, sid.tenant, envs, done[..k]), before, sid, done[..k], envs[k..], done[k].hash, done[k].prevHash);
        assert done[..k] + [done[k]] + envs[k + 1..] == done + envs[|done|..];
      } else {
        assert done[..k] + envs[k..] == done + envs[|done|..];
      }
    }
  }

  /** RebuildStreamChain: the stream's rows become what RebuildLog computes, every other stream stays. */
  method RebuildStreamChain(store: EventStore, sid: StreamId) returns (backfilled: nat, verified: nat, outcome: RebuildOutcome)
    requires Contiguous(store.events) && UniqueIds(store.events)
    modifies store`events
    ensures var r := RebuildLog(store.chain, old(StreamLog(store.events, sid)));
            && TablesMidway(store.events, old(store.events), sid, r.envs)
            && backfilled == r.backfilled && verified == r.verified && outcome == r.outcome
  {
    var envs := ReadStream(store.events, sid, 0);
    ReadStreamIsSuffix(store.events, sid, 0);
    ghost var done;
    backfilled, verified, outcome, done := RebuildRows(store, sid, envs);
    FillRowsTables(old(store.events), sid, envs, done);
  }

  /** The loop of RebuildStreamChain over the rows it read. */
  method RebuildRows(store: EventStore, sid: StreamId, envs: seq<Envelope>)
    returns (backfilled: nat, verified: nat, outcome: RebuildOutcome, ghost done: seq<Envelope>)
    modifies store`events
    ensures OnlyHashesDiffer(envs, done)
    ensures store.events == FillRows(old(store.events), sid.tenant, envs, done)
    ensures RebuildLog(store.chain, envs) == ChainRebuild(done + envs[|done|..], backfilled, verified, outcome)
  {
    hide RebuildFrom, ComputeChainHash, Midway;
    done := [];
    var prev := ZERO_HASH;
    backfilled, verified := 0, 0;
    MidwayEnds(store.chain, envs, done, prev, 0, 0);
    for i := 0 to |envs|
      invariant Midway(store.chain, envs, i, done, prev, backfilled, verified)
      invariant |done| == i && OnlyHashesDiffer(envs, done)
      invariant store.events == FillRows(old(store.events), sid.tenant, envs, done)
    {
      MidwayStep(store.chain, envs, i, done, prev, backfilled, verified);
      var row := envs[i];
      var step := RowStepFor(store.chain, prev, row);
      if step.Stopped? {
        return backfilled, verified, step.outcome, done;
      }
      if step.Filled? {
        var _ := store.BackfillEventHash(sid.tenant, row.hashed.eventId, step.hash, prev);
        backfilled := backfilled + 1;
      } else {
        verified := verified + 1;
      }
      ghost var next := done + [RowAfter(step, prev, row)];
      assert next[..i] == done;
      done := next;
      prev := step.hash;
    }
    MidwayEnds(store.chain, envs, done, prev, backfilled, verified);
    assert done + envs[|done|..] == done;
    outcome := Rebuilt;
  }
}
