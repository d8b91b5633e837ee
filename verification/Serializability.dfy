/** The theorems about every interleaving of Handle calls, rebuilds, wipes and plain appends. */
module Serializability {
  import opened Basics
  import opened StreamIds
  import opened Store
  import opened StoreLaws
  import opened Aggregate
  import opened Interleaving
  import opened InterleavingProofs

  // ---------------------------------------------------------------- one step keeps the invariant

  /** The parts of a system that a longer events table does not disturb. */
  lemma GrowthKeepsInv<S, C, E>(rt: Runtime<S, C, E>, s: Sys<S, C>, db': Db)
    requires Inv(rt, s) && Grows(s.db, db') && EventsGood(rt, db'.events) && CacheGood(rt, db')
    ensures Inv(rt, s.(db := db'))
  {
    forall h | h in s.handlers ensures HandlerGood(rt, db'.events, s.handlers[h]) {
      HandlerGrows(rt, s.db.events, db'.events, s.handlers[h]);
    }
    forall r | r in s.rebuilds ensures RebuildGood(rt, db'.events, s.rebuilds[r]) {
      RebuildGrows(rt, s.db.events, db'.events, s.rebuilds[r]);
    }
  }

  lemma UncommittedChangesNothing<S, C, E>(rt: Runtime<S, C, E>, ch: ChainFns, db: Db, sid: StreamId, cmd: C, meta: Meta, l: Loaded<S>)
    requires !HandleFrom(rt, ch, db, sid, cmd, meta, l).1.Committed?
    ensures HandleFrom(rt, ch, db, sid, cmd, meta, l).0 == db
  {
  }

  lemma SubmitKeepsInv<S(!new), C, E(!new)>(rt: Runtime<S, C, E>, ch: ChainFns, s: Sys<S, C>, h: nat)
    requires Lawful(rt) && Inv(rt, s) && h in s.handlers && s.handlers[h].Ready?
    ensures Inv(rt, SubmitStep(rt, ch, s, h))
  {
    var r := s.handlers[h];
    assert HandlerGood(rt, s.db.events, r);
    var db' := HandleFrom(rt, ch, s.db, r.sid, r.cmd, r.meta, r.loaded).0;
    if HandleFrom(rt, ch, s.db, r.sid, r.cmd, r.meta, r.loaded).1.Committed? {
      var batch := CommitFacts(rt, ch, s.db, r.sid, r.cmd, r.meta, r.loaded);
      GrowthKeepsInv(rt, s, db');
    } else {
      UncommittedChangesNothing(rt, ch, s.db, r.sid, r.cmd, r.meta, r.loaded);
      GrowthKeepsInv(rt, s, db');
    }
    var s1 := s.(db := db');
    assert forall k | k in s1.handlers :: HandlerGood(rt, db'.events, s1.handlers[k]);
  }

  lemma PlainAppendKeepsInv<S(!new), C, E(!new)>(rt: Runtime<S, C, E>, ch: ChainFns, s: Sys<S, C>, p: AppendParams)
    requires Inv(rt, s) && PlainAppendOk(rt, s.db, p)
    ensures Inv(rt, s.(db := AppendTx(ch, s.db, p).0))
  {
    if AppendTx(ch, s.db, p).1.Ok? {
      AppendKeepsEventsGood(rt, ch, s.db, p);
      assert AppendTx(ch, s.db, p).0.cache == s.db.cache;
      CacheGrows(rt, s.db, AppendTx(ch, s.db, p).0);
    }
    GrowthKeepsInv(rt, s, AppendTx(ch, s.db, p).0);
  }

  lemma ReadsKeepInv<S(!new), C, E(!new)>(rt: Runtime<S, C, E>, ch: ChainFns, s: Sys<S, C>, step: Step<C>)
    requires Lawful(rt) && Inv(rt, s) && (step.Begin? || step.ReadCache? || step.ReadTail?)
    ensures Inv(rt, Next(rt, ch, s, step))
  {
    hide Contiguous, Positioned, Homogeneous, RebuildGood, Replay, StreamLog;
    var s' := Next(rt, ch, s, step);
    forall k | k in s'.handlers ensures HandlerGood(rt, s'.db.events, s'.handlers[k]) {
      if k in s.handlers {
        assert HandlerGood(rt, s.db.events, s.handlers[k]);
        match s.handlers[k]
        case Started(sid, _, _) =>
          if step.ReadCache? { CacheBaseGood(rt, s.db, sid, step.readOk); }
        case Based(sid, _, _, base) => TailGood(rt, s.db.events, sid, base);
        case _ =>
      }
    }
  }

  lemma {:induction false} ReadAllSkips(events: seq<Envelope>, tenant: string, from: nat, limit: nat, a: nat)
    requires Positioned(events) && a <= from <= |events|
    ensures ReadAll(events[a..], tenant, from, limit) == ReadAll(events[from..], tenant, from, limit)
    decreases from - a
  {
    if a < from {
      assert events[a..][0] == events[a] && events[a..][1..] == events[a + 1..];
      ReadAllSkips(events, tenant, from, limit, a + 1);
    }
  }

  lemma RebuildReadKeepsInv<S(!new), C, E(!new)>(rt: Runtime<S, C, E>, ch: ChainFns, s: Sys<S, C>, r: nat, limit: nat)
    requires Inv(rt, s) && r in s.rebuilds
    ensures Inv(rt, Next(rt, ch, s, RebuildRead(r, limit)))
  {
    var rb := s.rebuilds[r];
    assert RebuildGood(rt, s.db.events, rb);
    ReadAllSkips(s.db.events, rb.tenant, rb.cursor, limit, 0);
    assert s.db.events[0..] == s.db.events;
    RebuildPageGood(rt, s.db.events, rb, rb.cursor, rb.cursor, limit);
  }

  lemma CacheStepsKeepInv<S(!new), C, E(!new)>(rt: Runtime<S, C, E>, ch: ChainFns, s: Sys<S, C>, step: Step<C>)
    requires Lawful(rt) && Inv(rt, s) && (step.Wipe? || step.RebuildStart? || step.RebuildWrite?)
    ensures Inv(rt, Next(rt, ch, s, step))
  {
    hide Contiguous, Positioned, Homogeneous, Replay;
    var s' := Next(rt, ch, s, step);
    forall sid | sid in s'.db.cache && Usable(rt, s'.db.cache[sid])
      ensures FoldIs(rt, s'.db.events, sid, Loaded(rt.stateCodec.value.decode(s'.db.cache[sid].state).value, s'.db.cache[sid].version))
    {
      if sid in s.db.cache && s'.db.cache[sid] == s.db.cache[sid] {
      } else {
        var rb := s.rebuilds[step.r];
        assert RebuildGood(rt, s.db.events, rb);
        assert StreamGood(rt, s.db.events, rb, sid);
      }
    }
    assert CacheGood(rt, s'.db);
    forall r | r in s'.rebuilds ensures RebuildGood(rt, s'.db.events, s'.rebuilds[r]) {
      if r !in s.rebuilds || s'.rebuilds[r] != s.rebuilds[r] {
        assert s.db.events[..0] == [];
      }
    }
  }

  lemma StepKeepsInv<S(!new), C, E(!new)>(rt: Runtime<S, C, E>, ch: ChainFns, s: Sys<S, C>, step: Step<C>)
    requires Lawful(rt) && Inv(rt, s)
    ensures Inv(rt, Next(rt, ch, s, step))
  {
    match step
    case Submit(h) => if h in s.handlers && s.handlers[h].Ready? { SubmitKeepsInv(rt, ch, s, h); }
    case PlainAppend(p) => if PlainAppendOk(rt, s.db, p) { PlainAppendKeepsInv(rt, ch, s, p); }
    case RebuildRead(r, limit) => if r in s.rebuilds { RebuildReadKeepsInv(rt, ch, s, r, limit); }
    case Begin(_, _, _, _) => ReadsKeepInv(rt, ch, s, step);
    case ReadCache(_, _) => ReadsKeepInv(rt, ch, s, step);
    case ReadTail(_) => ReadsKeepInv(rt, ch, s, step);
    case Wipe(_, _) => CacheStepsKeepInv(rt, ch, s, step);
    case RebuildStart(_, _) => CacheStepsKeepInv(rt, ch, s, step);
    case RebuildWrite(_, _) => CacheStepsKeepInv(rt, ch, s, step);
  }

  lemma {:induction false} RunKeepsInv<S(!new), C, E(!new)>(rt: Runtime<S, C, E>, ch: ChainFns, steps: seq<Step<C>>)
    requires Lawful(rt)
    ensures Inv(rt, Run(rt, ch, steps))
  {
    if steps == [] {
      assert forall sid: StreamId :: StreamLog([], sid) == [];
    } else {
      RunKeepsInv(rt, ch, steps[..|steps| - 1]);
      StepKeepsInv(rt, ch, Run(rt, ch, steps[..|steps| - 1]), steps[|steps| - 1]);
    }
  }

  // ---------------------------------------------------------------- cache refinement

  /** In every reachable database, Load through the cache returns exactly what a full replay returns.
      On a stream of the aggregate that is the fold of all n events and version n; on a stream of
      another one, Load fails as the replay does. */
  lemma LoadEqualsFullReplay<S(!new), C, E(!new)>(rt: Runtime<S, C, E>, ch: ChainFns, steps: seq<Step<C>>, sid: StreamId)
    requires Lawful(rt)
    ensures LoadIsReplay(rt, Run(rt, ch, steps).db, sid)
  {
    RunKeepsInv(rt, ch, steps);
    InvLoad(rt, Run(rt, ch, steps).db, sid);
  }

  ghost predicate LoadIsReplay<S, C, E>(rt: Runtime<S, C, E>, db: Db, sid: StreamId) {
    var log := StreamLog(db.events, sid);
    && Load(rt, db, sid) == FullReplay(rt, db, sid)
    && (Load(rt, db, sid).Some? <==> AllDecode(rt, log))
    && (Load(rt, db, sid).Some? ==>
          && Load(rt, db, sid).value.version == |log|
          && Replay(rt, rt.initial, log) == Some(Load(rt, db, sid).value.state))
  }

  lemma InvLoad<S, C, E>(rt: Runtime<S, C, E>, db: Db, sid: StreamId)
    requires Contiguous(db.events) && CacheGood(rt, db)
    ensures LoadIsReplay(rt, db, sid)
  {
    var log := StreamLog(db.events, sid);
    CacheBaseGood(rt, db, sid, true);
    TailGood(rt, db.events, sid, CacheBase(rt, db.cache, sid, true));
    assert log[..0] == [];
    TailGood(rt, db.events, sid, Loaded(rt.initial, 0));
    ReplayIffDecodes(rt, rt.initial, log);
  }

  /** Every usable cache row of every reachable database is the fold of exactly its first Version events. */
  lemma UsableRowsAreFolds<S(!new), C, E(!new)>(rt: Runtime<S, C, E>, ch: ChainFns, steps: seq<Step<C>>, sid: StreamId)
    requires Lawful(rt)
    requires sid in Run(rt, ch, steps).db.cache && Usable(rt, Run(rt, ch, steps).db.cache[sid])
    ensures var db := Run(rt, ch, steps).db;
            var row := db.cache[sid];
            && 0 < row.version <= |StreamLog(db.events, sid)|
            && Replay(rt, rt.initial, StreamLog(db.events, sid)[..row.version]) == rt.stateCodec.value.decode(row.state)
  {
    RunKeepsInv(rt, ch, steps);
  }

  /** A Handle that commits with a state codec leaves a usable row at its EndVersion, the stream's head. */
  lemma CachingCommitLeavesHeadRow<S(!new), C, E(!new)>(rt: Runtime<S, C, E>, ch: ChainFns, steps: seq<Step<C>>, h: nat)
    requires Lawful(rt) && rt.stateCodec.Some?
    requires var s := Run(rt, ch, steps); h in s.handlers && s.handlers[h].Ready?
    requires var s := Run(rt, ch, steps); SubmitStep(rt, ch, s, h).handlers[h].outcome.Committed?
    ensures var s := Run(rt, ch, steps);
            var s', sid := SubmitStep(rt, ch, s, h), s.handlers[h].sid;
            && sid in s'.db.cache && Usable(rt, s'.db.cache[sid])
            && s'.db.cache[sid].version == s'.handlers[h].outcome.result.endVersion == |StreamLog(s'.db.events, sid)|
            && rt.stateCodec.value.decode(s'.db.cache[sid].state) == Replay(rt, rt.initial, StreamLog(s'.db.events, sid))
  {
    RunKeepsInv(rt, ch, steps);
    var s := Run(rt, ch, steps);
    var r := s.handlers[h];
    assert HandlerGood(rt, s.db.events, r);
    var batch := CommitFacts(rt, ch, s.db, r.sid, r.cmd, r.meta, r.loaded);
    var log := StreamLog(SubmitStep(rt, ch, s, h).db.events, r.sid);
    assert log[..|log|] == log;
  }

  /** Rebuilt rows always carry schema version 1: Load can use one exactly when the runtime's own
      schema version is 1 (or unset). */
  lemma RebuiltRowUsable<S(!new), C, E(!new)>(rt: Runtime<S, C, E>, l: Loaded<S>)
    requires StateCodecRoundTrips(rt) && rt.stateCodec.Some? && l.version > 0
    requires RebuiltRow(rt, l).Some?
    ensures Usable(rt, RebuiltRow(rt, l).value) <==> rt.schemaVersion <= 1
  {
  }

  // ---------------------------------------------------------------- serializability

  /** One committed command run on its own, loading by full replay. */
  function HandleAlone<S, C, E>(rt: Runtime<S, C, E>, ch: ChainFns, db: Db, c: Commit<C>): (Db, HandleOutcome) {
    match FullReplay(rt, db, c.sid)
    case None => (db, LoadFailed)
    case Some(l) => HandleFrom(rt, ch, db, c.sid, c.cmd, c.meta, l)
  }

  function SerialRun<S, C, E>(rt: Runtime<S, C, E>, ch: ChainFns, commits: seq<Commit<C>>): Db {
    if commits == [] then EMPTY_DB
    else HandleAlone(rt, ch, SerialRun(rt, ch, commits[..|commits| - 1]), commits[|commits| - 1]).0
  }

  /** Commands that all commit when run one after another from an empty database. */
  ghost predicate AllCommit<S, C, E>(rt: Runtime<S, C, E>, ch: ChainFns, commits: seq<Commit<C>>) {
    forall i | 0 <= i < |commits| :: HandleAlone(rt, ch, SerialRun(rt, ch, commits[..i]), commits[i]).1.Committed?
  }

  lemma HandleIgnoresCache<S, C, E>(rt: Runtime<S, C, E>, ch: ChainFns, db: Db, db2: Db, c: Commit<C>, l: Loaded<S>)
    requires Core(db) == Core(db2)
    requires FullReplay(rt, db2, c.sid) == Some(l)
    ensures HandleAlone(rt, ch, db2, c).1 == HandleFrom(rt, ch, db, c.sid, c.cmd, c.meta, l).1
    ensures Core(HandleAlone(rt, ch, db2, c).0) == Core(HandleFrom(rt, ch, db, c.sid, c.cmd, c.meta, l).0)
  {
    match PlanAppend(rt, c.sid, c.cmd, c.meta, l)
    case Stop(_) =>
    case Submit(p) => AppendIgnoresCache(ch, db, db2, p);
  }

  /** A commit in the interleaved run is the same commit made alone on the same tables. */
  lemma SubmitIsSerial<S(!new), C, E(!new)>(rt: Runtime<S, C, E>, ch: ChainFns, s: Sys<S, C>, h: nat, serial: Db)
    requires Lawful(rt) && Inv(rt, s) && h in s.handlers && s.handlers[h].Ready?
    requires Core(serial) == Core(s.db)
    requires SubmitStep(rt, ch, s, h).handlers[h].outcome.Committed?
    ensures var r := s.handlers[h];
            var c := Commit(r.sid, r.cmd, r.meta);
            && HandleAlone(rt, ch, serial, c).1.Committed?
            && Core(HandleAlone(rt, ch, serial, c).0) == Core(SubmitStep(rt, ch, s, h).db)
  {
    var r := s.handlers[h];
    assert HandlerGood(rt, s.db.events, r);
    var batch := CommitFacts(rt, ch, s.db, r.sid, r.cmd, r.meta, r.loaded);
    var log := StreamLog(s.db.events, r.sid);
    assert log[..|log|] == log && log[..0] == [];
    TailGood(rt, s.db.events, r.sid, Loaded(rt.initial, 0));
    HandleIgnoresCache(rt, ch, s.db, serial, Commit(r.sid, r.cmd, r.meta), r.loaded);
  }

  ghost predicate NoPlainAppends<C>(steps: seq<Step<C>>) {
    forall i | 0 <= i < |steps| :: !steps[i].PlainAppend?
  }

  /** Serializability. Whatever the interleaving of reads, submits, cache wipes and rebuilds, the
      committed commands, run alone in commit order, all commit again and build the same events,
      outbox and claims. */
  lemma {:induction false} Serializable<S(!new), C, E(!new)>(rt: Runtime<S, C, E>, ch: ChainFns, steps: seq<Step<C>>)
    requires Lawful(rt) && NoPlainAppends(steps)
    ensures var s := Run(rt, ch, steps);
            && AllCommit(rt, ch, s.commits)
            && Core(SerialRun(rt, ch, s.commits)) == Core(s.db)
  {
    if steps != [] {
      var n := |steps| - 1;
      var s := Run(rt, ch, steps[..n]);
      Serializable(rt, ch, steps[..n]);
      RunKeepsInv(rt, ch, steps[..n]);
      SerialStep(rt, ch, s, steps[n]);
    }
  }

  lemma SerialStep<S(!new), C, E(!new)>(rt: Runtime<S, C, E>, ch: ChainFns, s: Sys<S, C>, step: Step<C>)
    requires Lawful(rt) && Inv(rt, s) && !step.PlainAppend?
    requires AllCommit(rt, ch, s.commits) && Core(SerialRun(rt, ch, s.commits)) == Core(s.db)
    ensures var s' := Next(rt, ch, s, step);
            AllCommit(rt, ch, s'.commits) && Core(SerialRun(rt, ch, s'.commits)) == Core(s'.db)
  {
    var s' := Next(rt, ch, s, step);
    if step.Submit? && step.h in s.handlers && s.handlers[step.h].Ready? {
      var r := s.handlers[step.h];
      if s'.handlers[step.h].outcome.Committed? {
        SubmitIsSerial(rt, ch, s, step.h, SerialRun(rt, ch, s.commits));
        ExtendSerial(rt, ch, s.commits, Commit(r.sid, r.cmd, r.meta));
      } else {
        UncommittedChangesNothing(rt, ch, s.db, r.sid, r.cmd, r.meta, r.loaded);
        assert s'.commits == s.commits;
      }
    } else {
      OtherStepsKeepCore(rt, ch, s, step);
    }
  }

  lemma OtherStepsKeepCore<S, C, E>(rt: Runtime<S, C, E>, ch: ChainFns, s: Sys<S, C>, step: Step<C>)
    requires !step.PlainAppend?
    requires !(step.Submit? && step.h in s.handlers && s.handlers[step.h].Ready?)
    ensures Core(Next(rt, ch, s, step).db) == Core(s.db) && Next(rt, ch, s, step).commits == s.commits
  {
  }

  lemma ExtendSerial<S, C, E>(rt: Runtime<S, C, E>, ch: ChainFns, commits: seq<Commit<C>>, c: Commit<C>)
    requires AllCommit(rt, ch, commits)
    requires HandleAlone(rt, ch, SerialRun(rt, ch, commits), c).1.Committed?
    ensures AllCommit(rt, ch, commits + [c])
    ensures SerialRun(rt, ch, commits + [c]) == HandleAlone(rt, ch, SerialRun(rt, ch, commits), c).0
  {
    var cs := commits + [c];
    assert cs[..|commits|] == commits;
    forall i | 0 <= i < |cs| ensures HandleAlone(rt, ch, SerialRun(rt, ch, cs[..i]), cs[i]).1.Committed? {
      if i < |commits| {
        assert cs[..i] == commits[..i];
      }
    }
  }

  // ---------------------------------------------------------------- what a serial run looks like

  lemma {:induction false} SerialGood<S(!new), C, E(!new)>(rt: Runtime<S, C, E>, ch: ChainFns, commits: seq<Commit<C>>)
    requires Lawful(rt) && AllCommit(rt, ch, commits)
    ensures EventsGood(rt, SerialRun(rt, ch, commits).events) && CacheGood(rt, SerialRun(rt, ch, commits))
  {
    if commits == [] {
      assert forall sid: StreamId :: StreamLog([], sid) == [];
    } else {
      var n := |commits| - 1;
      assert AllCommit(rt, ch, commits[..n]) by {
        assert forall i | 0 <= i <= n :: commits[..n][..i] == commits[..i];
      }
      SerialGood(rt, ch, commits[..n]);
      var l, batch := AloneFacts(rt, ch, SerialRun(rt, ch, commits[..n]), commits[n]);
    }
  }

  /** A command that commits alone: it saw the fold of the whole stream, which was not terminal, and
      appended exactly its decision on that fold. */
  lemma AloneFacts<S(!new), C, E(!new)>(rt: Runtime<S, C, E>, ch: ChainFns, db: Db, c: Commit<C>)
    returns (l: Loaded<S>, batch: seq<E>)
    requires Lawful(rt) && EventsGood(rt, db.events) && CacheGood(rt, db)
    requires HandleAlone(rt, ch, db, c).1.Committed?
    ensures HandleAlone(rt, ch, db, c) == HandleFrom(rt, ch, db, c.sid, c.cmd, c.meta, l)
    ensures Replay(rt, rt.initial, StreamLog(db.events, c.sid)) == Some(l.state) && l.version == |StreamLog(db.events, c.sid)|
    ensures !rt.isTerminal(l.state) && rt.decide(l.state, c.cmd).Accept? && batch == rt.decide(l.state, c.cmd).events
    ensures EventsGood(rt, HandleAlone(rt, ch, db, c).0.events) && CacheGood(rt, HandleAlone(rt, ch, db, c).0)
    ensures Replay(rt, rt.initial, StreamLog(HandleAlone(rt, ch, db, c).0.events, c.sid)) == Some(FoldEvents(rt, l.state, batch))
  {
    var log := StreamLog(db.events, c.sid);
    assert log[..0] == [] && log[..|log|] == log;
    TailGood(rt, db.events, c.sid, Loaded(rt.initial, 0));
    l := FullReplay(rt, db, c.sid).value;
    batch := CommitFacts(rt, ch, db, c.sid, c.cmd, c.meta, l);
    var log' := StreamLog(HandleAlone(rt, ch, db, c).0.events, c.sid);
    assert log'[..|log'|] == log';
  }

  /** The rows are this batch, event by event, as the next versions of the stream. */
  ghost predicate RowsAre<S, C, E>(rt: Runtime<S, C, E>, sid: StreamId, head: nat, rows: seq<Envelope>, batch: seq<E>) {
    && |rows| == |batch|
    && forall k | 0 <= k < |rows| ::
         && rows[k].hashed.sid == sid && rows[k].hashed.version == head + k + 1
         && rt.codec.decode(EncodedOf(rows[k].hashed.content)) == Some(batch[k])
  }

  /** What the i-th committed command did, between the serial stores before and after it: it saw the fold of its
      stream, which was not terminal, and the rows it added are exactly its decision on that fold. */
  ghost predicate IsItsDecision<S, C, E>(rt: Runtime<S, C, E>, c: Commit<C>, db: Db, db': Db, before: S, batch: seq<E>, rows: seq<Envelope>) {
    var log := StreamLog(db.events, c.sid);
    && Replay(rt, rt.initial, log) == Some(before) && !rt.isTerminal(before)
    && rt.decide(before, c.cmd).Accept? && rt.decide(before, c.cmd).events == batch
    && db'.events == db.events + rows && StreamLog(db'.events, c.sid) == log + rows
    && RowsAre(rt, c.sid, |log|, rows, batch)
    && Replay(rt, rt.initial, log + rows) == Some(FoldEvents(rt, before, batch))
  }

  /** Each committed batch of any interleaved run is the decider's answer on the fold of everything committed to
      its stream before it, never after a terminal state, and its rows stand in the interleaved store right
      after all earlier commits. */
  lemma EachBatchIsItsDecision<S(!new), C, E(!new)>(rt: Runtime<S, C, E>, ch: ChainFns, steps: seq<Step<C>>, i: nat)
    returns (before: S, batch: seq<E>, rows: seq<Envelope>)
    requires Lawful(rt) && NoPlainAppends(steps) && i < |Run(rt, ch, steps).commits|
    ensures var cs := Run(rt, ch, steps).commits;
            var db, db' := SerialRun(rt, ch, cs[..i]), SerialRun(rt, ch, cs[..i + 1]);
            IsItsDecision(rt, cs[i], db, db', before, batch, rows) && db'.events <= Run(rt, ch, steps).db.events
  {
    Serializable(rt, ch, steps);
    var cs := Run(rt, ch, steps).commits;
    before, batch, rows := SerialBatch(rt, ch, cs, i);
    SerialPrefix(rt, ch, cs, i + 1);
  }

  lemma {:induction false} SerialPrefix<S(!new), C, E(!new)>(rt: Runtime<S, C, E>, ch: ChainFns, cs: seq<Commit<C>>, n: nat)
    requires Lawful(rt) && AllCommit(rt, ch, cs) && n <= |cs|
    ensures SerialRun(rt, ch, cs[..n]).events <= SerialRun(rt, ch, cs).events
    decreases |cs| - n
  {
    hide Replay, StreamLog, HandleAlone, AllCommit, IsItsDecision;
    if n == |cs| {
      assert cs[..n] == cs;
    } else {
      var before, batch, rows := SerialBatch(rt, ch, cs, n);
      assert SerialRun(rt, ch, cs[..n]).events <= SerialRun(rt, ch, cs[..n + 1]).events by {
        DecisionExtends(rt, cs[n], SerialRun(rt, ch, cs[..n]), SerialRun(rt, ch, cs[..n + 1]), before, batch, rows);
      }
      SerialPrefix(rt, ch, cs, n + 1);
    }
  }

  lemma DecisionExtends<S, C, E>(rt: Runtime<S, C, E>, c: Commit<C>, db: Db, db': Db, before: S, batch: seq<E>, rows: seq<Envelope>)
    requires IsItsDecision(rt, c, db, db', before, batch, rows)
    ensures db.events <= db'.events
  {
  }

  lemma PrefixCommits<S, C, E>(rt: Runtime<S, C, E>, ch: ChainFns, cs: seq<Commit<C>>, i: nat)
    requires AllCommit(rt, ch, cs) && i < |cs|
    ensures AllCommit(rt, ch, cs[..i]) && HandleAlone(rt, ch, SerialRun(rt, ch, cs[..i]), cs[i]).1.Committed?
  {
    assert forall j | 0 <= j <= i :: cs[..i][..j] == cs[..j];
  }

  /** The rows of a command that commits alone. */
  lemma AloneRows<S(!new), C, E(!new)>(rt: Runtime<S, C, E>, ch: ChainFns, db: Db, c: Commit<C>, l: Loaded<S>)
    returns (rows: seq<Envelope>)
    requires CodecRoundTrips(rt) && HandleFrom(rt, ch, db, c.sid, c.cmd, c.meta, l).1.Committed?
    ensures var db' := HandleFrom(rt, ch, db, c.sid, c.cmd, c.meta, l).0;
            && rt.decide(l.state, c.cmd).Accept?
            && db'.events == db.events + rows && StreamLog(db'.events, c.sid) == StreamLog(db.events, c.sid) + rows
            && RowsAre(rt, c.sid, l.version, rows, rt.decide(l.state, c.cmd).events)
  {
    hide AppendTx, HandleFrom, EncodeEvents, ComputeChainHash, StreamLog, Canonical, KeyTaken;
    var p, batch := CommittedPlan(rt, ch, db, c.sid, c.cmd, c.meta, l);
    EncodedBatch(rt, c.meta, batch);
    rows := AppendAddsRows(ch, db, p);
    StreamLogConcat(db.events, rows, c.sid);
    StreamLogUniform(rows, c.sid, c.sid);
    forall k | 0 <= k < |rows|
      ensures rows[k].hashed.sid == c.sid && rows[k].hashed.version == l.version + k + 1
      ensures rt.codec.decode(EncodedOf(rows[k].hashed.content)) == Some(batch[k])
    {
      assert rows[k].hashed == HashedAt(p, 0 + k);
    }
  }

  lemma SerialBatch<S(!new), C, E(!new)>(rt: Runtime<S, C, E>, ch: ChainFns, cs: seq<Commit<C>>, i: nat)
    returns (before: S, batch: seq<E>, rows: seq<Envelope>)
    requires Lawful(rt) && AllCommit(rt, ch, cs) && i < |cs|
    ensures IsItsDecision(rt, cs[i], SerialRun(rt, ch, cs[..i]), SerialRun(rt, ch, cs[..i + 1]), before, batch, rows)
  {
    hide Replay, StreamLog, HandleAlone, EventsGood, CacheGood, AllCommit, CodecRoundTrips, StateCodecRoundTrips, RowsAre;
    PrefixCommits(rt, ch, cs, i);
    SerialGood(rt, ch, cs[..i]);
    var db := SerialRun(rt, ch, cs[..i]);
    var l;
    l, batch := AloneFacts(rt, ch, db, cs[i]);
    rows := AloneRows(rt, ch, db, cs[i], l);
    before := l.state;
    assert cs[..i + 1][..i] == cs[..i];
    assert SerialRun(rt, ch, cs[..i + 1]) == HandleAlone(rt, ch, db, cs[i]).0;
  }

  /** A submit from a handler that has been overtaken commits nothing and leaves every table alone. */
  lemma StaleSubmitChangesNothing<S(!new), C, E(!new)>(rt: Runtime<S, C, E>, ch: ChainFns, steps: seq<Step<C>>, h: nat)
    requires Lawful(rt)
    requires var s := Run(rt, ch, steps);
             h in s.handlers && s.handlers[h].Ready? && s.handlers[h].loaded.version != |StreamLog(s.db.events, s.handlers[h].sid)|
    ensures var s := Run(rt, ch, steps);
            && !SubmitStep(rt, ch, s, h).handlers[h].outcome.Committed?
            && SubmitStep(rt, ch, s, h).db == s.db
            && SubmitStep(rt, ch, s, h).commits == s.commits
  {
    RunKeepsInv(rt, ch, steps);
    var s := Run(rt, ch, steps);
    var r := s.handlers[h];
    assert HandlerGood(rt, s.db.events, r);
    if HandleFrom(rt, ch, s.db, r.sid, r.cmd, r.meta, r.loaded).1.Committed? {
      var batch := CommitFacts(rt, ch, s.db, r.sid, r.cmd, r.meta, r.loaded);
      assert false;
    }
  }

  /** In every reachable database the versions of each stream are exactly 1..n, in position order. */
  lemma VersionsAreContiguous<S(!new), C, E(!new)>(rt: Runtime<S, C, E>, ch: ChainFns, steps: seq<Step<C>>)
    requires Lawful(rt)
    ensures Contiguous(Run(rt, ch, steps).db.events) && Positioned(Run(rt, ch, steps).db.events)
  {
    RunKeepsInv(rt, ch, steps);
  }
}
