/** What the columns of a cached state row say, over every interleaving (aggregate/runtime.go, aggregate/rebuild.go). */
module CacheLaws {
  import opened Basics
  import opened StreamIds
  import opened Store
  import opened Aggregate
  import opened Interleaving
  import opened InterleavingProofs
  import opened Serializability

  /** The row holds the encoding of state s, with its type, and is flagged terminal exactly when s is. */
  ghost predicate Shows<S, C, E>(rt: Runtime<S, C, E>, row: CacheRow, s: S) {
    && rt.stateCodec.Some? && rt.stateCodec.value.encode(s) == Some(EncodedState(row.state, row.typeUrl))
    && (row.terminal <==> rt.isTerminal(s)) && (row.schema == 1 || row.schema == EffectiveSchema(rt))
  }

  ghost predicate Truthful<S(!new), C, E>(rt: Runtime<S, C, E>, cache: map<StreamId, CacheRow>) {
    forall sid | sid in cache :: exists s :: Shows(rt, cache[sid], s)
  }

  lemma PutKeepsTruthful<S(!new), C, E>(rt: Runtime<S, C, E>, cache: map<StreamId, CacheRow>, sid: StreamId, row: CacheRow, s: S)
    requires Truthful(rt, cache) && Shows(rt, row, s)
    ensures Truthful(rt, cache[sid := row])
  {
    hide Shows;
  }

  lemma WipeKeepsTruthful<S(!new), C, E>(rt: Runtime<S, C, E>, cache: map<StreamId, CacheRow>, tenant: string, typeUrl: string)
    requires Truthful(rt, cache)
    ensures Truthful(rt, WipeType(cache, tenant, typeUrl))
  {
    hide Shows;
  }

  lemma SubmitKeepsTruthful<S(!new), C, E(!new)>(rt: Runtime<S, C, E>, ch: ChainFns, s: Sys<S, C>, h: nat)
    requires Truthful(rt, s.db.cache) && h in s.handlers && s.handlers[h].Ready?
    ensures Truthful(rt, SubmitStep(rt, ch, s, h).db.cache)
  {
    hide Shows, Truthful, PlanAppend, AppendTx, EncodeEvents, FoldEvents;
    var r := s.handlers[h];
    if HandleFrom(rt, ch, s.db, r.sid, r.cmd, r.meta, r.loaded).1.Committed? {
      var p, batch := CommittedPlan(rt, ch, s.db, r.sid, r.cmd, r.meta, r.loaded);
      CommittedCache(rt, ch, s.db, p, FoldEvents(rt, r.loaded.state, batch));
    } else {
      FailureKeepsCache(rt, ch, s, h);
    }
  }

  lemma FailureKeepsCache<S, C, E>(rt: Runtime<S, C, E>, ch: ChainFns, s: Sys<S, C>, h: nat)
    requires h in s.handlers && s.handlers[h].Ready?
    requires var r := s.handlers[h]; !HandleFrom(rt, ch, s.db, r.sid, r.cmd, r.meta, r.loaded).1.Committed?
    ensures SubmitStep(rt, ch, s, h).db == s.db
  {
    hide PlanAppend, InsertEvents, ApplyOps, LastStreamHash;
  }

  lemma CommittedCache<S(!new), C, E(!new)>(rt: Runtime<S, C, E>, ch: ChainFns, db: Db, p: AppendParams, s: S)
    requires Truthful(rt, db.cache) && AppendTx(ch, db, p).1.Ok? && StateToCache(rt, s) == Some(p.newState)
    ensures Truthful(rt, AppendTx(ch, db, p).0.cache)
  {
    hide Truthful, InsertEvents, ApplyOps, LastStreamHash;
    if p.newState.Some? {
      var cache' := WithState(db.cache, p);
      assert Shows(rt, cache'[p.sid], s);
      PutKeepsTruthful(rt, db.cache, p.sid, cache'[p.sid], s);
    }
  }

  lemma StepKeepsTruthful<S(!new), C, E(!new)>(rt: Runtime<S, C, E>, ch: ChainFns, s: Sys<S, C>, step: Step<C>)
    requires Truthful(rt, s.db.cache)
    ensures Truthful(rt, Next(rt, ch, s, step).db.cache)
  {
    hide Shows, Truthful, AppendTx, WipeType, RebuildPage, HandleFrom, CacheBase, ReadAll;
    match step
    case Submit(h) =>
      if h in s.handlers && s.handlers[h].Ready? {
        SubmitKeepsTruthful(rt, ch, s, h);
      }
    case Wipe(tenant, typeUrl) => WipeKeepsTruthful(rt, s.db.cache, tenant, typeUrl);
    case RebuildStart(r, tenant) =>
      if rt.stateCodec.Some? && rt.stateCodec.value.encode(rt.initial).Some? {
        WipeKeepsTruthful(rt, s.db.cache, tenant, rt.stateCodec.value.encode(rt.initial).value.typeUrl);
      }
    case RebuildWrite(r, sid) =>
      if rt.stateCodec.Some? && r in s.rebuilds && sid in s.rebuilds[r].streams {
        WriteKeepsTruthful(rt, s, r, sid);
      }
    case PlainAppend(p) => PlainKeepsCache(rt, ch, s.db, p);
    case _ =>
  }

  lemma WriteKeepsTruthful<S(!new), C, E(!new)>(rt: Runtime<S, C, E>, s: Sys<S, C>, r: nat, sid: StreamId)
    requires Truthful(rt, s.db.cache) && rt.stateCodec.Some?
    requires r in s.rebuilds && sid in s.rebuilds[r].streams
    ensures Truthful(rt, RebuildWriteStep(rt, s, r, sid).db.cache)
  {
    hide Truthful;
    var l := s.rebuilds[r].streams[sid];
    if RebuiltRow(rt, l).Some? {
      assert Shows(rt, RebuiltRow(rt, l).value, l.state);
      PutKeepsTruthful(rt, s.db.cache, sid, RebuiltRow(rt, l).value, l.state);
    }
  }

  lemma PlainKeepsCache<S, C, E>(rt: Runtime<S, C, E>, ch: ChainFns, db: Db, p: AppendParams)
    ensures PlainAppendOk(rt, db, p) ==> AppendTx(ch, db, p).0.cache == db.cache
  {
    hide InsertEvents, ApplyOps, LastStreamHash;
  }

  /** Every cached row of every reachable database is the encoding of a state, with that state's type and terminal flag. */
  lemma {:induction false} CachedRowsTell<S(!new), C, E(!new)>(rt: Runtime<S, C, E>, ch: ChainFns, steps: seq<Step<C>>)
    ensures Truthful(rt, Run(rt, ch, steps).db.cache)
    decreases |steps|
  {
    hide Truthful, Next;
    if steps == [] {
      NothingCached(rt);
    } else {
      CachedRowsTell(rt, ch, steps[..|steps| - 1]);
      StepKeepsTruthful(rt, ch, Run(rt, ch, steps[..|steps| - 1]), steps[|steps| - 1]);
    }
  }

  lemma NothingCached<S(!new), C, E>(rt: Runtime<S, C, E>)
    ensures Truthful(rt, Init<S, C>().db.cache)
  {
  }

  /** So a row that Load may use says, without being decoded, whether the stream was over at its version. */
  lemma TerminalFlagIsExact<S(!new), C, E(!new)>(rt: Runtime<S, C, E>, ch: ChainFns, steps: seq<Step<C>>, sid: StreamId)
    requires Lawful(rt)
    requires sid in Run(rt, ch, steps).db.cache && Usable(rt, Run(rt, ch, steps).db.cache[sid])
    ensures var db := Run(rt, ch, steps).db;
            var fold := Replay(rt, rt.initial, StreamLog(db.events, sid)[..Min(db.cache[sid].version, |StreamLog(db.events, sid)|)]);
            && db.cache[sid].version <= |StreamLog(db.events, sid)| && fold.Some?
            && (db.cache[sid].terminal <==> rt.isTerminal(fold.value))
            && rt.stateCodec.value.encode(fold.value) == Some(EncodedState(db.cache[sid].state, db.cache[sid].typeUrl))
  {
    hide Run;
    RunKeepsInv(rt, ch, steps);
    CachedRowsTell(rt, ch, steps);
    var row := Run(rt, ch, steps).db.cache[sid];
    var s :| Shows(rt, row, s);
    assert rt.stateCodec.value.decode(row.state) == Some(s);
  }
}
