/** Load, Handle and RebuildStateCache as the loops they are, against the store's tables. */
module AggregateMethods {
  import opened Basics
  import opened StreamIds
  import opened Store
  import opened StoreLaws
  import opened Aggregate
  import opened Interleaving
  import opened InterleavingProofs
  import opened Serializability
  import opened RebuildFolds

  // ---------------------------------------------------------------- load

  method LoadStream<S, C, E>(rt: Runtime<S, C, E>, store: EventStore, sid: StreamId) returns (r: Option<Loaded<S>>)
    ensures r == Load(rt, store.Tables(), sid)
  {
    var state, fromVersion := rt.initial, 0;
    if rt.stateCodec.Some? && sid in store.cache {
      var row := store.cache[sid];
      if row.version > 0 && row.schema == EffectiveSchema(rt) {
        var decoded := rt.stateCodec.value.decode(row.state);
        if decoded.Some? {
          state, fromVersion := decoded.value, row.version;
        }
      }
    }
    var envs := ReadStream(store.events, sid, fromVersion);
    ghost var base := Loaded(state, fromVersion);
    assert base == CacheBase(rt, store.cache, sid, true);
    var version := fromVersion;
    for i := 0 to |envs|
      invariant Replay(rt, base.state, envs) == Replay(rt, state, envs[i..])
      invariant version == LastVersion(envs[..i], fromVersion)
    {
      var evt := rt.codec.decode(EncodedOf(envs[i].hashed.content));
      assert envs[i..][0] == envs[i] && envs[i..][1..] == envs[i + 1..];
      if evt.None? {
        return None;
      }
      state := rt.evolve(state, evt.value);
      version := envs[i].hashed.version;
    }
    assert envs[..|envs|] == envs;
    return Some(Loaded(state, version));
  }

  // ---------------------------------------------------------------- handle

  /** The encode loop of handleImpl. */
  method EncodeBatch<S, C, E>(rt: Runtime<S, C, E>, meta: Meta, events: seq<E>) returns (r: Option<seq<NewEvent>>)
    ensures r == EncodeEvents(rt, meta, events)
  {
    var toAppend: seq<NewEvent> := [];
    for i := 0 to |events|
      invariant EncodeEvents(rt, meta, events[..i]) == Some(toAppend)
    {
      var enc := rt.codec.encode(events[i]);
      assert events[..i + 1][..i] == events[..i];
      if enc.None? {
        EncodeStuck(rt, meta, events, i + 1);
        return None;
      }
      toAppend := toAppend + [NewEventFor(meta, i, enc.value)];
    }
    assert events[..|events|] == events;
    return Some(toAppend);
  }

  lemma {:induction false} EncodeStuck<S, C, E>(rt: Runtime<S, C, E>, meta: Meta, events: seq<E>, i: nat)
    requires i <= |events| && EncodeEvents(rt, meta, events[..i]) == None
    ensures EncodeEvents(rt, meta, events) == None
    decreases |events| - i
  {
    if i == |events| {
      assert events[..i] == events;
    } else {
      assert events[..i + 1][..i] == events[..i];
      EncodeStuck(rt, meta, events, i + 1);
    }
  }

  method FoldBatch<S, C, E>(rt: Runtime<S, C, E>, state: S, events: seq<E>) returns (newState: S)
    ensures newState == FoldEvents(rt, state, events)
  {
    newState := state;
    for i := 0 to |events|
      invariant FoldEvents(rt, state, events) == FoldEvents(rt, newState, events[i..])
    {
      assert events[i..][0] == events[i] && events[i..][1..] == events[i + 1..];
      newState := rt.evolve(newState, events[i]);
    }
  }

  method PlanCommand<S, C, E>(rt: Runtime<S, C, E>, sid: StreamId, cmd: C, meta: Meta, l: Loaded<S>) returns (plan: Plan)
    ensures plan == PlanAppend(rt, sid, cmd, meta, l)
  {
    if rt.isTerminal(l.state) {
      return Stop(Terminal);
    }
    match rt.decide(l.state, cmd) {
      case Reject(reason) => return Stop(Refused(reason));
      case Accept(events, ops) =>
        if |events| == 0 {
          return Stop(NoChange);
        }
        var toAppend := EncodeBatch(rt, meta, events);
        if toAppend.None? {
          return Stop(EncodeFailed);
        }
        var newState := FoldBatch(rt, l.state, events);
        var ns := StateToCache(rt, newState);
        if ns.None? {
          return Stop(EncodeFailed);
        }
        return Plan.Submit(AppendParams(sid, l.version, toAppend.value, ops, ns.value));
    }
  }

  method HandleCommand<S, C, E>(rt: Runtime<S, C, E>, store: EventStore, sid: StreamId, cmd: C, meta: Meta)
    returns (o: HandleOutcome)
    modifies store
    ensures (store.Tables(), o) == Handle(rt, store.chain, old(store.Tables()), sid, cmd, meta)
  {
    var l := LoadStream(rt, store, sid);
    if l.None? {
      return LoadFailed;
    }
    var plan := PlanCommand(rt, sid, cmd, meta, l.value);
    match plan {
      case Stop(outcome) => return outcome;
      case Submit(p) =>
        var reply := store.Append(p);
        match reply {
          case Ok(result) => return Committed(result);
          case Err(error) => return AppendFailed(error);
        }
    }
  }

  // ---------------------------------------------------------------- rebuild

  const REBUILD_PAGE := 500

  datatype RebuildReply = Written(count: nat) | NoStateCodec | ProbeFailed | EncodeFailedAfter(count: nat)

  /** A rebuild that has read everything it covers: its entries are the full folds. */
  ghost predicate Complete<S, C, E>(rt: Runtime<S, C, E>, events: seq<Envelope>, r: Rebuild<S>) {
    forall sid: StreamId ::
      var log := StreamLog(events, sid);
      if log == [] || !Covers(r.tenant, sid) || !AllDecode(rt, log) then sid !in r.streams
      else sid in r.streams && r.streams[sid].version == |log| && Replay(rt, rt.initial, log) == Some(r.streams[sid].state)
  }

  /** Where no stream mixes events that decode with events that do not, the entries are the full folds. */
  lemma FoldedIsComplete<S, C, E>(rt: Runtime<S, C, E>, events: seq<Envelope>, r: Rebuild<S>)
    requires EventsGood(rt, events) && Folded(rt, events, r)
    ensures Complete(rt, events, r)
  {
    hide StreamLog, EventsGood;
    forall sid: StreamId
      ensures var log := StreamLog(events, sid);
              if log == [] || !Covers(r.tenant, sid) || !AllDecode(rt, log) then sid !in r.streams
              else sid in r.streams && r.streams[sid].version == |log| && Replay(rt, rt.initial, log) == Some(r.streams[sid].state)
    {
      var log := StreamLog(events, sid);
      GoodStream(rt, events, sid);
      assert Entry(r, sid) == EntryFor(rt, r.tenant, log, sid);
      if AllDecode(rt, log) {
        SkipFoldIsReplay(rt, log);
      } else {
        SkipFoldEnds(rt, log);
      }
    }
  }

  /** A page that is not empty moves the cursor on. */
  lemma {:induction false} PageMoves<S, C, E>(rt: Runtime<S, C, E>, r: Rebuild<S>, page: seq<Envelope>)
    ensures RebuildPage(rt, r, page).cursor >= r.cursor && RebuildPage(rt, r, page).tenant == r.tenant
    ensures page != [] && page[0].position > r.cursor ==> RebuildPage(rt, r, page).cursor > r.cursor
    decreases |page|
  {
    if page != [] {
      PageMoves(rt, RebuildEvent(rt, r, page[0]), page[1..]);
    }
  }

  lemma {:induction false} PageStartsAfter(events: seq<Envelope>, tenant: string, from: nat, limit: nat)
    ensures ReadAll(events, tenant, from, limit) != [] ==> ReadAll(events, tenant, from, limit)[0].position > from
  {
    if events != [] && limit > 0 {
      PageStartsAfter(events[1..], tenant, from, limit);
    }
  }

  /** The read loop: pages in global order until an empty one, each event that decodes folded into its stream's
      entry. */
  method FoldAllStreams<S, C, E>(rt: Runtime<S, C, E>, events: seq<Envelope>, tenant: string) returns (r: Rebuild<S>)
    requires Positioned(events)
    ensures r.tenant == tenant && Folded(rt, events, r)
    ensures EventsGood(rt, events) ==> Complete(rt, events, r)
  {
    hide Complete, EventsGood, RebuildEvent;
    r := Rebuild(tenant, 0, map[]);
    assert events[..0] == [];
    while true
      invariant r.tenant == tenant && Folding(rt, events, r)
      decreases |events| - r.cursor
    {
      var envs := ReadAll(events, tenant, r.cursor, REBUILD_PAGE);
      if |envs| == 0 {
        ReadAllSkips(events, r.tenant, r.cursor, REBUILD_PAGE, 0);
        assert events[0..] == events;
        FoldingPage(rt, events, r, r.cursor, r.cursor, REBUILD_PAGE);
        FoldingEnds(rt, events, r);
        if EventsGood(rt, events) {
          FoldedIsComplete(rt, events, r);
        }
        return;
      }
      ghost var before := r;
      PageStartsAfter(events, tenant, r.cursor, REBUILD_PAGE);
      PageMoves(rt, r, envs);
      ReadAllSkips(events, r.tenant, r.cursor, REBUILD_PAGE, 0);
      assert events[0..] == events;
      FoldingPage(rt, events, r, r.cursor, r.cursor, REBUILD_PAGE);
      var i := 0;
      while i < |envs|
        invariant 0 <= i <= |envs|
        invariant RebuildPage(rt, before, envs) == RebuildPage(rt, r, envs[i..])
      {
        assert envs[i..][0] == envs[i] && envs[i..][1..] == envs[i + 1..];
        r := RebuildEvent(rt, r, envs[i]);
        i := i + 1;
      }
    }
  }

  /** The stream is covered and the fold of its events that decode cannot be encoded. */
  ghost predicate FoldDoesNotEncode<S, C, E>(rt: Runtime<S, C, E>, events: seq<Envelope>, tenant: string, sid: StreamId)
    requires rt.stateCodec.Some?
  {
    var entry := EntryFor(rt, tenant, StreamLog(events, sid), sid);
    entry.Some? && rt.stateCodec.value.encode(entry.value.state).None?
  }

  /** A rebuild wipes the rows of its type in its scope. */
  predicate Wiped(row: CacheRow, sid: StreamId, tenant: string, typeUrl: string) {
    row.typeUrl == typeUrl && (tenant == "" || sid.tenant == tenant)
  }

  lemma WipedRows(cache: map<StreamId, CacheRow>, tenant: string, typeUrl: string)
    ensures var left := WipeType(cache, tenant, typeUrl);
            forall sid: StreamId ::
              && (sid in left <==> sid in cache && !Wiped(cache[sid], sid, tenant, typeUrl))
              && (sid in left ==> left[sid] == cache[sid])
  {
  }

  lemma EntriesEncode<S, C, E>(rt: Runtime<S, C, E>, events: seq<Envelope>, r: Rebuild<S>)
    requires rt.stateCodec.Some? && Folded(rt, events, r)
    ensures (forall sid | sid in r.streams :: RebuiltRow(rt, r.streams[sid]).Some?)
       <==> !exists sid: StreamId :: FoldDoesNotEncode(rt, events, r.tenant, sid)
    ensures forall sid: StreamId :: sid in r.streams <==> EntryFor(rt, r.tenant, StreamLog(events, sid), sid).Some?
  {
    hide EntryFor, StreamLog;
    forall sid: StreamId
      ensures sid in r.streams <==> EntryFor(rt, r.tenant, StreamLog(events, sid), sid).Some?
      ensures FoldDoesNotEncode(rt, events, r.tenant, sid) <==> sid in r.streams && RebuiltRow(rt, r.streams[sid]).None?
    {
      assert Entry(r, sid) == EntryFor(rt, r.tenant, StreamLog(events, sid), sid);
    }
    if exists sid: StreamId :: FoldDoesNotEncode(rt, events, r.tenant, sid) {
      var sid: StreamId :| FoldDoesNotEncode(rt, events, r.tenant, sid);
      assert sid in r.streams && RebuiltRow(rt, r.streams[sid]).None?;
    }
  }

  /** RebuildStateCache. On success every stream that the scope covers and that has an event which decodes has a
      row with the fold of those events (of its whole log, where streams are not mixed), every other row is
      what the wipe left, and the count is the number of rows written. A row that fails to encode stops it,
      with only some of those rows written. */
  method RebuildStateCache<S, C, E>(rt: Runtime<S, C, E>, store: EventStore, tenant: string) returns (reply: RebuildReply)
    requires Positioned(store.events)
    modifies store`cache
    ensures reply.NoStateCodec? <==> rt.stateCodec.None?
    ensures reply.ProbeFailed? <==> rt.stateCodec.Some? && rt.stateCodec.value.encode(rt.initial).None?
    ensures reply.NoStateCodec? || reply.ProbeFailed? ==> store.cache == old(store.cache)
    ensures reply.EncodeFailedAfter? <==>
              && rt.stateCodec.Some? && rt.stateCodec.value.encode(rt.initial).Some?
              && exists sid: StreamId :: FoldDoesNotEncode(rt, store.events, tenant, sid)
    ensures reply.Written? ==>
              var typeUrl := rt.stateCodec.value.encode(rt.initial).value.typeUrl;
              forall sid: StreamId | EntryFor(rt, tenant, StreamLog(store.events, sid), sid).None? ::
                && (sid in store.cache <==> sid in old(store.cache) && !Wiped(old(store.cache)[sid], sid, tenant, typeUrl))
                && (sid in store.cache ==> store.cache[sid] == old(store.cache)[sid])
    ensures reply.Written? ==>
              var wiped := WipeType(old(store.cache), tenant, rt.stateCodec.value.encode(rt.initial).value.typeUrl);
              exists r: Rebuild<S> ::
                && r.tenant == tenant && Folded(rt, store.events, r) && reply.count == |r.streams|
                && (EventsGood(rt, store.events) ==> Complete(rt, store.events, r))
                && RowsWritten(rt, r, r.streams.Keys, wiped, store.cache)
  {
    hide Complete, Folded, EventsGood, WipeType, RebuiltRow, RowsWritten, EntryFor, StreamLog, FoldDoesNotEncode, Wiped;
    if rt.stateCodec.None? {
      return NoStateCodec;
    }
    var probe := rt.stateCodec.value.encode(rt.initial);
    if probe.None? {
      return ProbeFailed;
    }
    var wiped := WipeType(store.cache, tenant, probe.value.typeUrl);
    store.cache := wiped;
    var r := FoldAllStreams(rt, store.events, tenant);
    var written, ok := WriteRows(rt, store, r);
    WipedRows(old(store.cache), tenant, probe.value.typeUrl);
    EntriesEncode(rt, store.events, r);
    if ok {
      OtherRows(rt, r, wiped, store.cache);
    }
    return if ok then Written(written) else EncodeFailedAfter(written);
  }

  /** The write loop: one upsert per stream, in any order. */
  method WriteRows<S, C, E>(rt: Runtime<S, C, E>, store: EventStore, r: Rebuild<S>) returns (written: nat, ok: bool)
    requires rt.stateCodec.Some?
    modifies store`cache
    ensures ok ==> written == |r.streams| && RowsWritten(rt, r, r.streams.Keys, old(store.cache), store.cache)
    ensures ok <==> forall sid | sid in r.streams :: RebuiltRow(rt, r.streams[sid]).Some?
  {
    hide RowsWritten, RebuiltRow;
    NoRowsWritten(rt, r, store.cache);
    var todo := r.streams.Keys;
    written, ok := 0, true;
    while todo != {}
      invariant todo <= r.streams.Keys && written == |r.streams| - |todo|
      invariant RowsWritten(rt, r, r.streams.Keys - todo, old(store.cache), store.cache)
      invariant forall sid | sid in r.streams && sid !in todo :: RebuiltRow(rt, r.streams[sid]).Some?
    {
      var sid :| sid in todo;
      var row := RebuiltRow(rt, r.streams[sid]);
      if row.None? {
        return written, false;
      }
      OneRowMore(rt, r, r.streams.Keys - todo, old(store.cache), store.cache, sid, row.value);
      store.cache := store.cache[sid := row.value];
      assert r.streams.Keys - todo + {sid} == r.streams.Keys - (todo - {sid});
      todo := todo - {sid};
      written := written + 1;
    }
    assert r.streams.Keys - todo == r.streams.Keys;
  }

  lemma OtherRows<S, C, E>(rt: Runtime<S, C, E>, r: Rebuild<S>, wiped: map<StreamId, CacheRow>, cache: map<StreamId, CacheRow>)
    requires rt.stateCodec.Some? && RowsWritten(rt, r, r.streams.Keys, wiped, cache)
    ensures forall sid: StreamId | sid !in r.streams :: (sid in cache <==> sid in wiped) && (sid in cache ==> cache[sid] == wiped[sid])
  {
    hide RebuiltRow;
  }

  lemma NoRowsWritten<S, C, E>(rt: Runtime<S, C, E>, r: Rebuild<S>, cache: map<StreamId, CacheRow>)
    requires rt.stateCodec.Some?
    ensures RowsWritten(rt, r, r.streams.Keys - r.streams.Keys, cache, cache)
  {
  }

  lemma OneRowMore<S, C, E>(rt: Runtime<S, C, E>, r: Rebuild<S>, sids: set<StreamId>, wiped: map<StreamId, CacheRow>,
                            cache: map<StreamId, CacheRow>, sid: StreamId, row: CacheRow)
    requires rt.stateCodec.Some? && sids <= r.streams.Keys && RowsWritten(rt, r, sids, wiped, cache)
    requires sid in r.streams && RebuiltRow(rt, r.streams[sid]) == Some(row)
    ensures RowsWritten(rt, r, sids + {sid}, wiped, cache[sid := row])
  {
    hide RebuiltRow;
  }

  /** A cache that has the rebuilt rows of the given streams and is otherwise as the wipe left it. */
  ghost predicate RowsWritten<S, C, E>(rt: Runtime<S, C, E>, r: Rebuild<S>, sids: set<StreamId>,
                                       wiped: map<StreamId, CacheRow>, cache: map<StreamId, CacheRow>)
    requires rt.stateCodec.Some? && sids <= r.streams.Keys
  {
    && cache.Keys == wiped.Keys + sids
    && (forall sid | sid in sids :: Some(cache[sid]) == RebuiltRow(rt, r.streams[sid]))
    && (forall sid | sid in wiped && sid !in sids :: cache[sid] == wiped[sid])
  }
}
