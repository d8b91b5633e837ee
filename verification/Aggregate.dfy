/** The aggregate runtime (aggregate/runtime.go) and the cache rebuild (aggregate/rebuild.go):
    deciders, codecs, and each read or write of Load, Handle and RebuildStateCache as a function. */
module Aggregate {
  import opened Basics
  import opened StreamIds
  import opened Store

  // ---------------------------------------------------------------- deciders and codecs

  datatype Decision<+E> = Accept(events: seq<E>, ops: seq<ConstraintOp>) | Reject(reason: string)

  datatype Encoded = Encoded(typeUrl: string, schemaVersion: nat, payload: Bytes)

  datatype EncodedState = EncodedState(bytes: Bytes, typeUrl: string)

  datatype Codec<!E> = Codec(encode: E -> Option<Encoded>, decode: Encoded -> Option<E>)

  datatype StateCodec<!S> = StateCodec(encode: S -> Option<EncodedState>, decode: Bytes -> Option<S>)

  /** A decider without IsTerminal has the constant false. */
  datatype Runtime<!S, !C, !E> = Runtime(
    initial: S,
    decide: (S, C) -> Decision<E>,
    evolve: (S, E) -> S,
    isTerminal: S -> bool,
    codec: Codec<E>,
    stateCodec: Option<StateCodec<S>>,
    schemaVersion: nat)

  function EffectiveSchema<S, C, E>(rt: Runtime<S, C, E>): nat {
    if rt.schemaVersion == 0 then 1 else rt.schemaVersion
  }

  /** Decoding returns what was encoded. */
  ghost predicate CodecRoundTrips<S, C, E(!new)>(rt: Runtime<S, C, E>) {
    forall e: E :: rt.codec.encode(e).Some? ==> rt.codec.decode(rt.codec.encode(e).value) == Some(e)
  }

  ghost predicate StateCodecRoundTrips<S(!new), C, E>(rt: Runtime<S, C, E>) {
    rt.stateCodec.Some? ==>
      var sc := rt.stateCodec.value;
      forall s: S :: sc.encode(s).Some? ==> sc.decode(sc.encode(s).value.bytes) == Some(s)
  }

  // ---------------------------------------------------------------- load

  function EncodedOf(c: Content): Encoded { Encoded(c.typeUrl, c.schemaVersion, c.payload) }

  /** Fold a list of envelopes; None when one does not decode. */
  function Replay<S, C, E>(rt: Runtime<S, C, E>, s: S, envs: seq<Envelope>): Option<S> {
    if envs == [] then Some(s)
    else
      match rt.codec.decode(EncodedOf(envs[0].hashed.content))
      case None => None
      case Some(e) => Replay(rt, rt.evolve(s, e), envs[1..])
  }

  function LastVersion(envs: seq<Envelope>, from: nat): nat {
    if envs == [] then from else envs[|envs| - 1].hashed.version
  }

  datatype Loaded<S> = Loaded(state: S, version: nat)

  /** Load's first read: the cache row when it can be used, else the empty stream's state.
      A failed read (readOk false), a missing row, another schema version or undecodable bytes
      all fall back to full replay. */
  function CacheBase<S, C, E>(rt: Runtime<S, C, E>, cache: map<StreamId, CacheRow>, sid: StreamId, readOk: bool): Loaded<S> {
    if rt.stateCodec.None? || !readOk || sid !in cache || cache[sid].version == 0
       || cache[sid].schema != EffectiveSchema(rt) then Loaded(rt.initial, 0)
    else
      match rt.stateCodec.value.decode(cache[sid].state)
      case None => Loaded(rt.initial, 0)
      case Some(s) => Loaded(s, cache[sid].version)
  }

  /** Load's second read: fold the events after the base. */
  function ReplayTail<S, C, E>(rt: Runtime<S, C, E>, base: Loaded<S>, tail: seq<Envelope>): Option<Loaded<S>> {
    match Replay(rt, base.state, tail)
    case None => None
    case Some(s) => Some(Loaded(s, LastVersion(tail, base.version)))
  }

  /** Both reads against one unchanging database. */
  function Load<S, C, E>(rt: Runtime<S, C, E>, db: Db, sid: StreamId): Option<Loaded<S>> {
    var base := CacheBase(rt, db.cache, sid, true);
    ReplayTail(rt, base, ReadStream(db.events, sid, base.version))
  }

  /** Load without a cache: the reference. */
  function FullReplay<S, C, E>(rt: Runtime<S, C, E>, db: Db, sid: StreamId): Option<Loaded<S>> {
    ReplayTail(rt, Loaded(rt.initial, 0), ReadStream(db.events, sid, 0))
  }

  // ---------------------------------------------------------------- handle

  /** Envelope metadata of one Handle call; ids are the generated event ids. */
  datatype Meta = Meta(ids: nat -> string, occurredAt: int, correlationId: string,
                       causationId: string, commandId: string, actor: Actor)

  function NewEventFor(meta: Meta, i: nat, enc: Encoded): NewEvent {
    NewEvent(meta.ids(i), Content(enc.typeUrl, enc.schemaVersion, meta.occurredAt, meta.correlationId,
                                  meta.causationId, meta.commandId, meta.actor, enc.payload, []))
  }

  function EncodeEvents<S, C, E>(rt: Runtime<S, C, E>, meta: Meta, events: seq<E>): Option<seq<NewEvent>> {
    if events == [] then Some([])
    else
      var n := |events| - 1;
      match EncodeEvents(rt, meta, events[..n])
      case None => None
      case Some(init) =>
        match rt.codec.encode(events[n])
        case None => None
        case Some(enc) => Some(init + [NewEventFor(meta, n, enc)])
  }

  function FoldEvents<S, C, E>(rt: Runtime<S, C, E>, s: S, events: seq<E>): S {
    if events == [] then s else FoldEvents(rt, rt.evolve(s, events[0]), events[1..])
  }

  /** The state to cache with the batch: None without a state codec, Some(None) when it fails to encode. */
  function StateToCache<S, C, E>(rt: Runtime<S, C, E>, s: S): Option<Option<NewState>> {
    match rt.stateCodec
    case None => Some(None)
    case Some(sc) =>
      match sc.encode(s)
      case None => None
      case Some(es) => Some(Some(NewState(es.bytes, es.typeUrl, EffectiveSchema(rt), rt.isTerminal(s))))
  }

  datatype HandleOutcome =
    | Committed(result: AppendResult)
    | NoChange
    | LoadFailed
    | Terminal
    | Refused(reason: string)
    | EncodeFailed
    | AppendFailed(error: AppendError)

  datatype Plan = Submit(params: AppendParams) | Stop(outcome: HandleOutcome)

  /** Everything handleImpl does between Load and Append. */
  function PlanAppend<S, C, E>(rt: Runtime<S, C, E>, sid: StreamId, cmd: C, meta: Meta, l: Loaded<S>): Plan {
    if rt.isTerminal(l.state) then Stop(Terminal)
    else
      match rt.decide(l.state, cmd)
      case Reject(r) => Stop(Refused(r))
      case Accept(events, ops) =>
        if events == [] then Stop(NoChange)
        else
          match EncodeEvents(rt, meta, events)
          case None => Stop(EncodeFailed)
          case Some(toAppend) =>
            match StateToCache(rt, FoldEvents(rt, l.state, events))
            case None => Stop(EncodeFailed)
            case Some(ns) => Submit(AppendParams(sid, l.version, toAppend, ops, ns))
  }

  function HandleFrom<S, C, E>(rt: Runtime<S, C, E>, ch: ChainFns, db: Db, sid: StreamId, cmd: C, meta: Meta,
                               l: Loaded<S>): (Db, HandleOutcome) {
    match PlanAppend(rt, sid, cmd, meta, l)
    case Stop(o) => (db, o)
    case Submit(p) =>
      match AppendTx(ch, db, p)
      case (db', Ok(r)) => (db', Committed(r))
      case (db', Err(e)) => (db', AppendFailed(e))
  }

  /** Handle with no other writer running. */
  function Handle<S, C, E>(rt: Runtime<S, C, E>, ch: ChainFns, db: Db, sid: StreamId, cmd: C, meta: Meta): (Db, HandleOutcome) {
    match Load(rt, db, sid)
    case None => (db, LoadFailed)
    case Some(l) => HandleFrom(rt, ch, db, sid, cmd, meta, l)
  }

  // ---------------------------------------------------------------- rebuild

  /** A RebuildStateCache call in progress: its scope, its cursor and its per-stream folds. */
  datatype Rebuild<S> = Rebuild(tenant: string, cursor: nat, streams: map<StreamId, Loaded<S>>)

  function RebuildEvent<S, C, E>(rt: Runtime<S, C, E>, r: Rebuild<S>, env: Envelope): Rebuild<S> {
    var cursor := Max(r.cursor, env.position);
    match rt.codec.decode(EncodedOf(env.hashed.content))
    case None => r.(cursor := cursor)
    case Some(e) =>
      var s := if env.hashed.sid in r.streams then r.streams[env.hashed.sid].state else rt.initial;
      r.(cursor := cursor,
         streams := r.streams[env.hashed.sid := Loaded(rt.evolve(s, e), env.hashed.version)])
  }

  function RebuildPage<S, C, E>(rt: Runtime<S, C, E>, r: Rebuild<S>, envs: seq<Envelope>): Rebuild<S>
    decreases |envs|
  {
    if envs == [] then r else RebuildPage(rt, RebuildEvent(rt, r, envs[0]), envs[1..])
  }

  function WipeType(cache: map<StreamId, CacheRow>, tenant: string, typeUrl: string): map<StreamId, CacheRow> {
    map sid | sid in cache && !(cache[sid].typeUrl == typeUrl && (tenant == "" || sid.tenant == tenant)) :: cache[sid]
  }

  /** The row a rebuild writes. It never sets a schema version, so the adapter stores version 1. */
  function RebuiltRow<S, C, E>(rt: Runtime<S, C, E>, l: Loaded<S>): Option<CacheRow>
    requires rt.stateCodec.Some?
  {
    match rt.stateCodec.value.encode(l.state)
    case None => None
    case Some(es) => Some(CacheRow(es.typeUrl, es.bytes, l.version, rt.isTerminal(l.state), 1))
  }
}
