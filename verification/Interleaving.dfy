/** Any number of Handle calls, cache rebuilds, wipes and plain appends, interleaved read by read
    and write by write on one database. A run is a sequence of steps; every statement here is about
    every such sequence. */
module Interleaving {
  import opened Basics
  import opened StreamIds
  import opened Store
  import opened StoreLaws
  import opened Aggregate

  // ---------------------------------------------------------------- system and steps

  datatype Handler<S, C> =
    | Started(sid: StreamId, cmd: C, meta: Meta)
    | Based(sid: StreamId, cmd: C, meta: Meta, base: Loaded<S>)
    | Ready(sid: StreamId, cmd: C, meta: Meta, loaded: Loaded<S>)
    | Finished(outcome: HandleOutcome)

  /** One committed Handle call. */
  datatype Commit<C> = Commit(sid: StreamId, cmd: C, meta: Meta)

  datatype Sys<S, C> = Sys(db: Db, handlers: map<nat, Handler<S, C>>, rebuilds: map<nat, Rebuild<S>>,
                           commits: seq<Commit<C>>)

  datatype Step<C> =
    | Begin(h: nat, sid: StreamId, cmd: C, meta: Meta)
    | ReadCache(h: nat, readOk: bool)
    | ReadTail(h: nat)
    | Submit(h: nat)
    | Wipe(tenant: string, typeUrl: string)
    | RebuildStart(r: nat, tenant: string)
    | RebuildRead(r: nat, limit: nat)
    | RebuildWrite(r: nat, sid: StreamId)
    | PlainAppend(params: AppendParams)

  function Init<S, C>(): Sys<S, C> { Sys(EMPTY_DB, map[], map[], []) }

  predicate Decodable<S, C, E>(rt: Runtime<S, C, E>, c: Content) { rt.codec.decode(EncodedOf(c)).Some? }

  predicate AllDecode<S, C, E>(rt: Runtime<S, C, E>, log: seq<Envelope>) {
    forall i | 0 <= i < |log| :: Decodable(rt, log[i].hashed.content)
  }

  predicate NoneDecode<S, C, E>(rt: Runtime<S, C, E>, log: seq<Envelope>) {
    forall i | 0 <= i < |log| :: !Decodable(rt, log[i].hashed.content)
  }

  /** A contiguous append from outside the runtime that carries no state: to a stream of this aggregate
      with events its codec decodes, or to a stream of another one with events it does not. */
  predicate PlainAppendOk<S, C, E>(rt: Runtime<S, C, E>, db: Db, p: AppendParams) {
    var log := StreamLog(db.events, p.sid);
    && p.newState == None
    && p.expected <= |log|
    && (|| (AllDecode(rt, log) && forall i | 0 <= i < |p.events| :: Decodable(rt, p.events[i].content))
        || (NoneDecode(rt, log) && forall i | 0 <= i < |p.events| :: !Decodable(rt, p.events[i].content)))
  }

  function SubmitStep<S, C, E>(rt: Runtime<S, C, E>, ch: ChainFns, s: Sys<S, C>, h: nat): Sys<S, C>
    requires h in s.handlers && s.handlers[h].Ready?
  {
    var r := s.handlers[h];
    var (db', o) := HandleFrom(rt, ch, s.db, r.sid, r.cmd, r.meta, r.loaded);
    s.(db := db',
       handlers := s.handlers[h := Finished(o)],
       commits := s.commits + (if o.Committed? then [Commit(r.sid, r.cmd, r.meta)] else []))
  }

  function ReadTailStep<S, C, E>(rt: Runtime<S, C, E>, s: Sys<S, C>, h: nat): Sys<S, C>
    requires h in s.handlers && s.handlers[h].Based?
  {
    var b := s.handlers[h];
    match ReplayTail(rt, b.base, ReadStream(s.db.events, b.sid, b.base.version))
    case None => s.(handlers := s.handlers[h := Finished(LoadFailed)])
    case Some(l) => s.(handlers := s.handlers[h := Ready(b.sid, b.cmd, b.meta, l)])
  }

  function RebuildStartStep<S, C, E>(rt: Runtime<S, C, E>, s: Sys<S, C>, r: nat, tenant: string): Sys<S, C>
    requires rt.stateCodec.Some?
  {
    match rt.stateCodec.value.encode(rt.initial)
    case None => s
    case Some(es) =>
      s.(db := s.db.(cache := WipeType(s.db.cache, tenant, es.typeUrl)),
         rebuilds := s.rebuilds[r := Rebuild(tenant, 0, map[])])
  }

  function RebuildWriteStep<S, C, E>(rt: Runtime<S, C, E>, s: Sys<S, C>, r: nat, sid: StreamId): Sys<S, C>
    requires rt.stateCodec.Some? && r in s.rebuilds && sid in s.rebuilds[r].streams
  {
    match RebuiltRow(rt, s.rebuilds[r].streams[sid])
    case None => s
    case Some(row) => s.(db := s.db.(cache := s.db.cache[sid := row]))
  }

  /** A step that is not enabled does nothing. */
  function Next<S, C, E>(rt: Runtime<S, C, E>, ch: ChainFns, s: Sys<S, C>, step: Step<C>): Sys<S, C> {
    match step
    case Begin(h, sid, cmd, meta) =>
      if h in s.handlers then s else s.(handlers := s.handlers[h := Started(sid, cmd, meta)])
    case ReadCache(h, readOk) =>
      if h in s.handlers && s.handlers[h].Started? then
        var b := s.handlers[h];
        s.(handlers := s.handlers[h := Based(b.sid, b.cmd, b.meta, CacheBase(rt, s.db.cache, b.sid, readOk))])
      else s
    case ReadTail(h) =>
      if h in s.handlers && s.handlers[h].Based? then ReadTailStep(rt, s, h) else s
    case Submit(h) =>
      if h in s.handlers && s.handlers[h].Ready? then SubmitStep(rt, ch, s, h) else s
    case Wipe(tenant, typeUrl) =>
      s.(db := s.db.(cache := WipeType(s.db.cache, tenant, typeUrl)))
    case RebuildStart(r, tenant) =>
      if rt.stateCodec.Some? && r !in s.rebuilds then RebuildStartStep(rt, s, r, tenant) else s
    case RebuildRead(r, limit) =>
      if r in s.rebuilds then
        var rb := s.rebuilds[r];
        s.(rebuilds := s.rebuilds[r := RebuildPage(rt, rb, ReadAll(s.db.events, rb.tenant, rb.cursor, limit))])
      else s
    case RebuildWrite(r, sid) =>
      if rt.stateCodec.Some? && r in s.rebuilds && sid in s.rebuilds[r].streams then RebuildWriteStep(rt, s, r, sid) else s
    case PlainAppend(p) =>
      if PlainAppendOk(rt, s.db, p) then s.(db := AppendTx(ch, s.db, p).0) else s
  }

  function Run<S, C, E>(rt: Runtime<S, C, E>, ch: ChainFns, steps: seq<Step<C>>): Sys<S, C> {
    if steps == [] then Init()
    else Next(rt, ch, Run(rt, ch, steps[..|steps| - 1]), steps[|steps| - 1])
  }

  // ---------------------------------------------------------------- invariant

  ghost predicate Lawful<S(!new), C, E(!new)>(rt: Runtime<S, C, E>) {
    CodecRoundTrips(rt) && StateCodecRoundTrips(rt)
  }

  /** s is the fold of exactly the first v events of the stream. */
  ghost predicate FoldIs<S, C, E>(rt: Runtime<S, C, E>, events: seq<Envelope>, sid: StreamId, l: Loaded<S>) {
    && l.version <= |StreamLog(events, sid)|
    && Replay(rt, rt.initial, StreamLog(events, sid)[..l.version]) == Some(l.state)
  }

  /** Each stream belongs to this aggregate or to another one. */
  ghost predicate Homogeneous<S, C, E>(rt: Runtime<S, C, E>, events: seq<Envelope>) {
    forall sid: StreamId :: AllDecode(rt, StreamLog(events, sid)) || NoneDecode(rt, StreamLog(events, sid))
  }

  /** A row that Load would use. */
  ghost predicate Usable<S, C, E>(rt: Runtime<S, C, E>, row: CacheRow) {
    && rt.stateCodec.Some? && row.version > 0 && row.schema == EffectiveSchema(rt)
    && rt.stateCodec.value.decode(row.state).Some?
  }

  ghost predicate CacheGood<S, C, E>(rt: Runtime<S, C, E>, db: Db) {
    forall sid | sid in db.cache && Usable(rt, db.cache[sid]) ::
      FoldIs(rt, db.events, sid, Loaded(rt.stateCodec.value.decode(db.cache[sid].state).value, db.cache[sid].version))
  }

  ghost predicate HandlerGood<S, C, E>(rt: Runtime<S, C, E>, events: seq<Envelope>, h: Handler<S, C>) {
    match h
    case Based(sid, _, _, b) => FoldIs(rt, events, sid, b)
    case Ready(sid, _, _, l) => FoldIs(rt, events, sid, l)
    case _ => true
  }

  predicate Covers(tenant: string, sid: StreamId) { tenant == "" || sid.tenant == tenant }

  /** A rebuild's entry for one stream: the fold of what it has read of it, if that is of this aggregate. */
  ghost predicate StreamGood<S, C, E>(rt: Runtime<S, C, E>, events: seq<Envelope>, r: Rebuild<S>, sid: StreamId)
    requires r.cursor <= |events|
  {
    var seen := StreamLog(events[..r.cursor], sid);
    if |seen| == 0 || !Covers(r.tenant, sid) || !AllDecode(rt, seen) then sid !in r.streams
    else sid in r.streams && r.streams[sid].version == |seen| && FoldIs(rt, events, sid, r.streams[sid])
  }

  ghost predicate RebuildGood<S, C, E>(rt: Runtime<S, C, E>, events: seq<Envelope>, r: Rebuild<S>) {
    r.cursor <= |events| && forall sid: StreamId :: StreamGood(rt, events, r, sid)
  }

  ghost predicate EventsGood<S, C, E>(rt: Runtime<S, C, E>, events: seq<Envelope>) {
    Contiguous(events) && Positioned(events) && Homogeneous(rt, events)
  }

  ghost predicate Inv<S, C, E>(rt: Runtime<S, C, E>, s: Sys<S, C>) {
    && EventsGood(rt, s.db.events)
    && CacheGood(rt, s.db)
    && (forall h | h in s.handlers :: HandlerGood(rt, s.db.events, s.handlers[h]))
    && (forall r | r in s.rebuilds :: RebuildGood(rt, s.db.events, s.rebuilds[r]))
  }
}
