/** The store's tables and the Append transaction (es/store.go, es/command.go,
    adapters/storage/sqlite/append.go, adapters/storage/postgres/append.go). */
module Store {
  import opened Basics
  import opened StreamIds

  // ---------------------------------------------------------------- rows

  datatype Actor = Actor(kind: int, principal: string, onBehalfOf: string, apiKeyId: string,
                         attributes: map<string, string>)

  datatype Content = Content(typeUrl: string, schemaVersion: nat, occurredAt: int,
                             correlationId: string, causationId: string, commandId: string,
                             actor: Actor, payload: Bytes, keyRefs: Bytes)

  /** The part of an envelope that the chain hash covers. */
  datatype Hashed = Hashed(eventId: string, sid: StreamId, version: nat, content: Content)

  /** One row of the events table. An empty hash is a NULL column. */
  datatype Envelope = Envelope(hashed: Hashed, position: nat, hash: Bytes, prevHash: Bytes)

  /** published_at is NULL exactly for Pending rows; AbandonDLQ sets it without a delivery. */
  datatype RowStatus = Pending | Published | Abandoned

  datatype OutboxRow = OutboxRow(sid: StreamId, version: nat, position: nat, eventId: string,
                                 attempts: nat, nextAttemptAt: Option<int>, status: RowStatus)

  datatype ClaimKey = ClaimKey(tenant: string, scope: string, value: string)

  datatype CacheRow = CacheRow(typeUrl: string, state: Bytes, version: nat, terminal: bool, schema: nat)

  /** unique_claims maps a claim to the canonical id of its stream. state_cache is keyed by
      (tenant, canonical id), which determines the stream identity (ParseCanonicalRoundTrip). */
  datatype Db = Db(events: seq<Envelope>, outbox: seq<OutboxRow>,
                   claims: map<ClaimKey, string>, cache: map<StreamId, CacheRow>)

  const EMPTY_DB := Db([], [], map[], map[])

  // ---------------------------------------------------------------- chain hash

  /** The message that is marshalled for hashing. The stream travels as tenant and canonical id. */
  datatype Wire = Wire(eventId: string, tenant: string, stream: string, version: nat, content: Content)

  function WireOf(h: Hashed): Wire { Wire(h.eventId, h.sid.tenant, Canonical(h.sid), h.version, h.content) }

  /** SHA-256 and the deterministic marshal of the hashed fields (which can fail). */
  datatype ChainFns = ChainFns(sha: Bytes -> Bytes, marshal: Wire -> Option<Bytes>)

  const HASH_SIZE := 32

  const ZERO_HASH: Bytes := [0, 0, 0, 0, 0, 0, 0, 0, 0, 0, 0, 0, 0, 0, 0, 0,
                            0, 0, 0, 0, 0, 0, 0, 0, 0, 0, 0, 0, 0, 0, 0, 0]

  ghost predicate Sha256Sized(ch: ChainFns) { forall b: Bytes :: |ch.sha(b)| == HASH_SIZE }

  function ComputeChainHash(ch: ChainFns, prev: Bytes, h: Hashed): Option<Bytes> {
    if |prev| != HASH_SIZE then None
    else
      match ch.marshal(WireOf(h))
      case None => None
      case Some(c) => Some(ch.sha(prev + c))
  }

  // ---------------------------------------------------------------- reads

  /** The rows of one stream, in the order they were inserted. */
  function StreamLog(events: seq<Envelope>, sid: StreamId): seq<Envelope> {
    if events == [] then []
    else
      var last := events[|events| - 1];
      StreamLog(events[..|events| - 1], sid) + (if last.hashed.sid == sid then [last] else [])
  }

  function InsertByVersion(s: seq<Envelope>, e: Envelope): seq<Envelope> {
    if s == [] || s[|s| - 1].hashed.version <= e.hashed.version then s + [e]
    else InsertByVersion(s[..|s| - 1], e) + [s[|s| - 1]]
  }

  function SortByVersion(s: seq<Envelope>): seq<Envelope> {
    if s == [] then [] else InsertByVersion(SortByVersion(s[..|s| - 1]), s[|s| - 1])
  }

  function AfterVersion(s: seq<Envelope>, from: nat): seq<Envelope> {
    if s == [] then []
    else (if s[0].hashed.version > from then [s[0]] else []) + AfterVersion(s[1..], from)
  }

  /** Events of a stream with version > from, ordered by version. */
  function ReadStream(events: seq<Envelope>, sid: StreamId, from: nat): seq<Envelope> {
    AfterVersion(SortByVersion(StreamLog(events, sid)), from)
  }

  predicate InScope(e: Envelope, tenant: string) { tenant == "" || e.hashed.sid.tenant == tenant }

  /** Up to limit events with position > from, in position order; "" reads every tenant. */
  function ReadAll(events: seq<Envelope>, tenant: string, from: nat, limit: nat): seq<Envelope> {
    if events == [] || limit == 0 then []
    else if events[0].position > from && InScope(events[0], tenant) then
      [events[0]] + ReadAll(events[1..], tenant, from, limit - 1)
    else ReadAll(events[1..], tenant, from, limit)
  }

  // ---------------------------------------------------------------- append parameters

  datatype OpKind = Claim | Release | UnknownOp(code: int)

  datatype ConstraintOp = ConstraintOp(op: OpKind, scope: string, value: string)

  datatype NewEvent = NewEvent(eventId: string, content: Content)

  datatype NewState = NewState(bytes: Bytes, typeUrl: string, schema: nat, terminal: bool)

  datatype AppendParams = AppendParams(sid: StreamId, expected: nat, events: seq<NewEvent>,
                                       ops: seq<ConstraintOp>, newState: Option<NewState>)

  datatype AppendResult = AppendResult(startVersion: nat, endVersion: nat,
                                       startPosition: nat, endPosition: nat)

  datatype AppendError =
    | BadStreamId(error: IdError)
    | NoEvents
    | ConstraintViolated
    | Conflict
    | UnknownConstraintOp
    | ChainFailed

  datatype AppendReply = Ok(result: AppendResult) | Err(error: AppendError)

  // ---------------------------------------------------------------- the transaction as a function

  datatype ClaimsResult = ClaimsOk(claims: map<ClaimKey, string>) | ClaimsErr(error: AppendError)

  function ApplyOp(claims: map<ClaimKey, string>, sid: StreamId, op: ConstraintOp): ClaimsResult {
    var k := ClaimKey(sid.tenant, op.scope, op.value);
    match op.op
    case Claim => if k in claims then ClaimsErr(ConstraintViolated) else ClaimsOk(claims[k := Canonical(sid)])
    case Release => ClaimsOk(claims - {k})
    case UnknownOp(_) => ClaimsErr(UnknownConstraintOp)
  }

  function ApplyOps(claims: map<ClaimKey, string>, sid: StreamId, ops: seq<ConstraintOp>): ClaimsResult
    decreases |ops|
  {
    if ops == [] then ClaimsOk(claims)
    else
      match ApplyOp(claims, sid, ops[0])
      case ClaimsErr(e) => ClaimsErr(e)
      case ClaimsOk(c) => ApplyOps(c, sid, ops[1..])
  }

  /** UNIQUE (tenant, stream, version) and UNIQUE (tenant, event_id). */
  predicate KeyClash(e: Envelope, h: Hashed) {
    || (e.hashed.sid == h.sid && e.hashed.version == h.version)
    || (e.hashed.sid.tenant == h.sid.tenant && e.hashed.eventId == h.eventId)
  }

  predicate KeyTaken(events: seq<Envelope>, h: Hashed) {
    exists i | 0 <= i < |events| :: KeyClash(events[i], h)
  }

  function HashedAt(p: AppendParams, i: nat): Hashed
    requires i < |p.events|
  {
    Hashed(p.events[i].eventId, p.sid, p.expected + i + 1, p.events[i].content)
  }

  function OutboxRowFor(e: Envelope): OutboxRow {
    OutboxRow(e.hashed.sid, e.hashed.version, e.position, e.hashed.eventId, 0, None, Pending)
  }

  datatype InsertResult = Inserted(events: seq<Envelope>, outbox: seq<OutboxRow>) | InsertErr(error: AppendError)

  /** The insert loop from index i on, with prev the hash to chain the next row to. */
  function InsertEvents(ch: ChainFns, events: seq<Envelope>, outbox: seq<OutboxRow>, p: AppendParams,
                        i: nat, prev: Bytes): InsertResult
    requires i <= |p.events|
    decreases |p.events| - i
  {
    if i == |p.events| then Inserted(events, outbox)
    else
      var h := HashedAt(p, i);
      match ComputeChainHash(ch, prev, h)
      case None => InsertErr(ChainFailed)
      case Some(hash) =>
        if KeyTaken(events, h) then InsertErr(Conflict)
        else
          var e := Envelope(h, |events| + 1, hash, prev);
          InsertEvents(ch, events + [e], outbox + [OutboxRowFor(e)], p, i + 1, hash)
  }

  /** The hash the next append to a stream chains to. */
  function LastStreamHash(events: seq<Envelope>, sid: StreamId): Bytes {
    var log := SortByVersion(StreamLog(events, sid));
    if log == [] || log[|log| - 1].hash == [] then ZERO_HASH else log[|log| - 1].hash
  }

  function WithState(cache: map<StreamId, CacheRow>, p: AppendParams): map<StreamId, CacheRow> {
    match p.newState
    case None => cache
    case Some(ns) =>
      cache[p.sid := CacheRow(ns.typeUrl, ns.bytes, p.expected + |p.events|, ns.terminal,
                              if ns.schema == 0 then 1 else ns.schema)]
  }

  function ResultFor(p: AppendParams, before: nat): AppendResult {
    AppendResult(p.expected + 1, p.expected + |p.events|, before + 1, before + |p.events|)
  }

  /** One Append: the new database and the reply. Every error leaves the database as it was. */
  function AppendTx(ch: ChainFns, db: Db, p: AppendParams): (Db, AppendReply) {
    match Validate(p.sid)
    case Some(e) => (db, Err(BadStreamId(e)))
    case None =>
      if p.events == [] then (db, Err(NoEvents))
      else
        match ApplyOps(db.claims, p.sid, p.ops)
        case ClaimsErr(e) => (db, Err(e))
        case ClaimsOk(claims) =>
          match InsertEvents(ch, db.events, db.outbox, p, 0, LastStreamHash(db.events, p.sid))
          case InsertErr(e) => (db, Err(e))
          case Inserted(events, outbox) =>
            (Db(events, outbox, claims, WithState(db.cache, p)), Ok(ResultFor(p, |db.events|)))
  }

  // ---------------------------------------------------------------- hash backfill

  predicate Backfills(e: Envelope, tenant: string, eventId: string) {
    e.hashed.sid.tenant == tenant && e.hashed.eventId == eventId && e.hash == []
  }

  /** UPDATE events SET hash, prev_hash WHERE tenant and event id match AND hash IS NULL. */
  function BackfillRows(events: seq<Envelope>, tenant: string, eventId: string, hash: Bytes, prev: Bytes): seq<Envelope> {
    seq(|events|, i requires 0 <= i < |events| =>
      if Backfills(events[i], tenant, eventId) then events[i].(hash := hash, prevHash := prev) else events[i])
  }

  // ---------------------------------------------------------------- the store object

  class EventStore {
    const chain: ChainFns
    var events: seq<Envelope>
    var outbox: seq<OutboxRow>
    var claims: map<ClaimKey, string>
    var cache: map<StreamId, CacheRow>

    constructor (chain: ChainFns)
      ensures this.chain == chain && Tables() == EMPTY_DB
    {
      this.chain := chain;
      events, outbox, claims, cache := [], [], map[], map[];
    }

    function Tables(): Db
      reads this
    {
      Db(events, outbox, claims, cache)
    }

    /** The transaction body works on copies of the tables and publishes them at commit. */
    method Append(p: AppendParams) returns (reply: AppendReply)
      modifies this
      ensures (Tables(), reply) == AppendTx(chain, old(Tables()), p)
    {
      hide ComputeChainHash, KeyTaken, LastStreamHash, WithState, Canonical;
      match Validate(p.sid) {
        case Some(e) => return Err(BadStreamId(e));
        case None =>
      }
      if |p.events| == 0 {
        return Err(NoEvents);
      }
      var txClaims := claims;
      var k := 0;
      while k < |p.ops|
        invariant 0 <= k <= |p.ops|
        invariant ApplyOps(claims, p.sid, p.ops) == ApplyOps(txClaims, p.sid, p.ops[k..])
      {
        match ApplyOp(txClaims, p.sid, p.ops[k]) {
          case ClaimsErr(e) => return Err(e);
          case ClaimsOk(c) => txClaims := c;
        }
        assert p.ops[k..][1..] == p.ops[k + 1..];
        k := k + 1;
      }
      var prevHash := LastStreamHash(events, p.sid);
      ghost var prev0 := prevHash;
      var txEvents, txOutbox := events, outbox;
      var startPos, endPos := 0, 0;
      var i := 0;
      while i < |p.events|
        invariant 0 <= i <= |p.events|
        invariant InsertEvents(chain, events, outbox, p, 0, prev0)
               == InsertEvents(chain, txEvents, txOutbox, p, i, prevHash)
        invariant |txEvents| == |events| + i
        invariant i > 0 ==> startPos == |events| + 1 && endPos == |events| + i
      {
        var h := HashedAt(p, i);
        var hash := ComputeChainHash(chain, prevHash, h);
        if hash.None? {
          return Err(ChainFailed);
        }
        if KeyTaken(txEvents, h) {
          return Err(Conflict);
        }
        var e := Envelope(h, |txEvents| + 1, hash.value, prevHash);
        txEvents := txEvents + [e];
        prevHash := hash.value;
        if i == 0 {
          startPos := e.position;
        }
        endPos := e.position;
        txOutbox := txOutbox + [OutboxRowFor(e)];
        i := i + 1;
      }
      var txCache := WithState(cache, p);
      events, outbox, claims, cache := txEvents, txOutbox, txClaims, txCache;
      return Ok(AppendResult(p.expected + 1, p.expected + |p.events|, startPos, endPos));
    }

    /** Fails when no row has the id and an empty hash. */
    method BackfillEventHash(tenant: string, eventId: string, hash: Bytes, prev: Bytes) returns (ok: bool)
      modifies this`events
      ensures ok <==> exists i | 0 <= i < |old(events)| :: Backfills(old(events)[i], tenant, eventId)
      ensures events == BackfillRows(old(events), tenant, eventId, hash, prev)
    {
      ok := exists i | 0 <= i < |events| :: Backfills(events[i], tenant, eventId);
      events := BackfillRows(events, tenant, eventId, hash, prev);
    }
  }
}
