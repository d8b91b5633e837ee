/** Linked projections: one derived event per source event, guarded by a uniqueness claim (linked/projection.go). */
module Linked {
  import opened Basics
  import opened StreamIds
  import opened Store
  import opened StoreLaws
  import opened AppendLaws
  import opened Projection

  /** What a route says of a source event. payload is None when the derived message does not marshal. */
  datatype Route =
    | RouteFails
    | Skip
    | NoDerived
    | To(sid: StreamId, typeUrl: string, schemaVersion: nat, actor: Actor, payload: Option<Bytes>)

  datatype LinkConfig = LinkConfig(name: string, sourceTypes: seq<string>, route: Envelope -> Route, idempotent: bool)

  function Scope(cfg: LinkConfig): string { "linked:" + cfg.name }

  /** An empty filter lets every type through. */
  predicate Passes(cfg: LinkConfig, e: Envelope) {
    cfg.sourceTypes == [] || e.hashed.content.typeUrl in cfg.sourceTypes
  }

  /** What the call draws from outside: the expected version the route read, and new ids. */
  datatype Draw = Draw(expected: nat, eventId: string, commandId: string)

  const SERVICE_ACTOR := 3

  function DerivedActor(cfg: LinkConfig, a: Actor): Actor {
    if a.principal == "" then Actor(SERVICE_ACTOR, "linked-projection:" + cfg.name, "", "", map[]) else a
  }

  function ParamsFor(cfg: LinkConfig, e: Envelope, r: Route, d: Draw): AppendParams
    requires r.To? && r.payload.Some?
  {
    var c := e.hashed.content;
    AppendParams(r.sid, d.expected,
                 [NewEvent(d.eventId,
                           Content(r.typeUrl, if r.schemaVersion == 0 then 1 else r.schemaVersion, c.occurredAt,
                                   c.correlationId, e.hashed.eventId, d.commandId, DerivedActor(cfg, r.actor),
                                   r.payload.value, []))],
                 if cfg.idempotent then [ConstraintOp(Claim, Scope(cfg), e.hashed.eventId)] else [],
                 None)
  }

  /** An event the handler derives something from. */
  predicate Emits(cfg: LinkConfig, e: Envelope) {
    Passes(cfg, e) && cfg.route(e).To? && cfg.route(e).payload.Some?
  }

  /** Nothing to do for this event. */
  predicate Skipped(cfg: LinkConfig, e: Envelope) { !Passes(cfg, e) || cfg.route(e).Skip? }

  /** The handler on the destination store: its tables afterwards, and whether it returned nil. */
  function Emit(cfg: LinkConfig, ch: ChainFns, db: Db, e: Envelope, d: Draw): (Db, bool) {
    if Skipped(cfg, e) then (db, true)
    else if !Emits(cfg, e) then (db, false)
    else
      var (db', reply) := AppendTx(ch, db, ParamsFor(cfg, e, cfg.route(e), d));
      (db', reply.Ok? || (cfg.idempotent && reply.error == ConstraintViolated))
  }

  /** The filter map is built once, by a loop over the configured types. */
  method BuildFilter(types: seq<string>) returns (filter: set<string>)
    ensures forall t :: t in filter <==> t in types
    ensures |filter| > 0 <==> types != []
  {
    filter := {};
    for i := 0 to |types|
      invariant forall t :: t in filter <==> t in types[..i]
    {
      filter := filter + {types[i]};
    }
    assert types[..|types|] == types;
    if types != [] {
      assert types[0] in filter;
    } else {
      assert filter == {};
    }
  }

  method Handler(cfg: LinkConfig, store: EventStore, e: Envelope, d: Draw) returns (ok: bool)
    modifies store
    ensures (store.Tables(), ok) == Emit(cfg, store.chain, old(store.Tables()), e, d)
  {
    var filter := BuildFilter(cfg.sourceTypes);
    if |filter| > 0 && e.hashed.content.typeUrl !in filter {
      return true;
    }
    var route := cfg.route(e);
    if route.Skip? {
      return true;
    }
    if !route.To? || route.payload.None? {
      return false;
    }
    var actor := route.actor;
    if actor.principal == "" {
      actor := Actor(SERVICE_ACTOR, "linked-projection:" + cfg.name, "", "", map[]);
    }
    var schemaVersion := route.schemaVersion;
    if schemaVersion == 0 {
      schemaVersion := 1;
    }
    var source := e.hashed.content;
    var content := Content(route.typeUrl, schemaVersion, source.occurredAt, source.correlationId, e.hashed.eventId,
                           d.commandId, actor, route.payload.value, []);
    var ops: seq<ConstraintOp> := [];
    if cfg.idempotent {
      ops := [ConstraintOp(Claim, Scope(cfg), e.hashed.eventId)];
    }
    var reply := store.Append(AppendParams(route.sid, d.expected, [NewEvent(d.eventId, content)], ops, None));
    ok := reply.Ok? || (cfg.idempotent && reply.error == ConstraintViolated);
  }

  // ---------------------------------------------------------------- runs

  /** A derived event: its source and its position in the destination log. */
  datatype Derived = Derived(source: Envelope, position: nat)

  /** settled holds the ids of emitting sources for which a handler call returned nil. */
  datatype LinkSys = LinkSys(db: Db, derived: seq<Derived>, settled: set<string>)

  /** Any runner handles any source event at any time and as often as it likes; others append. */
  datatype LinkStep = Handle(source: Envelope, draw: Draw) | Other(p: AppendParams)

  function Next(cfg: LinkConfig, ch: ChainFns, s: LinkSys, step: LinkStep): LinkSys {
    match step
    case Handle(e, d) =>
      var (db', ok) := Emit(cfg, ch, s.db, e, d);
      LinkSys(db', if |db'.events| > |s.db.events| then s.derived + [Derived(e, |s.db.events| + 1)] else s.derived,
              if ok && Emits(cfg, e) then s.settled + {e.hashed.eventId} else s.settled)
    case Other(p) => s.(db := AppendTx(ch, s.db, p).0)
  }

  function Reached(cfg: LinkConfig, ch: ChainFns, steps: seq<LinkStep>): LinkSys {
    if steps == [] then LinkSys(EMPTY_DB, [], {})
    else Next(cfg, ch, Reached(cfg, ch, steps[..|steps| - 1]), steps[|steps| - 1])
  }

  /** Source ids are unique among the sources. */
  ghost predicate UniqueIds(sources: iset<Envelope>) {
    forall a, b | a in sources && b in sources && a.hashed.eventId == b.hashed.eventId :: a == b
  }

  predicate NoRelease(cfg: LinkConfig, ops: seq<ConstraintOp>) {
    forall op | op in ops :: !(op.op == Release && op.scope == Scope(cfg))
  }

  predicate NoUse(cfg: LinkConfig, ops: seq<ConstraintOp>) { forall op | op in ops :: op.scope != Scope(cfg) }

  ghost predicate StepOk(cfg: LinkConfig, step: LinkStep, sources: iset<Envelope>) {
    match step
    case Handle(e, _) => e in sources
    case Other(p) => NoRelease(cfg, p.ops)
  }

  ghost predicate StepsOk(cfg: LinkConfig, steps: seq<LinkStep>, sources: iset<Envelope>) {
    forall i | 0 <= i < |steps| :: StepOk(cfg, steps[i], sources)
  }

  predicate OthersStayOut(cfg: LinkConfig, steps: seq<LinkStep>) {
    forall i | 0 <= i < |steps| && steps[i].Other? :: NoUse(cfg, steps[i].p.ops)
  }

  // ---------------------------------------------------------------- the invariant

  function KeyFor(cfg: LinkConfig, e: Envelope): ClaimKey
    requires Emits(cfg, e)
  {
    ClaimKey(cfg.route(e).sid.tenant, Scope(cfg), e.hashed.eventId)
  }

  /** The row the route asked for: its stream, type and payload, caused by the source and in its time and
      correlation, with schema version 1 and the projection's own service actor where the route names none. */
  predicate Derives(cfg: LinkConfig, source: Envelope, row: Hashed)
    requires Emits(cfg, source)
  {
    var r, c := cfg.route(source), row.content;
    && row.sid == r.sid && c.typeUrl == r.typeUrl && Some(c.payload) == r.payload
    && c.causationId == source.hashed.eventId && c.correlationId == source.hashed.content.correlationId
    && c.occurredAt == source.hashed.content.occurredAt
    && c.schemaVersion == (if r.schemaVersion > 0 then r.schemaVersion else 1)
    && (r.actor.principal != "" ==> c.actor == r.actor)
    && (r.actor.principal == "" ==> c.actor == Actor(3, "linked-projection:" + cfg.name, "", "", map[]))
  }

  /** A derived entry stands for a real row derived from its source, and its claim is held. */
  ghost predicate Real(cfg: LinkConfig, db: Db, d: Derived, sources: iset<Envelope>) {
    && d.source in sources && Emits(cfg, d.source) && KeyFor(cfg, d.source) in db.claims && IsValid(cfg.route(d.source).sid)
    && 0 < d.position <= |db.events|
    && Derives(cfg, d.source, db.events[d.position - 1].hashed)
  }

  predicate From(derived: seq<Derived>, id: string) { exists d :: d in derived && d.source.hashed.eventId == id }

  ghost predicate AtMostOne(derived: seq<Derived>) {
    forall i, j | 0 <= i < j < |derived| :: derived[i].source.hashed.eventId != derived[j].source.hashed.eventId
  }

  ghost predicate LinkInv(cfg: LinkConfig, s: LinkSys, sources: iset<Envelope>) {
    AtMostOne(s.derived) && forall d | d in s.derived :: Real(cfg, s.db, d, sources)
  }

  /** Only the projection itself puts claims in its scope. */
  ghost predicate ClaimsOwned(cfg: LinkConfig, s: LinkSys) {
    && (forall k | k in s.db.claims && k.scope == Scope(cfg) :: From(s.derived, k.value))
    && (forall id | id in s.settled :: From(s.derived, id))
  }

  // ---------------------------------------------------------------- claims under other appends

  lemma {:induction false} ScopeKept(cfg: LinkConfig, claims: map<ClaimKey, string>, sid: StreamId, ops: seq<ConstraintOp>, k: ClaimKey)
    requires ApplyOps(claims, sid, ops).ClaimsOk? && k.scope == Scope(cfg)
    ensures NoRelease(cfg, ops) && k in claims ==> k in ApplyOps(claims, sid, ops).claims
    ensures NoUse(cfg, ops) && k in ApplyOps(claims, sid, ops).claims ==> k in claims
    decreases |ops|
  {
    if ops != [] {
      assert ops[0] in ops && forall op | op in ops[1..] :: op in ops;
      ScopeKept(cfg, ApplyOp(claims, sid, ops[0]).claims, sid, ops[1..], k);
    }
  }

  lemma AppendKeepsReal(cfg: LinkConfig, ch: ChainFns, db: Db, p: AppendParams, d: Derived, sources: iset<Envelope>)
    requires Real(cfg, db, d, sources) && NoRelease(cfg, p.ops)
    ensures Real(cfg, AppendTx(ch, db, p).0, d, sources)
  {
    if AppendTx(ch, db, p).1.Ok? {
      var rows := AppendAddsRows(ch, db, p);
      AppendAppliesOps(ch, db, p);
      ScopeKept(cfg, db.claims, p.sid, p.ops, KeyFor(cfg, d.source));
    } else {
      AppendErrorChangesNothing(ch, db, p);
    }
  }

  // ---------------------------------------------------------------- handling

  /** A commit of the handler: the claim was free, is taken now, and one row naming the source was added. */
  lemma EmitCommits(cfg: LinkConfig, ch: ChainFns, db: Db, e: Envelope, d: Draw)
    requires cfg.idempotent && |Emit(cfg, ch, db, e, d).0.events| > |db.events|
    ensures var db' := Emit(cfg, ch, db, e, d).0;
            && Emits(cfg, e) && KeyFor(cfg, e) !in db.claims && Emit(cfg, ch, db, e, d).1
            && db'.claims.Keys == db.claims.Keys + {KeyFor(cfg, e)}
            && |db'.events| == |db.events| + 1 && IsValid(cfg.route(e).sid)
            && Derives(cfg, e, db'.events[|db.events|].hashed)
  {
    var p := ParamsFor(cfg, e, cfg.route(e), d);
    var rows := AppendAddsRows(ch, db, p);
    AppendAppliesOps(ch, db, p);
    assert p.ops[1..] == [];
    assert rows[0].hashed == HashedAt(p, 0);
  }

  /** A call that returned nil without a commit found the claim taken. */
  lemma EmitSwallows(cfg: LinkConfig, ch: ChainFns, db: Db, e: Envelope, d: Draw)
    requires cfg.idempotent && Emits(cfg, e) && Emit(cfg, ch, db, e, d).1
    requires |Emit(cfg, ch, db, e, d).0.events| == |db.events|
    ensures KeyFor(cfg, e) in db.claims && Emit(cfg, ch, db, e, d).0 == db
  {
    var p := ParamsFor(cfg, e, cfg.route(e), d);
    if AppendTx(ch, db, p).1.Ok? {
      var rows := AppendAddsRows(ch, db, p);
      assert false;
    }
    AppendErrorChangesNothing(ch, db, p);
    ViolationMeansTaken(ch, db, p);
  }

  lemma ViolationMeansTaken(ch: ChainFns, db: Db, p: AppendParams)
    requires |p.ops| == 1 && p.ops[0].op == Claim && AppendTx(ch, db, p).1 == Err(ConstraintViolated)
    ensures ClaimKey(p.sid.tenant, p.ops[0].scope, p.ops[0].value) in db.claims
  {
    InsertNeverViolates(ch, db.events, db.outbox, p, 0, LastStreamHash(db.events, p.sid));
    OneClaim(db.claims, p.sid, p.ops[0]);
    assert p.ops == [p.ops[0]];
  }

  lemma OneClaim(claims: map<ClaimKey, string>, sid: StreamId, op: ConstraintOp)
    requires op.op == Claim
    ensures ApplyOps(claims, sid, [op]).ClaimsErr? <==> ClaimKey(sid.tenant, op.scope, op.value) in claims
  {
    assert [op][1..] == [];
  }

  lemma {:induction false} InsertNeverViolates(ch: ChainFns, events: seq<Envelope>, outbox: seq<OutboxRow>, p: AppendParams, i: nat, prev: Bytes)
    requires i <= |p.events|
    ensures InsertEvents(ch, events, outbox, p, i, prev) != InsertErr(ConstraintViolated)
    decreases |p.events| - i
  {
    if i < |p.events| {
      var h := HashedAt(p, i);
      match ComputeChainHash(ch, prev, h)
      case None =>
      case Some(hash) =>
        var e := Envelope(h, |events| + 1, hash, prev);
        InsertNeverViolates(ch, events + [e], outbox + [OutboxRowFor(e)], p, i + 1, hash);
    }
  }

  lemma ParamsNoRelease(cfg: LinkConfig, e: Envelope, d: Draw)
    requires Emits(cfg, e)
    ensures NoRelease(cfg, ParamsFor(cfg, e, cfg.route(e), d).ops)
  {
  }

  lemma HandleKeepsInv(cfg: LinkConfig, ch: ChainFns, s: LinkSys, e: Envelope, d: Draw, sources: iset<Envelope>)
    requires cfg.idempotent && UniqueIds(sources) && e in sources && LinkInv(cfg, s, sources)
    ensures LinkInv(cfg, Next(cfg, ch, s, Handle(e, d)), sources)
  {
    hide AppendTx, ParamsFor;
    var s' := Next(cfg, ch, s, Handle(e, d));
    forall x | x in s.derived ensures Real(cfg, s'.db, x, sources) {
      if Emits(cfg, e) {
        ParamsNoRelease(cfg, e, d);
        AppendKeepsReal(cfg, ch, s.db, ParamsFor(cfg, e, cfg.route(e), d), x, sources);
      }
    }
    if |s'.db.events| > |s.db.events| {
      EmitCommits(cfg, ch, s.db, e, d);
      forall i | 0 <= i < |s.derived| ensures s.derived[i].source.hashed.eventId != e.hashed.eventId {
        assert s.derived[i] in s.derived && Real(cfg, s.db, s.derived[i], sources);
      }
    }
  }

  lemma StepKeepsInv(cfg: LinkConfig, ch: ChainFns, s: LinkSys, step: LinkStep, sources: iset<Envelope>)
    requires cfg.idempotent && UniqueIds(sources) && StepOk(cfg, step, sources) && LinkInv(cfg, s, sources)
    ensures LinkInv(cfg, Next(cfg, ch, s, step), sources)
  {
    match step
    case Handle(e, d) => HandleKeepsInv(cfg, ch, s, e, d, sources);
    case Other(p) =>
      forall d | d in s.derived ensures Real(cfg, AppendTx(ch, s.db, p).0, d, sources) {
        AppendKeepsReal(cfg, ch, s.db, p, d, sources);
      }
  }

  lemma FromSnoc(derived: seq<Derived>, d: Derived, id: string)
    requires From(derived, id) || d.source.hashed.eventId == id
    ensures From(derived + [d], id)
  {
    if d.source.hashed.eventId == id {
      assert d in derived + [d];
    } else {
      var x :| x in derived && x.source.hashed.eventId == id;
      assert x in derived + [d];
    }
  }

  lemma HandleKeepsOwned(cfg: LinkConfig, ch: ChainFns, s: LinkSys, e: Envelope, d: Draw)
    requires cfg.idempotent && ClaimsOwned(cfg, s)
    ensures ClaimsOwned(cfg, Next(cfg, ch, s, Handle(e, d)))
  {
    var s' := Next(cfg, ch, s, Handle(e, d));
    if |s'.db.events| > |s.db.events| {
      EmitCommits(cfg, ch, s.db, e, d);
      var x := Derived(e, |s.db.events| + 1);
      forall id | From(s.derived, id) || id == e.hashed.eventId ensures From(s'.derived, id) {
        FromSnoc(s.derived, x, id);
      }
    } else {
      NoCommitNoChange(cfg, ch, s.db, e, d);
      if Emits(cfg, e) && Emit(cfg, ch, s.db, e, d).1 {
        EmitSwallows(cfg, ch, s.db, e, d);
        assert From(s.derived, e.hashed.eventId);
      }
    }
  }

  lemma NoCommitNoChange(cfg: LinkConfig, ch: ChainFns, db: Db, e: Envelope, d: Draw)
    requires |Emit(cfg, ch, db, e, d).0.events| <= |db.events|
    ensures Emit(cfg, ch, db, e, d).0 == db
  {
    if Emits(cfg, e) {
      var p := ParamsFor(cfg, e, cfg.route(e), d);
      if AppendTx(ch, db, p).1.Ok? {
        var rows := AppendAddsRows(ch, db, p);
        assert false;
      }
      AppendErrorChangesNothing(ch, db, p);
    }
  }

  lemma OtherKeepsOwned(cfg: LinkConfig, ch: ChainFns, s: LinkSys, p: AppendParams)
    requires ClaimsOwned(cfg, s) && NoUse(cfg, p.ops)
    ensures ClaimsOwned(cfg, Next(cfg, ch, s, Other(p)))
  {
    if AppendTx(ch, s.db, p).1.Ok? {
      AppendAppliesOps(ch, s.db, p);
      forall k | k in AppendTx(ch, s.db, p).0.claims && k.scope == Scope(cfg) ensures From(s.derived, k.value) {
        ScopeKept(cfg, s.db.claims, p.sid, p.ops, k);
      }
    } else {
      AppendErrorChangesNothing(ch, s.db, p);
    }
  }

  /** A source that is derived already may be delivered again, whatever the call draws: the handler returns nil and
      changes nothing. */
  lemma RedeliveryIsNil(cfg: LinkConfig, ch: ChainFns, s: LinkSys, x: Derived, d: Draw, sources: iset<Envelope>)
    requires cfg.idempotent && LinkInv(cfg, s, sources) && x in s.derived
    ensures Emit(cfg, ch, s.db, x.source, d) == (s.db, true)
  {
    hide InsertEvents;
    assert Real(cfg, s.db, x, sources);
    var p := ParamsFor(cfg, x.source, cfg.route(x.source), d);
    OneClaim(s.db.claims, p.sid, p.ops[0]);
    assert p.ops == [p.ops[0]];
  }

  /** The claim that marks the source as derived is held. */
  predicate Claimed(cfg: LinkConfig, db: Db, e: Envelope) {
    cfg.route(e).To? && ClaimKey(cfg.route(e).sid.tenant, "linked:" + cfg.name, e.hashed.eventId) in db.claims
  }

  /** What a handler call answers, from the source, the route and the destination's tables: nil without a change for
      other types, skipped sources and, when idempotent, claimed ones; an error without a change when the route gives
      nothing to append; else nil exactly when the derived row can be added, and then it is. */
  lemma EmitAnswers(cfg: LinkConfig, ch: ChainFns, db: Db, e: Envelope, d: Draw)
    requires Sha256Sized(ch)
    ensures var r, (db', ok) := cfg.route(e), Emit(cfg, ch, db, e, d);
            if (cfg.sourceTypes != [] && e.hashed.content.typeUrl !in cfg.sourceTypes) || r.Skip? then ok && db' == db
            else if !r.To? || r.payload.None? || !IsValid(r.sid) then !ok && db' == db
            else if cfg.idempotent && Claimed(cfg, db, e) then ok && db' == db
            else
              && (ok <==> HeadHashSized(db, r.sid) && RowsGo(ch, db.events, ParamsFor(cfg, e, r, d), 0))
              && (ok ==> |db'.events| == |db.events| + 1) && (!ok ==> db' == db)
  {
    hide RowsGo, Sha256Sized, InsertEvents, LastStreamHash;
    if Emits(cfg, e) && Passes(cfg, e) {
      var p := ParamsFor(cfg, e, cfg.route(e), d);
      AppendCommitsIff(ch, db, p);
      if p.ops != [] {
        OneClaim(db.claims, p.sid, p.ops[0]);
        assert p.ops == [p.ops[0]];
        assert OpGoes(db.claims, p.sid, p.ops, 0) <==> !Claimed(cfg, db, e);
      }
      if AppendTx(ch, db, p).1.Ok? {
        var rows := AppendAddsRows(ch, db, p);
      } else {
        AppendErrorChangesNothing(ch, db, p);
        if cfg.idempotent && IsValid(cfg.route(e).sid) {
          NotViolated(cfg, ch, db, e, d);
        }
      }
    }
  }

  lemma NotViolated(cfg: LinkConfig, ch: ChainFns, db: Db, e: Envelope, d: Draw)
    requires cfg.idempotent && Emits(cfg, e) && IsValid(cfg.route(e).sid)
    ensures AppendTx(ch, db, ParamsFor(cfg, e, cfg.route(e), d)).1 == Err(ConstraintViolated) <==> Claimed(cfg, db, e)
  {
    hide InsertEvents, LastStreamHash;
    var p := ParamsFor(cfg, e, cfg.route(e), d);
    InsertNeverViolates(ch, db.events, db.outbox, p, 0, LastStreamHash(db.events, p.sid));
    OneClaim(db.claims, p.sid, p.ops[0]);
    assert p.ops == [p.ops[0]];
  }

  // ---------------------------------------------------------------- the main results

  /** At most one derived event per source event, over every sequence of handler calls by any runners in any
      order, repeated at will, between appends that do not release the scope. */
  lemma {:induction false} LinkedAtMostOnce(cfg: LinkConfig, ch: ChainFns, steps: seq<LinkStep>, sources: iset<Envelope>)
    requires cfg.idempotent && UniqueIds(sources) && StepsOk(cfg, steps, sources)
    ensures LinkInv(cfg, Reached(cfg, ch, steps), sources)
    decreases |steps|
  {
    if steps != [] {
      var n := |steps| - 1;
      assert forall i | 0 <= i < n :: steps[..n][i] == steps[i];
      LinkedAtMostOnce(cfg, ch, steps[..n], sources);
      assert StepOk(cfg, steps[n], sources);
      StepKeepsInv(cfg, ch, Reached(cfg, ch, steps[..n]), steps[n], sources);
    }
  }

  /** Exactly one once a call for it returned nil, when nobody else claims in the scope either. */
  lemma {:induction false} LinkedSettledHasOne(cfg: LinkConfig, ch: ChainFns, steps: seq<LinkStep>)
    requires cfg.idempotent && OthersStayOut(cfg, steps)
    ensures ClaimsOwned(cfg, Reached(cfg, ch, steps))
    decreases |steps|
  {
    if steps != [] {
      var n := |steps| - 1;
      assert forall i | 0 <= i < n :: steps[..n][i] == steps[i];
      LinkedSettledHasOne(cfg, ch, steps[..n]);
      match steps[n]
      case Handle(e, d) => HandleKeepsOwned(cfg, ch, Reached(cfg, ch, steps[..n]), e, d);
      case Other(p) => OtherKeepsOwned(cfg, ch, Reached(cfg, ch, steps[..n]), p);
    }
  }

  ghost predicate ExactlyOne(derived: seq<Derived>, id: string) {
    From(derived, id) && forall i, j | 0 <= i < |derived| && 0 <= j < |derived|
      && derived[i].source.hashed.eventId == id && derived[j].source.hashed.eventId == id :: i == j
  }

  /** Hosted by a fail-stop projector: every wanted emitting event at or below its saved cursor has exactly one
      derived event, when each handled event of its history had its handler return nil. */
  lemma CoveredSourcesHaveOne(cfg: LinkConfig, ch: ChainFns, steps: seq<LinkStep>, sources: iset<Envelope>,
                              pcfg: ProjConfig, psteps: seq<ProjStep>, e: Envelope)
    requires cfg.idempotent && UniqueIds(sources) && StepsOk(cfg, steps, sources) && OthersStayOut(cfg, steps)
    requires !pcfg.dlqOnFailure
    requires var ps := Projection.Reached(pcfg, psteps);
             && (forall x | x in ps.log && Emits(cfg, x) && Did(x.position, false) in ps.history ::
                   x.hashed.eventId in Reached(cfg, ch, steps).settled)
             && e in ps.log && Wanted(pcfg, e) && e.position <= ps.cursor && Emits(cfg, e)
    ensures ExactlyOne(Reached(cfg, ch, steps).derived, e.hashed.eventId)
  {
    LinkedAtMostOnce(cfg, ch, steps, sources);
    LinkedSettledHasOne(cfg, ch, steps);
    ReachedIsCovered(pcfg, psteps);
    var ps := Projection.Reached(pcfg, psteps);
    assert Seen(ps.history, e.position);
    var d :| d in ps.history && d.position == e.position;
    assert d == Did(e.position, false);
  }
}
