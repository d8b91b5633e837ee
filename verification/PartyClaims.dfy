/** Cross-stream uniqueness: in every interleaving the email claims are the emails of the live parties. */
module PartyClaims {
  import opened Basics
  import opened StreamIds
  import opened Store
  import opened StoreLaws
  import opened Aggregate
  import opened Interleaving
  import opened InterleavingProofs
  import opened Serializability
  import P = Party

  type PartyRuntime = Runtime<P.PartyState, P.Command, P.Event>
  type PartySys = Sys<P.PartyState, P.Command>
  type PartyStep = Step<P.Command>

  /** Any runtime that hosts the party decider, whatever its codecs. */
  ghost predicate HostsParty(rt: PartyRuntime) {
    && rt.initial == P.INITIAL
    && (forall s: P.PartyState, c: P.Command :: rt.decide(s, c) == P.Decide(s, c))
    && (forall s: P.PartyState, e: P.Event :: rt.evolve(s, e) == P.Evolve(s, e))
  }

  // ---------------------------------------------------------------- the claim table and the folded states

  function StateOf(rt: PartyRuntime, events: seq<Envelope>, sid: StreamId): Option<P.PartyState> {
    Replay(rt, rt.initial, StreamLog(events, sid))
  }

  predicate LiveAt(rt: PartyRuntime, events: seq<Envelope>, sid: StreamId) {
    StateOf(rt, events, sid).Some? && P.Live(StateOf(rt, events, sid).value)
  }

  function EmailKey(sid: StreamId, email: string): ClaimKey { ClaimKey(sid.tenant, P.EMAIL_SCOPE, email) }

  /** The claim that a live party must hold. */
  function OwnKey(rt: PartyRuntime, events: seq<Envelope>, sid: StreamId): ClaimKey
    requires LiveAt(rt, events, sid)
  {
    EmailKey(sid, StateOf(rt, events, sid).value.email)
  }

  ghost predicate Owns(rt: PartyRuntime, db: Db, sid: StreamId, k: ClaimKey) {
    LiveAt(rt, db.events, sid) && OwnKey(rt, db.events, sid) == k && k in db.claims && db.claims[k] == Canonical(sid)
  }

  /** The party.email claims are exactly the map from email to stream over the live parties. */
  ghost predicate ClaimsExact(rt: PartyRuntime, db: Db) {
    && (forall sid: StreamId | LiveAt(rt, db.events, sid) :: Owns(rt, db, sid, OwnKey(rt, db.events, sid)))
    && (forall k | k in db.claims && k.scope == P.EMAIL_SCOPE :: exists sid: StreamId :: Owns(rt, db, sid, k))
  }

  ghost predicate ValidStreams(events: seq<Envelope>) {
    forall i | 0 <= i < |events| :: IsValid(events[i].hashed.sid)
  }

  /** Where the claims are exact no two live parties of a tenant share an email. */
  lemma NoSharedEmail(rt: PartyRuntime, db: Db, a: StreamId, b: StreamId)
    requires HostsParty(rt) && ClaimsExact(rt, db) && ValidStreams(db.events)
    requires LiveAt(rt, db.events, a) && LiveAt(rt, db.events, b) && a.tenant == b.tenant
    requires StateOf(rt, db.events, a).value.email == StateOf(rt, db.events, b).value.email
    ensures a == b
  {
    LiveIsValid(rt, db.events, a);
    LiveIsValid(rt, db.events, b);
    assert Owns(rt, db, a, OwnKey(rt, db.events, a)) && Owns(rt, db, b, OwnKey(rt, db.events, b));
    ParseCanonicalRoundTrip(a.tenant, Canonical(a), a);
    ParseCanonicalRoundTrip(b.tenant, Canonical(b), b);
  }

  lemma LiveIsValid(rt: PartyRuntime, events: seq<Envelope>, sid: StreamId)
    requires HostsParty(rt) && ValidStreams(events) && LiveAt(rt, events, sid)
    ensures IsValid(sid)
  {
    assert StreamLog(events, sid) != [];
    var i := StreamLogMember(events, sid, 0);
  }

  // ---------------------------------------------------------------- claims after one append

  /** Operations of another scope leave the email claims alone. */
  lemma {:induction false} ForeignOps(claims: map<ClaimKey, string>, sid: StreamId, ops: seq<ConstraintOp>)
    requires forall i | 0 <= i < |ops| :: ops[i].scope != P.EMAIL_SCOPE
    requires ApplyOps(claims, sid, ops).ClaimsOk?
    ensures var c' := ApplyOps(claims, sid, ops).claims;
            forall k: ClaimKey | k.scope == P.EMAIL_SCOPE :: (k in claims <==> k in c') && (k in claims ==> claims[k] == c'[k])
    decreases |ops|
  {
    if ops != [] {
      ForeignOps(ApplyOp(claims, sid, ops[0]).claims, sid, ops[1..]);
    }
  }

  lemma OpsOfTwo(claims: map<ClaimKey, string>, sid: StreamId, a: ConstraintOp, b: ConstraintOp)
    requires ApplyOps(claims, sid, [a, b]).ClaimsOk?
    ensures ApplyOp(claims, sid, a).ClaimsOk? && ApplyOp(ApplyOp(claims, sid, a).claims, sid, b).ClaimsOk?
    ensures ApplyOps(claims, sid, [a, b]).claims == ApplyOp(ApplyOp(claims, sid, a).claims, sid, b).claims
  {
    assert [a, b][1..] == [b];
    OpsOfOne(ApplyOp(claims, sid, a).claims, sid, b);
  }

  lemma OpsOfOne(claims: map<ClaimKey, string>, sid: StreamId, a: ConstraintOp)
    requires ApplyOps(claims, sid, [a]).ClaimsOk?
    ensures ApplyOp(claims, sid, a).ClaimsOk? && ApplyOps(claims, sid, [a]).claims == ApplyOp(claims, sid, a).claims
  {
    assert [a][1..] == [];
  }

  /** The claim table after the operations of an email move. */
  ghost function MovedClaims(claims: map<ClaimKey, string>, sid: StreamId, move: P.EmailMove, s: P.PartyState,
                             s': P.PartyState): map<ClaimKey, string> {
    match move
    case Keeps => claims
    case Takes => claims[EmailKey(sid, s'.email) := Canonical(sid)]
    case Swaps => (claims - {EmailKey(sid, s.email)})[EmailKey(sid, s'.email) := Canonical(sid)]
    case Frees => claims - {EmailKey(sid, s.email)}
  }

  lemma MoveApplies(claims: map<ClaimKey, string>, sid: StreamId, move: P.EmailMove, s: P.PartyState, s': P.PartyState)
    requires ApplyOps(claims, sid, P.EmailOps(move, s, s')).ClaimsOk?
    ensures ApplyOps(claims, sid, P.EmailOps(move, s, s')).claims == MovedClaims(claims, sid, move, s, s')
    ensures move.Takes? ==> EmailKey(sid, s'.email) !in claims
    ensures move.Swaps? ==> EmailKey(sid, s'.email) !in claims || s'.email == s.email
  {
    match move
    case Keeps =>
    case Takes => OpsOfOne(claims, sid, ConstraintOp(Claim, P.EMAIL_SCOPE, s'.email));
    case Frees => OpsOfOne(claims, sid, ConstraintOp(Release, P.EMAIL_SCOPE, s.email));
    case Swaps => OpsOfTwo(claims, sid, ConstraintOp(Release, P.EMAIL_SCOPE, s.email), ConstraintOp(Claim, P.EMAIL_SCOPE, s'.email));
  }

  /** The stream's state moved from s to s', every other stream's state stayed. */
  ghost predicate OneStreamMoved(rt: PartyRuntime, db: Db, db': Db, sid: StreamId, s: P.PartyState, s': P.PartyState) {
    && StateOf(rt, db.events, sid) == Some(s)
    && StateOf(rt, db'.events, sid) == Some(s')
    && forall other: StreamId | other != sid :: StateOf(rt, db'.events, other) == StateOf(rt, db.events, other)
  }

  /** Exactness survives an email move. The release never frees another party's claim: by exactness the
      claim on the old email is the stream's own. */
  lemma MoveKeepsExact(rt: PartyRuntime, db: Db, db': Db, sid: StreamId, move: P.EmailMove, s: P.PartyState, s': P.PartyState)
    requires ClaimsExact(rt, db) && OneStreamMoved(rt, db, db', sid, s, s')
    requires P.MoveFits(move, s, s')
    requires db'.claims == MovedClaims(db.claims, sid, move, s, s')
    requires move.Takes? ==> EmailKey(sid, s'.email) !in db.claims
    requires move.Swaps? ==> EmailKey(sid, s'.email) !in db.claims || s'.email == s.email
    requires IsValid(sid) && forall other: StreamId | LiveAt(rt, db.events, other) :: IsValid(other)
    ensures ClaimsExact(rt, db')
  {
    forall x: StreamId | LiveAt(rt, db'.events, x) ensures Owns(rt, db', x, OwnKey(rt, db'.events, x)) {
      if x != sid {
        assert Owns(rt, db, x, OwnKey(rt, db.events, x));
        if P.Live(s) {
          assert Owns(rt, db, sid, EmailKey(sid, s.email));
          KeysApart(rt, db, x, sid);
        }
      } else if P.Live(s) {
        assert Owns(rt, db, sid, EmailKey(sid, s.email));
      }
    }
    forall k | k in db'.claims && k.scope == P.EMAIL_SCOPE ensures exists x: StreamId :: Owns(rt, db', x, k) {
      if P.Live(s') && k == EmailKey(sid, s'.email) {
        assert Owns(rt, db', sid, k);
      } else {
        assert k in db.claims;
        var x: StreamId :| Owns(rt, db, x, k);
        assert x != sid;
        assert Owns(rt, db', x, k);
      }
    }
  }

  lemma KeysApart(rt: PartyRuntime, db: Db, a: StreamId, b: StreamId)
    requires a != b && IsValid(a) && IsValid(b)
    requires LiveAt(rt, db.events, a) && LiveAt(rt, db.events, b)
    requires Owns(rt, db, a, OwnKey(rt, db.events, a)) && Owns(rt, db, b, OwnKey(rt, db.events, b))
    ensures OwnKey(rt, db.events, a) != OwnKey(rt, db.events, b)
  {
    ParseCanonicalRoundTrip(a.tenant, Canonical(a), a);
    ParseCanonicalRoundTrip(b.tenant, Canonical(b), b);
  }

  // ---------------------------------------------------------------- one committed command

  ghost predicate PartyInv(rt: PartyRuntime, s: PartySys) {
    && Inv(rt, s) && ValidStreams(s.db.events) && ClaimsExact(rt, s.db)
    && forall h | h in s.handlers :: NamedActor(s.handlers[h])
  }

  /** Register commands carry an actor id. */
  predicate NamedRegister(c: P.Command) { c.Register? ==> c.actorId != "" }

  predicate NamedActor(h: Handler<P.PartyState, P.Command>) {
    match h
    case Started(_, c, _) => NamedRegister(c)
    case Based(_, c, _, _) => NamedRegister(c)
    case Ready(_, c, _, _) => NamedRegister(c)
    case Finished(_) => true
  }

  lemma AppendKeepsValidStreams(ch: ChainFns, db: Db, p: AppendParams)
    requires ValidStreams(db.events)
    ensures ValidStreams(AppendTx(ch, db, p).0.events)
  {
    if AppendTx(ch, db, p).1.Ok? {
      var rows := AppendAddsRows(ch, db, p);
    }
  }

  /** What a committed party command did to the tables: its stream's state made one step, the claims
      went through its operations, every other stream's state stayed. */
  lemma CommittedCommand(rt: PartyRuntime, ch: ChainFns, db: Db, sid: StreamId, cmd: P.Command, meta: Meta, l: Loaded<P.PartyState>)
    requires HostsParty(rt) && Lawful(rt) && EventsGood(rt, db.events) && CacheGood(rt, db) && FoldIs(rt, db.events, sid, l)
    requires ValidStreams(db.events)
    requires HandleFrom(rt, ch, db, sid, cmd, meta, l).1.Committed?
    ensures P.Decide(l.state, cmd).Accept? && |P.Decide(l.state, cmd).events| == 1
    ensures var db' := HandleFrom(rt, ch, db, sid, cmd, meta, l).0;
            var d := P.Decide(l.state, cmd);
            && OneStreamMoved(rt, db, db', sid, l.state, P.Evolve(l.state, d.events[0]))
            && ApplyOps(db.claims, sid, d.ops) == ClaimsOk(db'.claims)
            && IsValid(sid) && ValidStreams(db'.events)
  {
    var p, batch := CommittedPlan(rt, ch, db, sid, cmd, meta, l);
    assert rt.decide(l.state, cmd) == P.Decide(l.state, cmd);
    P.OneEventEach(l.state, cmd);
    AppendAppliesOps(ch, db, p);
    AppendKeepsValidStreams(ch, db, p);
    CommittedState(rt, ch, db, sid, cmd, meta, l);
    forall other: StreamId | other != sid ensures StateOf(rt, AppendTx(ch, db, p).0.events, other) == StateOf(rt, db.events, other) {
      AppendGrowsOneStream(ch, db, p, other);
    }
  }

  lemma CommittedState(rt: PartyRuntime, ch: ChainFns, db: Db, sid: StreamId, cmd: P.Command, meta: Meta, l: Loaded<P.PartyState>)
    requires HostsParty(rt) && Lawful(rt) && EventsGood(rt, db.events) && CacheGood(rt, db) && FoldIs(rt, db.events, sid, l)
    requires HandleFrom(rt, ch, db, sid, cmd, meta, l).1.Committed?
    requires P.Decide(l.state, cmd).Accept? && |P.Decide(l.state, cmd).events| == 1
    ensures StateOf(rt, db.events, sid) == Some(l.state)
    ensures StateOf(rt, HandleFrom(rt, ch, db, sid, cmd, meta, l).0.events, sid)
         == Some(P.Evolve(l.state, P.Decide(l.state, cmd).events[0]))
  {
    var batch := CommitFacts(rt, ch, db, sid, cmd, meta, l);
    assert rt.decide(l.state, cmd) == P.Decide(l.state, cmd);
    var log, log' := StreamLog(db.events, sid), StreamLog(HandleFrom(rt, ch, db, sid, cmd, meta, l).0.events, sid);
    assert log[..|log|] == log && log'[..|log'|] == log';
    assert batch[1..] == [];
    assert FoldEvents(rt, l.state, batch) == rt.evolve(l.state, batch[0]);
  }

  /** A committed command keeps the claims exact. */
  lemma CommitKeepsExact(rt: PartyRuntime, ch: ChainFns, s: PartySys, h: nat)
    requires HostsParty(rt) && Lawful(rt) && PartyInv(rt, s)
    requires h in s.handlers && s.handlers[h].Ready?
    requires var r := s.handlers[h]; HandleFrom(rt, ch, s.db, r.sid, r.cmd, r.meta, r.loaded).1.Committed?
    ensures ClaimsExact(rt, SubmitStep(rt, ch, s, h).db) && ValidStreams(SubmitStep(rt, ch, s, h).db.events)
  {
    var r := s.handlers[h];
    assert HandlerGood(rt, s.db.events, r) && NamedActor(r);
    CommittedCommand(rt, ch, s.db, r.sid, r.cmd, r.meta, r.loaded);
    var st := r.loaded.state;
    var st' := P.Evolve(st, P.Decide(st, r.cmd).events[0]);
    var move := P.DecisionMovesEmail(st, r.cmd);
    MoveApplies(s.db.claims, r.sid, move, st, st');
    forall other: StreamId | LiveAt(rt, s.db.events, other) ensures IsValid(other) {
      LiveIsValid(rt, s.db.events, other);
    }
    MoveKeepsExact(rt, s.db, SubmitStep(rt, ch, s, h).db, r.sid, move, st, st');
  }

  /** An append by another aggregate, under other scopes, keeps the claims exact. */
  lemma ForeignAppendKeepsExact(rt: PartyRuntime, ch: ChainFns, db: Db, p: AppendParams)
    requires HostsParty(rt) && ValidStreams(db.events) && ClaimsExact(rt, db)
    requires ForeignAppend(rt, p) && NoneDecode(rt, StreamLog(db.events, p.sid))
    ensures ClaimsExact(rt, AppendTx(ch, db, p).0) && ValidStreams(AppendTx(ch, db, p).0.events)
  {
    AppendKeepsValidStreams(ch, db, p);
    if AppendTx(ch, db, p).1.Ok? {
      var db' := AppendTx(ch, db, p).0;
      ForeignOps(db.claims, p.sid, p.ops);
      forall sid: StreamId ensures LiveAt(rt, db'.events, sid) <==> LiveAt(rt, db.events, sid)
                           ensures LiveAt(rt, db.events, sid) ==> StateOf(rt, db'.events, sid) == StateOf(rt, db.events, sid)
      {
        if sid == p.sid {
          var rows := AppendLog(ch, db, p);
          var log := StreamLog(db.events, sid);
          assert rows[0].hashed.content == p.events[0].content;
          assert (log + rows)[|log|] == rows[0];
          assert !AllDecode(rt, log + rows);
          ReplayIffDecodes(rt, rt.initial, log + rows);
          ReplayIffDecodes(rt, rt.initial, log);
          assert log != [] ==> !Decodable(rt, log[0].hashed.content);
        } else {
          AppendGrowsOneStream(ch, db, p, sid);
        }
      }
      forall k | k in db'.claims && k.scope == P.EMAIL_SCOPE ensures exists x: StreamId :: Owns(rt, db', x, k) {
        var x: StreamId :| Owns(rt, db, x, k);
        assert Owns(rt, db', x, k);
      }
      forall sid: StreamId | LiveAt(rt, db'.events, sid) ensures Owns(rt, db', sid, OwnKey(rt, db'.events, sid)) {
        assert Owns(rt, db, sid, OwnKey(rt, db.events, sid));
      }
    }
  }

  // ---------------------------------------------------------------- every run

  /** Events the party codec does not know, and no operation on the email scope. */
  predicate ForeignAppend(rt: PartyRuntime, p: AppendParams) {
    && (forall i | 0 <= i < |p.events| :: !Decodable(rt, p.events[i].content))
    && (forall i | 0 <= i < |p.ops| :: p.ops[i].scope != P.EMAIL_SCOPE)
  }

  /** Only the party aggregate uses its scope and its streams, and Register carries an actor id. */
  predicate PartyStepOk(rt: PartyRuntime, step: PartyStep) {
    match step
    case Begin(_, _, c, _) => NamedRegister(c)
    case PlainAppend(p) => ForeignAppend(rt, p)
    case _ => true
  }

  lemma StepKeepsPartyInv(rt: PartyRuntime, ch: ChainFns, s: PartySys, step: PartyStep)
    requires HostsParty(rt) && Lawful(rt) && PartyInv(rt, s) && PartyStepOk(rt, step)
    ensures PartyInv(rt, Next(rt, ch, s, step))
  {
    hide ClaimsExact, ValidStreams, Inv, HandleFrom, AppendTx, Lawful, HostsParty, NamedActor, RebuildPage;
    StepKeepsInv(rt, ch, s, step);
    var s' := Next(rt, ch, s, step);
    if step.Submit? && step.h in s.handlers && s.handlers[step.h].Ready? {
      var r := s.handlers[step.h];
      if HandleFrom(rt, ch, s.db, r.sid, r.cmd, r.meta, r.loaded).1.Committed? {
        CommitKeepsExact(rt, ch, s, step.h);
      } else {
        UncommittedChangesNothing(rt, ch, s.db, r.sid, r.cmd, r.meta, r.loaded);
      }
    } else if step.PlainAppend? {
      PlainStep(rt, ch, s, step.params);
    } else {
      assert Core(s'.db) == Core(s.db) by { OtherStepsKeepCore(rt, ch, s, step); }
      SameCoreExact(rt, s.db, s'.db);
    }
    NamedActorsKept(rt, ch, s, step);
  }

  lemma NamedActorsKept(rt: PartyRuntime, ch: ChainFns, s: PartySys, step: PartyStep)
    requires (forall h | h in s.handlers :: NamedActor(s.handlers[h])) && PartyStepOk(rt, step)
    ensures var s' := Next(rt, ch, s, step); forall h | h in s'.handlers :: NamedActor(s'.handlers[h])
  {
    hide HandleFrom, AppendTx, RebuildPage, ReadAll;
    var s' := Next(rt, ch, s, step);
    forall h | h in s'.handlers ensures NamedActor(s'.handlers[h]) {
      if h in s.handlers {
        assert NamedActor(s.handlers[h]);
      }
    }
  }

  lemma PlainStep(rt: PartyRuntime, ch: ChainFns, s: PartySys, p: AppendParams)
    requires HostsParty(rt) && PartyInv(rt, s) && ForeignAppend(rt, p)
    ensures var db' := Next(rt, ch, s, PlainAppend(p)).db; ClaimsExact(rt, db') && ValidStreams(db'.events)
  {
    if PlainAppendOk(rt, s.db, p) && p.events != [] {
      assert !Decodable(rt, p.events[0].content);
      ForeignAppendKeepsExact(rt, ch, s.db, p);
    }
  }

  lemma SameCoreExact(rt: PartyRuntime, db: Db, db': Db)
    requires Core(db) == Core(db') && ClaimsExact(rt, db)
    ensures ClaimsExact(rt, db')
  {
    assert db.events == Core(db).events && db.claims == Core(db).claims;
    assert db'.events == Core(db').events && db'.claims == Core(db').claims;
    forall k | k in db'.claims && k.scope == P.EMAIL_SCOPE ensures exists x: StreamId :: Owns(rt, db', x, k) {
      var x: StreamId :| Owns(rt, db, x, k);
      assert Owns(rt, db', x, k);
    }
    forall sid: StreamId | LiveAt(rt, db'.events, sid) ensures Owns(rt, db', sid, OwnKey(rt, db'.events, sid)) {
      assert Owns(rt, db, sid, OwnKey(rt, db.events, sid));
    }
  }

  lemma {:induction false} RunKeepsPartyInv(rt: PartyRuntime, ch: ChainFns, steps: seq<PartyStep>)
    requires HostsParty(rt) && Lawful(rt)
    requires forall i | 0 <= i < |steps| :: PartyStepOk(rt, steps[i])
    ensures PartyInv(rt, Run(rt, ch, steps))
  {
    RunKeepsInv(rt, ch, steps);
    if steps == [] {
      assert forall sid: StreamId :: StreamLog([], sid) == [];
      assert forall sid: StreamId :: StateOf(rt, [], sid) == Some(P.INITIAL);
    } else {
      RunKeepsPartyInv(rt, ch, steps[..|steps| - 1]);
      StepKeepsPartyInv(rt, ch, Run(rt, ch, steps[..|steps| - 1]), steps[|steps| - 1]);
    }
  }

  /** Cross-stream uniqueness. In every interleaving of party commands with reads, rollbacks, cache wipes,
      rebuilds and other aggregates' appends, the party.email claims of each tenant are exactly the map
      from email to stream over its live parties, so no two of them share an email. */
  lemma EmailsAreUnique(rt: PartyRuntime, ch: ChainFns, steps: seq<PartyStep>)
    requires HostsParty(rt) && Lawful(rt)
    requires forall i | 0 <= i < |steps| :: PartyStepOk(rt, steps[i])
    ensures var db := Run(rt, ch, steps).db;
            && ClaimsExact(rt, db)
            && forall a: StreamId, b: StreamId |
                 && LiveAt(rt, db.events, a) && LiveAt(rt, db.events, b) && a.tenant == b.tenant
                 && StateOf(rt, db.events, a).value.email == StateOf(rt, db.events, b).value.email :: a == b
  {
    RunKeepsPartyInv(rt, ch, steps);
    var db := Run(rt, ch, steps).db;
    forall a: StreamId, b: StreamId |
      && LiveAt(rt, db.events, a) && LiveAt(rt, db.events, b) && a.tenant == b.tenant
      && StateOf(rt, db.events, a).value.email == StateOf(rt, db.events, b).value.email
      ensures a == b
    {
      NoSharedEmail(rt, db, a, b);
    }
  }

  // ---------------------------------------------------------------- the actor id matters

  /** Evolve takes the actor id for the party id. So a Register that commits where the claims were exact
      keeps them exact if and only if it carried an actor id: without one the email is claimed by a
      stream that still counts as unregistered. */
  lemma RegisterNeedsActor(rt: PartyRuntime, ch: ChainFns, db: Db, sid: StreamId, cmd: P.Command, meta: Meta, l: Loaded<P.PartyState>)
    requires HostsParty(rt) && Lawful(rt) && EventsGood(rt, db.events) && CacheGood(rt, db) && FoldIs(rt, db.events, sid, l)
    requires ValidStreams(db.events) && ClaimsExact(rt, db) && cmd.Register?
    requires HandleFrom(rt, ch, db, sid, cmd, meta, l).1.Committed?
    ensures ClaimsExact(rt, HandleFrom(rt, ch, db, sid, cmd, meta, l).0) <==> cmd.actorId != ""
  {
    var db' := HandleFrom(rt, ch, db, sid, cmd, meta, l).0;
    CommittedCommand(rt, ch, db, sid, cmd, meta, l);
    var st' := P.Evolve(l.state, P.Decide(l.state, cmd).events[0]);
    OpsOfOne(db.claims, sid, ConstraintOp(Claim, P.EMAIL_SCOPE, cmd.email));
    if cmd.actorId != "" {
      forall other: StreamId | LiveAt(rt, db.events, other) ensures IsValid(other) {
        LiveIsValid(rt, db.events, other);
      }
      MoveKeepsExact(rt, db, db', sid, P.Takes, l.state, st');
    } else {
      UnownedClaim(rt, db, db', sid, l.state, st', EmailKey(sid, cmd.email));
    }
  }

  /** A new email claim by a stream that is not live is nobody's. */
  lemma UnownedClaim(rt: PartyRuntime, db: Db, db': Db, sid: StreamId, s: P.PartyState, s': P.PartyState, k: ClaimKey)
    requires ClaimsExact(rt, db) && OneStreamMoved(rt, db, db', sid, s, s')
    requires !P.Live(s') && k !in db.claims && k.scope == P.EMAIL_SCOPE && db'.claims == db.claims[k := Canonical(sid)]
    ensures !ClaimsExact(rt, db')
  {
    forall x: StreamId ensures !Owns(rt, db', x, k) {
      if x != sid && LiveAt(rt, db.events, x) {
        assert Owns(rt, db, x, OwnKey(rt, db.events, x));
      }
    }
    assert k in db'.claims;
  }

  lemma EmptyStore(rt: PartyRuntime)
    requires HostsParty(rt)
    ensures EventsGood(rt, EMPTY_DB.events) && CacheGood(rt, EMPTY_DB) && ValidStreams(EMPTY_DB.events) && ClaimsExact(rt, EMPTY_DB)
    ensures forall sid: StreamId :: Load(rt, EMPTY_DB, sid) == Some(Loaded(P.INITIAL, 0))
    ensures forall sid: StreamId :: FoldIs(rt, EMPTY_DB.events, sid, Loaded(P.INITIAL, 0))
  {
    hide P.Decide, P.Evolve;
    forall sid: StreamId ensures StreamLog(EMPTY_DB.events, sid) == [] {
    }
  }

  /** One event goes into the empty store. */
  lemma FirstAppend(ch: ChainFns, p: AppendParams)
    requires IsValid(p.sid) && p.expected == 0 && |p.events| == 1 && ApplyOps(map[], p.sid, p.ops).ClaimsOk?
    requires forall x: Wire :: ch.marshal(x).Some?
    ensures AppendTx(ch, EMPTY_DB, p).1.Ok?
  {
    hide ComputeChainHash, ApplyOps, Canonical;
    var prev := LastStreamHash(EMPTY_DB.events, p.sid);
    assert prev == ZERO_HASH;
    FirstHash(ch, HashedAt(p, 0));
    var hash := ComputeChainHash(ch, prev, HashedAt(p, 0)).value;
    assert InsertEvents(ch, [], [], p, 0, prev).Inserted?;
  }

  lemma FirstHash(ch: ChainFns, h: Hashed)
    requires forall x: Wire :: ch.marshal(x).Some?
    ensures ComputeChainHash(ch, ZERO_HASH, h).Some?
  {
    assert ch.marshal(WireOf(h)).Some?;
  }

  /** On the empty store a well-formed Register without an actor id commits, and its claim is nobody's. */
  lemma ActorlessRegister(rt: PartyRuntime, ch: ChainFns, sid: StreamId, cmd: P.Command, meta: Meta)
    requires HostsParty(rt) && Lawful(rt) && !rt.isTerminal(P.INITIAL) && rt.stateCodec.None?
    requires IsValid(sid) && cmd.Register? && cmd.actorId == "" && P.Decide(P.INITIAL, cmd).Accept?
    requires rt.codec.encode(P.Registered(cmd.name, cmd.email, cmd.phone, cmd.address, cmd.dateOfBirth, "")).Some?
    requires forall x: Wire :: ch.marshal(x).Some?
    ensures Handle(rt, ch, EMPTY_DB, sid, cmd, meta).1.Committed?
    ensures !ClaimsExact(rt, Handle(rt, ch, EMPTY_DB, sid, cmd, meta).0)
  {
    hide AppendTx, ClaimsExact, EventsGood, CacheGood, Load, FoldIs;
    EmptyStore(rt);
    var l := Loaded(P.INITIAL, 0);
    var d := P.Decide(P.INITIAL, cmd);
    assert rt.decide(l.state, cmd) == d;
    OneEncoded(rt, meta, d.events[0]);
    assert d.events == [d.events[0]];
    var ne := EncodeEvents(rt, meta, d.events).value;
    var p := AppendParams(sid, 0, ne, d.ops, None);
    assert PlanAppend(rt, sid, cmd, meta, l) == Plan.Submit(p);
    assert d.ops == [ConstraintOp(Claim, P.EMAIL_SCOPE, cmd.email)];
    assert d.ops[1..] == [];
    FirstAppend(ch, p);
    RegisterNeedsActor(rt, ch, EMPTY_DB, sid, cmd, meta, l);
  }

  lemma OneEncoded(rt: PartyRuntime, meta: Meta, e: P.Event)
    requires rt.codec.encode(e).Some?
    ensures EncodeEvents(rt, meta, [e]).Some? && |EncodeEvents(rt, meta, [e]).value| == 1
  {
    assert [e][..0] == [] && EncodeEvents(rt, meta, [e][..0]) == Some([]);
  }

  // ---------------------------------------------------------------- a store where it happens

  function ActorlessCommand(): P.Command { P.Register(Some(P.Name("a", "b")), "@", "", None, "", "") }

  function ActorlessEvent(): P.Event { P.Registered(Some(P.Name("a", "b")), "@", "", None, "", "") }

  /** The party decider with a codec for this one event. */
  function ActorlessRuntime(): PartyRuntime {
    Runtime(P.INITIAL, (s: P.PartyState, c: P.Command) => P.Decide(s, c), (s: P.PartyState, e: P.Event) => P.Evolve(s, e),
            (s: P.PartyState) => false,
            Codec((e: P.Event) => if e == ActorlessEvent() then Some(Encoded("r", 1, [])) else None,
                  (x: Encoded) => Some(ActorlessEvent())),
            None, 1)
  }

  lemma ActorlessRegisterHappens(meta: Meta)
    ensures var rt, ch := ActorlessRuntime(), ChainFns((b: Bytes) => ZERO_HASH, (x: Wire) => Some([]));
            var (db, o) := Handle(rt, ch, EMPTY_DB, StreamId("t", "a", "b"), ActorlessCommand(), meta);
            HostsParty(rt) && Lawful(rt) && o.Committed? && !ClaimsExact(rt, db)
  {
    hide Handle, ClaimsExact, P.Evolve;
    var rt, ch := ActorlessRuntime(), ChainFns((b: Bytes) => ZERO_HASH, (x: Wire) => Some([]));
    assert HostsParty(rt) && Lawful(rt);
    assert P.Decide(P.INITIAL, ActorlessCommand()) == Accept([ActorlessEvent()], [ConstraintOp(Claim, P.EMAIL_SCOPE, "@")]);
    assert IsValid(StreamId("t", "a", "b"));
    ActorlessRegister(rt, ch, StreamId("t", "a", "b"), ActorlessCommand(), meta);
  }
}
