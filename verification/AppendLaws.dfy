/** When an Append commits, from its parameters and the tables alone, and what each error means
    (adapters/storage/sqlite/append.go). */
module AppendLaws {
  import opened Basics
  import opened StreamIds
  import opened Store

  // ---------------------------------------------------------------- constraint operations

  function ClaimOf(sid: StreamId, op: ConstraintOp): ClaimKey { ClaimKey(sid.tenant, op.scope, op.value) }

  /** Whether a claim is held once the first i operations have run: as the last of them on it says, else as at the
      start. */
  predicate Held(claims: map<ClaimKey, string>, sid: StreamId, ops: seq<ConstraintOp>, i: nat, k: ClaimKey)
    requires i <= |ops|
  {
    if i == 0 then k in claims
    else if ClaimOf(sid, ops[i - 1]) == k then ops[i - 1].op == Claim
    else Held(claims, sid, ops, i - 1, k)
  }

  /** The operation can run: it is a release, or it claims what is free when it is reached. */
  predicate OpGoes(claims: map<ClaimKey, string>, sid: StreamId, ops: seq<ConstraintOp>, i: nat)
    requires i < |ops|
  {
    ops[i].op == Release || (ops[i].op == Claim && !Held(claims, sid, ops, i, ClaimOf(sid, ops[i])))
  }

  predicate AllOpsGo(claims: map<ClaimKey, string>, sid: StreamId, ops: seq<ConstraintOp>) {
    forall i | 0 <= i < |ops| :: OpGoes(claims, sid, ops, i)
  }

  lemma {:induction false} ApplySnoc(claims: map<ClaimKey, string>, sid: StreamId, ops: seq<ConstraintOp>, op: ConstraintOp)
    ensures ApplyOps(claims, sid, ops + [op])
         == match ApplyOps(claims, sid, ops) case ClaimsErr(e) => ClaimsErr(e) case ClaimsOk(c) => ApplyOp(c, sid, op)
    decreases |ops|
  {
    hide ApplyOp;
    if ops == [] {
      assert ops + [op] == [op] && [op][1..] == [];
    } else {
      assert (ops + [op])[0] == ops[0] && (ops + [op])[1..] == ops[1..] + [op];
      if ApplyOp(claims, sid, ops[0]).ClaimsOk? {
        ApplySnoc(ApplyOp(claims, sid, ops[0]).claims, sid, ops[1..], op);
      }
    }
  }

  /** The operations run in order: what they leave held, and the first that cannot run ends them with its error. */
  lemma {:induction false} OpsRun(claims: map<ClaimKey, string>, sid: StreamId, ops: seq<ConstraintOp>, n: nat)
    requires n <= |ops|
    ensures var r := ApplyOps(claims, sid, ops[..n]);
            && (r.ClaimsOk? <==> forall i | 0 <= i < n :: OpGoes(claims, sid, ops, i))
            && (r.ClaimsOk? ==> forall k :: k in r.claims <==> Held(claims, sid, ops, n, k))
            && (r.ClaimsErr? ==> exists i | 0 <= i < n :: OpFails(claims, sid, ops, i, r.error))
  {
    if n == 0 {
      assert ops[..0] == [];
    } else {
      OpsRun(claims, sid, ops, n - 1);
      assert ops[..n] == ops[..n - 1] + [ops[n - 1]];
      ApplySnoc(claims, sid, ops[..n - 1], ops[n - 1]);
      OpStep(claims, sid, ops, n - 1);
    }
  }

  /** Why the i-th operation stops an Append whose earlier ones ran. */
  predicate OpFails(claims: map<ClaimKey, string>, sid: StreamId, ops: seq<ConstraintOp>, i: nat, error: AppendError)
    requires i < |ops|
  {
    && (forall j | 0 <= j < i :: OpGoes(claims, sid, ops, j))
    && (if ops[i].op == Claim then error == ConstraintViolated && Held(claims, sid, ops, i, ClaimOf(sid, ops[i]))
        else ops[i].op.UnknownOp? && error == UnknownConstraintOp)
  }

  lemma OpStep(claims: map<ClaimKey, string>, sid: StreamId, ops: seq<ConstraintOp>, i: nat)
    requires i < |ops|
    ensures var r := ApplyOps(claims, sid, ops[..i]);
            r.ClaimsOk? && (forall k :: k in r.claims <==> Held(claims, sid, ops, i, k))
            && (forall j | 0 <= j < i :: OpGoes(claims, sid, ops, j)) ==>
              var r' := ApplyOp(r.claims, sid, ops[i]);
              && (r'.ClaimsOk? <==> OpGoes(claims, sid, ops, i))
              && (r'.ClaimsOk? ==> forall k :: k in r'.claims <==> Held(claims, sid, ops, i + 1, k))
              && (r'.ClaimsErr? ==> OpFails(claims, sid, ops, i, r'.error))
  {
    hide ApplyOps;
  }

  // ---------------------------------------------------------------- the rows

  /** The i-th row of the batch meets no row of the table: neither its version of the stream nor its id in the
      tenant is taken. */
  predicate RowFree(events: seq<Envelope>, p: AppendParams, i: nat)
    requires i < |p.events|
  {
    forall e | e in events ::
      && !(e.hashed.sid == p.sid && e.hashed.version == p.expected + i + 1)
      && !(e.hashed.sid.tenant == p.sid.tenant && e.hashed.eventId == p.events[i].eventId)
  }

  predicate IdsDistinct(p: AppendParams, from: nat) {
    forall i, j | from <= i < j < |p.events| :: p.events[i].eventId != p.events[j].eventId
  }

  predicate Marshals(ch: ChainFns, p: AppendParams, i: nat)
    requires i < |p.events|
  {
    ch.marshal(WireOf(Hashed(p.events[i].eventId, p.sid, p.expected + i + 1, p.events[i].content))).Some?
  }

  /** The insert loop runs to its end. */
  predicate RowsGo(ch: ChainFns, events: seq<Envelope>, p: AppendParams, from: nat) {
    && IdsDistinct(p, from)
    && forall i | from <= i < |p.events| :: RowFree(events, p, i) && Marshals(ch, p, i)
  }

  lemma RowFreeStep(events: seq<Envelope>, p: AppendParams, i: nat, e: Envelope, j: nat)
    requires i < j < |p.events| && e.hashed == HashedAt(p, i)
    ensures RowFree(events + [e], p, j) <==> RowFree(events, p, j) && p.events[i].eventId != p.events[j].eventId
  {
    if RowFree(events + [e], p, j) {
      assert e in events + [e];
    }
  }

  lemma RowsGoStep(ch: ChainFns, events: seq<Envelope>, p: AppendParams, i: nat, e: Envelope)
    requires i < |p.events| && e.hashed == HashedAt(p, i)
    ensures RowsGo(ch, events, p, i) <==> RowFree(events, p, i) && Marshals(ch, p, i) && RowsGo(ch, events + [e], p, i + 1)
  {
    hide RowFree, Marshals;
    forall j | i < j < |p.events|
      ensures RowFree(events + [e], p, j) <==> RowFree(events, p, j) && p.events[i].eventId != p.events[j].eventId
    {
      RowFreeStep(events, p, i, e, j);
    }
  }

  lemma FreeIsNotTaken(events: seq<Envelope>, p: AppendParams, i: nat)
    requires i < |p.events|
    ensures KeyTaken(events, HashedAt(p, i)) <==> !RowFree(events, p, i)
  {
  }

  lemma HashIff(ch: ChainFns, p: AppendParams, i: nat, prev: Bytes)
    requires Sha256Sized(ch) && i < |p.events| && |prev| == HASH_SIZE
    ensures var h := ComputeChainHash(ch, prev, HashedAt(p, i));
            (h.Some? <==> Marshals(ch, p, i)) && (h.Some? ==> |h.value| == HASH_SIZE)
  {
  }

  /** What stops the insert loop. */
  predicate RowFails(ch: ChainFns, events: seq<Envelope>, p: AppendParams, i: nat, error: AppendError)
    requires i < |p.events|
  {
    || (error == ChainFailed && !Marshals(ch, p, i))
    || (error == Conflict && (!RowFree(events, p, i) || exists j | 0 <= j < i :: p.events[j].eventId == p.events[i].eventId))
  }

  lemma {:induction false} InsertIff(ch: ChainFns, events: seq<Envelope>, outbox: seq<OutboxRow>, p: AppendParams, i: nat, prev: Bytes)
    requires Sha256Sized(ch) && i <= |p.events| && |prev| == HASH_SIZE
    ensures var r := InsertEvents(ch, events, outbox, p, i, prev);
            && (r.Inserted? <==> RowsGo(ch, events, p, i))
            && (r.InsertErr? ==> exists j | i <= j < |p.events| :: RowFails(ch, events, p, j, r.error))
    decreases |p.events| - i
  {
    hide ComputeChainHash, KeyTaken, RowsGo, Sha256Sized, RowFree, Marshals;
    if i == |p.events| {
      NoRowsGo(ch, events, p);
    } else {
      var h := HashedAt(p, i);
      var hash := ComputeChainHash(ch, prev, h);
      HashIff(ch, p, i, prev);
      FreeIsNotTaken(events, p, i);
      var e := Envelope(h, |events| + 1, if hash.Some? then hash.value else [], prev);
      RowsGoStep(ch, events, p, i, e);
      if hash.None? || KeyTaken(events, h) {
        assert RowFails(ch, events, p, i, InsertEvents(ch, events, outbox, p, i, prev).error);
      } else {
        InsertIff(ch, events + [e], outbox + [OutboxRowFor(e)], p, i + 1, hash.value);
        var r := InsertEvents(ch, events, outbox, p, i, prev);
        if r.InsertErr? {
          var j :| i + 1 <= j < |p.events| && RowFails(ch, events + [e], p, j, r.error);
          RowFreeStep(events, p, i, e, j);
          assert RowFails(ch, events, p, j, r.error);
        }
      }
    }
  }

  lemma NoRowsGo(ch: ChainFns, events: seq<Envelope>, p: AppendParams)
    ensures RowsGo(ch, events, p, |p.events|)
  {
  }

  // ---------------------------------------------------------------- the transaction

  /** The stream's last stored hash, if it has one, has the size of a digest. */
  predicate HeadHashSized(db: Db, sid: StreamId) { |LastStreamHash(db.events, sid)| == HASH_SIZE }

  /** An Append commits exactly when its id is valid, it has events, every claim it makes is free when it is reached,
      none of its versions and ids is taken and none of its ids repeated, and every row can be hashed. The reply then
      numbers the batch from the expected version and from the end of the table. */
  lemma AppendCommitsIff(ch: ChainFns, db: Db, p: AppendParams)
    requires Sha256Sized(ch)
    ensures var reply := AppendTx(ch, db, p).1;
            && (reply.Ok? <==> && IsValid(p.sid) && p.events != [] && AllOpsGo(db.claims, p.sid, p.ops)
                               && HeadHashSized(db, p.sid) && RowsGo(ch, db.events, p, 0))
            && (reply.Ok? ==>
                  reply.result == AppendResult(p.expected + 1, p.expected + |p.events|, |db.events| + 1, |db.events| + |p.events|))
  {
    hide InsertEvents, ApplyOps, RowsGo, LastStreamHash, OpGoes, Sha256Sized;
    OpsRun(db.claims, p.sid, p.ops, |p.ops|);
    assert p.ops[..|p.ops|] == p.ops;
    if HeadHashSized(db, p.sid) {
      InsertIff(ch, db.events, db.outbox, p, 0, LastStreamHash(db.events, p.sid));
    } else if p.events != [] {
      BadHeadFails(ch, db, p);
    }
  }

  lemma BadHeadFails(ch: ChainFns, db: Db, p: AppendParams)
    requires !HeadHashSized(db, p.sid) && p.events != []
    ensures InsertEvents(ch, db.events, db.outbox, p, 0, LastStreamHash(db.events, p.sid)) == InsertErr(ChainFailed)
  {
    hide LastStreamHash;
  }

  /** The state row of an append: what it was given, at its last version, with schema version 1 where none was named. */
  predicate HoldsState(row: CacheRow, ns: NewState, version: nat) {
    && row.state == ns.bytes && row.typeUrl == ns.typeUrl && row.version == version && row.terminal == ns.terminal
    && (ns.schema > 0 ==> row.schema == ns.schema) && (ns.schema == 0 ==> row.schema == 1)
  }

  /** What a commit leaves: the claims its operations leave held, and of the cached states only its own stream's
      touched, and that only if a state came with it. */
  lemma CommitLeaves(ch: ChainFns, db: Db, p: AppendParams)
    requires AppendTx(ch, db, p).1.Ok?
    ensures var db' := AppendTx(ch, db, p).0;
            && (forall k :: k in db'.claims <==> Held(db.claims, p.sid, p.ops, |p.ops|, k))
            && db'.cache.Keys == db.cache.Keys + (if p.newState.Some? then {p.sid} else {})
            && (forall sid | sid in db.cache && (sid != p.sid || p.newState.None?) :: db'.cache[sid] == db.cache[sid])
            && (p.newState.Some? ==> HoldsState(db'.cache[p.sid], p.newState.value, p.expected + |p.events|))
  {
    hide InsertEvents, ApplyOps, LastStreamHash, OpGoes, Held;
    OpsRun(db.claims, p.sid, p.ops, |p.ops|);
    assert p.ops[..|p.ops|] == p.ops;
  }

  /** What the error of an Append tells its caller. A violated constraint is a claim that was held when it was
      reached; a conflict is a version or an id that is taken, once the constraints held. */
  lemma AppendErrorTells(ch: ChainFns, db: Db, p: AppendParams)
    requires Sha256Sized(ch) && AppendTx(ch, db, p).1.Err?
    ensures match AppendTx(ch, db, p).1.error
            case BadStreamId(e) => Validate(p.sid) == Some(e)
            case NoEvents => IsValid(p.sid) && p.events == []
            case ConstraintViolated => exists i | 0 <= i < |p.ops| :: OpFails(db.claims, p.sid, p.ops, i, ConstraintViolated)
            case UnknownConstraintOp => exists i | 0 <= i < |p.ops| :: OpFails(db.claims, p.sid, p.ops, i, UnknownConstraintOp)
            case Conflict =>
              AllOpsGo(db.claims, p.sid, p.ops) && exists i | 0 <= i < |p.events| :: RowFails(ch, db.events, p, i, Conflict)
            case ChainFailed =>
              && AllOpsGo(db.claims, p.sid, p.ops)
              && (!HeadHashSized(db, p.sid) || exists i | 0 <= i < |p.events| :: RowFails(ch, db.events, p, i, ChainFailed))
  {
    hide InsertEvents, ApplyOps, RowsGo, LastStreamHash, OpGoes, Sha256Sized, Held, RowFree, Marshals;
    OpsRun(db.claims, p.sid, p.ops, |p.ops|);
    assert p.ops[..|p.ops|] == p.ops;
    if HeadHashSized(db, p.sid) {
      InsertIff(ch, db.events, db.outbox, p, 0, LastStreamHash(db.events, p.sid));
    } else if p.events != [] {
      BadHeadFails(ch, db, p);
    }
  }
}
