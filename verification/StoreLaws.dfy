/** What Append does to stream logs: atomicity, version contiguity and chain growth. */
module StoreLaws {
  import opened Basics
  import opened StreamIds
  import opened Store

  // ---------------------------------------------------------------- stream logs

  lemma {:induction false} StreamLogConcat(a: seq<Envelope>, b: seq<Envelope>, sid: StreamId)
    ensures StreamLog(a + b, sid) == StreamLog(a, sid) + StreamLog(b, sid)
  {
    if b == [] {
      assert a + b == a;
    } else {
      var n := |b| - 1;
      StreamLogConcat(a, b[..n], sid);
      assert (a + b)[..|a + b| - 1] == a + b[..n];
    }
  }

  lemma {:induction false} StreamLogUniform(b: seq<Envelope>, owner: StreamId, sid: StreamId)
    requires forall i | 0 <= i < |b| :: b[i].hashed.sid == owner
    ensures StreamLog(b, sid) == if sid == owner then b else []
  {
    if b != [] {
      StreamLogUniform(b[..|b| - 1], owner, sid);
    }
  }

  lemma {:induction false} StreamLogMember(events: seq<Envelope>, sid: StreamId, k: nat) returns (i: nat)
    requires k < |StreamLog(events, sid)|
    ensures i < |events| && events[i] == StreamLog(events, sid)[k] && events[i].hashed.sid == sid
  {
    var n := |events| - 1;
    if k < |StreamLog(events[..n], sid)| {
      i := StreamLogMember(events[..n], sid, k);
    } else {
      i := n;
    }
  }

  /** Versions of every stream run 1, 2, ..., n in insertion order. */
  ghost predicate ContiguousLog(log: seq<Envelope>) {
    forall i | 0 <= i < |log| :: log[i].hashed.version == i + 1
  }

  ghost predicate Contiguous(events: seq<Envelope>) {
    forall sid: StreamId :: ContiguousLog(StreamLog(events, sid))
  }

  /** Positions number the rows. */
  ghost predicate Positioned(events: seq<Envelope>) {
    forall i | 0 <= i < |events| :: events[i].position == i + 1
  }

  // ---------------------------------------------------------------- reading in version order

  lemma {:induction false} SortIdentity(log: seq<Envelope>)
    requires ContiguousLog(log)
    ensures SortByVersion(log) == log
  {
    if log != [] {
      var init, last := log[..|log| - 1], log[|log| - 1];
      assert ContiguousLog(init);
      SortIdentity(init);
      assert init != [] ==> init[|init| - 1].hashed.version <= last.hashed.version;
      assert InsertByVersion(init, last) == init + [last] == log;
    }
  }

  lemma {:induction false} AfterVersionSlice(log: seq<Envelope>, base: nat, from: nat)
    requires forall i | 0 <= i < |log| :: log[i].hashed.version == base + i + 1
    ensures from <= base ==> AfterVersion(log, from) == log
    ensures base <= from <= base + |log| ==> AfterVersion(log, from) == log[from - base..]
  {
    if log != [] {
      AfterVersionSlice(log[1..], base + 1, from);
      if base < from <= base + |log| {
        assert log[1..][from - base - 1..] == log[from - base..];
      }
    }
  }

  /** On a contiguous stream, reading after version v drops exactly the first v rows. */
  lemma ReadStreamIsSuffix(events: seq<Envelope>, sid: StreamId, from: nat)
    requires Contiguous(events)
    requires from <= |StreamLog(events, sid)|
    ensures ReadStream(events, sid, from) == StreamLog(events, sid)[from..]
  {
    SortIdentity(StreamLog(events, sid));
    AfterVersionSlice(StreamLog(events, sid), 0, from);
  }

  // ---------------------------------------------------------------- what an insert loop adds

  ghost predicate RowsFor(ch: ChainFns, p: AppendParams, i: nat, prev: Bytes, before: nat, rows: seq<Envelope>)
  {
    && i <= |p.events|
    && |rows| == |p.events| - i
    && (forall k | 0 <= k < |rows| ::
          && rows[k].hashed == HashedAt(p, i + k)
          && rows[k].position == before + k + 1
          && rows[k].prevHash == (if k == 0 then prev else rows[k - 1].hash)
          && ComputeChainHash(ch, rows[k].prevHash, rows[k].hashed) == Some(rows[k].hash))
  }

  function OutboxRowsFor(rows: seq<Envelope>): seq<OutboxRow> {
    seq(|rows|, k requires 0 <= k < |rows| => OutboxRowFor(rows[k]))
  }

  lemma RowsForCons(ch: ChainFns, p: AppendParams, i: nat, prev: Bytes, before: nat, e: Envelope, rest: seq<Envelope>)
    requires i < |p.events| && e.hashed == HashedAt(p, i) && e.position == before + 1 && e.prevHash == prev
    requires ComputeChainHash(ch, prev, e.hashed) == Some(e.hash)
    requires RowsFor(ch, p, i + 1, e.hash, before + 1, rest)
    ensures RowsFor(ch, p, i, prev, before, [e] + rest)
  {
    var rows := [e] + rest;
    forall k | 0 <= k < |rows|
      ensures rows[k].hashed == HashedAt(p, i + k) && rows[k].position == before + k + 1
      ensures rows[k].prevHash == (if k == 0 then prev else rows[k - 1].hash)
      ensures ComputeChainHash(ch, rows[k].prevHash, rows[k].hashed) == Some(rows[k].hash)
    {
      if k > 0 {
        var j := k - 1;
        assert rows[k] == rest[j] && rest[j].hashed == HashedAt(p, i + 1 + j);
        assert rows[k - 1] == if j == 0 then e else rest[j - 1];
      }
    }
  }

  /** One iteration of a loop that completes. */
  lemma InsertStep(ch: ChainFns, events: seq<Envelope>, outbox: seq<OutboxRow>, p: AppendParams, i: nat, prev: Bytes)
    returns (e: Envelope)
    requires i < |p.events|
    requires InsertEvents(ch, events, outbox, p, i, prev).Inserted?
    ensures e.hashed == HashedAt(p, i) && e.position == |events| + 1 && e.prevHash == prev
    ensures ComputeChainHash(ch, prev, e.hashed) == Some(e.hash)
    ensures !KeyTaken(events, e.hashed)
    ensures InsertEvents(ch, events, outbox, p, i, prev)
         == InsertEvents(ch, events + [e], outbox + [OutboxRowFor(e)], p, i + 1, e.hash)
  {
    e := Envelope(HashedAt(p, i), |events| + 1, ComputeChainHash(ch, prev, HashedAt(p, i)).value, prev);
  }

  /** A loop that completes adds one row per event, chained and numbered, none clashing with an older row. */
  lemma {:induction false} InsertAddsRows(ch: ChainFns, events: seq<Envelope>, outbox: seq<OutboxRow>,
                                          p: AppendParams, i: nat, prev: Bytes) returns (rows: seq<Envelope>)
    requires i <= |p.events|
    requires InsertEvents(ch, events, outbox, p, i, prev).Inserted?
    ensures InsertEvents(ch, events, outbox, p, i, prev).events == events + rows
    ensures RowsFor(ch, p, i, prev, |events|, rows)
    ensures |rows| > 0 ==> forall e | e in events :: !KeyClash(e, rows[0].hashed)
    ensures InsertEvents(ch, events, outbox, p, i, prev).outbox
         == outbox + OutboxRowsFor(rows)
    decreases |p.events| - i
  {
    hide ComputeChainHash, KeyClash;
    if i == |p.events| {
      rows := [];
    } else {
      var e := InsertStep(ch, events, outbox, p, i, prev);
      var rest := InsertAddsRows(ch, events + [e], outbox + [OutboxRowFor(e)], p, i + 1, e.hash);
      rows := [e] + rest;
      assert events + rows == events + [e] + rest;
      RowsForCons(ch, p, i, prev, |events|, e, rest);
      assert OutboxRowsFor(rows) == [OutboxRowFor(e)] + OutboxRowsFor(rest);
      assert !KeyTaken(events, e.hashed);
    }
  }

  // ---------------------------------------------------------------- Append as a whole

  /** The rows one committed Append adds. */
  lemma AppendAddsRows(ch: ChainFns, db: Db, p: AppendParams) returns (rows: seq<Envelope>)
    requires AppendTx(ch, db, p).1.Ok?
    ensures var db' := AppendTx(ch, db, p).0;
            && db'.events == db.events + rows
            && |rows| == |p.events| > 0
            && RowsFor(ch, p, 0, LastStreamHash(db.events, p.sid), |db.events|, rows)
            && (forall e | e in db.events :: !KeyClash(e, HashedAt(p, 0)))
            && db'.outbox == db.outbox + OutboxRowsFor(rows)
            && IsValid(p.sid)
            && AppendTx(ch, db, p).1.result == ResultFor(p, |db.events|)
  {
    rows := InsertAddsRows(ch, db.events, db.outbox, p, 0, LastStreamHash(db.events, p.sid));
  }

  /** Any error leaves every table as it was. */
  lemma AppendErrorChangesNothing(ch: ChainFns, db: Db, p: AppendParams)
    requires AppendTx(ch, db, p).1.Err?
    ensures AppendTx(ch, db, p).0 == db
  {
  }

  /** A commit ran its constraint operations in order. */
  lemma AppendAppliesOps(ch: ChainFns, db: Db, p: AppendParams)
    requires AppendTx(ch, db, p).1.Ok?
    ensures ApplyOps(db.claims, p.sid, p.ops) == ClaimsOk(AppendTx(ch, db, p).0.claims)
    ensures IsValid(p.sid) && p.events != []
  {
  }

  /** Only the appended stream grows, and it grows at its end. */
  lemma AppendGrowsOneStream(ch: ChainFns, db: Db, p: AppendParams, sid: StreamId)
    requires AppendTx(ch, db, p).1.Ok?
    ensures StreamLog(db.events, sid) <= StreamLog(AppendTx(ch, db, p).0.events, sid)
    ensures sid != p.sid ==> StreamLog(AppendTx(ch, db, p).0.events, sid) == StreamLog(db.events, sid)
    ensures |StreamLog(AppendTx(ch, db, p).0.events, p.sid)| == |StreamLog(db.events, p.sid)| + |p.events|
  {
    var rows := AppendAddsRows(ch, db, p);
    StreamLogConcat(db.events, rows, sid);
    StreamLogUniform(rows, p.sid, sid);
    StreamLogConcat(db.events, rows, p.sid);
    StreamLogUniform(rows, p.sid, p.sid);
  }

  /** The version key is the whole optimistic check: an Append that expects a version at or below
      the head and commits must have expected the head itself. */
  lemma CommitExpectsHead(ch: ChainFns, db: Db, p: AppendParams)
    requires Contiguous(db.events)
    requires p.expected <= |StreamLog(db.events, p.sid)|
    requires AppendTx(ch, db, p).1.Ok?
    ensures p.expected == |StreamLog(db.events, p.sid)|
  {
    var log := StreamLog(db.events, p.sid);
    var rows := AppendAddsRows(ch, db, p);
    if p.expected < |log| {
      var i := StreamLogMember(db.events, p.sid, p.expected);
      assert ContiguousLog(log);
      assert db.events[i] in db.events;
      assert KeyClash(db.events[i], HashedAt(p, 0));
      assert false;
    }
  }

  /** Versions stay 1..n after a commit exactly when the expected version was not beyond the head. */
  lemma AppendKeepsContiguity(ch: ChainFns, db: Db, p: AppendParams)
    requires Contiguous(db.events)
    requires AppendTx(ch, db, p).1.Ok?
    ensures Contiguous(AppendTx(ch, db, p).0.events) <==> p.expected <= |StreamLog(db.events, p.sid)|
  {
    var rows := AppendAddsRows(ch, db, p);
    var db' := AppendTx(ch, db, p).0;
    var log := StreamLog(db.events, p.sid);
    assert StreamLog(db'.events, p.sid) == log + rows by {
      StreamLogConcat(db.events, rows, p.sid);
      StreamLogUniform(rows, p.sid, p.sid);
    }
    assert rows[0].hashed.version == p.expected + 1;
    if p.expected <= |log| {
      CommitExpectsHead(ch, db, p);
      forall sid: StreamId ensures ContiguousLog(StreamLog(db'.events, sid)) {
        assert ContiguousLog(StreamLog(db.events, sid));
        if sid != p.sid {
          AppendGrowsOneStream(ch, db, p, sid);
        }
      }
    } else {
      assert (log + rows)[|log|] == rows[0];
      assert !ContiguousLog(StreamLog(db'.events, p.sid));
    }
  }

  lemma AppendKeepsPositions(ch: ChainFns, db: Db, p: AppendParams)
    requires Positioned(db.events)
    requires AppendTx(ch, db, p).1.Ok?
    ensures Positioned(AppendTx(ch, db, p).0.events)
  {
    var rows := AppendAddsRows(ch, db, p);
  }

  // ---------------------------------------------------------------- the cache is not read

  /** The database without its cache: what a serial replay is compared on. */
  function Core(db: Db): Db { db.(cache := map[]) }

  /** Append never looks at the cache: two databases that differ only there stay so. */
  lemma AppendIgnoresCache(ch: ChainFns, db: Db, db2: Db, p: AppendParams)
    requires Core(db) == Core(db2)
    ensures AppendTx(ch, db, p).1 == AppendTx(ch, db2, p).1
    ensures Core(AppendTx(ch, db, p).0) == Core(AppendTx(ch, db2, p).0)
  {
  }
}
