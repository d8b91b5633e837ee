/** Limits of the delivery order, the source of outbox rows, and the Run loop itself (outbox/drain.go). */
module OutboxRuns {
  import opened Basics
  import opened StreamIds
  import opened Store
  import opened StoreLaws
  import opened Shards
  import opened Backoff
  import opened Outbox
  import opened OutboxOrder

  // ---------------------------------------------------------------- the condition is exact

  lemma ReachedSnoc(cfg: DrainConfig, steps: seq<OutStep>, step: OutStep)
    ensures Reached(cfg, steps + [step]) == Next(cfg, Reached(cfg, steps), step)
  {
    assert (steps + [step])[..|steps|] == steps;
  }

  lemma FirstDelayPositive(base: int, max: int)
    requires base > 0
    ensures Delay(base, max, 1) > 0
  {
  }

  /** Two rows of one stream whose first was tried once and now waits: the second is all the page holds. */
  lemma WaitingRowIsSkipped(cfg: DrainConfig, rows: seq<OutboxRow>)
    requires !cfg.headRule && |rows| == 2
    requires !Due(rows[0], 0) && Fresh(rows[1]) && TenantOk(cfg, rows[1])
    ensures PendingPage(cfg, rows, 0) == [rows[1]]
  {
    assert rows[1..] == [rows[1]] && rows[1..][1..] == [];
    assert Selected(cfg, rows, rows[1], 0);
    assert PageFrom(cfg, rows, rows[1..], 0, Limit(cfg)) == [rows[1]] + PageFrom(cfg, rows, [], 0, Limit(cfg) - 1);
  }

  lemma FreshHeadIsRead(cfg: DrainConfig, rows: seq<OutboxRow>)
    requires !cfg.headRule && |rows| == 2 && Fresh(rows[0]) && TenantOk(cfg, rows[0])
    ensures PendingPage(cfg, rows, 0) != [] && PendingPage(cfg, rows, 0)[0] == rows[0]
  {
    assert Selected(cfg, rows, rows[0], 0);
  }

  function RowAt(cfg: DrainConfig, n: nat): OutboxRow {
    OutboxRow(StreamId(if cfg.tenant == "" then "t" else cfg.tenant, "a", "b"), n, n, "e", 0, None, Pending)
  }

  /** Row 1 after one failure at time 0. */
  function TriedRow(cfg: DrainConfig): OutboxRow {
    RowAt(cfg, 1).(attempts := 1, nextAttemptAt := Some(NextAttemptAt(cfg, 1, 0)))
  }

  function OwnShard(cfg: DrainConfig): nat {
    if cfg.totalShards == 0 then 0 else StreamShard(KeyOf(RowAt(cfg, 1).sid), cfg.totalShards)
  }

  const FAIL := Outcome(false, true, true, 0)

  lemma StartAfterEnqueue(cfg: DrainConfig) returns (steps: seq<OutStep>)
    requires !InOrder(cfg)
    ensures var k, s := OwnShard(cfg), Reached(cfg, steps);
            && s.rows == [RowAt(cfg, 1), RowAt(cfg, 2)]
            && s.runners.Keys == {k} && s.runners[k].page == [] && s.runners[k].halted == {}
  {
    var k, rows := OwnShard(cfg), [RowAt(cfg, 1), RowAt(cfg, 2)];
    ReachedSnoc(cfg, [], Enqueue(rows));
    EnqueueFirst(cfg);
    ReachedSnoc(cfg, [] + [Enqueue(rows)], Start(k));
    StartFirst(cfg);
    steps := [] + [Enqueue(rows)] + [Start(k)];
  }

  lemma EnqueueFirst(cfg: DrainConfig)
    ensures var rows := [RowAt(cfg, 1), RowAt(cfg, 2)]; Next(cfg, OutSys([], map[]), Enqueue(rows)) == OutSys(rows, map[])
  {
    var rows := [RowAt(cfg, 1), RowAt(cfg, 2)];
    TwoRowsOk(RowAt(cfg, 1), RowAt(cfg, 2));
    assert [] + rows == rows;
  }

  lemma TwoRowsOrdered(rows: seq<OutboxRow>)
    requires |rows| == 2 && rows[0].position < rows[1].position && rows[0].version < rows[1].version
    ensures Ordered(rows)
  {
  }

  lemma TwoRowsOk(a: OutboxRow, b: OutboxRow)
    requires Fresh(a) && Fresh(b) && a.position < b.position && a.version < b.version
    ensures EnqueueOk([], [a, b])
  {
    var rows := [a, b];
    TwoRowsOrdered(rows);
    assert [] + rows == rows;
  }

  lemma StartFirst(cfg: DrainConfig)
    ensures var k, rows := OwnShard(cfg), [RowAt(cfg, 1), RowAt(cfg, 2)];
            Next(cfg, OutSys(rows, map[]), Start(k)) == OutSys(rows, map[k := Runner([], {}, {}, {})])
  {
    assert QuarantinedKeys(cfg, [RowAt(cfg, 1), RowAt(cfg, 2)]) == {};
  }

  /** The first Run: read both rows, fail the first, stop. */
  lemma FirstRunFails(cfg: DrainConfig) returns (steps: seq<OutStep>)
    requires !InOrder(cfg)
    ensures Reached(cfg, steps) == OutSys([TriedRow(cfg), RowAt(cfg, 2)], map[])
  {
    var k := OwnShard(cfg);
    var up := StartAfterEnqueue(cfg);
    ReachedSnoc(cfg, up, Read(k, 0));
    ReachedSnoc(cfg, up + [Read(k, 0)], Handle(k, FAIL));
    ReachedSnoc(cfg, up + [Read(k, 0)] + [Handle(k, FAIL)], Stop(k));
    ReadThenFail(cfg, Reached(cfg, up));
    steps := up + [Read(k, 0)] + [Handle(k, FAIL)] + [Stop(k)];
  }

  lemma ReadThenFail(cfg: DrainConfig, s: OutSys)
    requires !InOrder(cfg) && s.rows == [RowAt(cfg, 1), RowAt(cfg, 2)]
    requires var k := OwnShard(cfg); s.runners.Keys == {k} && s.runners[k].page == [] && s.runners[k].halted == {}
    ensures var k := OwnShard(cfg);
            Next(cfg, Next(cfg, Next(cfg, s, Read(k, 0)), Handle(k, FAIL)), Stop(k))
            == OutSys([TriedRow(cfg), RowAt(cfg, 2)], map[])
  {
    var k := OwnShard(cfg);
    FreshHeadIsRead(cfg, s.rows);
    var s3 := Next(cfg, s, Read(k, 0));
    assert s3.runners[k].page[0] == RowAt(cfg, 1) && Offers(cfg, k, s3.runners[k]);
    var s4 := Next(cfg, s3, Handle(k, FAIL));
    assert s4.rows == [TriedRow(cfg), RowAt(cfg, 2)];
    assert (s4.runners - {k}).Keys == {};
  }

  /** The second Run starts before the retry time. */
  lemma SecondRunOvertakes(cfg: DrainConfig, s: OutSys)
    requires !InOrder(cfg) && s == OutSys([TriedRow(cfg), RowAt(cfg, 2)], map[])
    ensures var k := OwnShard(cfg); !OffersInOrder(cfg, Next(cfg, Next(cfg, s, Start(k)), Read(k, 0)), k)
  {
    var k := OwnShard(cfg);
    FirstDelayPositive(cfg.backoffBase, cfg.backoffMax);
    WaitingRowIsSkipped(cfg, s.rows);
    var s1 := Next(cfg, s, Start(k));
    assert s1.rows == s.rows && k in s1.runners && s1.runners[k] == Runner([], {}, {}, {}) by {
      assert QuarantinedKeys(cfg, s.rows) == {};
    }
    var s2 := Next(cfg, s1, Read(k, 0));
    var run := s2.runners[k];
    assert run.page[0] == RowAt(cfg, 2) && run.replayed == {} && Offers(cfg, k, run);
    assert TriedRow(cfg) in s2.rows && !Passed(cfg, run, TriedRow(cfg));
  }

  /** Without the head rule, with a backoff and with retries, some run publishes a row while an earlier one
      of its stream is still owed: InOrder is exactly the condition of DeliveryInOrder. */
  lemma OrderBreaks(cfg: DrainConfig) returns (steps: seq<OutStep>, k: nat)
    requires !InOrder(cfg)
    ensures !OffersInOrder(cfg, Reached(cfg, steps), k)
  {
    k := OwnShard(cfg);
    var first := FirstRunFails(cfg);
    ReachedSnoc(cfg, first, Start(k));
    ReachedSnoc(cfg, first + [Start(k)], Read(k, 0));
    SecondRunOvertakes(cfg, Reached(cfg, first));
    steps := first + [Start(k)] + [Read(k, 0)];
  }

  // ---------------------------------------------------------------- order without the replay exception

  /** The plain order: everything earlier is settled or, where that does not pause a stream, dead-lettered. */
  ghost predicate OffersPlainly(cfg: DrainConfig, s: OutSys, k: nat) {
    k in s.runners && Offers(cfg, k, s.runners[k]) ==>
      var r := s.runners[k].page[0];
      forall q | q in s.rows && q.sid == r.sid && q.version < r.version :: Settled(q) || (!Quarantines(cfg) && Dead(cfg, q))
  }

  /** Row 1 of the pair is read first whenever it is live and due. */
  lemma LiveHeadIsRead(cfg: DrainConfig, t: OutboxRow, now: nat)
    requires t.sid == RowAt(cfg, 1).sid && t.version == 1 && Live(cfg, t) && Due(t, now)
    ensures var page := PendingPage(cfg, [t, RowAt(cfg, 2)], now); page != [] && page[0] == t
  {
    var rows := [t, RowAt(cfg, 2)];
    assert Selected(cfg, rows, t, now);
  }

  /** One more failed Run on row 1, at a time when it is due. */
  lemma FailOnce(cfg: DrainConfig, t: OutboxRow) returns (t': OutboxRow, now: nat)
    requires !Quarantines(cfg) && Live(cfg, t)
    requires t.sid == RowAt(cfg, 1).sid && t.version == 1 && t.position == 1
    ensures t' == t.(attempts := t.attempts + 1, nextAttemptAt := t'.nextAttemptAt)
    ensures var k, s := OwnShard(cfg), OutSys([t, RowAt(cfg, 2)], map[]);
            Next(cfg, Next(cfg, Next(cfg, Next(cfg, s, Start(k)), Read(k, now)), Handle(k, FAIL)), Stop(k))
            == OutSys([t', RowAt(cfg, 2)], map[])
  {
    var k, rows := OwnShard(cfg), [t, RowAt(cfg, 2)];
    now := if t.nextAttemptAt.None? || t.nextAttemptAt.value <= 0 then 0 else t.nextAttemptAt.value;
    t' := t.(attempts := t.attempts + 1, nextAttemptAt := Some(NextAttemptAt(cfg, t.attempts + 1, 0)));
    LiveHeadIsRead(cfg, t, now);
    var s1 := Next(cfg, OutSys(rows, map[]), Start(k));
    assert s1 == OutSys(rows, map[k := Runner([], {}, {}, {})]);
    var s2 := Next(cfg, s1, Read(k, now));
    assert s2.rows == rows && s2.runners.Keys == {k} && s2.runners[k].page[0] == t && s2.runners[k].halted == {};
    FailedHandle(cfg, s2, t, t');
  }

  lemma FailedHandle(cfg: DrainConfig, s: OutSys, t: OutboxRow, t': OutboxRow)
    requires t.sid == RowAt(cfg, 1).sid && t.position == 1 && s.rows == [t, RowAt(cfg, 2)]
    requires t' == t.(attempts := t.attempts + 1, nextAttemptAt := Some(NextAttemptAt(cfg, t.attempts + 1, 0)))
    requires var k := OwnShard(cfg);
             s.runners.Keys == {k} && s.runners[k].page != [] && s.runners[k].page[0] == t && s.runners[k].halted == {}
    ensures var k := OwnShard(cfg);
            Next(cfg, Next(cfg, s, Handle(k, FAIL)), Stop(k)) == OutSys([t', RowAt(cfg, 2)], map[])
  {
    hide PendingPage, NextAttemptAt;
    var k := OwnShard(cfg);
    assert Offers(cfg, k, s.runners[k]);
    var s1 := Next(cfg, s, Handle(k, FAIL));
    assert s1.rows == [t', RowAt(cfg, 2)];
    assert (s1.runners - {k}).Keys == {};
  }

  /** Row 1 can be made to fail any number of times up to the cap. */
  lemma {:induction false} FailTimes(cfg: DrainConfig, j: nat) returns (steps: seq<OutStep>, t: OutboxRow)
    requires !Quarantines(cfg) && j <= Cap(cfg)
    ensures t == RowAt(cfg, 1).(attempts := j, nextAttemptAt := t.nextAttemptAt)
    ensures Reached(cfg, steps) == OutSys([t, RowAt(cfg, 2)], map[])
    decreases j
  {
    hide Next, OffersInOrder;
    if j == 0 {
      t := RowAt(cfg, 1);
      ReachedSnoc(cfg, [], Enqueue([RowAt(cfg, 1), RowAt(cfg, 2)]));
      EnqueueFirst(cfg);
      steps := [] + [Enqueue([RowAt(cfg, 1), RowAt(cfg, 2)])];
    } else {
      var k := OwnShard(cfg);
      var before, u := FailTimes(cfg, j - 1);
      var now;
      t, now := FailOnce(cfg, u);
      ReachedSnoc(cfg, before, Start(k));
      ReachedSnoc(cfg, before + [Start(k)], Read(k, now));
      ReachedSnoc(cfg, before + [Start(k)] + [Read(k, now)], Handle(k, FAIL));
      ReachedSnoc(cfg, before + [Start(k)] + [Read(k, now)] + [Handle(k, FAIL)], Stop(k));
      steps := before + [Start(k)] + [Read(k, now)] + [Handle(k, FAIL)] + [Stop(k)];
    }
  }

  /** A page read past a dead-lettered row, then a replay of that row. */
  lemma ReplayOvertaken(cfg: DrainConfig, t: OutboxRow)
    requires !Quarantines(cfg) && t == RowAt(cfg, 1).(attempts := Cap(cfg), nextAttemptAt := t.nextAttemptAt)
    ensures var k, s := OwnShard(cfg), OutSys([t, RowAt(cfg, 2)], map[]);
            !OffersPlainly(cfg, Next(cfg, Next(cfg, Next(cfg, s, Start(k)), Read(k, 0)), Replay(1)), k)
  {
    var k, rows := OwnShard(cfg), [t, RowAt(cfg, 2)];
    var s1 := Next(cfg, OutSys(rows, map[]), Start(k));
    assert s1 == OutSys(rows, map[k := Runner([], {}, {}, {})]);
    DeadRowIsSkipped(cfg, t);
    var s2 := Next(cfg, s1, Read(k, 0));
    assert s2.rows == rows && s2.runners[k].page[0] == RowAt(cfg, 2) && s2.runners[k].halted == {};
    var s3 := Next(cfg, s2, Replay(1));
    var back := t.(attempts := 0, nextAttemptAt := None);
    assert s3.rows == [back, RowAt(cfg, 2)] && s3.runners[k].page == s2.runners[k].page && Offers(cfg, k, s3.runners[k]);
    assert back in s3.rows && !Settled(back) && !Dead(cfg, back);
  }

  lemma DeadRowIsSkipped(cfg: DrainConfig, t: OutboxRow)
    requires t == RowAt(cfg, 1).(attempts := Cap(cfg), nextAttemptAt := t.nextAttemptAt)
    ensures PendingPage(cfg, [t, RowAt(cfg, 2)], 0) == [RowAt(cfg, 2)]
  {
    var r := RowAt(cfg, 2);
    var rows := [t, r];
    assert rows[1..] == [r] && rows[1..][1..] == [];
    assert !Selected(cfg, rows, t, 0) && Selected(cfg, rows, r, 0);
    assert PageFrom(cfg, rows, rows[1..], 0, Limit(cfg)) == [r] + PageFrom(cfg, rows, [], 0, Limit(cfg) - 1);
  }

  /** Where dead letters do not pause a stream, a replay during a Run lets a later row overtake the replayed one. */
  lemma ReplayBreaksOrder(cfg: DrainConfig) returns (steps: seq<OutStep>, k: nat)
    requires !Quarantines(cfg)
    ensures !OffersPlainly(cfg, Reached(cfg, steps), k)
  {
    hide Next, OffersPlainly;
    k := OwnShard(cfg);
    var dead, t := FailTimes(cfg, Cap(cfg));
    ReachedSnoc(cfg, dead, Start(k));
    ReachedSnoc(cfg, dead + [Start(k)], Read(k, 0));
    ReachedSnoc(cfg, dead + [Start(k)] + [Read(k, 0)], Replay(1));
    ReplayOvertaken(cfg, t);
    steps := dead + [Start(k)] + [Read(k, 0)] + [Replay(1)];
  }

  /** The plain order holds over every run exactly when no live row can be passed over and dead letters pause
      their stream. */
  lemma PlainOrderIff(cfg: DrainConfig)
    ensures (forall steps, k :: OffersPlainly(cfg, Reached(cfg, steps), k)) <==> InOrder(cfg) && Quarantines(cfg)
  {
    if !Quarantines(cfg) {
      var steps, k := ReplayBreaksOrder(cfg);
    } else if !InOrder(cfg) {
      var steps, k := OrderBreaks(cfg);
      assert !OffersPlainly(cfg, Reached(cfg, steps), k);
    } else {
      forall steps, k ensures OffersPlainly(cfg, Reached(cfg, steps), k) {
        DeliveryInOrder(cfg, steps, k);
      }
    }
  }

  // ---------------------------------------------------------------- a halted stream stays silent

  ghost function RunFrom(cfg: DrainConfig, s: OutSys, steps: seq<OutStep>): OutSys
    decreases |steps|
  {
    if steps == [] then s else RunFrom(cfg, Next(cfg, s, steps[0]), steps[1..])
  }

  /** Runner k is in the same Run throughout. */
  ghost predicate SameRun(cfg: DrainConfig, s: OutSys, steps: seq<OutStep>, k: nat)
    decreases |steps|
  {
    k in s.runners && (steps == [] || SameRun(cfg, Next(cfg, s, steps[0]), steps[1..], k))
  }

  /** An offer whose mark came back halts its stream exactly when it failed, unless it was the last attempt and dead
      letters are skipped over; it halts no other stream, and the Run goes on with the rest of the page. */
  lemma OfferHaltsIff(cfg: DrainConfig, k: nat, rows: seq<OutboxRow>, run: Runner, o: Outcome)
    requires Offers(cfg, k, run) && o.marked
    ensures var skipped := cfg.autoResume && cfg.maxAttempts > 0 && run.page[0].attempts + 1 >= cfg.maxAttempts;
            var after := Process(cfg, k, rows, run, o).1;
            && after.Some? && after.value.page == run.page[1..]
            && (KeyOf(run.page[0].sid) in after.value.halted <==> !o.published && !skipped)
            && (forall key | key != KeyOf(run.page[0].sid) :: key in after.value.halted <==> key in run.halted)
  {
    hide KeyOf, RowsAfter, InShard;
  }

  lemma {:induction false} HaltedIsSilent(cfg: DrainConfig, s: OutSys, steps: seq<OutStep>, k: nat, key: string)
    requires SameRun(cfg, s, steps, k) && key in s.runners[k].halted
    ensures var s' := RunFrom(cfg, s, steps);
            k in s'.runners && (Offers(cfg, k, s'.runners[k]) ==> KeyOf(s'.runners[k].page[0].sid) != key)
    decreases |steps|
  {
    if steps != [] {
      assert key in Next(cfg, s, steps[0]).runners[k].halted;
      HaltedIsSilent(cfg, Next(cfg, s, steps[0]), steps[1..], k, key);
    }
  }

  /** Once a row fails without being skipped over as a dead letter, no row of its stream is offered again in that
      Run, whatever the backoff and whatever other runners, writers and operators do meanwhile. */
  lemma FailedStreamIsSilent(cfg: DrainConfig, s: OutSys, k: nat, o: Outcome, steps: seq<OutStep>)
    requires k in s.runners && Offers(cfg, k, s.runners[k]) && !o.published && o.marked
    requires !(cfg.autoResume && cfg.maxAttempts > 0 && s.runners[k].page[0].attempts + 1 >= cfg.maxAttempts)
    requires SameRun(cfg, Next(cfg, s, Handle(k, o)), steps, k)
    ensures var failed, s' := s.runners[k].page[0], RunFrom(cfg, Next(cfg, s, Handle(k, o)), steps);
            && k in s'.runners
            && (Offers(cfg, k, s'.runners[k]) ==>
                  s'.runners[k].page[0].sid != failed.sid && KeyOf(s'.runners[k].page[0].sid) != KeyOf(failed.sid))
  {
    OfferHaltsIff(cfg, k, s.rows, s.runners[k], o);
    HaltedIsSilent(cfg, Next(cfg, s, Handle(k, o)), steps, k, KeyOf(s.runners[k].page[0].sid));
  }

  // ---------------------------------------------------------------- what an offer does to the table

  /** When a row that has now failed `attempts` times is due again, for settings that fit. */
  predicate DueAgain(cfg: DrainConfig, attempts: nat, at: nat, due: Option<int>)
    requires attempts >= 1
  {
    if cfg.backoffBase <= 0 then due == Some(ZERO_TIME)
    else
      && (cfg.backoffMax > 0 && Fits(cfg.backoffBase, cfg.backoffMax) ==>
            due == Some(at + Min(cfg.backoffMax, cfg.backoffBase * Pow2(attempts - 1))))
      && (cfg.backoffMax <= 0 && cfg.backoffBase * Pow2(attempts - 1) <= MAX_INT64 ==>
            due == Some(at + cfg.backoffBase * Pow2(attempts - 1)))
  }

  /** Handing row i to the publisher changes row i only, and only if the mark was applied: a published row is
      published and nothing else; a failed one has one more attempt and is due again after the delay. */
  lemma OfferedRow(cfg: DrainConfig, rows: seq<OutboxRow>, i: nat, o: Outcome)
    requires Ordered(rows) && i < |rows| && cfg.backoffBase <= MAX_INT64 && Int64(cfg.backoffMax)
    ensures var rows' := RowsAfter(cfg, rows, rows[i], o);
            && |rows'| == |rows| && (forall j | 0 <= j < |rows| && j != i :: rows'[j] == rows[j])
            && (!o.marked && !o.applied ==> rows'[i] == rows[i])
            && (o.marked || o.applied ==>
                  && rows'[i].sid == rows[i].sid && rows'[i].version == rows[i].version && rows'[i].position == rows[i].position
                  && rows'[i].eventId == rows[i].eventId
                  && (o.published ==>
                        && rows'[i].status == Published && rows'[i].attempts == rows[i].attempts
                        && rows'[i].nextAttemptAt == rows[i].nextAttemptAt)
                  && (!o.published ==>
                        && rows'[i].status == rows[i].status && rows'[i].attempts == rows[i].attempts + 1
                        && DueAgain(cfg, rows[i].attempts + 1, o.at, rows'[i].nextAttemptAt)))
  {
    hide Fits, Delay, Pow2;
    if cfg.backoffBase > 0 {
      if cfg.backoffMax > 0 {
        if Fits(cfg.backoffBase, cfg.backoffMax) {
          DelayIsIdealIff(cfg.backoffBase, cfg.backoffMax);
          assert IdealAt(cfg.backoffBase, cfg.backoffMax, rows[i].attempts + 1);
        }
      } else {
        UncappedIffRepresentable(cfg.backoffBase, cfg.backoffMax, rows[i].attempts + 1);
      }
    }
  }

  // ---------------------------------------------------------------- where the rows come from

  predicate CopyOf(r: OutboxRow, e: Envelope) {
    r.sid == e.hashed.sid && r.version == e.hashed.version && r.position == e.position && r.eventId == e.hashed.eventId
  }

  /** The outbox holds one row per event, in order. */
  ghost predicate Copies(db: Db) {
    |db.outbox| == |db.events| && forall i | 0 <= i < |db.events| :: CopyOf(db.outbox[i], db.events[i])
  }

  lemma VersionAt(events: seq<Envelope>, i: nat)
    requires Contiguous(events) && i < |events|
    ensures events[i].hashed.version == |StreamLog(events[..i + 1], events[i].hashed.sid)|
  {
    var sid := events[i].hashed.sid;
    assert events == events[..i + 1] + events[i + 1..];
    StreamLogConcat(events[..i + 1], events[i + 1..], sid);
    assert events[..i + 1][..i] == events[..i];
    var log := StreamLog(events[..i + 1], sid);
    assert log[|log| - 1] == events[i];
    assert ContiguousLog(StreamLog(events, sid));
    assert StreamLog(events, sid)[|log| - 1] == events[i];
  }

  lemma VersionsGrow(events: seq<Envelope>, i: nat, j: nat)
    requires Contiguous(events) && i < j < |events| && events[i].hashed.sid == events[j].hashed.sid
    ensures events[i].hashed.version < events[j].hashed.version
  {
    var sid := events[i].hashed.sid;
    VersionAt(events, i);
    VersionAt(events, j);
    assert events[..j + 1] == events[..i + 1] + events[i + 1..j + 1];
    StreamLogConcat(events[..i + 1], events[i + 1..j + 1], sid);
    var rest := events[i + 1..j + 1];
    assert rest[|rest| - 1] == events[j];
    assert |StreamLog(rest, sid)| > 0;
  }

  lemma CopiesAreOrdered(db: Db)
    requires Contiguous(db.events) && Positioned(db.events) && Copies(db)
    ensures Ordered(db.outbox)
  {
    forall i, j | 0 <= i < j < |db.outbox|
      ensures db.outbox[i].position < db.outbox[j].position
      ensures db.outbox[i].sid == db.outbox[j].sid ==> db.outbox[i].version < db.outbox[j].version
    {
      assert CopyOf(db.outbox[i], db.events[i]) && CopyOf(db.outbox[j], db.events[j]);
      if db.outbox[i].sid == db.outbox[j].sid {
        VersionsGrow(db.events, i, j);
      }
    }
  }

  /** A committed Append is an Enqueue step: the outbox gets exactly one fresh row per event, in order,
      whatever the drain has done to the older rows meanwhile. */
  lemma AppendEnqueues(ch: ChainFns, db: Db, p: AppendParams) returns (more: seq<OutboxRow>)
    requires Contiguous(db.events) && Positioned(db.events) && Copies(db)
    requires AppendTx(ch, db, p).1.Ok? && p.expected <= |StreamLog(db.events, p.sid)|
    ensures AppendTx(ch, db, p).0.outbox == db.outbox + more && EnqueueOk(db.outbox, more)
    ensures |more| == |p.events| && Copies(AppendTx(ch, db, p).0)
  {
    var rows := AppendAddsRows(ch, db, p);
    var db' := AppendTx(ch, db, p).0;
    AppendKeepsContiguity(ch, db, p);
    AppendKeepsPositions(ch, db, p);
    more := OutboxRowsFor(rows);
    forall i | 0 <= i < |db'.events| ensures CopyOf(db'.outbox[i], db'.events[i]) {
      if i >= |db.events| {
        assert db'.outbox[i] == OutboxRowFor(rows[i - |db.events|]);
      }
    }
    CopiesAreOrdered(db');
  }
}
