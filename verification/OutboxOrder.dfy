/** Per-stream delivery order of the outbox drain over every interleaving. */
module OutboxOrder {
  import opened Basics
  import opened StreamIds
  import opened Store
  import opened Shards
  import opened Outbox

  /** The settings under which no live row of a stream can be passed over. */
  predicate InOrder(cfg: DrainConfig) { cfg.headRule || cfg.backoffBase <= 0 || cfg.maxAttempts == 1 }

  predicate SameRow(a: OutboxRow, b: OutboxRow) {
    a.sid == b.sid && a.version == b.version && a.position == b.position
  }

  predicate Listed(page: seq<OutboxRow>, a: nat, q: OutboxRow)
    requires a <= |page|
  {
    exists b | 0 <= b < a :: page[b].position == q.position
  }

  /** Why row q does not stand in the way of the a-th row of the page. */
  predicate Cleared(cfg: DrainConfig, run: Runner, a: nat, q: OutboxRow)
    requires a <= |run.page|
  {
    Settled(q) || Listed(run.page, a, q) || (!Quarantines(cfg) && q.position in run.dead)
  }

  predicate Open(cfg: DrainConfig, k: nat, run: Runner, r: OutboxRow) {
    InShard(r.sid, k, cfg.totalShards) && KeyOf(r.sid) !in run.halted
  }

  ghost predicate Covered(cfg: DrainConfig, k: nat, rows: seq<OutboxRow>, run: Runner) {
    forall a, q | 0 <= a < |run.page| && q in rows && Open(cfg, k, run, run.page[a])
      && q.sid == run.page[a].sid && q.version < run.page[a].version :: Cleared(cfg, run, a, q)
  }

  predicate Stored(rows: seq<OutboxRow>, r: OutboxRow) { exists q :: q in rows && SameRow(q, r) }

  predicate HasPosition(rows: seq<OutboxRow>, p: nat) { exists q :: q in rows && q.position == p }

  ghost predicate Snapshots(rows: seq<OutboxRow>, run: Runner) {
    && (forall a | 0 <= a < |run.page| :: Stored(rows, run.page[a]))
    && (forall a, q | 0 <= a < |run.page| && q in rows && q.position == run.page[a].position
          && q.position !in run.replayed :: q.attempts >= run.page[a].attempts)
  }

  /** What `dead` records: those rows are settled by now, or still dead-lettered, or were replayed. */
  ghost predicate DeadKnown(cfg: DrainConfig, rows: seq<OutboxRow>, run: Runner) {
    && (forall p | p in run.dead :: HasPosition(rows, p))
    && (forall q | q in rows && q.position in run.dead && q.position !in run.replayed :: Settled(q) || Dead(cfg, q))
  }

  ghost predicate DeadHalted(cfg: DrainConfig, k: nat, rows: seq<OutboxRow>, run: Runner) {
    Quarantines(cfg) ==>
      forall q | q in rows && InShard(q.sid, k, cfg.totalShards) && TenantOk(cfg, q) && Dead(cfg, q)
        :: KeyOf(q.sid) in run.halted
  }

  ghost predicate RunnerGood(cfg: DrainConfig, k: nat, rows: seq<OutboxRow>, run: Runner) {
    Covered(cfg, k, rows, run) && Snapshots(rows, run) && DeadKnown(cfg, rows, run) && DeadHalted(cfg, k, rows, run)
  }

  predicate DelayOk(cfg: DrainConfig, r: OutboxRow) {
    && (r.attempts == 0 ==> r.nextAttemptAt.None?)
    && (cfg.backoffBase <= 0 ==> Due(r, 0))
  }

  ghost predicate RowsGood(cfg: DrainConfig, rows: seq<OutboxRow>) {
    Ordered(rows) && forall r | r in rows :: DelayOk(cfg, r)
  }

  ghost predicate OutInv(cfg: DrainConfig, s: OutSys) {
    && RowsGood(cfg, s.rows)
    && forall k | k in s.runners :: ValidShard(cfg, k) && RunnerGood(cfg, k, s.rows, s.runners[k])
  }

  // ---------------------------------------------------------------- the table only moves forward

  /** Row by row: identity kept, settled rows stay settled, attempts grow except where reset. */
  predicate RowAdvances(r: OutboxRow, r': OutboxRow, reset: set<nat>) {
    && SameRow(r, r')
    && (Settled(r) ==> Settled(r'))
    && (r.position !in reset ==> r'.attempts >= r.attempts)
  }

  ghost predicate Advances(rows: seq<OutboxRow>, rows': seq<OutboxRow>, reset: set<nat>) {
    && |rows| <= |rows'|
    && (forall i | 0 <= i < |rows| :: RowAdvances(rows[i], rows'[i], reset))
    && (forall i | |rows| <= i < |rows'| :: Fresh(rows'[i]))
    && Ordered(rows')
  }

  lemma UpdateAdvances(rows: seq<OutboxRow>, p: nat, f: OutboxRow -> OutboxRow, reset: set<nat>)
    requires Ordered(rows)
    requires forall r | r in rows && r.position == p :: RowAdvances(r, f(r), reset)
    ensures Advances(rows, UpdateAt(rows, p, f), reset)
  {
    var rows' := UpdateAt(rows, p, f);
    forall i | 0 <= i < |rows| ensures RowAdvances(rows[i], rows'[i], reset) {
      assert rows[i] in rows;
    }
  }

  /** A row of the new table is an advanced row of the old one, or a fresh row later in its stream than
      every old row. */
  lemma OldRow(rows: seq<OutboxRow>, rows': seq<OutboxRow>, reset: set<nat>, q': OutboxRow) returns (q: Option<OutboxRow>)
    requires Advances(rows, rows', reset) && q' in rows'
    ensures q.Some? ==> q.value in rows && RowAdvances(q.value, q', reset)
    ensures q.None? ==> Fresh(q') && forall r | r in rows :: r.position < q'.position
    ensures q.None? ==> forall r | r in rows && r.sid == q'.sid :: r.version < q'.version
  {
    var i :| 0 <= i < |rows'| && rows'[i] == q';
    if i < |rows| {
      q := Some(rows[i]);
    } else {
      q := None;
      forall r | r in rows
        ensures r.position < q'.position
        ensures r.sid == q'.sid ==> r.version < q'.version
      {
        var j :| 0 <= j < |rows| && rows[j] == r;
        assert RowAdvances(rows[j], rows'[j], reset);
      }
    }
  }

  lemma StillStored(rows: seq<OutboxRow>, rows': seq<OutboxRow>, reset: set<nat>, r: OutboxRow)
    requires Advances(rows, rows', reset) && Stored(rows, r)
    ensures Stored(rows', r)
  {
    var q :| q in rows && SameRow(q, r);
    var i :| 0 <= i < |rows| && rows[i] == q;
    assert RowAdvances(rows[i], rows'[i], reset);
    assert rows'[i] in rows';
  }

  /** A runner keeps its facts while others move the table forward. */
  lemma RunnerKept(cfg: DrainConfig, k: nat, rows: seq<OutboxRow>, rows': seq<OutboxRow>, run: Runner, reset: set<nat>)
    requires Advances(rows, rows', reset)
    requires Covered(cfg, k, rows, run) && Snapshots(rows, run) && DeadKnown(cfg, rows, run)
    ensures var run' := run.(replayed := run.replayed + reset);
            Covered(cfg, k, rows', run') && Snapshots(rows', run') && DeadKnown(cfg, rows', run')
  {
    CoveredKept(cfg, k, rows, rows', run, reset);
    SnapshotsKept(rows, rows', run, reset);
    DeadKnownKept(cfg, rows, rows', run, reset);
  }

  lemma CoveredKept(cfg: DrainConfig, k: nat, rows: seq<OutboxRow>, rows': seq<OutboxRow>, run: Runner, reset: set<nat>)
    requires Advances(rows, rows', reset)
    requires Covered(cfg, k, rows, run) && Snapshots(rows, run)
    ensures Covered(cfg, k, rows', run.(replayed := run.replayed + reset))
  {
    var run' := run.(replayed := run.replayed + reset);
    forall a, q' | 0 <= a < |run'.page| && q' in rows' && Open(cfg, k, run', run'.page[a])
      && q'.sid == run'.page[a].sid && q'.version < run'.page[a].version
      ensures Cleared(cfg, run', a, q')
    {
      var q := OldRow(rows, rows', reset, q');
      assert Stored(rows, run.page[a]);
      assert q.Some?;
      assert Open(cfg, k, run, run.page[a]);
      assert Cleared(cfg, run, a, q.value);
    }
  }

  lemma SnapshotsKept(rows: seq<OutboxRow>, rows': seq<OutboxRow>, run: Runner, reset: set<nat>)
    requires Advances(rows, rows', reset) && Snapshots(rows, run)
    ensures Snapshots(rows', run.(replayed := run.replayed + reset))
  {
    var run' := run.(replayed := run.replayed + reset);
    forall a | 0 <= a < |run'.page| ensures Stored(rows', run'.page[a]) {
      StillStored(rows, rows', reset, run.page[a]);
    }
    forall a, q' | 0 <= a < |run'.page| && q' in rows' && q'.position == run'.page[a].position
      && q'.position !in run'.replayed
      ensures q'.attempts >= run'.page[a].attempts
    {
      var q := OldRow(rows, rows', reset, q');
      assert Stored(rows, run.page[a]);
    }
  }

  lemma DeadKnownKept(cfg: DrainConfig, rows: seq<OutboxRow>, rows': seq<OutboxRow>, run: Runner, reset: set<nat>)
    requires Advances(rows, rows', reset) && DeadKnown(cfg, rows, run)
    ensures DeadKnown(cfg, rows', run.(replayed := run.replayed + reset))
  {
    var run' := run.(replayed := run.replayed + reset);
    forall p | p in run'.dead ensures HasPosition(rows', p) {
      var q :| q in rows && q.position == p;
      var i :| 0 <= i < |rows| && rows[i] == q;
      assert RowAdvances(rows[i], rows'[i], reset);
      assert rows'[i] in rows';
    }
    forall q' | q' in rows' && q'.position in run'.dead && q'.position !in run'.replayed
      ensures Settled(q') || Dead(cfg, q')
    {
      var q := OldRow(rows, rows', reset, q');
      assert HasPosition(rows, q'.position);
    }
  }

  // ---------------------------------------------------------------- reading a page

  predicate Before(page: seq<OutboxRow>, a: nat, q: OutboxRow)
    requires a <= |page|
  {
    exists b | 0 <= b < a :: page[b] == q
  }

  ghost predicate FromTable(cfg: DrainConfig, all: seq<OutboxRow>, rows: seq<OutboxRow>, now: nat,
                            page: seq<OutboxRow>, a: nat, j: nat)
    requires a < |page| && j < |rows|
  {
    && page[a] == rows[j] && Selected(cfg, all, rows[j], now) && TenantOk(cfg, rows[j])
    && forall i | 0 <= i < j && Selected(cfg, all, rows[i], now) && TenantOk(cfg, rows[i]) :: Before(page, a, rows[i])
  }

  /** The page is a prefix of the selected rows: nothing selected is left out before a listed row. */
  lemma {:induction false} PageShape(cfg: DrainConfig, all: seq<OutboxRow>, rows: seq<OutboxRow>, now: nat, limit: nat, a: nat)
    returns (j: nat)
    requires a < |PageFrom(cfg, all, rows, now, limit)|
    ensures j < |rows| && FromTable(cfg, all, rows, now, PageFrom(cfg, all, rows, now, limit), a, j)
    decreases |rows|
  {
    hide Selected, TenantOk;
    var page := PageFrom(cfg, all, rows, now, limit);
    var first := Selected(cfg, all, rows[0], now) && TenantOk(cfg, rows[0]);
    if first && a == 0 {
      j := 0;
    } else {
      var left := if Selected(cfg, all, rows[0], now) then limit - 1 else limit;
      var rest := PageFrom(cfg, all, rows[1..], now, left);
      var a' := if first then a - 1 else a;
      assert page == (if first then [rows[0]] else []) + rest;
      var j' := PageShape(cfg, all, rows[1..], now, left, a');
      j := j' + 1;
      forall i | 0 <= i < j && Selected(cfg, all, rows[i], now) && TenantOk(cfg, rows[i])
        ensures Before(page, a, rows[i])
      {
        if i == 0 {
          assert page[0] == rows[0];
        } else {
          assert rows[1..][i - 1] == rows[i];
          assert Before(rest, a', rows[i]);
          var b :| 0 <= b < a' && rest[b] == rows[i];
          assert page[if first then b + 1 else b] == rows[i];
        }
      }
    }
  }

  /** A live row is due whenever the settings keep the order without the head rule. */
  lemma LiveIsDue(cfg: DrainConfig, r: OutboxRow, now: nat)
    requires InOrder(cfg) && !cfg.headRule && DelayOk(cfg, r) && Live(cfg, r)
    ensures Due(r, now)
  {
  }

  lemma ReadCovers(cfg: DrainConfig, k: nat, rows: seq<OutboxRow>, run: Runner, now: nat, a: nat, q: OutboxRow)
    requires InOrder(cfg) && RowsGood(cfg, rows) && DeadHalted(cfg, k, rows, run)
    requires var run' := ReadPage(cfg, rows, run, now);
             a < |run'.page| && q in rows && Open(cfg, k, run', run'.page[a])
             && q.sid == run'.page[a].sid && q.version < run'.page[a].version
    ensures Cleared(cfg, ReadPage(cfg, rows, run, now), a, q)
  {
    var run' := ReadPage(cfg, rows, run, now);
    var j := PageShape(cfg, rows, rows, now, Limit(cfg), a);
    if Live(cfg, q) {
      assert !cfg.headRule;
      LiveIsDue(cfg, q, now);
      var i :| 0 <= i < |rows| && rows[i] == q;
      assert i < j;
      assert Before(run'.page, a, q);
    }
  }

  lemma ReadGood(cfg: DrainConfig, k: nat, rows: seq<OutboxRow>, run: Runner, now: nat)
    requires InOrder(cfg) && RowsGood(cfg, rows) && RunnerGood(cfg, k, rows, run)
    ensures RunnerGood(cfg, k, rows, ReadPage(cfg, rows, run, now))
  {
    var run' := ReadPage(cfg, rows, run, now);
    forall a, q | 0 <= a < |run'.page| && q in rows && Open(cfg, k, run', run'.page[a])
      && q.sid == run'.page[a].sid && q.version < run'.page[a].version
      ensures Cleared(cfg, run', a, q)
    {
      ReadCovers(cfg, k, rows, run, now, a, q);
    }
    ReadSnapshots(cfg, rows, run, now);
    ReadDeadKnown(cfg, rows, run, now);
  }

  lemma ReadSnapshots(cfg: DrainConfig, rows: seq<OutboxRow>, run: Runner, now: nat)
    requires Ordered(rows)
    ensures Snapshots(rows, ReadPage(cfg, rows, run, now))
  {
    var page := ReadPage(cfg, rows, run, now).page;
    forall a | 0 <= a < |page|
      ensures Stored(rows, page[a])
      ensures forall q | q in rows && q.position == page[a].position :: q == page[a]
    {
      var j := PageShape(cfg, rows, rows, now, Limit(cfg), a);
      assert rows[j] in rows && SameRow(rows[j], page[a]);
    }
  }

  lemma ReadDeadKnown(cfg: DrainConfig, rows: seq<OutboxRow>, run: Runner, now: nat)
    requires Ordered(rows) && DeadKnown(cfg, rows, run)
    ensures DeadKnown(cfg, rows, ReadPage(cfg, rows, run, now))
  {
    forall p | p in DeadPositions(cfg, rows)
      ensures HasPosition(rows, p)
      ensures forall q | q in rows && q.position == p :: Dead(cfg, q)
    {
      var r :| r in rows && Dead(cfg, r) && r.position == p;
    }
  }

  // ---------------------------------------------------------------- handling a row

  lemma HandleAdvances(cfg: DrainConfig, k: nat, rows: seq<OutboxRow>, run: Runner, o: Outcome)
    requires run.page != [] && RowsGood(cfg, rows)
    ensures Advances(rows, Process(cfg, k, rows, run, o).0, {})
    ensures RowsGood(cfg, Process(cfg, k, rows, run, o).0)
  {
    var r := run.page[0];
    var next := NextAttemptAt(cfg, r.attempts + 1, o.at);
    UpdateAdvances(rows, r.position, (x: OutboxRow) => x.(status := Published), {});
    UpdateAdvances(rows, r.position, (x: OutboxRow) => x.(attempts := x.attempts + 1, nextAttemptAt := Some(next)), {});
    assert Advances(rows, rows, {});
    var rows' := Process(cfg, k, rows, run, o).0;
    forall x | x in rows' ensures DelayOk(cfg, x) {
      var i :| 0 <= i < |rows'| && rows'[i] == x;
      assert DelayOk(cfg, rows[i]);
    }
  }

  /** A row of another shard is untouched. */
  lemma HandleStaysInShard(cfg: DrainConfig, k: nat, rows: seq<OutboxRow>, run: Runner, o: Outcome, i: nat)
    requires run.page != [] && Ordered(rows) && Stored(rows, run.page[0]) && i < |rows|
    requires !InShard(rows[i].sid, k, cfg.totalShards)
    ensures Process(cfg, k, rows, run, o).0[i] == rows[i]
  {
    var q :| q in rows && SameRow(q, run.page[0]);
    assert q.position == rows[i].position ==> q == rows[i];
  }

  lemma OthersDeadHalted(cfg: DrainConfig, k: nat, j: nat, rows: seq<OutboxRow>, run: Runner, other: Runner, o: Outcome)
    requires run.page != [] && Ordered(rows) && Stored(rows, run.page[0])
    requires k != j && ValidShard(cfg, k) && ValidShard(cfg, j)
    requires DeadHalted(cfg, j, rows, other)
    ensures DeadHalted(cfg, j, Process(cfg, k, rows, run, o).0, other)
  {
    var rows' := Process(cfg, k, rows, run, o).0;
    forall q | Quarantines(cfg) && q in rows' && InShard(q.sid, j, cfg.totalShards) && TenantOk(cfg, q) && Dead(cfg, q)
      ensures KeyOf(q.sid) in other.halted
    {
      var i :| 0 <= i < |rows'| && rows'[i] == q;
      HandleStaysInShard(cfg, k, rows, run, o, i);
      assert rows[i] in rows;
    }
  }

  /** What handling the head of the page does to one row of the table, and to the halted streams. */
  lemma HandledRow(cfg: DrainConfig, k: nat, rows: seq<OutboxRow>, run: Runner, o: Outcome, i: nat)
    requires run.page != [] && i < |rows|
    ensures var (rows', run') := Process(cfg, k, rows, run, o);
            && |rows'| == |rows|
            && (rows'[i] == rows[i] || (rows[i].position == run.page[0].position && Offers(cfg, k, run)))
            && (o.published ==> rows'[i] == rows[i] || rows'[i].status == Published)
            && (run'.Some? ==> run.halted <= run'.value.halted)
  {
  }

  lemma QuarantineHalts(cfg: DrainConfig, k: nat, rows: seq<OutboxRow>, run: Runner, o: Outcome)
    requires Offers(cfg, k, run) && !o.published && Quarantines(cfg) && Process(cfg, k, rows, run, o).1.Some?
    ensures KeyOf(run.page[0].sid) in Process(cfg, k, rows, run, o).1.value.halted
  {
  }

  lemma OwnDeadHalted(cfg: DrainConfig, k: nat, rows: seq<OutboxRow>, run: Runner, o: Outcome)
    requires run.page != [] && RowsGood(cfg, rows) && Stored(rows, run.page[0])
    requires DeadHalted(cfg, k, rows, run)
    requires Process(cfg, k, rows, run, o).1.Some?
    ensures DeadHalted(cfg, k, Process(cfg, k, rows, run, o).0, Process(cfg, k, rows, run, o).1.value)
  {
    var rows', run' := Process(cfg, k, rows, run, o).0, Process(cfg, k, rows, run, o).1.value;
    HandleAdvances(cfg, k, rows, run, o);
    forall q | Quarantines(cfg) && q in rows' && InShard(q.sid, k, cfg.totalShards) && TenantOk(cfg, q) && Dead(cfg, q)
      ensures KeyOf(q.sid) in run'.halted
    {
      var i :| 0 <= i < |rows'| && rows'[i] == q;
      OwnRowHalted(cfg, k, rows, run, o, i);
    }
  }

  lemma OwnRowHalted(cfg: DrainConfig, k: nat, rows: seq<OutboxRow>, run: Runner, o: Outcome, i: nat)
    requires run.page != [] && Ordered(rows) && Stored(rows, run.page[0]) && i < |rows|
    requires DeadHalted(cfg, k, rows, run) && Quarantines(cfg)
    requires Process(cfg, k, rows, run, o).1.Some?
    requires var q := Process(cfg, k, rows, run, o).0[i];
             SameRow(rows[i], q) && InShard(q.sid, k, cfg.totalShards) && TenantOk(cfg, q) && Dead(cfg, q)
    ensures KeyOf(rows[i].sid) in Process(cfg, k, rows, run, o).1.value.halted
  {
    HandledRow(cfg, k, rows, run, o, i);
    if Process(cfg, k, rows, run, o).0[i] == rows[i] {
      assert rows[i] in rows;
    } else {
      var r :| r in rows && SameRow(r, run.page[0]);
      assert rows[i] == r;
      QuarantineHalts(cfg, k, rows, run, o);
    }
  }

  lemma OwnSnapshots(cfg: DrainConfig, k: nat, rows: seq<OutboxRow>, run: Runner, o: Outcome)
    requires run.page != [] && RowsGood(cfg, rows) && Snapshots(rows, run)
    requires Process(cfg, k, rows, run, o).1.Some?
    ensures Snapshots(Process(cfg, k, rows, run, o).0, Process(cfg, k, rows, run, o).1.value)
  {
    HandleAdvances(cfg, k, rows, run, o);
    SnapshotsKept(rows, Process(cfg, k, rows, run, o).0, run, {});
    assert run.(replayed := run.replayed + {}) == run;
  }

  /** A row declared dead by this Run really is: the snapshot had at most the stored attempts. */
  lemma DeclaredDead(cfg: DrainConfig, k: nat, rows: seq<OutboxRow>, run: Runner, o: Outcome, i: nat)
    requires run.page != [] && Snapshots(rows, run) && Process(cfg, k, rows, run, o).1.Some?
    requires Process(cfg, k, rows, run, o).1.value.dead != run.dead && i < |rows|
    requires rows[i].position == run.page[0].position && rows[i].position !in run.replayed
    ensures var q := Process(cfg, k, rows, run, o).0[i]; Settled(q) || Dead(cfg, q)
  {
    assert rows[i] in rows;
  }

  lemma DeadGrows(cfg: DrainConfig, k: nat, rows: seq<OutboxRow>, run: Runner, o: Outcome)
    requires run.page != [] && Process(cfg, k, rows, run, o).1.Some?
    ensures var run' := Process(cfg, k, rows, run, o).1.value;
            && run'.replayed == run.replayed
            && (run'.dead == run.dead || run'.dead == run.dead + {run.page[0].position})
  {
  }

  lemma OwnDeadKnown(cfg: DrainConfig, k: nat, rows: seq<OutboxRow>, run: Runner, o: Outcome)
    requires run.page != [] && RowsGood(cfg, rows) && Snapshots(rows, run) && DeadKnown(cfg, rows, run)
    requires Process(cfg, k, rows, run, o).1.Some?
    ensures DeadKnown(cfg, Process(cfg, k, rows, run, o).0, Process(cfg, k, rows, run, o).1.value)
  {
    hide Process, Snapshots, Ordered, DelayOk, Dead;
    var rows', run' := Process(cfg, k, rows, run, o).0, Process(cfg, k, rows, run, o).1.value;
    var r := run.page[0];
    HandleAdvances(cfg, k, rows, run, o);
    DeadKnownKept(cfg, rows, rows', run, {});
    assert run.(replayed := run.replayed + {}) == run;
    DeadGrows(cfg, k, rows, run, o);
    if run'.dead != run.dead {
      HeadStored(rows, run);
      StillStored(rows, rows', {}, r);
      var x :| x in rows' && SameRow(x, r);
      forall q | q in rows' && q.position == r.position && q.position !in run.replayed
        ensures Settled(q) || Dead(cfg, q)
      {
        var i :| 0 <= i < |rows'| && rows'[i] == q;
        SameLength(cfg, k, rows, run, o, i);
        DeclaredDead(cfg, k, rows, run, o, i);
      }
    }
  }

  lemma SameLength(cfg: DrainConfig, k: nat, rows: seq<OutboxRow>, run: Runner, o: Outcome, i: nat)
    requires run.page != [] && i < |Process(cfg, k, rows, run, o).0|
    ensures i < |rows| && SameRow(rows[i], Process(cfg, k, rows, run, o).0[i])
  {
  }

  lemma RestOfRun(cfg: DrainConfig, k: nat, rows: seq<OutboxRow>, run: Runner, o: Outcome)
    requires run.page != [] && Process(cfg, k, rows, run, o).1.Some?
    ensures var run' := Process(cfg, k, rows, run, o).1.value;
            run'.page == run.page[1..] && run.halted <= run'.halted && run.dead <= run'.dead
  {
  }

  lemma OwnCovered(cfg: DrainConfig, k: nat, rows: seq<OutboxRow>, run: Runner, o: Outcome)
    requires run.page != [] && RowsGood(cfg, rows) && Snapshots(rows, run) && Covered(cfg, k, rows, run)
    requires Process(cfg, k, rows, run, o).1.Some?
    ensures Covered(cfg, k, Process(cfg, k, rows, run, o).0, Process(cfg, k, rows, run, o).1.value)
  {
    hide DelayOk, Advances, Process;
    var rows', run' := Process(cfg, k, rows, run, o).0, Process(cfg, k, rows, run, o).1.value;
    RestOfRun(cfg, k, rows, run, o);
    HandleAdvances(cfg, k, rows, run, o);
    CoveredKept(cfg, k, rows, rows', run, {});
    assert run.(replayed := run.replayed + {}) == run;
    forall a, q | 0 <= a < |run'.page| && q in rows' && Open(cfg, k, run', run'.page[a])
      && q.sid == run'.page[a].sid && q.version < run'.page[a].version
      ensures Cleared(cfg, run', a, q)
    {
      assert run'.page[a] == run.page[a + 1];
      assert Cleared(cfg, run, a + 1, q);
      if !Settled(q) && Listed(run.page, a + 1, q) {
        var b :| 0 <= b < a + 1 && run.page[b].position == q.position;
        if b > 0 {
          assert run'.page[b - 1] == run.page[b];
          assert Listed(run'.page, a, q);
        } else {
          HeadHandled(cfg, k, rows, run, o, q);
        }
      }
    }
  }

  /** Once its page entry is handled, a row is settled, or its stream is out of this Run's reach, or the
      row was declared dead in skip mode. */
  lemma HeadHandled(cfg: DrainConfig, k: nat, rows: seq<OutboxRow>, run: Runner, o: Outcome, q: OutboxRow)
    requires run.page != [] && RowsGood(cfg, rows) && Snapshots(rows, run)
    requires Process(cfg, k, rows, run, o).1.Some?
    requires q in Process(cfg, k, rows, run, o).0 && q.position == run.page[0].position
    ensures var run' := Process(cfg, k, rows, run, o).1.value;
            Settled(q) || !Open(cfg, k, run', q) || (!Quarantines(cfg) && q.position in run'.dead)
  {
    hide Snapshots, Advances, KeyOf, DelayOk;
    var rows' := Process(cfg, k, rows, run, o).0;
    HeadStored(rows, run);
    var r :| r in rows && SameRow(r, run.page[0]);
    var i :| 0 <= i < |rows'| && rows'[i] == q;
    assert |rows'| == |rows| && SameRow(rows[i], rows'[i]);
    assert rows[i] == r;
  }

  // ---------------------------------------------------------------- the system's steps

  lemma HeadStored(rows: seq<OutboxRow>, run: Runner)
    requires Snapshots(rows, run) && run.page != []
    ensures Stored(rows, run.page[0])
  {
  }

  lemma HandleKeepsInv(cfg: DrainConfig, s: OutSys, k: nat, o: Outcome)
    requires OutInv(cfg, s)
    ensures OutInv(cfg, Next(cfg, s, Handle(k, o)))
  {
    hide Covered, Snapshots, DeadKnown, DeadHalted, Process, Advances, Stored;
    if k in s.runners && s.runners[k].page != [] {
      var run := s.runners[k];
      var (rows', run') := Process(cfg, k, s.rows, run, o);
      var s' := Next(cfg, s, Handle(k, o));
      HeadStored(s.rows, run);
      HandleAdvances(cfg, k, s.rows, run, o);
      forall j | j in s'.runners ensures ValidShard(cfg, j) && RunnerGood(cfg, j, rows', s'.runners[j]) {
        if j == k {
          OwnCovered(cfg, k, s.rows, run, o);
          OwnSnapshots(cfg, k, s.rows, run, o);
          OwnDeadKnown(cfg, k, s.rows, run, o);
          OwnDeadHalted(cfg, k, s.rows, run, o);
        } else {
          var other := s.runners[j];
          RunnerKept(cfg, j, s.rows, rows', other, {});
          assert other.(replayed := other.replayed + {}) == other;
          OthersDeadHalted(cfg, k, j, s.rows, run, other, o);
        }
      }
    }
  }

  /** Steps that touch the table only: nobody becomes dead by them. */
  lemma TableStepKeepsRunner(cfg: DrainConfig, k: nat, rows: seq<OutboxRow>, rows': seq<OutboxRow>, run: Runner, reset: set<nat>)
    requires Advances(rows, rows', reset) && RunnerGood(cfg, k, rows, run)
    requires forall i | 0 <= i < |rows| && Dead(cfg, rows'[i]) :: Dead(cfg, rows[i])
    ensures RunnerGood(cfg, k, rows', run.(replayed := run.replayed + reset))
  {
    RunnerKept(cfg, k, rows, rows', run, reset);
    forall q | Quarantines(cfg) && q in rows' && InShard(q.sid, k, cfg.totalShards) && TenantOk(cfg, q) && Dead(cfg, q)
      ensures KeyOf(q.sid) in run.halted
    {
      var i :| 0 <= i < |rows'| && rows'[i] == q;
      assert i < |rows|;
      assert RowAdvances(rows[i], rows'[i], reset);
      assert rows[i] in rows;
    }
  }

  lemma EnqueueKeepsInv(cfg: DrainConfig, s: OutSys, more: seq<OutboxRow>)
    requires OutInv(cfg, s)
    ensures OutInv(cfg, Next(cfg, s, Enqueue(more)))
  {
    if EnqueueOk(s.rows, more) {
      var rows' := s.rows + more;
      assert Advances(s.rows, rows', {}) by {
        forall i | |s.rows| <= i < |rows'| ensures Fresh(rows'[i]) {
          assert rows'[i] == more[i - |s.rows|];
        }
      }
      forall k | k in s.runners ensures RunnerGood(cfg, k, rows', s.runners[k]) {
        TableStepKeepsRunner(cfg, k, s.rows, rows', s.runners[k], {});
        assert s.runners[k].(replayed := s.runners[k].replayed + {}) == s.runners[k];
      }
    }
  }

  lemma ReplayKeepsInv(cfg: DrainConfig, s: OutSys, p: nat)
    requires OutInv(cfg, s)
    ensures OutInv(cfg, Next(cfg, s, Replay(p)))
  {
    hide RunnerGood, Advances, Ordered;
    var rows' := ReplayRow(s.rows, p);
    var s' := Next(cfg, s, Replay(p));
    UpdateAdvances(s.rows, p, (r: OutboxRow) => r.(attempts := 0, nextAttemptAt := None), {p});
    forall x | x in rows' ensures DelayOk(cfg, x) {
      var i :| 0 <= i < |rows'| && rows'[i] == x;
      assert DelayOk(cfg, s.rows[i]);
    }
    forall k | k in s'.runners ensures ValidShard(cfg, k) && RunnerGood(cfg, k, rows', s'.runners[k]) {
      TableStepKeepsRunner(cfg, k, s.rows, rows', s.runners[k], {p});
    }
  }

  lemma AbandonKeepsInv(cfg: DrainConfig, s: OutSys, p: nat)
    requires OutInv(cfg, s)
    ensures OutInv(cfg, Next(cfg, s, Abandon(p)))
  {
    var rows' := AbandonRow(s.rows, p);
    UpdateAdvances(s.rows, p, (r: OutboxRow) => if r.status == Pending then r.(status := Abandoned) else r, {});
    forall x | x in rows' ensures DelayOk(cfg, x) {
      var i :| 0 <= i < |rows'| && rows'[i] == x;
      assert DelayOk(cfg, s.rows[i]);
    }
    forall k | k in s.runners ensures RunnerGood(cfg, k, rows', s.runners[k]) {
      TableStepKeepsRunner(cfg, k, s.rows, rows', s.runners[k], {});
      assert s.runners[k].(replayed := s.runners[k].replayed + {}) == s.runners[k];
    }
  }

  lemma StartGood(cfg: DrainConfig, k: nat, rows: seq<OutboxRow>)
    ensures RunnerGood(cfg, k, rows, StartRun(cfg, rows))
  {
  }

  lemma StepKeepsOutInv(cfg: DrainConfig, s: OutSys, step: OutStep)
    requires InOrder(cfg) && OutInv(cfg, s)
    ensures OutInv(cfg, Next(cfg, s, step))
  {
    match step
    case Enqueue(more) => EnqueueKeepsInv(cfg, s, more);
    case Start(k) => StartGood(cfg, k, s.rows);
    case Read(k, now) =>
      if k in s.runners {
        ReadGood(cfg, k, s.rows, s.runners[k], now);
      }
    case Handle(k, o) => HandleKeepsInv(cfg, s, k, o);
    case Stop(k) =>
    case Replay(p) => ReplayKeepsInv(cfg, s, p);
    case Abandon(p) => AbandonKeepsInv(cfg, s, p);
  }

  lemma {:induction false} ReachedKeepsInv(cfg: DrainConfig, steps: seq<OutStep>)
    requires InOrder(cfg)
    ensures OutInv(cfg, Reached(cfg, steps))
    decreases |steps|
  {
    if steps != [] {
      ReachedKeepsInv(cfg, steps[..|steps| - 1]);
      StepKeepsOutInv(cfg, Reached(cfg, steps[..|steps| - 1]), steps[|steps| - 1]);
    }
  }

  /** An earlier row of the same stream that blocks nothing: it is settled; or, only when dead-lettered rows do
      not pause a stream, this Run saw it dead-lettered, and it still is or an operator replayed it since. */
  predicate Passed(cfg: DrainConfig, run: Runner, q: OutboxRow) {
    Settled(q) || (!Quarantines(cfg) && q.position in run.dead && (Dead(cfg, q) || q.position in run.replayed))
  }

  /** Nothing earlier in the stream is still owed when runner k is about to publish its next row. */
  ghost predicate OffersInOrder(cfg: DrainConfig, s: OutSys, k: nat) {
    k in s.runners && Offers(cfg, k, s.runners[k]) ==>
      var r := s.runners[k].page[0];
      forall q | q in s.rows && q.sid == r.sid && q.version < r.version :: Passed(cfg, s.runners[k], q)
  }

  /** Per-stream order, for every interleaving of appends, sharded runners, publish and mark failures,
      crashes and operator actions. */
  lemma DeliveryInOrder(cfg: DrainConfig, steps: seq<OutStep>, k: nat)
    requires InOrder(cfg)
    ensures OffersInOrder(cfg, Reached(cfg, steps), k)
  {
    ReachedKeepsInv(cfg, steps);
    var s := Reached(cfg, steps);
    if k in s.runners && Offers(cfg, k, s.runners[k]) {
      var run := s.runners[k];
      var r := run.page[0];
      forall q | q in s.rows && q.sid == r.sid && q.version < r.version ensures Passed(cfg, run, q) {
        assert Open(cfg, k, run, run.page[0]);
        assert Cleared(cfg, run, 0, q);
      }
    }
  }
}
