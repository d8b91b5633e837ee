/** The outbox drain with retries and dead-lettering, sharded runners and operator actions interleaved
    (outbox/drain.go, adapters/storage/sqlite/outbox.go, adapters/storage/sqlite/queries/outbox.sql). */
module Outbox {
  import opened Basics
  import opened StreamIds
  import opened Store
  import opened Shards
  import opened Backoff

  const MAX_INT32 := 0x7FFF_FFFF
  const DEFAULT_BATCH := 100

  /** headRule says whether the pending query hands out only the lowest live version of a stream, as both
      shipped adapters do; the store interface does not ask for it. */
  datatype DrainConfig = DrainConfig(tenant: string, batchSize: int, totalShards: ShardCount,
                                     maxAttempts: int, backoffBase: int, backoffMax: int,
                                     autoResume: bool, headRule: bool)

  /** The attempts threshold handed to the query: no cap is the largest 32-bit value. */
  function Cap(cfg: DrainConfig): (cap: int)
    ensures cap > 0
  {
    if cfg.maxAttempts <= 0 then MAX_INT32 else cfg.maxAttempts
  }

  function Limit(cfg: DrainConfig): nat { if cfg.batchSize <= 0 then DEFAULT_BATCH else cfg.batchSize }

  /** Whether a dead-lettered row pauses its whole stream. */
  predicate Quarantines(cfg: DrainConfig) { !cfg.autoResume && cfg.maxAttempts > 0 }

  predicate Settled(r: OutboxRow) { r.status != Pending }

  predicate Live(cfg: DrainConfig, r: OutboxRow) { r.status == Pending && r.attempts < Cap(cfg) }

  /** Dead-lettered: unpublished with the attempts used up. */
  predicate Dead(cfg: DrainConfig, r: OutboxRow) { r.status == Pending && r.attempts >= Cap(cfg) }

  predicate Due(r: OutboxRow, now: nat) { r.nextAttemptAt.None? || r.nextAttemptAt.value <= now }

  predicate TenantOk(cfg: DrainConfig, r: OutboxRow) { cfg.tenant == "" || r.sid.tenant == cfg.tenant }

  predicate Head(cfg: DrainConfig, all: seq<OutboxRow>, r: OutboxRow) {
    forall q | q in all && q.sid == r.sid && Live(cfg, q) :: r.version <= q.version
  }

  predicate Selected(cfg: DrainConfig, all: seq<OutboxRow>, r: OutboxRow, now: nat) {
    Live(cfg, r) && Due(r, now) && (cfg.headRule ==> Head(cfg, all, r))
  }

  /** The pending page: the first `limit` selected rows in position order, then filtered by tenant. */
  function PageFrom(cfg: DrainConfig, all: seq<OutboxRow>, rows: seq<OutboxRow>, now: nat, limit: nat)
    : seq<OutboxRow>
    decreases |rows|
  {
    if rows == [] || limit == 0 then []
    else if Selected(cfg, all, rows[0], now) then
      (if TenantOk(cfg, rows[0]) then [rows[0]] else []) + PageFrom(cfg, all, rows[1..], now, limit - 1)
    else PageFrom(cfg, all, rows[1..], now, limit)
  }

  function PendingPage(cfg: DrainConfig, rows: seq<OutboxRow>, now: nat): seq<OutboxRow> {
    PageFrom(cfg, rows, rows, now, Limit(cfg))
  }

  function QuarantinedKeys(cfg: DrainConfig, rows: seq<OutboxRow>): set<string> {
    set r | r in rows && Dead(cfg, r) && TenantOk(cfg, r) :: KeyOf(r.sid)
  }

  // ---------------------------------------------------------------- row updates

  function UpdateAt(rows: seq<OutboxRow>, p: nat, f: OutboxRow -> OutboxRow): seq<OutboxRow> {
    seq(|rows|, i requires 0 <= i < |rows| => if rows[i].position == p then f(rows[i]) else rows[i])
  }

  function MarkPublished(rows: seq<OutboxRow>, p: nat): seq<OutboxRow> {
    UpdateAt(rows, p, (r: OutboxRow) => r.(status := Published))
  }

  function MarkFailed(rows: seq<OutboxRow>, p: nat, next: int): seq<OutboxRow> {
    UpdateAt(rows, p, (r: OutboxRow) => r.(attempts := r.attempts + 1, nextAttemptAt := Some(next)))
  }

  function ReplayRow(rows: seq<OutboxRow>, p: nat): seq<OutboxRow> {
    UpdateAt(rows, p, (r: OutboxRow) => r.(attempts := 0, nextAttemptAt := None))
  }

  function AbandonRow(rows: seq<OutboxRow>, p: nat): seq<OutboxRow> {
    UpdateAt(rows, p, (r: OutboxRow) => if r.status == Pending then r.(status := Abandoned) else r)
  }

  const ZERO_TIME := 0

  function NextAttemptAt(cfg: DrainConfig, attempts: nat, at: nat): int {
    if cfg.backoffBase <= 0 then ZERO_TIME else at + Delay(cfg.backoffBase, cfg.backoffMax, attempts)
  }

  // ---------------------------------------------------------------- one row of a batch

  /** What one Run holds: the unread rest of its page and the keys of its halted streams (a quarantined
      key is always halted too). The last two fields record, for the statements only, the positions that
      were dead-lettered when this Run read a page or declared dead by it, and those an operator replayed
      since it started. */
  datatype Runner = Runner(page: seq<OutboxRow>, halted: set<string>, dead: set<nat>, replayed: set<nat>)

  /** How the outside answers: the publisher, then the mark call. A mark that reports an error may or may
      not have been applied. */
  datatype Outcome = Outcome(published: bool, marked: bool, applied: bool, at: nat)

  /** The next row is handed to the publisher rather than skipped. */
  predicate Offers(cfg: DrainConfig, k: nat, run: Runner) {
    run.page != [] && InShard(run.page[0].sid, k, cfg.totalShards) && KeyOf(run.page[0].sid) !in run.halted
  }

  function AfterFailure(cfg: DrainConfig, run: Runner, r: OutboxRow): Runner {
    if cfg.maxAttempts > 0 && r.attempts + 1 >= cfg.maxAttempts && cfg.autoResume then
      run.(dead := run.dead + {r.position})
    else run.(halted := run.halted + {KeyOf(r.sid)})
  }

  /** The table after row r was handed to the publisher. */
  function RowsAfter(cfg: DrainConfig, rows: seq<OutboxRow>, r: OutboxRow, o: Outcome): seq<OutboxRow> {
    if !o.marked && !o.applied then rows
    else if o.published then MarkPublished(rows, r.position)
    else MarkFailed(rows, r.position, NextAttemptAt(cfg, r.attempts + 1, o.at))
  }

  /** The loop body for the head of the page; None is a Run that ended with an error. */
  function Process(cfg: DrainConfig, k: nat, rows: seq<OutboxRow>, run: Runner, o: Outcome)
    : (seq<OutboxRow>, Option<Runner>)
    requires run.page != []
  {
    var r := run.page[0];
    var rest := run.(page := run.page[1..]);
    if !Offers(cfg, k, run) then (rows, Some(rest))
    else
      (RowsAfter(cfg, rows, r, o),
       if !o.marked then None else if o.published then Some(rest) else Some(AfterFailure(cfg, rest, r)))
  }

  function StartRun(cfg: DrainConfig, rows: seq<OutboxRow>): Runner {
    Runner([], if Quarantines(cfg) then QuarantinedKeys(cfg, rows) else {}, {}, {})
  }

  function DeadPositions(cfg: DrainConfig, rows: seq<OutboxRow>): set<nat> {
    set r | r in rows && Dead(cfg, r) :: r.position
  }

  function ReadPage(cfg: DrainConfig, rows: seq<OutboxRow>, run: Runner, now: nat): Runner {
    run.(page := PendingPage(cfg, rows, now), dead := run.dead + DeadPositions(cfg, rows))
  }

  // ---------------------------------------------------------------- the system

  datatype OutSys = OutSys(rows: seq<OutboxRow>, runners: map<nat, Runner>)

  datatype OutStep =
    | Enqueue(rows: seq<OutboxRow>)
    | Start(k: nat)
    | Read(k: nat, now: nat)
    | Handle(k: nat, outcome: Outcome)
    | Stop(k: nat)
    | Replay(position: nat)
    | Abandon(position: nat)

  /** Positions grow along the table and versions along each stream. */
  ghost predicate Ordered(rows: seq<OutboxRow>) {
    && (forall i, j | 0 <= i < j < |rows| :: rows[i].position < rows[j].position)
    && (forall i, j | 0 <= i < j < |rows| && rows[i].sid == rows[j].sid :: rows[i].version < rows[j].version)
  }

  predicate Fresh(r: OutboxRow) { r.status == Pending && r.attempts == 0 && r.nextAttemptAt.None? }

  ghost predicate EnqueueOk(rows: seq<OutboxRow>, more: seq<OutboxRow>) {
    Ordered(rows + more) && forall r | r in more :: Fresh(r)
  }

  predicate ValidShard(cfg: DrainConfig, k: nat) { if cfg.totalShards == 0 then k == 0 else k < cfg.totalShards }

  function WithRunner(s: OutSys, k: nat, run: Option<Runner>): map<nat, Runner> {
    match run case None => s.runners - {k} case Some(r) => s.runners[k := r]
  }

  function NoteReplay(run: Runner, p: nat): Runner { run.(replayed := run.replayed + {p}) }

  /** One step; a step that is not enabled changes nothing. There is one runner per shard. */
  ghost function Next(cfg: DrainConfig, s: OutSys, step: OutStep): OutSys {
    match step
    case Enqueue(more) => if EnqueueOk(s.rows, more) then s.(rows := s.rows + more) else s
    case Start(k) =>
      if k in s.runners || !ValidShard(cfg, k) then s
      else s.(runners := s.runners[k := StartRun(cfg, s.rows)])
    case Read(k, now) =>
      if k !in s.runners || s.runners[k].page != [] then s
      else s.(runners := s.runners[k := ReadPage(cfg, s.rows, s.runners[k], now)])
    case Handle(k, o) =>
      if k !in s.runners || s.runners[k].page == [] then s
      else
        var (rows, run) := Process(cfg, k, s.rows, s.runners[k], o);
        OutSys(rows, WithRunner(s, k, run))
    case Stop(k) => s.(runners := s.runners - {k})
    case Replay(p) =>
      OutSys(ReplayRow(s.rows, p), map k | k in s.runners :: NoteReplay(s.runners[k], p))
    case Abandon(p) => s.(rows := AbandonRow(s.rows, p))
  }

  ghost function Reached(cfg: DrainConfig, steps: seq<OutStep>): OutSys {
    if steps == [] then OutSys([], map[])
    else Next(cfg, Reached(cfg, steps[..|steps| - 1]), steps[|steps| - 1])
  }
}
