/** The catch-up projector: cursor protocol, fail-stop and dead-letter modes, sharding (projection/runtime.go). */
module Projection {
  import opened Store
  import opened StoreLaws
  import opened Shards

  const DEFAULT_BATCH := 100

  datatype ProjConfig = ProjConfig(tenant: string, batchSize: int, shard: nat, totalShards: ShardCount, dlqOnFailure: bool)

  function Limit(cfg: ProjConfig): nat { if cfg.batchSize <= 0 then DEFAULT_BATCH else cfg.batchSize }

  predicate InMyShard(cfg: ProjConfig, e: Envelope) { InShard(e.hashed.sid, cfg.shard, cfg.totalShards) }

  /** The events this projector is for. */
  predicate Wanted(cfg: ProjConfig, e: Envelope) { InScope(e, cfg.tenant) && InMyShard(cfg, e) }

  /** How one handler call goes: it succeeds; it fails, and if a dead letter is tried that write works or
      not; or the process dies around it. */
  datatype Outcome = Handles | Errs(captures: bool) | Dies(handled: bool)

  /** One entry of the history: an event handled successfully or captured as a dead letter. */
  datatype Did = Did(position: nat, captured: bool)

  datatype BatchOut = BatchOut(last: nat, did: seq<Did>, successes: nat, failed: bool, died: bool)

  const NOTHING := BatchOut(0, [], 0, false, false)

  /** The loop over the rest of a page; script(n) is how the n-th handler call of the batch goes. */
  function Batch(cfg: ProjConfig, page: seq<Envelope>, script: nat -> Outcome, n: nat, out: BatchOut): BatchOut
    decreases |page|
  {
    if page == [] then out
    else
      var e := page[0];
      if !InMyShard(cfg, e) then Batch(cfg, page[1..], script, n, out.(last := e.position))
      else
        match script(n)
        case Handles =>
          Batch(cfg, page[1..], script, n + 1,
                out.(last := e.position, did := out.did + [Did(e.position, false)], successes := out.successes + 1))
        case Errs(captures) =>
          if cfg.dlqOnFailure && captures then
            Batch(cfg, page[1..], script, n + 1, out.(last := e.position, did := out.did + [Did(e.position, true)]))
          else out.(failed := true)
        case Dies(handled) =>
          out.(died := true, did := out.did + if handled then [Did(e.position, false)] else [])
  }

  function PageFor(cfg: ProjConfig, log: seq<Envelope>, cursor: nat): seq<Envelope> {
    ReadAll(log, cfg.tenant, cursor, Limit(cfg))
  }

  function BatchFor(cfg: ProjConfig, log: seq<Envelope>, cursor: nat, script: nat -> Outcome): BatchOut {
    Batch(cfg, PageFor(cfg, log, cursor), script, 0, NOTHING)
  }

  /** The saved cursor after one RunOnce; saves says whether the checkpoint write takes effect. */
  function CursorAfter(cursor: nat, out: BatchOut, saves: bool): nat {
    if out.died || out.last == 0 || !saves then cursor else out.last
  }

  // ---------------------------------------------------------------- runs

  datatype ProjState = ProjState(log: seq<Envelope>, cursor: nat, history: seq<Did>)

  datatype ProjStep =
    | Grow(events: seq<Envelope>)
    | RunOnce(script: nat -> Outcome, saves: bool)
    | Reset(cursor: nat)

  ghost function Next(cfg: ProjConfig, s: ProjState, step: ProjStep): ProjState {
    match step
    case Grow(more) => if Positioned(s.log + more) then s.(log := s.log + more) else s
    case RunOnce(script, saves) =>
      var out := BatchFor(cfg, s.log, s.cursor, script);
      s.(cursor := CursorAfter(s.cursor, out, saves), history := s.history + out.did)
    case Reset(c) => if c <= s.cursor then s.(cursor := c) else s
  }

  ghost function Reached(cfg: ProjConfig, steps: seq<ProjStep>): ProjState {
    if steps == [] then ProjState([], 0, [])
    else Next(cfg, Reached(cfg, steps[..|steps| - 1]), steps[|steps| - 1])
  }

  // ---------------------------------------------------------------- pages

  ghost predicate Rising(events: seq<Envelope>) {
    forall i, j | 0 <= i < j < |events| :: events[i].position < events[j].position
  }

  /** Nothing in scope lies strictly between two positions. */
  ghost predicate Adjacent(log: seq<Envelope>, tenant: string, c: nat, p: nat) {
    forall e | e in log && InScope(e, tenant) :: e.position <= c || e.position >= p
  }

  /** The page lists the events in scope after position c, one after the other. */
  ghost predicate Lists(log: seq<Envelope>, tenant: string, c: nat, page: seq<Envelope>)
    decreases |page|
  {
    page == [] ||
    (page[0] in log && InScope(page[0], tenant) && page[0].position > c && Adjacent(log, tenant, c, page[0].position)
     && Lists(log, tenant, page[0].position, page[1..]))
  }

  lemma {:induction false} ListsCons(e: Envelope, log: seq<Envelope>, tenant: string, c: nat, page: seq<Envelope>)
    requires Lists(log, tenant, c, page) && (InScope(e, tenant) ==> e.position <= c)
    ensures Lists([e] + log, tenant, c, page)
    decreases |page|
  {
    if page != [] {
      ListsCons(e, log, tenant, page[0].position, page[1..]);
    }
  }

  lemma {:induction false} ReadAllFrom(events: seq<Envelope>, tenant: string, c: nat, d: nat, limit: nat)
    requires forall e | e in events :: e.position > c && e.position > d
    ensures ReadAll(events, tenant, c, limit) == ReadAll(events, tenant, d, limit)
    decreases |events|
  {
    if events != [] && limit > 0 {
      assert forall e | e in events[1..] :: e in events;
      ReadAllFrom(events[1..], tenant, c, d, limit);
      ReadAllFrom(events[1..], tenant, c, d, limit - 1);
    }
  }

  lemma {:induction false} ReadAllLists(events: seq<Envelope>, tenant: string, c: nat, limit: nat)
    requires Rising(events)
    ensures Lists(events, tenant, c, ReadAll(events, tenant, c, limit))
    decreases |events|
  {
    if events != [] && limit > 0 {
      var e, rest := events[0], events[1..];
      assert events == [e] + rest;
      if e.position > c && InScope(e, tenant) {
        ReadAllFrom(rest, tenant, c, e.position, limit - 1);
        ReadAllLists(rest, tenant, e.position, limit - 1);
        ListsCons(e, rest, tenant, e.position, ReadAll(rest, tenant, e.position, limit - 1));
      } else {
        ReadAllLists(rest, tenant, c, limit);
        ListsCons(e, rest, tenant, c, ReadAll(rest, tenant, c, limit));
      }
    }
  }

  // ---------------------------------------------------------------- coverage

  predicate Seen(history: seq<Did>, p: nat) { exists d :: d in history && d.position == p }

  /** Every wanted event up to position c was handled or captured. */
  ghost predicate CoveredUpTo(cfg: ProjConfig, log: seq<Envelope>, history: seq<Did>, c: nat) {
    forall e | e in log && Wanted(cfg, e) && e.position <= c :: Seen(history, e.position)
  }

  /** Whenever an event was handled or captured, every wanted event before it had been already. */
  ghost predicate OrderedHistory(cfg: ProjConfig, log: seq<Envelope>, history: seq<Did>) {
    forall i, e | 0 <= i < |history| && e in log && Wanted(cfg, e) && e.position < history[i].position ::
      Seen(history[..i], e.position)
  }

  /** Entries are wanted events of the log, captured only in dead-letter mode. */
  ghost predicate HistoryOk(cfg: ProjConfig, log: seq<Envelope>, history: seq<Did>) {
    forall d | d in history ::
      (d.captured ==> cfg.dlqOnFailure) && exists e :: e in log && Wanted(cfg, e) && e.position == d.position
  }

  ghost predicate ProjInv(cfg: ProjConfig, s: ProjState) {
    && Positioned(s.log) && s.cursor <= |s.log|
    && CoveredUpTo(cfg, s.log, s.history, s.cursor)
    && OrderedHistory(cfg, s.log, s.history)
    && HistoryOk(cfg, s.log, s.history)
  }

  lemma SeenMore(history: seq<Did>, more: seq<Did>, p: nat)
    requires Seen(history, p)
    ensures Seen(history + more, p)
  {
  }

  /** Adding the next wanted event to the history. */
  lemma HistorySnoc(cfg: ProjConfig, log: seq<Envelope>, history: seq<Did>, e: Envelope, captured: bool, c: nat)
    requires CoveredUpTo(cfg, log, history, c) && OrderedHistory(cfg, log, history) && HistoryOk(cfg, log, history)
    requires e in log && Wanted(cfg, e) && Adjacent(log, cfg.tenant, c, e.position) && (captured ==> cfg.dlqOnFailure)
    ensures var h := history + [Did(e.position, captured)];
            OrderedHistory(cfg, log, h) && HistoryOk(cfg, log, h)
  {
    var d := Did(e.position, captured);
    var h := history + [d];
    forall i, x | 0 <= i < |h| && x in log && Wanted(cfg, x) && x.position < h[i].position
      ensures Seen(h[..i], x.position)
    {
      if i < |history| {
        assert h[..i] == history[..i];
      } else {
        assert h[..i] == history;
        assert Seen(history, x.position);
      }
    }
  }

  lemma CoveredNext(cfg: ProjConfig, log: seq<Envelope>, history: seq<Did>, e: Envelope, c: nat)
    requires Rising(log) && e in log && InScope(e, cfg.tenant)
    requires CoveredUpTo(cfg, log, history, c) && Adjacent(log, cfg.tenant, c, e.position)
    requires InMyShard(cfg, e) ==> Seen(history, e.position)
    ensures CoveredUpTo(cfg, log, history, e.position)
  {
    forall x | x in log && Wanted(cfg, x) && x.position <= e.position ensures Seen(history, x.position) {
      if x.position > c {
        assert x == e;
      }
    }
  }

  ghost predicate HistoryGood(cfg: ProjConfig, log: seq<Envelope>, history: seq<Did>, c: nat) {
    CoveredUpTo(cfg, log, history, c) && OrderedHistory(cfg, log, history) && HistoryOk(cfg, log, history)
  }

  lemma HandledNext(cfg: ProjConfig, log: seq<Envelope>, h: seq<Did>, did: seq<Did>, e: Envelope, captured: bool, c: nat)
    requires Rising(log) && HistoryGood(cfg, log, h + did, c)
    requires e in log && Wanted(cfg, e) && Adjacent(log, cfg.tenant, c, e.position) && (captured ==> cfg.dlqOnFailure)
    ensures HistoryGood(cfg, log, h + (did + [Did(e.position, captured)]), e.position)
    ensures CoveredUpTo(cfg, log, h + (did + [Did(e.position, captured)]), c)
  {
    var d := Did(e.position, captured);
    var more := h + (did + [d]);
    assert more == (h + did) + [d];
    HistorySnoc(cfg, log, h + did, e, captured, c);
    CoveredMore(cfg, log, h + did, [d], c);
    assert d in more;
    CoveredNext(cfg, log, more, e, c);
  }

  /** The history after a batch that had reached position c, and the cursor it offers to save. */
  ghost predicate BatchGood(cfg: ProjConfig, log: seq<Envelope>, h: seq<Did>, r: BatchOut, c: nat) {
    && HistoryGood(cfg, log, h + r.did, c)
    && (r.last == 0 || (c <= r.last && CoveredUpTo(cfg, log, h + r.did, r.last)))
  }

  /** What one batch adds to the history h, having reached position c. */
  lemma {:induction false} BatchCovers(cfg: ProjConfig, log: seq<Envelope>, page: seq<Envelope>, script: nat -> Outcome,
                                       n: nat, out: BatchOut, h: seq<Did>, c: nat)
    requires Rising(log) && Lists(log, cfg.tenant, c, page)
    requires HistoryGood(cfg, log, h + out.did, c) && (out.last == 0 || out.last == c)
    ensures BatchGood(cfg, log, h, Batch(cfg, page, script, n, out), c)
    decreases |page|
  {
    hide OrderedHistory, HistoryOk, Rising, InShard;
    if page != [] {
      var e := page[0];
      if !InMyShard(cfg, e) {
        CoveredNext(cfg, log, h + out.did, e, c);
        BatchCovers(cfg, log, page[1..], script, n, out.(last := e.position), h, e.position);
        BatchLowers(cfg, log, h, Batch(cfg, page, script, n, out), c, e.position);
      } else {
        match script(n)
        case Handles =>
          HandledNext(cfg, log, h, out.did, e, false, c);
          BatchCovers(cfg, log, page[1..], script, n + 1,
                      out.(last := e.position, did := out.did + [Did(e.position, false)], successes := out.successes + 1),
                      h, e.position);
          BatchLowers(cfg, log, h, Batch(cfg, page, script, n, out), c, e.position);
        case Errs(captures) =>
          if cfg.dlqOnFailure && captures {
            HandledNext(cfg, log, h, out.did, e, true, c);
            BatchCovers(cfg, log, page[1..], script, n + 1,
                        out.(last := e.position, did := out.did + [Did(e.position, true)]), h, e.position);
            BatchLowers(cfg, log, h, Batch(cfg, page, script, n, out), c, e.position);
          }
        case Dies(handled) => DiesGood(cfg, log, h, out, e, handled, c);
      }
    }
  }

  lemma BatchLowers(cfg: ProjConfig, log: seq<Envelope>, h: seq<Did>, r: BatchOut, c: nat, d: nat)
    requires BatchGood(cfg, log, h, r, d) && c <= d
    ensures BatchGood(cfg, log, h, r, c)
  {
  }

  lemma DiesGood(cfg: ProjConfig, log: seq<Envelope>, h: seq<Did>, out: BatchOut, e: Envelope, handled: bool, c: nat)
    requires Rising(log) && HistoryGood(cfg, log, h + out.did, c) && (out.last == 0 || out.last == c)
    requires e in log && Wanted(cfg, e) && Adjacent(log, cfg.tenant, c, e.position)
    ensures BatchGood(cfg, log, h, out.(died := true, did := out.did + if handled then [Did(e.position, false)] else []), c)
  {
    if handled {
      HandledNext(cfg, log, h, out.did, e, false, c);
    } else {
      assert out.did + [] == out.did;
    }
  }

  /** A batch ends at an event of the log. */
  lemma {:induction false} BatchEndsInLog(cfg: ProjConfig, log: seq<Envelope>, page: seq<Envelope>, script: nat -> Outcome,
                                          n: nat, out: BatchOut, c: nat)
    requires Positioned(log) && Lists(log, cfg.tenant, c, page) && out.last <= |log|
    ensures Batch(cfg, page, script, n, out).last <= |log|
    decreases |page|
  {
    if page != [] {
      var e := page[0];
      if !InMyShard(cfg, e) {
        BatchEndsInLog(cfg, log, page[1..], script, n, out.(last := e.position), e.position);
      } else {
        match script(n)
        case Handles =>
          BatchEndsInLog(cfg, log, page[1..], script, n + 1,
                         out.(last := e.position, did := out.did + [Did(e.position, false)], successes := out.successes + 1),
                         e.position);
        case Errs(captures) =>
          BatchEndsInLog(cfg, log, page[1..], script, n + 1,
                         out.(last := e.position, did := out.did + [Did(e.position, true)]), e.position);
        case Dies(handled) =>
      }
    }
  }

  lemma CoveredMore(cfg: ProjConfig, log: seq<Envelope>, history: seq<Did>, more: seq<Did>, c: nat)
    requires CoveredUpTo(cfg, log, history, c)
    ensures CoveredUpTo(cfg, log, history + more, c)
  {
    forall e | e in log && Wanted(cfg, e) && e.position <= c ensures Seen(history + more, e.position) {
      SeenMore(history, more, e.position);
    }
  }

  lemma RunOnceKeepsInv(cfg: ProjConfig, s: ProjState, script: nat -> Outcome, saves: bool)
    requires ProjInv(cfg, s)
    ensures ProjInv(cfg, Next(cfg, s, RunOnce(script, saves)))
    ensures s.cursor <= Next(cfg, s, RunOnce(script, saves)).cursor
  {
    var out := BatchFor(cfg, s.log, s.cursor, script);
    ReadAllLists(s.log, cfg.tenant, s.cursor, Limit(cfg));
    assert s.history + [] == s.history;
    BatchCovers(cfg, s.log, PageFor(cfg, s.log, s.cursor), script, 0, NOTHING, s.history, s.cursor);
    BatchEndsInLog(cfg, s.log, PageFor(cfg, s.log, s.cursor), script, 0, NOTHING, s.cursor);
  }

  lemma GrowKeepsInv(cfg: ProjConfig, s: ProjState, more: seq<Envelope>)
    requires ProjInv(cfg, s) && Positioned(s.log + more)
    ensures ProjInv(cfg, s.(log := s.log + more))
  {
    var log := s.log + more;
    forall e | e in log && e !in s.log
      ensures e.position > |s.log|
    {
      var i :| 0 <= i < |log| && log[i] == e;
      if i < |s.log| {
        assert false;
      }
    }
    forall d | d in s.history
      ensures d.position <= |s.log| && exists e :: e in log && Wanted(cfg, e) && e.position == d.position
    {
      var e :| e in s.log && Wanted(cfg, e) && e.position == d.position;
      assert e in log;
    }
    forall i, e | 0 <= i < |s.history| && e in log && Wanted(cfg, e) && e.position < s.history[i].position
      ensures Seen(s.history[..i], e.position)
    {
      assert s.history[i] in s.history;
      assert e in s.log;
    }
  }

  /** Coverage and order over every run: log growth, handler, dead-letter and checkpoint failures, crashes
      anywhere in a batch and resets to lower cursors. */
  lemma {:induction false} ReachedIsCovered(cfg: ProjConfig, steps: seq<ProjStep>)
    ensures ProjInv(cfg, Reached(cfg, steps))
    decreases |steps|
  {
    if steps != [] {
      var s := Reached(cfg, steps[..|steps| - 1]);
      ReachedIsCovered(cfg, steps[..|steps| - 1]);
      match steps[|steps| - 1]
      case Grow(more) =>
        if Positioned(s.log + more) {
          GrowKeepsInv(cfg, s, more);
        }
      case RunOnce(script, saves) => RunOnceKeepsInv(cfg, s, script, saves);
      case Reset(c) =>
    }
  }

  // ---------------------------------------------------------------- the loop

  /** The projector's stored cursor and what its handler has done. */
  class Runtime {
    const cfg: ProjConfig
    var cursor: nat
    var history: seq<Did>

    constructor (cfg: ProjConfig)
      ensures this.cfg == cfg && cursor == 0 && history == []
    {
      this.cfg := cfg;
      cursor, history := 0, [];
    }

    method RunOnce(log: seq<Envelope>, script: nat -> Outcome, saves: bool) returns (successes: nat, failed: bool)
      modifies this
      ensures var out := BatchFor(cfg, log, old(cursor), script);
              && cursor == CursorAfter(old(cursor), out, saves) && history == old(history) + out.did
              && successes == out.successes && (failed <==> out.failed || out.died || (out.last > 0 && !saves))
    {
      var page := PageFor(cfg, log, cursor);
      successes, failed := 0, false;
      var last, calls, i := 0, 0, 0;
      var did: seq<Did> := [];
      ghost var whole := BatchFor(cfg, log, cursor, script);
      while i < |page|
        invariant 0 <= i <= |page| && !failed && cursor == old(cursor) && history == old(history)
        invariant whole == Batch(cfg, page[i..], script, calls, BatchOut(last, did, successes, false, false))
      {
        var e := page[i];
        assert page[i..][0] == e && page[i..][1..] == page[i + 1..];
        i := i + 1;
        if !InMyShard(cfg, e) {
          last := e.position;
          continue;
        }
        var o := script(calls);
        calls := calls + 1;
        match o
        case Handles =>
          did := did + [Did(e.position, false)];
          last := e.position;
          successes := successes + 1;
        case Errs(captures) =>
          if !cfg.dlqOnFailure || !captures {
            failed := true;
            break;
          }
          did := did + [Did(e.position, true)];
          last := e.position;
        case Dies(handled) =>
          history := history + did + if handled then [Did(e.position, false)] else [];
          failed := true;
          return;
      }
      history := history + did;
      if last > 0 {
        if saves {
          cursor := last;
        } else {
          failed := true;
        }
      }
    }
  }
}
