/** How far one RunOnce gets, exactly, and that runs without errors catch up with the log (projection/runtime.go). */
module ProjectionProgress {
  import opened Basics
  import opened Store
  import opened StoreLaws
  import opened Projection

  // ---------------------------------------------------------------- the page

  /** How many events in scope come after position c. */
  function Awaited(events: seq<Envelope>, tenant: string, c: nat): nat {
    if events == [] then 0
    else (if events[0].position > c && InScope(events[0], tenant) then 1 else 0) + Awaited(events[1..], tenant, c)
  }

  lemma {:induction false} ReadAllSize(events: seq<Envelope>, tenant: string, c: nat, limit: nat)
    ensures |ReadAll(events, tenant, c, limit)| == Min(limit, Awaited(events, tenant, c))
    decreases |events|
  {
    if events != [] && limit > 0 {
      ReadAllSize(events[1..], tenant, c, limit);
      ReadAllSize(events[1..], tenant, c, limit - 1);
    }
  }

  lemma {:induction false} AwaitedFrom(events: seq<Envelope>, tenant: string, c: nat, d: nat)
    requires forall e | e in events :: e.position > c && e.position > d
    ensures Awaited(events, tenant, c) == Awaited(events, tenant, d)
    decreases |events|
  {
    if events != [] {
      assert forall e | e in events[1..] :: e in events;
      AwaitedFrom(events[1..], tenant, c, d);
    }
  }

  lemma {:induction false} NoneAwaited(events: seq<Envelope>, tenant: string, c: nat)
    ensures Awaited(events, tenant, c) == 0 <==> forall e | e in events && InScope(e, tenant) :: e.position <= c
    decreases |events|
  {
    if events != [] {
      NoneAwaited(events[1..], tenant, c);
      assert events == [events[0]] + events[1..];
    }
  }

  /** The page is as long as the batch size and the log allow; what is awaited after its last event is the rest. */
  lemma {:induction false} ReadAllMoves(events: seq<Envelope>, tenant: string, c: nat, limit: nat)
    requires Rising(events)
    ensures var page := ReadAll(events, tenant, c, limit);
            page != [] ==>
              && page[|page| - 1] in events && page[|page| - 1].position > c
              && Awaited(events, tenant, page[|page| - 1].position) == Awaited(events, tenant, c) - |page|
    decreases |events|
  {
    if events != [] && limit > 0 {
      var e, rest := events[0], events[1..];
      assert forall x | x in rest :: x.position > e.position;
      if e.position > c && InScope(e, tenant) {
        AwaitedFrom(rest, tenant, c, e.position);
        ReadAllMoves(rest, tenant, c, limit - 1);
      } else {
        ReadAllMoves(rest, tenant, c, limit);
      }
    }
  }

  // ---------------------------------------------------------------- one batch

  /** The call lets the batch go on: the event is handled, or its failure is captured. */
  predicate Goes(cfg: ProjConfig, o: Outcome) { o.Handles? || (cfg.dlqOnFailure && o.Errs? && o.captures) }

  /** The events of the page that reach the handler. */
  function Own(cfg: ProjConfig, page: seq<Envelope>): seq<Envelope> {
    if page == [] then [] else (if InMyShard(cfg, page[0]) then [page[0]] else []) + Own(cfg, page[1..])
  }

  function HandledCalls(script: nat -> Outcome, n: nat, calls: nat): nat
    decreases calls
  {
    if calls == 0 then 0 else (if script(n).Handles? then 1 else 0) + HandledCalls(script, n + 1, calls - 1)
  }

  /** What the calls leave in the history. */
  function Entries(own: seq<Envelope>, script: nat -> Outcome, n: nat): seq<Did> {
    seq(|own|, i requires 0 <= i < |own| => Did(own[i].position, script(n + i).Errs?))
  }

  /** The batch gets through the first m events of the page and no further. */
  ghost predicate StopsAt(cfg: ProjConfig, page: seq<Envelope>, script: nat -> Outcome, n: nat, m: nat) {
    && m <= |page|
    && (forall i: nat | n <= i < n + |Own(cfg, page[..m])| :: Goes(cfg, script(i)))
    && (m < |page| ==> InMyShard(cfg, page[m]) && !Goes(cfg, script(n + |Own(cfg, page[..m])|)))
  }

  /** What a batch that stops there returns, having returned out so far. */
  ghost predicate GotTo(cfg: ProjConfig, page: seq<Envelope>, script: nat -> Outcome, n: nat, m: nat, out: BatchOut, r: BatchOut)
    requires m <= |page|
  {
    var own := Own(cfg, page[..m]);
    var at := script(n + |own|);
    && r.last == (if m == 0 then out.last else page[m - 1].position)
    && r.successes == out.successes + HandledCalls(script, n, |own|)
    && r.failed == (m < |page| && at.Errs?) && r.died == (m < |page| && at.Dies?)
    && r.did == out.did + Entries(own, script, n) + if r.died && at.handled then [Did(page[m].position, false)] else []
  }

  lemma EntriesCons(e: Envelope, own: seq<Envelope>, script: nat -> Outcome, n: nat)
    ensures Entries([e] + own, script, n) == [Did(e.position, script(n).Errs?)] + Entries(own, script, n + 1)
  {
    var a, b := Entries([e] + own, script, n), [Did(e.position, script(n).Errs?)] + Entries(own, script, n + 1);
    forall i | 0 <= i < |a| ensures a[i] == b[i] {
      if i > 0 {
        assert n + i == n + 1 + (i - 1);
      }
    }
  }

  lemma OwnCons(cfg: ProjConfig, page: seq<Envelope>, m: nat)
    requires page != [] && m < |page|
    ensures Own(cfg, page[..m + 1]) == (if InMyShard(cfg, page[0]) then [page[0]] else []) + Own(cfg, page[1..][..m])
  {
    assert page[..m + 1][1..] == page[1..][..m];
  }

  lemma GotToPasses(cfg: ProjConfig, page: seq<Envelope>, script: nat -> Outcome, n: nat, m: nat, out: BatchOut, r: BatchOut)
    requires page != [] && InMyShard(cfg, page[0]) && Goes(cfg, script(n))
    requires StopsAt(cfg, page[1..], script, n + 1, m)
    requires var o := script(n);
             GotTo(cfg, page[1..], script, n + 1, m,
                   out.(last := page[0].position, did := out.did + [Did(page[0].position, o.Errs?)],
                        successes := out.successes + if o.Handles? then 1 else 0), r)
    ensures StopsAt(cfg, page, script, n, m + 1) && GotTo(cfg, page, script, n, m + 1, out, r)
  {
    hide InMyShard, Entries;
    var rest := Own(cfg, page[1..][..m]);
    OwnCons(cfg, page, m);
    EntriesCons(page[0], rest, script, n);
    assert Own(cfg, page[..m + 1]) == [page[0]] + rest;
    assert n + |[page[0]] + rest| == n + 1 + |rest|;
    assert m + 1 < |page| ==> page[m + 1] == page[1..][m];
    assert out.did + [Did(page[0].position, script(n).Errs?)] + Entries(rest, script, n + 1)
        == out.did + Entries([page[0]] + rest, script, n);
  }

  lemma GotToSkips(cfg: ProjConfig, page: seq<Envelope>, script: nat -> Outcome, n: nat, m: nat, out: BatchOut, r: BatchOut)
    requires page != [] && !InMyShard(cfg, page[0]) && StopsAt(cfg, page[1..], script, n, m)
    requires GotTo(cfg, page[1..], script, n, m, out.(last := page[0].position), r)
    ensures StopsAt(cfg, page, script, n, m + 1) && GotTo(cfg, page, script, n, m + 1, out, r)
  {
    hide InMyShard, Entries;
    OwnCons(cfg, page, m);
    assert [] + Own(cfg, page[1..][..m]) == Own(cfg, page[1..][..m]);
    assert m + 1 < |page| ==> page[m + 1] == page[1..][m];
  }

  /** A batch passes the events of other shards and the events whose calls go, in order, up to the first own event
      whose call does not go; the rest of what it returns follows from there. */
  lemma {:induction false} BatchGetsTo(cfg: ProjConfig, page: seq<Envelope>, script: nat -> Outcome, n: nat, out: BatchOut)
    returns (m: nat)
    requires !out.failed && !out.died
    ensures StopsAt(cfg, page, script, n, m) && GotTo(cfg, page, script, n, m, out, Batch(cfg, page, script, n, out))
    decreases |page|
  {
    hide InMyShard, StopsAt, GotTo;
    if page == [] || (InMyShard(cfg, page[0]) && !Goes(cfg, script(n))) {
      m := 0;
      StoppedAtOnce(cfg, page, script, n, out);
    } else if InMyShard(cfg, page[0]) {
      var o := script(n);
      var next := out.(last := page[0].position, did := out.did + [Did(page[0].position, o.Errs?)],
                       successes := out.successes + if o.Handles? then 1 else 0);
      m := BatchGetsTo(cfg, page[1..], script, n + 1, next);
      GotToPasses(cfg, page, script, n, m, out, Batch(cfg, page[1..], script, n + 1, next));
      m := m + 1;
    } else {
      m := BatchGetsTo(cfg, page[1..], script, n, out.(last := page[0].position));
      GotToSkips(cfg, page, script, n, m, out, Batch(cfg, page, script, n, out));
      m := m + 1;
    }
  }

  lemma StoppedAtOnce(cfg: ProjConfig, page: seq<Envelope>, script: nat -> Outcome, n: nat, out: BatchOut)
    requires !out.failed && !out.died && (page == [] || (InMyShard(cfg, page[0]) && !Goes(cfg, script(n))))
    ensures StopsAt(cfg, page, script, n, 0) && GotTo(cfg, page, script, n, 0, out, Batch(cfg, page, script, n, out))
  {
    hide InMyShard;
    assert page[..0] == [] && Own(cfg, page[..0]) == [];
    assert Entries([], script, n) == [] && out.did + [] == out.did;
  }

  // ---------------------------------------------------------------- one RunOnce

  /** One RunOnce over a reachable state: the page holds the next events in scope, as many as the batch size allows; the
      cursor is saved at the last event the batch got past, even when it failed after it, and stays put if nothing was
      passed, the process died or the checkpoint could not be written. */
  lemma RunOnceGetsTo(cfg: ProjConfig, s: ProjState, script: nat -> Outcome, saves: bool) returns (page: seq<Envelope>, m: nat)
    requires ProjInv(cfg, s)
    ensures Lists(s.log, cfg.tenant, s.cursor, page)
    ensures |page| == Min(if cfg.batchSize > 0 then cfg.batchSize else 100, Awaited(s.log, cfg.tenant, s.cursor))
    ensures StopsAt(cfg, page, script, 0, m)
    ensures var s', out := Next(cfg, s, RunOnce(script, saves)), BatchFor(cfg, s.log, s.cursor, script);
            && GotTo(cfg, page, script, 0, m, NOTHING, out)
            && s'.log == s.log && s'.history == s.history + out.did
            && s'.cursor == if saves && !out.died && m > 0 then page[m - 1].position else s.cursor
  {
    hide CoveredUpTo, OrderedHistory, HistoryOk, Lists, StopsAt, ReadAll, Batch, Own, InMyShard, HandledCalls, Entries;
    page := PageFor(cfg, s.log, s.cursor);
    ReadAllLists(s.log, cfg.tenant, s.cursor, Limit(cfg));
    ReadAllSize(s.log, cfg.tenant, s.cursor, Limit(cfg));
    m := BatchGetsTo(cfg, page, script, 0, NOTHING);
    Stops(cfg, page, script, m);
    ListsAfter(s.log, cfg.tenant, s.cursor, page);
    if m > 0 {
      assert page[m - 1] in page;
    }
  }

  lemma Stops(cfg: ProjConfig, page: seq<Envelope>, script: nat -> Outcome, m: nat)
    requires StopsAt(cfg, page, script, 0, m)
    ensures m <= |page|
  {
  }

  lemma {:induction false} ListsAfter(log: seq<Envelope>, tenant: string, c: nat, page: seq<Envelope>)
    requires Lists(log, tenant, c, page)
    ensures forall e | e in page :: e.position > c
    decreases |page|
  {
    if page != [] {
      ListsAfter(log, tenant, page[0].position, page[1..]);
      assert page == [page[0]] + page[1..];
    }
  }

  // ---------------------------------------------------------------- catching up

  /** A RunOnce in which every call goes and the checkpoint is written. */
  ghost predicate Undisturbed(cfg: ProjConfig, step: ProjStep) {
    step.RunOnce? && step.saves && forall n :: Goes(cfg, step.script(n))
  }

  lemma UndisturbedAdvances(cfg: ProjConfig, s: ProjState, step: ProjStep)
    requires ProjInv(cfg, s) && Undisturbed(cfg, step)
    ensures var s' := Next(cfg, s, step);
            && ProjInv(cfg, s') && s'.log == s.log
            && Awaited(s.log, cfg.tenant, s'.cursor)
               == Awaited(s.log, cfg.tenant, s.cursor)
                  - Min(if cfg.batchSize > 0 then cfg.batchSize else 100, Awaited(s.log, cfg.tenant, s.cursor))
  {
    hide CoveredUpTo, OrderedHistory, HistoryOk, Lists, ReadAll, Batch, Own, InMyShard, HandledCalls, Entries, Awaited, Goes, CursorAfter;
    RunOnceKeepsInv(cfg, s, step.script, true);
    var page, m := PageFor(cfg, s.log, s.cursor), 0;
    m := BatchGetsTo(cfg, page, step.script, 0, NOTHING);
    WholePage(cfg, page, step.script, m);
    ReadAllSize(s.log, cfg.tenant, s.cursor, Limit(cfg));
    ReadAllMoves(s.log, cfg.tenant, s.cursor, Limit(cfg));
    Saved(s.cursor, BatchFor(cfg, s.log, s.cursor, step.script));
  }

  lemma WholePage(cfg: ProjConfig, page: seq<Envelope>, script: nat -> Outcome, m: nat)
    requires StopsAt(cfg, page, script, 0, m) && forall n :: Goes(cfg, script(n))
    ensures m == |page|
  {
  }

  lemma Saved(cursor: nat, out: BatchOut)
    ensures CursorAfter(cursor, out, true) == if out.died || out.last == 0 then cursor else out.last
  {
  }

  /** From every reachable state, as many RunOnces as events are awaited, with no error in between, leave nothing
      awaited: every wanted event of the log was handled or captured. */
  lemma {:induction false} CatchesUp(cfg: ProjConfig, steps: seq<ProjStep>, more: seq<ProjStep>)
    requires forall i | 0 <= i < |more| :: Undisturbed(cfg, more[i])
    ensures var s, s' := Reached(cfg, steps), Reached(cfg, steps + more);
            && s'.log == s.log && Awaited(s.log, cfg.tenant, s'.cursor) <= Max(0, Awaited(s.log, cfg.tenant, s.cursor) - |more|)
            && (|more| >= Awaited(s.log, cfg.tenant, s.cursor) ==>
                  forall e | e in s.log && Wanted(cfg, e) :: Seen(s'.history, e.position))
    decreases |more|
  {
    hide Undisturbed, CoveredUpTo, OrderedHistory, HistoryOk, Awaited, Next;
    var s := Reached(cfg, steps);
    if more == [] {
      assert steps + more == steps;
    } else {
      var n := |more| - 1;
      CatchesUp(cfg, steps, more[..n]);
      ReachedIsCovered(cfg, steps + more[..n]);
      UndisturbedAdvances(cfg, Reached(cfg, steps + more[..n]), more[n]);
      assert (steps + more)[..|steps + more| - 1] == steps + more[..n];
    }
    var s' := Reached(cfg, steps + more);
    ReachedIsCovered(cfg, steps + more);
    if |more| >= Awaited(s.log, cfg.tenant, s.cursor) {
      NoneAwaited(s.log, cfg.tenant, s'.cursor);
      AllCovered(cfg, s');
    }
  }

  /** So a projector that starts from nothing on a log of any length gets through it. */
  lemma EveryLogIsHandled(cfg: ProjConfig, log: seq<Envelope>, more: seq<ProjStep>)
    requires Positioned(log) && |more| >= Awaited(log, cfg.tenant, 0)
    requires forall i | 0 <= i < |more| :: Undisturbed(cfg, more[i])
    ensures var s := Reached(cfg, [Grow(log)] + more);
            s.log == log && forall e | e in log && Wanted(cfg, e) :: Seen(s.history, e.position)
  {
    hide Awaited, Undisturbed;
    var first: seq<ProjStep> := [Grow(log)];
    assert first[..|first| - 1] == [] && [] + log == log;
    assert Reached(cfg, first) == ProjState(log, 0, []);
    CatchesUp(cfg, first, more);
  }

  lemma AllCovered(cfg: ProjConfig, s: ProjState)
    requires ProjInv(cfg, s) && forall e | e in s.log && InScope(e, cfg.tenant) :: e.position <= s.cursor
    ensures forall e | e in s.log && Wanted(cfg, e) :: Seen(s.history, e.position)
  {
  }
}
