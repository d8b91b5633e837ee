/** Several runners of one projection with nothing to keep them apart: each loads the checkpoint, reads a page,
    handles it and saves, and the steps of all of them interleave. A save overwrites the checkpoint
    (projection/runtime.go, adapters/storage/sqlite/queries/projection_checkpoint.sql). */
module ProjectionRunners {
  import opened Store
  import opened StoreLaws
  import opened Projection

  /** from is the checkpoint that was loaded, at the position the batch has come to, last what it would save. */
  datatype Phase = Loaded(from: nat) | Batching(from: nat, page: seq<Envelope>, at: nat, last: nat)

  datatype Runners = Runners(log: seq<Envelope>, cursor: nat, history: seq<Did>, phases: map<nat, Phase>)

  datatype RunnerStep =
    | Grows(events: seq<Envelope>)
    | Lowers(cursor: nat)
    | Loads(k: nat)
    | Reads(k: nat)
    | Takes(k: nat, outcome: Outcome)
    | Saves(k: nat, works: bool)
    | Vanishes(k: nat)

  /** The next event of the page is skipped or given to the handler. */
  function Take(cfg: ProjConfig, s: Runners, k: nat, o: Outcome): Runners
    requires k in s.phases && s.phases[k].Batching? && s.phases[k].page != []
  {
    var p := s.phases[k];
    var e := p.page[0];
    var onward := s.phases[k := Batching(p.from, p.page[1..], e.position, e.position)];
    if !InMyShard(cfg, e) then s.(phases := onward)
    else
      match o
      case Handles => s.(history := s.history + [Did(e.position, false)], phases := onward)
      case Errs(captures) =>
        if cfg.dlqOnFailure && captures then s.(history := s.history + [Did(e.position, true)], phases := onward)
        else s.(phases := s.phases[k := p.(page := [])])
      case Dies(handled) =>
        s.(history := s.history + (if handled then [Did(e.position, false)] else []), phases := s.phases - {k})
  }

  ghost function NextOf(cfg: ProjConfig, s: Runners, step: RunnerStep): Runners {
    match step
    case Grows(more) => if Positioned(s.log + more) then s.(log := s.log + more) else s
    case Lowers(c) => if c <= s.cursor then s.(cursor := c) else s
    case Loads(k) => if k in s.phases then s else s.(phases := s.phases[k := Loaded(s.cursor)])
    case Reads(k) =>
      if k !in s.phases || !s.phases[k].Loaded? then s
      else
        var c := s.phases[k].from;
        s.(phases := s.phases[k := Batching(c, PageFor(cfg, s.log, c), c, 0)])
    case Takes(k, o) =>
      if k !in s.phases || !s.phases[k].Batching? || s.phases[k].page == [] then s else Take(cfg, s, k, o)
    case Saves(k, works) =>
      if k !in s.phases || !s.phases[k].Batching? || s.phases[k].page != [] then s
      else
        var last := s.phases[k].last;
        s.(cursor := if last == 0 || !works then s.cursor else last, phases := s.phases - {k})
    case Vanishes(k) => s.(phases := s.phases - {k})
  }

  ghost function ReachedBy(cfg: ProjConfig, steps: seq<RunnerStep>): Runners {
    if steps == [] then Runners([], 0, [], map[])
    else NextOf(cfg, ReachedBy(cfg, steps[..|steps| - 1]), steps[|steps| - 1])
  }

  // ---------------------------------------------------------------- coverage and order

  /** Everything wanted up to where the runner is was handled or captured by somebody, and its page lists what
      comes next. */
  ghost predicate PhaseOk(cfg: ProjConfig, s: Runners, p: Phase) {
    match p
    case Loaded(from) => from <= |s.log| && CoveredUpTo(cfg, s.log, s.history, from)
    case Batching(from, page, at, last) =>
      && from <= at <= |s.log| && CoveredUpTo(cfg, s.log, s.history, at) && Lists(s.log, cfg.tenant, at, page)
      && (last == 0 || last == at)
  }

  ghost predicate RunnersInv(cfg: ProjConfig, s: Runners) {
    && ProjInv(cfg, ProjState(s.log, s.cursor, s.history))
    && forall k | k in s.phases :: PhaseOk(cfg, s, s.phases[k])
  }

  lemma PhaseKept(cfg: ProjConfig, s: Runners, s': Runners, p: Phase, more: seq<Did>)
    requires PhaseOk(cfg, s, p) && s'.log == s.log && s'.history == s.history + more
    ensures PhaseOk(cfg, s', p)
  {
    hide CoveredUpTo;
    CoveredMore(cfg, s.log, s.history, more, if p.Loaded? then p.from else p.at);
  }

  lemma {:induction false} ListsGrow(log: seq<Envelope>, more: seq<Envelope>, tenant: string, c: nat, page: seq<Envelope>)
    requires Positioned(log + more) && Lists(log, tenant, c, page)
    ensures Lists(log + more, tenant, c, page)
    decreases |page|
  {
    if page != [] {
      var e := page[0];
      forall x | x in log + more && InScope(x, tenant) ensures x.position <= c || x.position >= e.position {
        if x !in log {
          NewIsLater(log, more, e, x);
        }
      }
      ListsGrow(log, more, tenant, e.position, page[1..]);
    }
  }

  lemma NewIsLater(log: seq<Envelope>, more: seq<Envelope>, e: Envelope, x: Envelope)
    requires Positioned(log + more) && e in log && x in log + more && x !in log
    ensures e.position < x.position && x.position > |log|
  {
    var all := log + more;
    var i :| 0 <= i < |log| && log[i] == e;
    var j :| 0 <= j < |all| && all[j] == x;
    assert all[i] == e;
  }

  lemma CoveredGrows(cfg: ProjConfig, log: seq<Envelope>, more: seq<Envelope>, history: seq<Did>, c: nat)
    requires Positioned(log + more) && c <= |log| && CoveredUpTo(cfg, log, history, c)
    ensures CoveredUpTo(cfg, log + more, history, c)
  {
    forall x | x in log + more && x.position <= c ensures x in log {
      assert exists j :: 0 <= j < |log + more| && (log + more)[j] == x;
    }
  }

  lemma GrowsKeeps(cfg: ProjConfig, s: Runners, more: seq<Envelope>)
    requires RunnersInv(cfg, s) && Positioned(s.log + more)
    ensures RunnersInv(cfg, s.(log := s.log + more))
  {
    hide CoveredUpTo, Lists, ProjInv;
    var s' := s.(log := s.log + more);
    GrowKeepsInv(cfg, ProjState(s.log, s.cursor, s.history), more);
    forall k | k in s.phases ensures PhaseOk(cfg, s', s.phases[k]) {
      var p := s.phases[k];
      assert PhaseOk(cfg, s, p);
      CoveredGrows(cfg, s.log, more, s.history, if p.Loaded? then p.from else p.at);
      if p.Batching? {
        ListsGrow(s.log, more, cfg.tenant, p.at, p.page);
      }
    }
  }

  /** One more entry of the history: the next wanted event of some runner. */
  lemma DidKeeps(cfg: ProjConfig, s: Runners, e: Envelope, captured: bool, at: nat)
    requires ProjInv(cfg, ProjState(s.log, s.cursor, s.history)) && CoveredUpTo(cfg, s.log, s.history, at)
    requires e in s.log && Wanted(cfg, e) && Adjacent(s.log, cfg.tenant, at, e.position) && (captured ==> cfg.dlqOnFailure)
    ensures var h := s.history + [Did(e.position, captured)];
            ProjInv(cfg, ProjState(s.log, s.cursor, h)) && CoveredUpTo(cfg, s.log, h, e.position)
  {
    hide OrderedHistory, HistoryOk;
    var d := Did(e.position, captured);
    var h := s.history + [d];
    HistorySnoc(cfg, s.log, s.history, e, captured, at);
    CoveredMore(cfg, s.log, s.history, [d], s.cursor);
    CoveredMore(cfg, s.log, s.history, [d], at);
    assert d in h;
    CoveredNext(cfg, s.log, h, e, at);
  }

  lemma TakeKeeps(cfg: ProjConfig, s: Runners, k: nat, o: Outcome)
    requires RunnersInv(cfg, s) && k in s.phases && s.phases[k].Batching? && s.phases[k].page != []
    ensures RunnersInv(cfg, Take(cfg, s, k, o))
  {
    hide CoveredUpTo, ProjInv, InMyShard;
    var p := s.phases[k];
    var e := p.page[0];
    var s' := Take(cfg, s, k, o);
    assert PhaseOk(cfg, s, p);
    TakeLists(cfg, s, p);
    if !InMyShard(cfg, e) {
      CoveredNextOf(cfg, s, e, p.at);
    } else if o.Handles? || (o.Errs? && cfg.dlqOnFailure && o.captures) || (o.Dies? && o.handled) {
      DidKeeps(cfg, s, e, o.Errs?, p.at);
    }
    assert s.history + [] == s.history;
    var more := s'.history[|s.history|..];
    assert s'.history == s.history + more;
    forall j | j in s'.phases ensures PhaseOk(cfg, s', s'.phases[j]) {
      if j != k {
        PhaseKept(cfg, s, s', s.phases[j], more);
      }
    }
  }

  /** The head of a runner's page is the next event in scope after where the runner is. */
  lemma TakeLists(cfg: ProjConfig, s: Runners, p: Phase)
    requires ProjInv(cfg, ProjState(s.log, s.cursor, s.history)) && PhaseOk(cfg, s, p) && p.Batching? && p.page != []
    ensures var e := p.page[0];
            && e in s.log && InScope(e, cfg.tenant) && p.at < e.position <= |s.log| && Adjacent(s.log, cfg.tenant, p.at, e.position)
            && Lists(s.log, cfg.tenant, e.position, p.page[1..]) && Lists(s.log, cfg.tenant, p.at, [])
            && (InMyShard(cfg, e) ==> Wanted(cfg, e))
  {
  }

  lemma CoveredNextOf(cfg: ProjConfig, s: Runners, e: Envelope, at: nat)
    requires ProjInv(cfg, ProjState(s.log, s.cursor, s.history)) && CoveredUpTo(cfg, s.log, s.history, at)
    requires e in s.log && InScope(e, cfg.tenant) && Adjacent(s.log, cfg.tenant, at, e.position) && !InMyShard(cfg, e)
    ensures CoveredUpTo(cfg, s.log, s.history, e.position)
  {
    CoveredNext(cfg, s.log, s.history, e, at);
  }

  lemma ReadsKeeps(cfg: ProjConfig, s: Runners, k: nat)
    requires RunnersInv(cfg, s) && k in s.phases && s.phases[k].Loaded?
    ensures RunnersInv(cfg, NextOf(cfg, s, Reads(k)))
  {
    hide CoveredUpTo;
    assert PhaseOk(cfg, s, s.phases[k]);
    ReadAllLists(s.log, cfg.tenant, s.phases[k].from, Limit(cfg));
    var s' := NextOf(cfg, s, Reads(k));
    forall j | j in s'.phases ensures PhaseOk(cfg, s', s'.phases[j]) {
      if j != k {
        assert PhaseOk(cfg, s, s.phases[j]);
      }
    }
  }

  lemma StepKeepsRunners(cfg: ProjConfig, s: Runners, step: RunnerStep)
    requires RunnersInv(cfg, s)
    ensures RunnersInv(cfg, NextOf(cfg, s, step))
  {
    hide Take, PageFor;
    var s' := NextOf(cfg, s, step);
    match step
    case Grows(more) =>
      if Positioned(s.log + more) {
        GrowsKeeps(cfg, s, more);
      }
    case Reads(k) =>
      if k in s.phases && s.phases[k].Loaded? {
        ReadsKeeps(cfg, s, k);
      }
    case Takes(k, o) =>
      if k in s.phases && s.phases[k].Batching? && s.phases[k].page != [] {
        TakeKeeps(cfg, s, k, o);
      }
    case Saves(k, works) => SavesKeeps(cfg, s, k, works);
    case Lowers(c) => SameHistory(cfg, s, s');
    case Loads(k) => SameHistory(cfg, s, s');
    case Vanishes(k) => SameHistory(cfg, s, s');
  }

  lemma SameHistory(cfg: ProjConfig, s: Runners, s': Runners)
    requires RunnersInv(cfg, s) && s'.log == s.log && s'.history == s.history && s'.cursor <= s.cursor
    requires forall k | k in s'.phases :: s'.phases[k] == Loaded(s.cursor) || (k in s.phases && s'.phases[k] == s.phases[k])
    ensures RunnersInv(cfg, s')
  {
    hide Lists;
    forall k | k in s'.phases ensures PhaseOk(cfg, s', s'.phases[k]) {
      if k in s.phases {
        assert PhaseOk(cfg, s, s.phases[k]);
      }
    }
  }

  lemma SavesKeeps(cfg: ProjConfig, s: Runners, k: nat, works: bool)
    requires RunnersInv(cfg, s)
    ensures RunnersInv(cfg, NextOf(cfg, s, Saves(k, works)))
  {
    hide CoveredUpTo, Lists;
    var s' := NextOf(cfg, s, Saves(k, works));
    if k in s.phases {
      assert PhaseOk(cfg, s, s.phases[k]);
    }
    forall j | j in s'.phases ensures PhaseOk(cfg, s', s'.phases[j]) {
      assert PhaseOk(cfg, s, s.phases[j]);
    }
  }

  /** Coverage and order survive any number of runners of one projection: in every interleaving, every wanted event
      up to the saved checkpoint was handled, or captured in dead-letter mode only, and no event was handled or
      captured before all wanted events before it had been. */
  lemma {:induction false} RunnersStayCovered(cfg: ProjConfig, steps: seq<RunnerStep>)
    ensures RunnersInv(cfg, ReachedBy(cfg, steps))
    decreases |steps|
  {
    hide NextOf, RunnersInv;
    if steps == [] {
      NoRunners(cfg);
    } else {
      RunnersStayCovered(cfg, steps[..|steps| - 1]);
      StepKeepsRunners(cfg, ReachedBy(cfg, steps[..|steps| - 1]), steps[|steps| - 1]);
    }
  }

  lemma NoRunners(cfg: ProjConfig)
    ensures RunnersInv(cfg, Runners([], 0, [], map[]))
  {
  }

  // ---------------------------------------------------------------- a runner that is left alone

  function Left(s: Runners, k: nat): nat {
    if k in s.phases && s.phases[k].Batching? then |s.phases[k].page| else 0
  }

  /** Runner k takes its page to the end; script(n) is how the n-th handler call goes. */
  ghost function TakeAll(cfg: ProjConfig, s: Runners, k: nat, script: nat -> Outcome, n: nat): Runners
    decreases Left(s, k)
  {
    if Left(s, k) == 0 then s
    else
      TakeAll(cfg, NextOf(cfg, s, Takes(k, script(n))), k, script, if InMyShard(cfg, s.phases[k].page[0]) then n + 1 else n)
  }

  lemma {:induction false} TakesAreBatch(cfg: ProjConfig, s: Runners, k: nat, script: nat -> Outcome, n: nat, out: BatchOut, h: seq<Did>)
    requires k in s.phases && s.phases[k].Batching? && s.phases[k].last == out.last && s.history == h + out.did
    requires !out.failed && !out.died
    ensures var r := Batch(cfg, s.phases[k].page, script, n, out);
            var s' := TakeAll(cfg, s, k, script, n);
            && s'.log == s.log && s'.cursor == s.cursor && s'.history == h + r.did && s'.phases - {k} == s.phases - {k}
            && (r.died <==> k !in s'.phases)
            && (!r.died ==> s'.phases[k].Batching? && s'.phases[k].page == [] && s'.phases[k].last == r.last)
    decreases Left(s, k)
  {
    hide InMyShard;
    var p := s.phases[k];
    if p.page != [] {
      var e, o := p.page[0], script(n);
      var s1 := NextOf(cfg, s, Takes(k, o));
      if !InMyShard(cfg, e) {
        TakesAreBatch(cfg, s1, k, script, n, out.(last := e.position), h);
      } else if o.Handles? || (o.Errs? && cfg.dlqOnFailure && o.captures) {
        var did := out.did + [Did(e.position, o.Errs?)];
        assert s1.history == h + did;
        TakesAreBatch(cfg, s1, k, script, n + 1,
                      out.(last := e.position, did := did, successes := out.successes + if o.Handles? then 1 else 0), h);
      } else {
        assert TakeAll(cfg, s1, k, script, n + 1) == s1;
      }
    }
  }

  /** With nobody in between, loading, reading, taking the page and saving is one RunOnce. */
  lemma AloneIsRunOnce(cfg: ProjConfig, s: Runners, k: nat, script: nat -> Outcome, works: bool)
    requires k !in s.phases
    ensures var read := NextOf(cfg, NextOf(cfg, s, Loads(k)), Reads(k));
            var s' := NextOf(cfg, TakeAll(cfg, read, k, script, 0), Saves(k, works));
            && s'.phases == s.phases
            && ProjState(s'.log, s'.cursor, s'.history)
            == Projection.Next(cfg, ProjState(s.log, s.cursor, s.history), RunOnce(script, works))
  {
    hide Batch, TakeAll, PageFor;
    var read := NextOf(cfg, NextOf(cfg, s, Loads(k)), Reads(k));
    assert s.history + [] == s.history;
    TakesAreBatch(cfg, read, k, script, 0, NOTHING, s.history);
    assert read.phases - {k} == s.phases;
    var taken := TakeAll(cfg, read, k, script, 0);
    var out := BatchFor(cfg, s.log, s.cursor, script);
    assert out.died ==> taken.phases == taken.phases - {k};
  }

  // ---------------------------------------------------------------- the checkpoint can fall

  /** A save lowers the checkpoint only if somebody raised it after this runner loaded it. */
  lemma FallsOnlyIfOvertaken(cfg: ProjConfig, s: Runners, k: nat, works: bool)
    requires RunnersInv(cfg, s) && NextOf(cfg, s, Saves(k, works)).cursor < s.cursor
    ensures k in s.phases && s.phases[k].from < s.cursor
  {
    assert PhaseOk(cfg, s, s.phases[k]);
  }

  lemma Snoc(cfg: ProjConfig, steps: seq<RunnerStep>, step: RunnerStep)
    ensures ReachedBy(cfg, steps + [step]) == NextOf(cfg, ReachedBy(cfg, steps), step)
  {
    hide NextOf;
    assert (steps + [step])[..|steps|] == steps;
  }

  const SINGLE := ProjConfig("", 1, 0, 0, false)

  lemma SinglePages(a: Envelope, b: Envelope)
    requires a.position == 1 && b.position == 2
    ensures PageFor(SINGLE, [a, b], 0) == [a] && PageFor(SINGLE, [a, b], 1) == [b]
    ensures InMyShard(SINGLE, a) && InMyShard(SINGLE, b)
  {
    assert [a, b][1..] == [b] && [b][1..] == [];
    assert ReadAll([b], "", 0, 0) == [] && ReadAll([b], "", 1, 1) == [b] + ReadAll([], "", 1, 0);
  }

  /** A whole round of runner 1, one event per page, while runner 0 holds a page. */
  lemma Round(steps: seq<RunnerStep>, a: Envelope, b: Envelope, c: nat, held: Phase, h: seq<Did>) returns (more: seq<RunnerStep>)
    requires a.position == 1 && b.position == 2 && c < 2
    requires ReachedBy(SINGLE, steps) == Runners([a, b], c, h, map[0 := held])
    ensures steps <= more && ReachedBy(SINGLE, more) == Runners([a, b], c + 1, h + [Did(c + 1, false)], map[0 := held])
  {
    hide ReachedBy, PageFor, InMyShard;
    SinglePages(a, b);
    var m1 := steps + [Loads(1)];
    Snoc(SINGLE, steps, Loads(1));
    var m2 := m1 + [Reads(1)];
    Snoc(SINGLE, m1, Reads(1));
    var m3 := m2 + [Takes(1, Handles)];
    Snoc(SINGLE, m2, Takes(1, Handles));
    more := m3 + [Saves(1, true)];
    Snoc(SINGLE, m3, Saves(1, true));
    var e := if c == 0 then a else b;
    assert ReachedBy(SINGLE, m2).phases[1] == Batching(c, [e], c, 0);
    assert [e][1..] == [];
    assert ReachedBy(SINGLE, more).phases == map[0 := held];
  }

  /** Two runners, two events: the second runner takes the checkpoint to 2 while the first holds a page, and the
      first one's save takes it back to 1. */
  lemma CheckpointFalls(a: Envelope, b: Envelope) returns (steps: seq<RunnerStep>)
    requires a.position == 1 && b.position == 2
    ensures ReachedBy(SINGLE, steps).cursor == 2 && ReachedBy(SINGLE, steps + [Saves(0, true)]).cursor == 1
  {
    hide ReachedBy, PageFor, InMyShard;
    SinglePages(a, b);
    EmptyStart();
    Snoc(SINGLE, [], Grows([a, b]));
    var m1 := [] + [Grows([a, b])];
    assert [] + [a, b] == [a, b];
    var m2 := m1 + [Loads(0)];
    Snoc(SINGLE, m1, Loads(0));
    var m3 := m2 + [Reads(0)];
    Snoc(SINGLE, m2, Reads(0));
    var held := Batching(0, [a], 0, 0);
    assert ReachedBy(SINGLE, m3) == Runners([a, b], 0, [], map[0 := held]);
    var m4 := Round(m3, a, b, 0, held, []);
    var m5 := Round(m4, a, b, 1, held, [] + [Did(1, false)]);
    steps := m5 + [Takes(0, Handles)];
    Snoc(SINGLE, m5, Takes(0, Handles));
    assert [a][1..] == [];
    assert ReachedBy(SINGLE, steps).phases[0] == Batching(0, [], 1, 1);
    Snoc(SINGLE, steps, Saves(0, true));
  }

  lemma EmptyStart()
    ensures ReachedBy(SINGLE, []) == Runners([], 0, [], map[])
  {
  }
}
