/** N sharded projectors together compute what one unsharded projector computes (projection/runtime.go). */
module ProjectionShards {
  import opened Basics
  import opened StreamIds
  import opened Store
  import opened StoreLaws
  import opened Shards
  import opened Projection

  // ---------------------------------------------------------------- views

  function Get<S>(view: map<StreamId, S>, sid: StreamId): Option<S> { if sid in view then Some(view[sid]) else None }

  /** A stream-local handler updates the entry of the event's own stream from that entry alone. */
  function Apply<S>(h: (Option<S>, Envelope) -> S, view: map<StreamId, S>, e: Envelope): map<StreamId, S> {
    view[e.hashed.sid := h(Get(view, e.hashed.sid), e)]
  }

  function ViewOf<S>(h: (Option<S>, Envelope) -> S, events: seq<Envelope>): map<StreamId, S> {
    if events == [] then map[] else Apply(h, ViewOf(h, events[..|events| - 1]), events[|events| - 1])
  }

  function EventAt(log: seq<Envelope>, p: nat): seq<Envelope> { if 0 < p <= |log| then [log[p - 1]] else [] }

  /** The events a history handled, in the order it did. */
  function HandledEvents(log: seq<Envelope>, history: seq<Did>): seq<Envelope> {
    if history == [] then []
    else
      var d := history[|history| - 1];
      HandledEvents(log, history[..|history| - 1]) + if d.captured then [] else EventAt(log, d.position)
  }

  // ---------------------------------------------------------------- what a clean run has handled

  function Filter(events: seq<Envelope>, keep: Envelope -> bool): seq<Envelope> {
    if events == [] then []
    else Filter(events[..|events| - 1], keep) + if keep(events[|events| - 1]) then [events[|events| - 1]] else []
  }

  function WantedBy(cfg: ProjConfig): Envelope -> bool { (e: Envelope) => Wanted(cfg, e) }

  function ScopedTo(tenant: string): Envelope -> bool { (e: Envelope) => InScope(e, tenant) }

  function Mine(cfg: ProjConfig, events: seq<Envelope>): seq<Envelope> { Filter(events, WantedBy(cfg)) }

  function Scoped(tenant: string, events: seq<Envelope>): seq<Envelope> { Filter(events, ScopedTo(tenant)) }

  lemma {:induction false} FilterConcat(a: seq<Envelope>, b: seq<Envelope>, keep: Envelope -> bool)
    ensures Filter(a + b, keep) == Filter(a, keep) + Filter(b, keep)
    decreases |b|
  {
    if b == [] {
      assert a + b == a;
    } else {
      FilterConcat(a, b[..|b| - 1], keep);
      assert (a + b)[..|a + b| - 1] == a + b[..|b| - 1];
    }
  }

  lemma FilterOne(e: Envelope, keep: Envelope -> bool)
    ensures Filter([e], keep) == if keep(e) then [e] else []
  {
    assert [e][..0] == [];
  }

  lemma {:induction false} FilterNone(events: seq<Envelope>, keep: Envelope -> bool)
    requires forall e | e in events :: !keep(e)
    ensures Filter(events, keep) == []
    decreases |events|
  {
    if events != [] {
      assert events[|events| - 1] in events;
      FilterNone(events[..|events| - 1], keep);
    }
  }

  lemma {:induction false} MineScoped(cfg: ProjConfig, events: seq<Envelope>)
    ensures Mine(cfg, Scoped(cfg.tenant, events)) == Mine(cfg, events)
    decreases |events|
  {
    if events != [] {
      var n := |events| - 1;
      MineScoped(cfg, events[..n]);
      var last := if InScope(events[n], cfg.tenant) then [events[n]] else [];
      FilterConcat(Scoped(cfg.tenant, events[..n]), last, WantedBy(cfg));
      FilterOne(events[n], WantedBy(cfg));
    }
  }

  lemma ScopedHead(log: seq<Envelope>, tenant: string, c: nat, e: Envelope)
    requires Positioned(log) && e in log && InScope(e, tenant) && e.position > c && Adjacent(log, tenant, c, e.position)
    ensures e.position <= |log| && Scoped(tenant, log[c..e.position]) == [e]
  {
    var p := e.position;
    assert log[p - 1] == e;
    var before := log[c..p - 1];
    forall x | x in before ensures !ScopedTo(tenant)(x) {
      var i :| 0 <= i < |before| && before[i] == x;
      assert log[c + i] == x && log[c + i].position == c + i + 1;
    }
    assert log[c..p] == before + [e];
    FilterNone(before, ScopedTo(tenant));
    FilterConcat(before, [e], ScopedTo(tenant));
    FilterOne(e, ScopedTo(tenant));
  }

  /** A non-empty page holds exactly the events in scope from the cursor to its last position. */
  lemma {:induction false} ListsIsScoped(log: seq<Envelope>, tenant: string, c: nat, page: seq<Envelope>)
    requires Positioned(log) && page != [] && Lists(log, tenant, c, page)
    ensures c < page[|page| - 1].position <= |log|
    ensures page == Scoped(tenant, log[c..page[|page| - 1].position])
    decreases |page|
  {
    var e := page[0];
    var p := e.position;
    ScopedHead(log, tenant, c, e);
    if |page| == 1 {
      assert page == [e];
    } else {
      var rest := page[1..];
      ListsIsScoped(log, tenant, p, rest);
      var q := rest[|rest| - 1].position;
      assert log[c..q] == log[c..p] + log[p..q];
      FilterConcat(log[c..p], log[p..q], ScopedTo(tenant));
      assert page == [e] + rest && page[|page| - 1] == rest[|rest| - 1];
    }
  }

  function Dids(events: seq<Envelope>): seq<Did> {
    seq(|events|, i requires 0 <= i < |events| => Did(events[i].position, false))
  }

  predicate Clean(script: nat -> Outcome, n: nat) { script(n) == Handles }

  lemma NothingMine(cfg: ProjConfig, did: seq<Did>)
    ensures did + Dids(Mine(cfg, [])) == did
  {
  }

  lemma MineCons(cfg: ProjConfig, e: Envelope, rest: seq<Envelope>, did: seq<Did>)
    ensures var d := if Wanted(cfg, e) then [Did(e.position, false)] else [];
            did + d + Dids(Mine(cfg, rest)) == did + Dids(Mine(cfg, [e] + rest))
  {
    hide Filter, InShard, InScope;
    FilterConcat([e], rest, WantedBy(cfg));
    FilterOne(e, WantedBy(cfg));
    var d := if Wanted(cfg, e) then [Did(e.position, false)] else [];
    assert Dids(Mine(cfg, [e] + rest)) == d + Dids(Mine(cfg, rest));
  }

  /** A batch whose handler never fails handles exactly the wanted events of the page and reaches its end. */
  lemma {:induction false} CleanBatch(cfg: ProjConfig, page: seq<Envelope>, script: nat -> Outcome, n: nat, out: BatchOut)
    requires forall m :: Clean(script, m)
    requires forall e | e in page :: InScope(e, cfg.tenant)
    ensures var r := Batch(cfg, page, script, n, out);
            && r.did == out.did + Dids(Mine(cfg, page)) && r.died == out.died
            && r.last == (if page == [] then out.last else page[|page| - 1].position)
    decreases |page|
  {
    hide Mine, Filter, Dids, InShard;
    if page == [] {
      NothingMine(cfg, out.did);
    } else {
      var e, rest := page[0], page[1..];
      assert e in page && Clean(script, n);
      assert page == [e] + rest;
      MineCons(cfg, e, rest, out.did);
      if InMyShard(cfg, e) {
        var out' := out.(last := e.position, did := out.did + [Did(e.position, false)], successes := out.successes + 1);
        assert Batch(cfg, page, script, n, out) == Batch(cfg, rest, script, n + 1, out');
        CleanBatch(cfg, rest, script, n + 1, out');
      } else {
        assert Batch(cfg, page, script, n, out) == Batch(cfg, rest, script, n, out.(last := e.position));
        CleanBatch(cfg, rest, script, n, out.(last := e.position));
        assert out.did + [] == out.did;
      }
    }
  }

  ghost predicate CleanStep(step: ProjStep) {
    match step
    case Grow(_) => true
    case RunOnce(script, saves) => saves && forall m :: Clean(script, m)
    case Reset(_) => false
  }

  /** The history is the wanted part of the log up to the cursor, each event once. */
  ghost predicate ExactlyOnce(cfg: ProjConfig, s: ProjState) {
    Positioned(s.log) && s.cursor <= |s.log| && s.history == Dids(Mine(cfg, s.log[..s.cursor]))
  }

  lemma DidsConcat(a: seq<Envelope>, b: seq<Envelope>)
    ensures Dids(a + b) == Dids(a) + Dids(b)
  {
  }

  lemma MineUpTo(cfg: ProjConfig, log: seq<Envelope>, c: nat, p: nat, page: seq<Envelope>)
    requires c <= p <= |log| && page == Scoped(cfg.tenant, log[c..p])
    ensures Dids(Mine(cfg, log[..p])) == Dids(Mine(cfg, log[..c])) + Dids(Mine(cfg, page))
  {
    MineScoped(cfg, log[c..p]);
    assert log[..p] == log[..c] + log[c..p];
    FilterConcat(log[..c], log[c..p], WantedBy(cfg));
    DidsConcat(Mine(cfg, log[..c]), Mine(cfg, page));
  }

  lemma CleanRunOnce(cfg: ProjConfig, s: ProjState, script: nat -> Outcome)
    requires ExactlyOnce(cfg, s) && forall m :: Clean(script, m)
    ensures ExactlyOnce(cfg, Next(cfg, s, RunOnce(script, true)))
  {
    var page := PageFor(cfg, s.log, s.cursor);
    ReadAllLists(s.log, cfg.tenant, s.cursor, Limit(cfg));
    ListsInScope(s.log, cfg.tenant, s.cursor, page);
    CleanBatch(cfg, page, script, 0, NOTHING);
    assert [] + Dids(Mine(cfg, page)) == Dids(Mine(cfg, page));
    if page == [] {
      assert s.history + [] == s.history;
    } else {
      ListsIsScoped(s.log, cfg.tenant, s.cursor, page);
      MineUpTo(cfg, s.log, s.cursor, page[|page| - 1].position, page);
    }
  }

  lemma {:induction false} ListsInScope(log: seq<Envelope>, tenant: string, c: nat, page: seq<Envelope>)
    requires Lists(log, tenant, c, page)
    ensures forall e | e in page :: InScope(e, tenant)
    decreases |page|
  {
    if page != [] {
      ListsInScope(log, tenant, page[0].position, page[1..]);
      assert page == [page[0]] + page[1..];
    }
  }

  lemma {:induction false} CleanRun(cfg: ProjConfig, steps: seq<ProjStep>)
    requires forall i | 0 <= i < |steps| :: CleanStep(steps[i])
    ensures ExactlyOnce(cfg, Reached(cfg, steps))
    decreases |steps|
  {
    if steps != [] {
      var n := |steps| - 1;
      assert forall i | 0 <= i < n :: steps[..n][i] == steps[i];
      CleanRun(cfg, steps[..n]);
      var s := Reached(cfg, steps[..n]);
      assert CleanStep(steps[n]);
      match steps[n]
      case Grow(more) =>
        if Positioned(s.log + more) {
          assert (s.log + more)[..s.cursor] == s.log[..s.cursor];
        }
      case RunOnce(script, saves) => CleanRunOnce(cfg, s, script);
    }
  }

  // ---------------------------------------------------------------- at the end of the log

  /** Nothing in scope is left to read. */
  ghost predicate CaughtUp(cfg: ProjConfig, s: ProjState) {
    forall e | e in s.log && InScope(e, cfg.tenant) :: e.position <= s.cursor
  }

  lemma {:induction false} HandledDids(log: seq<Envelope>, events: seq<Envelope>)
    requires Positioned(log) && forall e | e in events :: e in log
    ensures HandledEvents(log, Dids(events)) == events
    decreases |events|
  {
    if events != [] {
      var n := |events| - 1;
      HandledDids(log, events[..n]);
      assert Dids(events)[..n] == Dids(events[..n]);
      assert events[n] in log;
      assert EventAt(log, events[n].position) == [events[n]];
      assert events == events[..n] + [events[n]];
    }
  }

  lemma {:induction false} FilterMembers(events: seq<Envelope>, keep: Envelope -> bool)
    ensures forall e | e in Filter(events, keep) :: e in events && keep(e)
    decreases |events|
  {
    if events != [] {
      FilterMembers(events[..|events| - 1], keep);
    }
  }

  lemma MineCaughtUp(cfg: ProjConfig, s: ProjState)
    requires Positioned(s.log) && s.cursor <= |s.log| && CaughtUp(cfg, s)
    ensures Mine(cfg, s.log[..s.cursor]) == Mine(cfg, s.log)
  {
    var rest := s.log[s.cursor..];
    forall e | e in rest ensures !WantedBy(cfg)(e) {
      var i :| 0 <= i < |rest| && rest[i] == e;
      assert s.log[s.cursor + i] == e;
    }
    FilterNone(rest, WantedBy(cfg));
    assert s.log == s.log[..s.cursor] + rest;
    FilterConcat(s.log[..s.cursor], rest, WantedBy(cfg));
  }

  /** A clean projector at the end of the log has handled exactly the wanted events, in order. */
  lemma CaughtUpView(cfg: ProjConfig, s: ProjState)
    requires ExactlyOnce(cfg, s) && CaughtUp(cfg, s)
    ensures HandledEvents(s.log, s.history) == Mine(cfg, s.log)
  {
    MineCaughtUp(cfg, s);
    FilterMembers(s.log, WantedBy(cfg));
    HandledDids(s.log, Mine(cfg, s.log));
  }

  /** Dropping events of other streams does not change the entry of this one. */
  lemma {:induction false} ViewIsLocal<S>(h: (Option<S>, Envelope) -> S, events: seq<Envelope>, keep: Envelope -> bool, sid: StreamId)
    requires forall e | e in events && e.hashed.sid == sid :: keep(e)
    ensures Get(ViewOf(h, Filter(events, keep)), sid) == Get(ViewOf(h, events), sid)
    decreases |events|
  {
    if events != [] {
      var n := |events| - 1;
      var last := events[n];
      assert last in events;
      ViewIsLocal(h, events[..n], keep, sid);
      var f := Filter(events[..n], keep);
      if keep(last) {
        assert Filter(events, keep) == f + [last];
        assert (f + [last])[..|f|] == f;
      } else {
        assert Filter(events, keep) == f;
      }
    }
  }

  /** Streams whose events are all dropped have no entry. */
  lemma {:induction false} ViewOnlyKept<S>(h: (Option<S>, Envelope) -> S, events: seq<Envelope>, sid: StreamId)
    requires forall e | e in events :: e.hashed.sid != sid
    ensures sid !in ViewOf(h, events)
    decreases |events|
  {
    if events != [] {
      assert events[|events| - 1] in events;
      ViewOnlyKept(h, events[..|events| - 1], sid);
    }
  }

  /** For stream-local handlers that never fail: at the end of the same log, the runner of a stream's shard
      holds for it exactly what one unsharded runner holds, and the other runners hold nothing for it,
      whatever batch sizes and interleavings with log growth each of them saw. */
  lemma ShardsEqualOne<S>(h: (Option<S>, Envelope) -> S, one: ProjConfig, many: ProjConfig,
                          steps: seq<ProjStep>, shardSteps: seq<ProjStep>, sid: StreamId)
    requires one.totalShards == 0 && many.tenant == one.tenant
    requires forall i | 0 <= i < |steps| :: CleanStep(steps[i])
    requires forall i | 0 <= i < |shardSteps| :: CleanStep(shardSteps[i])
    requires Reached(one, steps).log == Reached(many, shardSteps).log
    requires CaughtUp(one, Reached(one, steps)) && CaughtUp(many, Reached(many, shardSteps))
    ensures var log := Reached(one, steps).log;
            var whole := ViewOf(h, HandledEvents(log, Reached(one, steps).history));
            var part := ViewOf(h, HandledEvents(log, Reached(many, shardSteps).history));
            Get(part, sid) == if InShard(sid, many.shard, many.totalShards) then Get(whole, sid) else None
  {
    var log := Reached(one, steps).log;
    CleanRun(one, steps);
    CleanRun(many, shardSteps);
    CaughtUpView(one, Reached(one, steps));
    CaughtUpView(many, Reached(many, shardSteps));
    FilterMembers(log, WantedBy(many));
    if InShard(sid, many.shard, many.totalShards) {
      MineOfMine(one, many, log);
      FilterMembers(log, WantedBy(one));
      ViewIsLocal(h, Mine(one, log), WantedBy(many), sid);
    } else {
      ViewOnlyKept(h, Mine(many, log), sid);
    }
  }

  lemma {:induction false} MineOfMine(one: ProjConfig, many: ProjConfig, events: seq<Envelope>)
    requires one.totalShards == 0 && many.tenant == one.tenant
    ensures Filter(Mine(one, events), WantedBy(many)) == Mine(many, events)
    decreases |events|
  {
    if events != [] {
      var n := |events| - 1;
      MineOfMine(one, many, events[..n]);
      var last := if Wanted(one, events[n]) then [events[n]] else [];
      FilterConcat(Mine(one, events[..n]), last, WantedBy(many));
      FilterOne(events[n], WantedBy(many));
    }
  }
}
