/** A linked projection inside the projector that hosts it: each handler call of a batch is the linked handler on
    the destination store, and its result decides how the batch goes on (linked/projection.go,
    projection/runtime.go). */
module LinkedHost {
  import opened Store
  import opened StoreLaws
  import P = Projection
  import L = Linked

  datatype Host = Host(link: L.LinkConfig, proj: P.ProjConfig, chain: ChainFns)

  datatype Death = Survives | BeforeCall | AfterCall

  /** One handler call: what others did to the destination just before it, what the call draws, whether the
      process dies around it, and whether a dead letter could be written. */
  datatype Turn = Turn(before: seq<L.LinkStep>, draw: L.Draw, death: Death, captures: bool)

  /** The steps made so far on either side. */
  datatype Joint = Joint(source: seq<P.ProjStep>, calls: seq<L.LinkStep>)

  datatype JointStep =
    | Grow(events: seq<Envelope>)
    | Reset(cursor: nat)
    | Deliver(turns: nat -> Turn, saves: bool)
    | Elsewhere(step: L.LinkStep)

  function Dest(h: Host, calls: seq<L.LinkStep>): L.LinkSys { L.Reached(h.link, h.chain, calls) }

  ghost function Source(h: Host, j: Joint): P.ProjState { P.Reached(h.proj, j.source) }

  /** The handler calls of one batch, and how each went. */
  function Walk(h: Host, page: seq<Envelope>, turns: nat -> Turn, n: nat, calls: seq<L.LinkStep>): (seq<L.LinkStep>, seq<P.Outcome>)
    decreases |page|
  {
    if page == [] then (calls, [])
    else if !P.InMyShard(h.proj, page[0]) then Walk(h, page[1..], turns, n, calls)
    else
      var e, t := page[0], turns(n);
      var ready := calls + t.before;
      if t.death == BeforeCall then (ready, [P.Dies(false)])
      else
        var ok := L.Emit(h.link, h.chain, Dest(h, ready).db, e, t.draw).1;
        var called := ready + [L.Handle(e, t.draw)];
        if t.death == AfterCall then (called, [P.Dies(ok)])
        else if ok || (h.proj.dlqOnFailure && t.captures) then
          var (after, outs) := Walk(h, page[1..], turns, n + 1, called);
          (after, [if ok then P.Handles else P.Errs(true)] + outs)
        else (called, [P.Errs(t.captures)])
  }

  function ScriptOf(outs: seq<P.Outcome>): nat -> P.Outcome { (k: nat) => if k < |outs| then outs[k] else P.Handles }

  ghost function NextJoint(h: Host, j: Joint, step: JointStep): Joint {
    match step
    case Grow(events) => j.(source := j.source + [P.Grow(events)])
    case Reset(c) => j.(source := j.source + [P.Reset(c)])
    case Elsewhere(s) => j.(calls := j.calls + [s])
    case Deliver(turns, saves) =>
      var ps := Source(h, j);
      var (calls, outs) := Walk(h, P.PageFor(h.proj, ps.log, ps.cursor), turns, 0, j.calls);
      Joint(j.source + [P.RunOnce(ScriptOf(outs), saves)], calls)
  }

  ghost function ReachedJoint(h: Host, steps: seq<JointStep>): Joint {
    if steps == [] then Joint([], [])
    else NextJoint(h, ReachedJoint(h, steps[..|steps| - 1]), steps[|steps| - 1])
  }

  // ---------------------------------------------------------------- the rules for the outside

  ghost predicate OutsideOk(h: Host, s: L.LinkStep, sources: iset<Envelope>) {
    L.StepOk(h.link, s, sources) && (s.Other? ==> L.NoUse(h.link, s.p.ops))
  }

  ghost predicate AllOutsideOk(h: Host, calls: seq<L.LinkStep>, sources: iset<Envelope>) {
    forall i | 0 <= i < |calls| :: OutsideOk(h, calls[i], sources)
  }

  ghost predicate JointStepOk(h: Host, step: JointStep, sources: iset<Envelope>) {
    match step
    case Grow(events) => forall e | e in events :: e in sources
    case Reset(_) => true
    case Elsewhere(s) => OutsideOk(h, s, sources)
    case Deliver(turns, _) => forall n: nat :: AllOutsideOk(h, turns(n).before, sources)
  }

  // ---------------------------------------------------------------- one batch

  lemma ReachedSnoc(h: Host, calls: seq<L.LinkStep>, s: L.LinkStep)
    ensures Dest(h, calls + [s]) == L.Next(h.link, h.chain, Dest(h, calls), s)
  {
    assert (calls + [s])[..|calls|] == calls;
  }

  lemma {:induction false} SettledGrows(h: Host, calls: seq<L.LinkStep>, more: seq<L.LinkStep>)
    ensures Dest(h, calls).settled <= Dest(h, calls + more).settled
    decreases |more|
  {
    hide L.Emit, L.Emits;
    if more == [] {
      assert calls + more == calls;
    } else {
      var n := |more| - 1;
      SettledGrows(h, calls, more[..n]);
      assert calls + more == (calls + more[..n]) + [more[n]];
      ReachedSnoc(h, calls + more[..n], more[n]);
    }
  }

  /** A handler call that returned nil for an emitting event settled it. */
  lemma CallSettles(h: Host, ready: seq<L.LinkStep>, e: Envelope, d: L.Draw)
    requires L.Emit(h.link, h.chain, Dest(h, ready).db, e, d).1 && L.Emits(h.link, e)
    ensures e.hashed.eventId in Dest(h, ready + [L.Handle(e, d)]).settled
  {
    hide L.Emit, L.Emits;
    ReachedSnoc(h, ready, L.Handle(e, d));
  }

  /** The batch grows the calls by handler calls on its own page and by what others did. */
  lemma {:induction false} WalkGrows(h: Host, page: seq<Envelope>, turns: nat -> Turn, n: nat,
                                     calls: seq<L.LinkStep>, sources: iset<Envelope>)
    requires AllOutsideOk(h, calls, sources) && (forall m: nat :: AllOutsideOk(h, turns(m).before, sources))
    requires forall e | e in page :: e in sources
    ensures calls <= Walk(h, page, turns, n, calls).0
    ensures AllOutsideOk(h, Walk(h, page, turns, n, calls).0, sources)
    decreases |page|
  {
    hide OutsideOk, L.Emit, P.InMyShard;
    if page != [] {
      assert page[0] in page && forall e | e in page[1..] :: e in page;
      if !P.InMyShard(h.proj, page[0]) {
        WalkGrows(h, page[1..], turns, n, calls, sources);
      } else {
        var e, t := page[0], turns(n);
        var ready := calls + t.before;
        var called := ready + [L.Handle(e, t.draw)];
        OutsideConcat(h, calls, t.before, sources);
        OwnCallOk(h, e, t.draw, sources);
        OutsideConcat(h, ready, [L.Handle(e, t.draw)], sources);
        WalkGrows(h, page[1..], turns, n + 1, called, sources);
      }
    }
  }

  lemma OwnCallOk(h: Host, e: Envelope, d: L.Draw, sources: iset<Envelope>)
    requires e in sources
    ensures OutsideOk(h, L.Handle(e, d), sources)
  {
  }

  lemma OutsideConcat(h: Host, a: seq<L.LinkStep>, b: seq<L.LinkStep>, sources: iset<Envelope>)
    requires AllOutsideOk(h, a, sources) && AllOutsideOk(h, b, sources)
    ensures AllOutsideOk(h, a + b, sources)
  {
  }

  /** The entry is an event of the page, and if something is derived from that event it is settled. */
  ghost predicate Answered(h: Host, page: seq<Envelope>, settled: set<string>, d: P.Did) {
    exists e :: e in page && e.position == d.position && (L.Emits(h.link, e) ==> e.hashed.eventId in settled)
  }

  lemma AnsweredMore(h: Host, page: seq<Envelope>, settled: set<string>, settled': set<string>, d: P.Did)
    requires page != [] && Answered(h, page[1..], settled, d) && settled <= settled'
    ensures Answered(h, page, settled', d)
  {
    hide L.Emits;
    var e :| e in page[1..] && e.position == d.position && (L.Emits(h.link, e) ==> e.hashed.eventId in settled);
    assert e in page;
  }

  lemma HeadAnswered(h: Host, page: seq<Envelope>, ready: seq<L.LinkStep>, d: L.Draw, settled: set<string>)
    requires page != [] && L.Emit(h.link, h.chain, Dest(h, ready).db, page[0], d).1
    requires Dest(h, ready + [L.Handle(page[0], d)]).settled <= settled
    ensures Answered(h, page, settled, P.Did(page[0].position, false))
  {
    hide L.Emit, L.Emits, Dest;
    var e := page[0];
    assert e in page;
    if L.Emits(h.link, e) {
      CallSettles(h, ready, e, d);
    }
  }

  ghost predicate AllAnswered(h: Host, page: seq<Envelope>, settled: set<string>, did: seq<P.Did>, before: seq<P.Did>) {
    forall d | d in did && !d.captured && d !in before :: Answered(h, page, settled, d)
  }

  lemma AnsweredOnward(h: Host, page: seq<Envelope>, settled: set<string>, did: seq<P.Did>, first: P.Did, before: seq<P.Did>)
    requires page != [] && AllAnswered(h, page[1..], settled, did, before + [first])
    requires !first.captured ==> Answered(h, page, settled, first)
    ensures AllAnswered(h, page, settled, did, before)
  {
    hide Answered;
    forall d | d in did && !d.captured && d !in before ensures Answered(h, page, settled, d) {
      if d != first {
        AnsweredMore(h, page, settled, settled, d);
      }
    }
  }

  lemma AnsweredSkip(h: Host, page: seq<Envelope>, settled: set<string>, did: seq<P.Did>, before: seq<P.Did>)
    requires page != [] && AllAnswered(h, page[1..], settled, did, before)
    ensures AllAnswered(h, page, settled, did, before)
  {
    hide Answered;
    forall d | d in did && !d.captured && d !in before ensures Answered(h, page, settled, d) {
      AnsweredMore(h, page, settled, settled, d);
    }
  }

  /** Every success the projector records during the batch is answered by the destination. */
  lemma {:induction false} WalkSettles(h: Host, page: seq<Envelope>, turns: nat -> Turn, n: nat, calls: seq<L.LinkStep>,
                                       script: nat -> P.Outcome, out: P.BatchOut)
    requires forall k: nat | k < |Walk(h, page, turns, n, calls).1| :: script(n + k) == Walk(h, page, turns, n, calls).1[k]
    ensures AllAnswered(h, page, Dest(h, Walk(h, page, turns, n, calls).0).settled, P.Batch(h.proj, page, script, n, out).did, out.did)
    ensures Dest(h, calls).settled <= Dest(h, Walk(h, page, turns, n, calls).0).settled
    decreases |page|
  {
    hide L.Emit, L.Emits, P.InMyShard, Answered, Dest;
    if page != [] {
      var (after, outs) := Walk(h, page, turns, n, calls);
      var settled := Dest(h, after).settled;
      var e, t := page[0], turns(n);
      if !P.InMyShard(h.proj, e) {
        var out' := out.(last := e.position);
        WalkSettles(h, page[1..], turns, n, calls, script, out');
        AnsweredSkip(h, page, settled, P.Batch(h.proj, page, script, n, out).did, out.did);
      } else {
        var ready := calls + t.before;
        SettledGrows(h, calls, t.before);
        assert script(n + 0) == outs[0];
        if t.death != BeforeCall {
          var ok := L.Emit(h.link, h.chain, Dest(h, ready).db, e, t.draw).1;
          var called := ready + [L.Handle(e, t.draw)];
          SettledGrows(h, ready, [L.Handle(e, t.draw)]);
          if t.death == Survives && (ok || (h.proj.dlqOnFailure && t.captures)) {
            var did := P.Did(e.position, !ok);
            var out' := out.(last := e.position, did := out.did + [did], successes := out.successes + if ok then 1 else 0);
            var rest := Walk(h, page[1..], turns, n + 1, called).1;
            forall k: nat | k < |rest| ensures script(n + 1 + k) == rest[k] {
              assert script(n + (k + 1)) == outs[k + 1];
            }
            WalkSettles(h, page[1..], turns, n + 1, called, script, out');
            if ok {
              HeadAnswered(h, page, ready, t.draw, settled);
            }
            AnsweredOnward(h, page, settled, P.Batch(h.proj, page, script, n, out).did, did, out.did);
          } else if ok {
            HeadAnswered(h, page, ready, t.draw, settled);
          }
        }
      }
    }
  }

  // ---------------------------------------------------------------- runs

  /** What the projector handled is settled at the destination. */
  ghost predicate HandledSettled(h: Host, j: Joint) {
    forall x | x in Source(h, j).log && L.Emits(h.link, x) && P.Did(x.position, false) in Source(h, j).history ::
      x.hashed.eventId in Dest(h, j.calls).settled
  }

  ghost predicate JointInv(h: Host, j: Joint, sources: iset<Envelope>) {
    HandledSettled(h, j) && AllOutsideOk(h, j.calls, sources) && forall e | e in Source(h, j).log :: e in sources
  }

  lemma SourceSnoc(h: Host, j: Joint, s: P.ProjStep)
    ensures Source(h, j.(source := j.source + [s])) == P.Next(h.proj, Source(h, j), s)
  {
    assert (j.source + [s])[..|j.source|] == j.source;
  }

  /** A position names one event of the log. */
  lemma SamePosition(log: seq<Envelope>, a: Envelope, b: Envelope)
    requires Positioned(log) && a in log && b in log && a.position == b.position
    ensures a == b
  {
    var i :| 0 <= i < |log| && log[i] == a;
    var k :| 0 <= k < |log| && log[k] == b;
  }

  lemma {:induction false} PageInLog(events: seq<Envelope>, tenant: string, from: nat, limit: nat)
    ensures forall e | e in ReadAll(events, tenant, from, limit) :: e in events
    decreases |events|
  {
    if events != [] && limit > 0 {
      PageInLog(events[1..], tenant, from, limit);
      PageInLog(events[1..], tenant, from, limit - 1);
      assert forall e | e in events[1..] :: e in events;
    }
  }

  lemma DeliverKeeps(h: Host, j: Joint, turns: nat -> Turn, saves: bool, sources: iset<Envelope>)
    requires JointInv(h, j, sources) && JointStepOk(h, Deliver(turns, saves), sources)
    ensures JointInv(h, NextJoint(h, j, Deliver(turns, saves)), sources)
  {
    hide L.Emits, Dest, OutsideOk, Walk, P.Batch, AllOutsideOk, L.Emit;
    var ps := Source(h, j);
    var page := P.PageFor(h.proj, ps.log, ps.cursor);
    var (calls, outs) := Walk(h, page, turns, 0, j.calls);
    var step := P.RunOnce(ScriptOf(outs), saves);
    var j' := NextJoint(h, j, Deliver(turns, saves));
    assert j' == Joint(j.source + [step], calls);
    SourceSnoc(h, j, step);
    assert Source(h, j') == Source(h, j.(source := j.source + [step]));
    PageInLog(ps.log, h.proj.tenant, ps.cursor, P.Limit(h.proj));
    WalkGrows(h, page, turns, 0, j.calls, sources);
    WalkSettles(h, page, turns, 0, j.calls, ScriptOf(outs), P.NOTHING);
    P.ReachedIsCovered(h.proj, j.source);
    forall x | x in ps.log && L.Emits(h.link, x) && P.Did(x.position, false) in Source(h, j').history
      ensures x.hashed.eventId in Dest(h, calls).settled
    {
      var d := P.Did(x.position, false);
      if d !in ps.history {
        assert Answered(h, page, Dest(h, calls).settled, d);
        var e :| e in page && e.position == d.position && (L.Emits(h.link, e) ==> e.hashed.eventId in Dest(h, calls).settled);
        SamePosition(ps.log, e, x);
      }
    }
  }

  lemma GrowKeeps(h: Host, j: Joint, events: seq<Envelope>, sources: iset<Envelope>)
    requires JointInv(h, j, sources) && forall e | e in events :: e in sources
    ensures JointInv(h, NextJoint(h, j, Grow(events)), sources)
  {
    hide L.Emits, Dest, AllOutsideOk;
    var ps := Source(h, j);
    var j' := NextJoint(h, j, Grow(events));
    SourceSnoc(h, j, P.Grow(events));
    P.ReachedIsCovered(h.proj, j.source);
    P.ReachedIsCovered(h.proj, j'.source);
    var log := Source(h, j').log;
    forall x | x in log && L.Emits(h.link, x) && P.Did(x.position, false) in ps.history
      ensures x.hashed.eventId in Dest(h, j.calls).settled
    {
      var e :| e in ps.log && P.Wanted(h.proj, e) && e.position == x.position;
      assert e in log;
      SamePosition(log, e, x);
    }
  }

  lemma JointStepKeeps(h: Host, j: Joint, step: JointStep, sources: iset<Envelope>)
    requires JointInv(h, j, sources) && JointStepOk(h, step, sources)
    ensures JointInv(h, NextJoint(h, j, step), sources)
  {
    match step
    case Grow(events) => GrowKeeps(h, j, events, sources);
    case Reset(c) => SourceSnoc(h, j, P.Reset(c));
    case Elsewhere(s) => SettledGrows(h, j.calls, [s]);
    case Deliver(turns, saves) => DeliverKeeps(h, j, turns, saves, sources);
  }

  lemma {:induction false} ReachedJointInv(h: Host, steps: seq<JointStep>, sources: iset<Envelope>)
    requires forall i | 0 <= i < |steps| :: JointStepOk(h, steps[i], sources)
    ensures JointInv(h, ReachedJoint(h, steps), sources)
    decreases |steps|
  {
    if steps != [] {
      var n := |steps| - 1;
      assert forall i | 0 <= i < n :: steps[..n][i] == steps[i];
      ReachedJointInv(h, steps[..n], sources);
      JointStepKeeps(h, ReachedJoint(h, steps[..n]), steps[n], sources);
    }
  }

  /** A linked projection hosted by a fail-stop projector, over every run: growth of the source, crashes before
      and after a handler call, lost checkpoints, resets, other runners' handler calls and other appends to the
      destination at any point. Every wanted emitting event at or below the saved cursor has exactly one derived
      event. */
  lemma HostedExactlyOne(h: Host, steps: seq<JointStep>, sources: iset<Envelope>, e: Envelope)
    requires h.link.idempotent && !h.proj.dlqOnFailure && L.UniqueIds(sources)
    requires forall i | 0 <= i < |steps| :: JointStepOk(h, steps[i], sources)
    requires var ps := Source(h, ReachedJoint(h, steps));
             e in ps.log && P.Wanted(h.proj, e) && e.position <= ps.cursor && L.Emits(h.link, e)
    ensures L.ExactlyOne(Dest(h, ReachedJoint(h, steps).calls).derived, e.hashed.eventId)
  {
    hide L.ExactlyOne, L.Emits, P.Wanted;
    ReachedJointInv(h, steps, sources);
    var j := ReachedJoint(h, steps);
    L.CoveredSourcesHaveOne(h.link, h.chain, j.calls, sources, h.proj, j.source, e);
  }
}
