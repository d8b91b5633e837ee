/** Maker-checker traces: what holds of every event log the party aggregate can produce. */
module PartyTraces {
  import opened Basics
  import opened StreamIds
  import opened Store
  import opened StoreLaws
  import opened Aggregate
  import opened Interleaving
  import opened InterleavingProofs
  import opened Serializability
  import opened PartyClaims
  import P = Party

  // ---------------------------------------------------------------- logs the decider can produce

  function FoldLog(log: seq<P.Event>): P.PartyState {
    if log == [] then P.INITIAL else P.Evolve(FoldLog(log[..|log| - 1]), log[|log| - 1])
  }

  /** The command was accepted on s with this one event; a Register carried an actor id. */
  predicate Emits(s: P.PartyState, c: P.Command, e: P.Event) {
    P.Decide(s, c).Accept? && P.Decide(s, c).events == [e] && NamedRegister(c)
  }

  /** Each event was decided on the fold of the ones before it. */
  ghost predicate Decided(log: seq<P.Event>) {
    forall i | 0 <= i < |log| :: DecidedAt(log, i)
  }

  ghost predicate DecidedAt(log: seq<P.Event>, i: nat)
    requires i < |log|
  {
    exists c: P.Command :: Emits(FoldLog(log[..i]), c, log[i])
  }

  /** What an event of a decided log says about the state it was decided on. */
  ghost predicate Legal(s: P.PartyState, e: P.Event) {
    && (Closes(e) ==>
          var k := P.FindPending(s.pending, e.changeId);
          k >= 0 && ProperCloseOf(s.pending[k], e))
    && (e.ChangeProposed? ==> !P.HasPending(s.pending, e.change))
    && (e.PartyClosed? ==> s.partyId != "")
    && (s.partyId != "" && s.status == P.Closed ==> e.ChangeRejected? || e.ChangeWithdrawn?)
  }

  ghost predicate LegalLog(log: seq<P.Event>) {
    forall i | 0 <= i < |log| :: Legal(FoldLog(log[..i]), log[i])
  }

  lemma EmittedIsLegal(s: P.PartyState, c: P.Command, e: P.Event)
    requires Emits(s, c, e)
    ensures Legal(s, e)
  {
  }

  lemma DecidedIsLegal(log: seq<P.Event>)
    requires Decided(log)
    ensures LegalLog(log)
  {
    hide Legal, Emits, FoldLog;
    forall i | 0 <= i < |log| ensures Legal(FoldLog(log[..i]), log[i]) {
      assert DecidedAt(log, i);
      var c: P.Command :| Emits(FoldLog(log[..i]), c, log[i]);
      EmittedIsLegal(FoldLog(log[..i]), c, log[i]);
    }
  }

  predicate Closes(e: P.Event) { e.ChangeApplied? || e.ChangeRejected? || e.ChangeWithdrawn? }

  /** What may close a pending change: only someone other than the proposer applies or rejects it, only the
      proposer withdraws it, and an application carries the very change that was proposed. */
  predicate ProperCloseOf(pc: P.PendingChange, e: P.Event) {
    match e
    case ChangeApplied(id, who, change, _) => id == pc.changeId && who != pc.proposedBy && change == pc.change
    case ChangeRejected(id, who, _) => id == pc.changeId && who != pc.proposedBy
    case ChangeWithdrawn(id, who) => id == pc.changeId && who == pc.proposedBy
    case _ => false
  }

  // ---------------------------------------------------------------- the ledger of open proposals

  /** Position in a list of proposal indices of the first one with the id, or -1. */
  function FirstOpen(log: seq<P.Event>, open: seq<nat>, id: string): (k: int)
    ensures -1 <= k < |open|
    ensures k >= 0 ==> open[k] < |log| && log[open[k]].ChangeProposed? && log[open[k]].changeId == id
  {
    if open == [] then -1
    else if open[0] < |log| && log[open[0]].ChangeProposed? && log[open[0]].changeId == id then 0
    else
      var r := FirstOpen(log, open[1..], id);
      if r < 0 then -1 else r + 1
  }

  /** Indices of the proposals still open after the log: a proposal opens its own index, a closing event
      closes the oldest open proposal with its id. Defined on the log alone, without the folded state. */
  function Open(log: seq<P.Event>): seq<nat> {
    if log == [] then []
    else
      var n := |log| - 1;
      var before := Open(log[..n]);
      if log[n].ChangeProposed? then before + [n]
      else if Closes(log[n]) then P.RemoveAt(before, FirstOpen(log[..n], before, log[n].changeId))
      else before
  }

  /** The proposal that event i closes, as an index into the log. */
  function ClosedBy(log: seq<P.Event>, i: nat): Option<nat>
    requires i < |log|
  {
    var before := Open(log[..i]);
    if !Closes(log[i]) then None
    else
      var k := FirstOpen(log[..i], before, log[i].changeId);
      if k < 0 then None else Some(before[k])
  }

  // ---------------------------------------------------------------- ledger facts that hold of any log

  ghost predicate Increasing(s: seq<nat>, bound: nat) {
    && (forall a, b | 0 <= a < b < |s| :: s[a] < s[b])
    && (forall a | 0 <= a < |s| :: s[a] < bound)
  }

  lemma {:induction false} OpenIncreasing(log: seq<P.Event>)
    ensures Increasing(Open(log), |log|)
    ensures forall k | 0 <= k < |Open(log)| :: log[Open(log)[k]].ChangeProposed?
  {
    if log != [] {
      var n := |log| - 1;
      OpenIncreasing(log[..n]);
      if Closes(log[n]) {
        RemoveIncreasing(log[..n], Open(log[..n]), FirstOpen(log[..n], Open(log[..n]), log[n].changeId));
      }
    }
  }

  lemma RemoveIncreasing(log: seq<P.Event>, s: seq<nat>, k: int)
    requires Increasing(s, |log|) && forall a | 0 <= a < |s| :: log[s[a]].ChangeProposed?
    ensures Increasing(P.RemoveAt(s, k), |log|)
    ensures forall a | 0 <= a < |P.RemoveAt(s, k)| :: log[P.RemoveAt(s, k)[a]].ChangeProposed?
  {
  }

  lemma RemovedIsGone(s: seq<nat>, bound: nat, k: nat)
    requires Increasing(s, bound) && k < |s|
    ensures s[k] !in P.RemoveAt(s, k)
  {
  }

  /** A proposal that is not open stays closed. */
  lemma {:induction false} ClosedStaysClosed(log: seq<P.Event>, n: nat, j: nat)
    requires j < n <= |log| && j !in Open(log[..n])
    ensures j !in Open(log)
  {
    if n == |log| {
      assert log[..n] == log;
    } else {
      var m := |log| - 1;
      assert log[..m][..n] == log[..n];
      ClosedStaysClosed(log[..m], n, j);
    }
  }

  /** No proposal is closed twice. */
  lemma ClosedOnce(log: seq<P.Event>, i: nat, i': nat)
    requires i < i' < |log|
    requires ClosedBy(log, i).Some? && ClosedBy(log, i').Some?
    ensures ClosedBy(log, i) != ClosedBy(log, i')
  {
    var before := Open(log[..i]);
    var k := FirstOpen(log[..i], before, log[i].changeId);
    var j := before[k];
    OpenIncreasing(log[..i]);
    RemovedIsGone(before, i, k);
    assert log[..i + 1][..i] == log[..i];
    assert j !in Open(log[..i + 1]);
    assert log[..i'][..i + 1] == log[..i + 1];
    ClosedStaysClosed(log[..i'], i + 1, j);
  }

  // ---------------------------------------------------------------- the ledger is the pending list

  function PendingOf(e: P.Event): P.PendingChange
    requires e.ChangeProposed?
  {
    P.PendingChange(e.changeId, e.proposedBy, e.reason, e.change)
  }

  ghost predicate Matches(log: seq<P.Event>, open: seq<nat>, pending: seq<P.PendingChange>) {
    && |open| == |pending|
    && forall k | 0 <= k < |open| :: open[k] < |log| && log[open[k]].ChangeProposed? && pending[k] == PendingOf(log[open[k]])
  }

  lemma {:induction false} SameSearch(log: seq<P.Event>, open: seq<nat>, pending: seq<P.PendingChange>, id: string)
    requires Matches(log, open, pending)
    ensures FirstOpen(log, open, id) == P.FindPending(pending, id)
  {
    if open != [] {
      SameSearch(log, open[1..], pending[1..], id);
    }
  }

  lemma NothingPending()
    ensures Matches([], Open([]), FoldLog([]).pending)
  {
  }

  lemma {:induction false} LedgerIsPending(log: seq<P.Event>)
    ensures Matches(log, Open(log), FoldLog(log).pending)
  {
    hide Matches, P.Evolve;
    NothingPending();
    if log != [] {
      var n := |log| - 1;
      LedgerIsPending(log[..n]);
      LedgerStep(log[..n], log[n], Open(log[..n]), FoldLog(log[..n]));
      assert log == log[..n] + [log[n]];
    }
  }

  lemma LedgerStep(log: seq<P.Event>, e: P.Event, open: seq<nat>, s: P.PartyState)
    requires Matches(log, open, s.pending)
    ensures var open' := if e.ChangeProposed? then open + [|log|]
                         else if Closes(e) then P.RemoveAt(open, FirstOpen(log, open, e.changeId))
                         else open;
            Matches(log + [e], open', P.Evolve(s, e).pending)
  {
    EvolvePending(s, e);
    if Closes(e) {
      SameSearch(log, open, s.pending, e.changeId);
      MatchesRemove(log, e, open, s.pending, FirstOpen(log, open, e.changeId));
    } else {
      MatchesExtend(log, e, open, s.pending);
    }
  }

  lemma EvolvePending(s: P.PartyState, e: P.Event)
    ensures P.Evolve(s, e).pending ==
            if e.ChangeProposed? then s.pending + [PendingOf(e)]
            else if Closes(e) then P.RemoveAt(s.pending, P.FindPending(s.pending, e.changeId))
            else s.pending
  {
  }

  lemma MatchesRemove(log: seq<P.Event>, e: P.Event, open: seq<nat>, pending: seq<P.PendingChange>, k: int)
    requires Matches(log, open, pending)
    ensures Matches(log + [e], P.RemoveAt(open, k), P.RemoveAt(pending, k))
  {
  }

  lemma MatchesExtend(log: seq<P.Event>, e: P.Event, open: seq<nat>, pending: seq<P.PendingChange>)
    requires Matches(log, open, pending)
    ensures Matches(log + [e], open, pending)
    ensures e.ChangeProposed? ==> Matches(log + [e], open + [|log|], pending + [PendingOf(e)])
  {
  }

  // ---------------------------------------------------------------- maker-checker laws

  /** In every produced log, each applied, rejected or withdrawn event closes an earlier proposal that was
      still open, and closes it properly. With ClosedOnce: each proposal is closed at most once. */
  lemma ClosesItsProposal(log: seq<P.Event>, i: nat)
    requires Decided(log) && i < |log| && Closes(log[i])
    ensures ClosedBy(log, i).Some?
    ensures var j := ClosedBy(log, i).value;
            && j < i && log[j].ChangeProposed? && j in Open(log[..i]) && j !in Open(log[..i + 1])
            && ProperCloseOf(PendingOf(log[j]), log[i])
  {
    DecidedIsLegal(log);
    LegalClose(log, i);
  }

  lemma LegalClose(log: seq<P.Event>, i: nat)
    requires LegalLog(log) && i < |log| && Closes(log[i])
    ensures ClosedBy(log, i).Some?
    ensures var j := ClosedBy(log, i).value;
            && j < i && log[j].ChangeProposed? && j in Open(log[..i]) && j !in Open(log[..i + 1])
            && ProperCloseOf(PendingOf(log[j]), log[i])
  {
    var s := FoldLog(log[..i]);
    var before := Open(log[..i]);
    assert Legal(s, log[i]);
    LedgerIsPending(log[..i]);
    SameSearch(log[..i], before, s.pending, log[i].changeId);
    OpenIncreasing(log[..i]);
    RemovedIsGone(before, i, FirstOpen(log[..i], before, log[i].changeId));
    assert log[..i + 1][..i] == log[..i];
  }

  /** At most one proposal of each kind is open at any time. */
  lemma OneOpenPerKind(log: seq<P.Event>, a: nat, b: nat)
    requires Decided(log) && a < b < |Open(log)|
    ensures Open(log)[b] < |log| && Open(log)[a] < |log|
    ensures log[Open(log)[a]].ChangeProposed? && log[Open(log)[b]].ChangeProposed?
    ensures !P.SameKind(log[Open(log)[a]].change, log[Open(log)[b]].change)
  {
    DecidedIsLegal(log);
    LedgerIsPending(log);
    OpenIncreasing(log);
    PendingKindsDiffer(log);
  }

  ghost predicate KindsDiffer(pending: seq<P.PendingChange>) {
    forall a, b | 0 <= a < b < |pending| :: !P.SameKind(pending[a].change, pending[b].change)
  }

  lemma {:induction false} PendingKindsDiffer(log: seq<P.Event>)
    requires LegalLog(log)
    ensures KindsDiffer(FoldLog(log).pending)
  {
    if log != [] {
      var n := |log| - 1;
      assert LegalLog(log[..n]) by {
        assert forall i | 0 <= i <= n :: log[..n][..i] == log[..i];
      }
      PendingKindsDiffer(log[..n]);
      assert Legal(FoldLog(log[..n]), log[n]);
      EvolveKeepsKinds(FoldLog(log[..n]), log[n]);
    }
  }

  lemma EvolveKeepsKinds(s: P.PartyState, e: P.Event)
    requires KindsDiffer(s.pending) && (e.ChangeProposed? ==> !P.HasPending(s.pending, e.change))
    ensures KindsDiffer(P.Evolve(s, e).pending)
  {
    hide P.Evolve;
    EvolvePending(s, e);
  }

  /** Closed is absorbing: after it only leftover proposals may still be rejected or withdrawn. */
  lemma ClosedIsAbsorbing(log: seq<P.Event>, i: nat, n: nat)
    requires Decided(log) && i < n <= |log| && log[i].PartyClosed?
    ensures FoldLog(log[..n]).status == P.Closed && FoldLog(log[..n]).partyId != ""
    ensures forall j | i < j < n :: log[j].ChangeRejected? || log[j].ChangeWithdrawn?
  {
    DecidedIsLegal(log);
    ShutAfterClose(log, i, n);
    forall j | i < j < n ensures log[j].ChangeRejected? || log[j].ChangeWithdrawn? {
      ShutAfterClose(log, i, j);
      assert Legal(FoldLog(log[..j]), log[j]);
    }
  }

  ghost predicate Shut(s: P.PartyState) { s.partyId != "" && s.status == P.Closed }

  lemma FoldSnoc(log: seq<P.Event>, m: nat)
    requires m < |log|
    ensures FoldLog(log[..m + 1]) == P.Evolve(FoldLog(log[..m]), log[m])
  {
    assert log[..m + 1][..m] == log[..m];
  }

  lemma StaysShut(log: seq<P.Event>, m: nat)
    requires m < |log| && Legal(FoldLog(log[..m]), log[m])
    requires log[m].PartyClosed? || Shut(FoldLog(log[..m]))
    ensures Shut(FoldLog(log[..m + 1]))
  {
    hide Legal, FoldLog, P.Evolve;
    FoldSnoc(log, m);
    CloseSticks(FoldLog(log[..m]), log[m]);
  }

  lemma {:induction false} ShutAfterClose(log: seq<P.Event>, i: nat, n: nat)
    requires LegalLog(log) && i < n <= |log| && log[i].PartyClosed?
    ensures Shut(FoldLog(log[..n]))
    decreases n
  {
    hide Legal, FoldLog, Shut;
    var m := n - 1;
    if i < m {
      ShutAfterClose(log, i, m);
    }
    StaysShut(log, m);
  }

  lemma CloseSticks(s: P.PartyState, e: P.Event)
    requires Legal(s, e) && (e.PartyClosed? || Shut(s))
    ensures Shut(P.Evolve(s, e))
  {
  }

  // ---------------------------------------------------------------- reachable logs are produced logs

  /** The decoded events of a stream. */
  function DecodedLog(rt: PartyRuntime, log: seq<Envelope>): seq<P.Event>
    requires AllDecode(rt, log)
  {
    if log == [] then []
    else
      var n := |log| - 1;
      assert AllDecode(rt, log[..n]);
      DecodedLog(rt, log[..n]) + [rt.codec.decode(EncodedOf(log[n].hashed.content)).value]
  }

  lemma {:induction false} DecodedFold(rt: PartyRuntime, log: seq<Envelope>)
    requires HostsParty(rt) && AllDecode(rt, log)
    ensures Replay(rt, rt.initial, log) == Some(FoldLog(DecodedLog(rt, log))) && |DecodedLog(rt, log)| == |log|
  {
    if log != [] {
      var n := |log| - 1;
      assert AllDecode(rt, log[..n]);
      DecodedFold(rt, log[..n]);
      assert log == log[..n] + [log[n]];
      ReplayConcat(rt, rt.initial, log[..n], [log[n]]);
      var init := DecodedLog(rt, log[..n]);
      var e := rt.codec.decode(EncodedOf(log[n].hashed.content)).value;
      assert DecodedLog(rt, log)[..n] == init;
      assert [log[n]][1..] == [];
    }
  }

  ghost predicate TracesGood(rt: PartyRuntime, events: seq<Envelope>) {
    forall sid: StreamId | AllDecode(rt, StreamLog(events, sid)) :: Decided(DecodedLog(rt, StreamLog(events, sid)))
  }

  lemma DecidedExtends(log: seq<P.Event>, c: P.Command, e: P.Event)
    requires Decided(log) && Emits(FoldLog(log), c, e)
    ensures Decided(log + [e])
  {
    var l := log + [e];
    forall i | 0 <= i < |l| ensures DecidedAt(l, i) {
      if i < |log| {
        assert DecidedAt(log, i);
        var d: P.Command :| Emits(FoldLog(log[..i]), d, log[i]);
        assert l[..i] == log[..i] && l[i] == log[i];
        assert Emits(FoldLog(l[..i]), d, l[i]);
      } else {
        assert l[..i] == log;
        assert Emits(FoldLog(l[..i]), c, l[i]);
      }
    }
  }

  lemma CommitExtendsTrace(rt: PartyRuntime, ch: ChainFns, s: PartySys, h: nat)
    requires HostsParty(rt) && Lawful(rt) && PartyInv(rt, s) && TracesGood(rt, s.db.events)
    requires h in s.handlers && s.handlers[h].Ready?
    requires var r := s.handlers[h]; HandleFrom(rt, ch, s.db, r.sid, r.cmd, r.meta, r.loaded).1.Committed?
    ensures TracesGood(rt, SubmitStep(rt, ch, s, h).db.events)
  {
    hide Decided, DecodedLog, AppendTx, StreamLog, P.Decide, P.Evolve;
    var r := s.handlers[h];
    assert HandlerGood(rt, s.db.events, r) && NamedActor(r);
    var db, db' := s.db, SubmitStep(rt, ch, s, h).db;
    var p, batch := CommittedPlan(rt, ch, db, r.sid, r.cmd, r.meta, r.loaded);
    CommittedCommand(rt, ch, db, r.sid, r.cmd, r.meta, r.loaded);
    forall sid: StreamId | AllDecode(rt, StreamLog(db'.events, sid)) ensures Decided(DecodedLog(rt, StreamLog(db'.events, sid))) {
      if sid == r.sid {
        var rows := AppendLog(ch, db, p);
        EncodedBatch(rt, r.meta, batch);
        assert |rows| == 1 && rows[0].hashed.content == p.events[0].content;
        OneMoreDecided(rt, StreamLog(db.events, sid), rows[0], r.loaded.state, r.cmd, batch[0]);
        assert rows == [rows[0]];
      } else {
        AppendGrowsOneStream(ch, db, p, sid);
      }
    }
  }

  lemma OneMoreDecided(rt: PartyRuntime, log: seq<Envelope>, row: Envelope, st: P.PartyState, cmd: P.Command, e: P.Event)
    requires HostsParty(rt) && Replay(rt, rt.initial, log) == Some(st)
    requires AllDecode(rt, log) ==> Decided(DecodedLog(rt, log))
    requires rt.codec.decode(EncodedOf(row.hashed.content)) == Some(e) && Emits(st, cmd, e)
    ensures AllDecode(rt, log + [row]) && Decided(DecodedLog(rt, log + [row]))
  {
    ReplayIffDecodes(rt, rt.initial, log);
    DecodedFold(rt, log);
    assert (log + [row])[..|log|] == log;
    DecidedExtends(DecodedLog(rt, log), cmd, e);
  }

  /** Every party stream of every reachable database is a log the decider can produce, so the laws above
      hold of it. */
  lemma {:induction false} ReachableLogsAreDecided(rt: PartyRuntime, ch: ChainFns, steps: seq<PartyStep>)
    requires HostsParty(rt) && Lawful(rt)
    requires forall i | 0 <= i < |steps| :: PartyStepOk(rt, steps[i])
    ensures TracesGood(rt, Run(rt, ch, steps).db.events)
  {
    if steps == [] {
      assert forall sid: StreamId :: StreamLog([], sid) == [];
    } else {
      var init, step := steps[..|steps| - 1], steps[|steps| - 1];
      var s := Run(rt, ch, init);
      ReachableLogsAreDecided(rt, ch, init);
      RunKeepsPartyInv(rt, ch, init);
      StepKeepsTraces(rt, ch, s, step);
    }
  }

  lemma StepKeepsTraces(rt: PartyRuntime, ch: ChainFns, s: PartySys, step: PartyStep)
    requires HostsParty(rt) && Lawful(rt) && PartyInv(rt, s) && PartyStepOk(rt, step) && TracesGood(rt, s.db.events)
    ensures TracesGood(rt, Next(rt, ch, s, step).db.events)
  {
    if step.Submit? && step.h in s.handlers && s.handlers[step.h].Ready? {
      var r := s.handlers[step.h];
      if HandleFrom(rt, ch, s.db, r.sid, r.cmd, r.meta, r.loaded).1.Committed? {
        CommitExtendsTrace(rt, ch, s, step.h);
      } else {
        UncommittedChangesNothing(rt, ch, s.db, r.sid, r.cmd, r.meta, r.loaded);
      }
    } else if step.PlainAppend? {
      PlainKeepsTraces(rt, ch, s, step.params);
    } else {
      OtherStepsKeepCore(rt, ch, s, step);
      assert Core(Next(rt, ch, s, step).db).events == Core(s.db).events;
    }
  }

  lemma PlainKeepsTraces(rt: PartyRuntime, ch: ChainFns, s: PartySys, p: AppendParams)
    requires TracesGood(rt, s.db.events) && ForeignAppend(rt, p)
    ensures TracesGood(rt, Next(rt, ch, s, PlainAppend(p)).db.events)
  {
    hide Decided, AllDecode, DecodedLog, AppendTx, StreamLog, PlainAppendOk;
    var db' := Next(rt, ch, s, PlainAppend(p)).db;
    if PlainAppendOk(rt, s.db, p) && AppendTx(ch, s.db, p).1.Ok? {
      ForeignLogStaysForeign(rt, ch, s.db, p);
      forall sid: StreamId | AllDecode(rt, StreamLog(db'.events, sid)) ensures Decided(DecodedLog(rt, StreamLog(db'.events, sid))) {
        AppendGrowsOneStream(ch, s.db, p, sid);
      }
    } else if PlainAppendOk(rt, s.db, p) {
      AppendErrorChangesNothing(ch, s.db, p);
    }
  }

  lemma ForeignLogStaysForeign(rt: PartyRuntime, ch: ChainFns, db: Db, p: AppendParams)
    requires ForeignAppend(rt, p) && AppendTx(ch, db, p).1.Ok?
    ensures !AllDecode(rt, StreamLog(AppendTx(ch, db, p).0.events, p.sid))
  {
    AppendAppliesOps(ch, db, p);
    var rows := AppendLog(ch, db, p);
    var log := StreamLog(db.events, p.sid);
    assert (log + rows)[|log|] == rows[0] && rows[0].hashed == HashedAt(p, 0);
  }
}
