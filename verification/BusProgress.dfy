/** When a command dispatch fails, that it otherwise ends, and what it has done for its exhausted subscribers then
    (cmdworkflow/bus.go). */
module BusProgress {
  import opened Basics
  import opened Store
  import opened Aggregate
  import opened Interleaving
  import opened BusNames
  import opened Bus
  import opened BusInvariant
  import opened BusFuture
  import opened BusLaws
  import opened BusTheorems

  // ---------------------------------------------------------------- why a dispatch fails

  /** The state to fan out cannot be read or encoded. */
  predicate StateBlocked<S, C, E>(d: Dispatch<S, C, E>, db: Db) {
    match Load(d.rt, db, d.sid)
    case None => true
    case Some(l) => d.rt.stateCodec.None? || d.rt.stateCodec.value.encode(l.state).None?
  }

  /** The policy of the exhausted subscriber cannot be carried out: there is no dead-letter queue, its insert does not
      work, or there is no compensating command. */
  predicate PolicyBlocked<S, C, E>(d: Dispatch<S, C, E>, w: World<S, E>, path: Path, p: Phase<S>, input: Input)
    requires p.AtPolicies? && p.next < |d.subs| && Exhausted(d, p, p.next)
  {
    var sub := d.subs[p.next];
    match sub.policy
    case Drop => false
    case DeadLetter => !d.dlqWired || (Get(w, DlqKey(d, path, p.next, p.envs)).None? && !input.writes)
    case Compensate =>
      match DecodeAll(d.rt, p.envs)
      case None => true
      case Some(events) => sub.compensate(Kept(sub.filter, p.envs), p.state, KeptEvents(sub.filter, p.envs, events)).None?
  }

  /** What stands in the way of the next move. */
  predicate Blocked<S, C, E>(d: Dispatch<S, C, E>, s: BusSys<S, C, E>, input: Input)
    requires s.ctl.Running? && s.ctl.stack != []
  {
    var f := Top(s.ctl.stack);
    match f.phase
    case AtAppend =>
      if Get(s.w, KAppend(f.path)).Some? then ResultAt(s.w, f.path).None? && Load(d.rt, s.w.db, d.sid).None?
      else
        var o := Handle(d.rt, d.ch, s.w.db, d.sid, f.cmd, input.meta).1;
        !o.Committed? && !o.NoChange?
    case AtEnvelopes(_) => false
    case AtState(_, envs) => (Get(s.w, KState(f.path)).None? && StateBlocked(d, s.w.db)) || DecodeAll(d.rt, envs).None?
    case AtFanOut(_, _, _, _) => false
    case AtPolicies(_, _, _, _, next) =>
      if next >= |d.subs| then Mutated(d, f.phase) && Load(d.rt, s.w.db, d.sid).None?
      else Exhausted(d, f.phase, next) && PolicyBlocked(d, s.w, f.path, f.phase, input)
  }

  lemma FinishGoes<S, C, E>(d: Dispatch<S, C, E>, s: BusSys<S, C, E>, stack: seq<Frame<S, C>>)
    requires stack != [] && StackOk(d, s.w, stack)
    ensures !Finish(s, stack).ctl.Failed?
  {
    hide FrameOk;
    if |stack| > 1 {
      assert Nested(d, stack[|stack| - 2], stack[|stack| - 1]);
    }
  }

  lemma AppendFailsIff<S, C, E>(d: Dispatch<S, C, E>, s: BusSys<S, C, E>, input: Input)
    requires SysOk(d, s) && s.ctl.Running? && Top(s.ctl.stack).phase.AtAppend?
    ensures Move(d, s, input).ctl.Failed? <==> Blocked(d, s, input)
  {
    hide SubsJournaled, RowsOk, RowsTell, CommitsOk, CallsOk, DoneOk, DbOk, StackOk, FrameOk, IssuedOk, Finish, HandleFrom, Load, Name;
    TopOk(d, s);
    var stack, f := s.ctl.stack, Top(s.ctl.stack);
    assert PathJournal(d, s.w, f.path);
    var ran := RunAppend(d, s.w, f.path, f.cmd, input.meta);
    if ran.Some? {
      FinishOfMove(d, s, Issue(s, KAppend(f.path)).(w := ran.value), stack);
    }
  }

  /** Whether Finish fails does not depend on the world. */
  lemma FinishOfMove<S, C, E>(d: Dispatch<S, C, E>, s: BusSys<S, C, E>, t: BusSys<S, C, E>, stack: seq<Frame<S, C>>)
    requires stack != [] && StackOk(d, s.w, stack)
    ensures !Finish(t, stack).ctl.Failed?
  {
    hide StackOk;
    FinishGoes(d, s, stack);
  }

  lemma StateFailsIff<S(!new), C, E(!new)>(d: Dispatch<S, C, E>, s: BusSys<S, C, E>, input: Input)
    requires Lawful(d.rt) && SysOk(d, s) && s.ctl.Running? && Top(s.ctl.stack).phase.AtState?
    ensures Move(d, s, input).ctl.Failed? <==> Blocked(d, s, input)
  {
    hide SubsJournaled, RowsOk, RowsTell, CommitsOk, CallsOk, DoneOk, DbOk, StackOk, FrameOk, IssuedOk, Load, Name, StateSeen;
    TopOk(d, s);
    assert PathJournal(d, s.w, Top(s.ctl.stack).path);
  }

  lemma ReadFails<S, C, E>(d: Dispatch<S, C, E>, s: BusSys<S, C, E>, input: Input)
    requires SysOk(d, s) && s.ctl.Running? && Top(s.ctl.stack).phase.AtEnvelopes?
    ensures !Move(d, s, input).ctl.Failed?
  {
    hide SubsJournaled, RowsOk, RowsTell, CommitsOk, CallsOk, DoneOk, DbOk, StackOk, FrameOk, IssuedOk, Name, ReadBack;
    TopOk(d, s);
    assert PathJournal(d, s.w, Top(s.ctl.stack).path);
  }

  lemma FanOutFails<S, C, E>(d: Dispatch<S, C, E>, s: BusSys<S, C, E>, input: Input)
    requires SubsOk(d) && SysOk(d, s) && s.ctl.Running? && Top(s.ctl.stack).phase.AtFanOut?
    ensures !Move(d, s, input).ctl.Failed?
  {
    hide PathsOk, RowsOk, RowsTell, CommitsOk, CallsOk, DoneOk, DbOk, StackOk, IssuedOk, Name, Matching, Kept, KeptEvents;
    TopOk(d, s);
    var f := Top(s.ctl.stack);
    var p := f.phase;
    if input.sub in Matching(d, p.envs) {
      BatchKeys(d, s.w, f.path, input.sub, p.envs);
      var k := SubKey(d, f.path, input.sub, p.envs);
      assert Get(s.w, k).Some? ==> SubEntry(d, s.w, k);
    }
  }

  lemma PoliciesFailIff<S, C, E>(d: Dispatch<S, C, E>, s: BusSys<S, C, E>, input: Input)
    requires SysOk(d, s) && s.ctl.Running? && Top(s.ctl.stack).phase.AtPolicies?
    ensures Move(d, s, input).ctl.Failed? <==> Blocked(d, s, input)
  {
    hide WorldOk, StackOk, FrameOk, IssuedOk, Finish, Load, Name, Matching, Kept, KeptEvents, Mutated;
    TopOk(d, s);
    FinishGoes(d, s, s.ctl.stack);
  }

  /** A move of a reached dispatch fails exactly when something stands in its way. */
  lemma FailsIffBlocked<S(!new), C, E(!new)>(d: Dispatch<S, C, E>, s: BusSys<S, C, E>, input: Input)
    requires SubsOk(d) && Lawful(d.rt) && SysOk(d, s) && s.ctl.Running?
    ensures s.ctl.stack != [] && (Move(d, s, input).ctl.Failed? <==> Blocked(d, s, input))
  {
    hide SysOk, Move, Blocked;
    TopOk(d, s);
    match Top(s.ctl.stack).phase
    case AtAppend => AppendFailsIff(d, s, input);
    case AtEnvelopes(_) =>
      ReadFails(d, s, input);
      QuietPhases(d, s, input);
    case AtState(_, _) => StateFailsIff(d, s, input);
    case AtFanOut(_, _, _, _) =>
      FanOutFails(d, s, input);
      QuietPhases(d, s, input);
    case AtPolicies(_, _, _, _, _) => PoliciesFailIff(d, s, input);
  }

  lemma QuietPhases<S, C, E>(d: Dispatch<S, C, E>, s: BusSys<S, C, E>, input: Input)
    requires s.ctl.Running? && s.ctl.stack != [] && (Top(s.ctl.stack).phase.AtEnvelopes? || Top(s.ctl.stack).phase.AtFanOut?)
    ensures !Blocked(d, s, input)
  {
  }

  // ---------------------------------------------------------------- no queue, no dead letters

  lemma MoveRows<S, C, E>(d: Dispatch<S, C, E>, s: BusSys<S, C, E>, input: Input)
    requires !d.dlqWired && s.w.rows == []
    ensures Move(d, s, input).w.rows == []
  {
    hide Handle, Load, Name, Matching, Kept, KeptEvents, ReadBack, DecodeAll, CallFor, NestedPath, Mutated, Exhausted, DecodeState;
    hide MoveDeadLetter, WithTop, FirstId, ValidAttempts, TextOf, Get, Top;
  }

  lemma StepRows<S, C, E>(d: Dispatch<S, C, E>, s: BusSys<S, C, E>, step: BusStep)
    requires !d.dlqWired && s.w.rows == []
    ensures Bus.Next(d, s, step).w.rows == []
  {
    hide Move, DbOk, Matching, DecodeAll, CallFor;
    if step.Advance? {
      MoveRows(d, s, step.input);
    }
  }

  /** Without a dead-letter queue no dead letter is ever written. */
  lemma {:induction false} NoQueueNoRows<S, C, E>(d: Dispatch<S, C, E>, db0: Db, steps: seq<BusStep>)
    requires !d.dlqWired
    ensures Bus.Reached(d, db0, steps).w.rows == []
    decreases |steps|
  {
    hide Bus.Next;
    if steps != [] {
      NoQueueNoRows(d, db0, steps[..|steps| - 1]);
      StepRows(d, Bus.Reached(d, db0, steps[..|steps| - 1]), steps[|steps| - 1]);
    }
  }

  // ---------------------------------------------------------------- exhausted subscribers are answered

  /** The subscriber used up its budget, with an error whose text is not empty. */
  predicate RanOut<S, C, E>(d: Dispatch<S, C, E>, w: World<S, E>, path: Path, i: nat, envs: seq<Envelope>)
    requires i in Matching(d, envs)
  {
    var k := SubKey(d, path, i, envs);
    k in w.attempts && w.attempts[k] != [] && LastTry(w.attempts[k]).Some? && LastTry(w.attempts[k]).value != ""
  }

  /** Its one dead letter is there, or its compensation returned nil; a dead letter takes a wired queue. */
  ghost predicate Answered<S, C, E>(d: Dispatch<S, C, E>, w: World<S, E>, path: Path, i: nat, envs: seq<Envelope>)
    requires i in Matching(d, envs)
  {
    match d.subs[i].policy
    case Drop => true
    case DeadLetter =>
      var k := DlqKey(d, path, i, envs);
      d.dlqWired && exists r | 0 <= r < |w.rows| :: w.rows[r].key == k && forall q | 0 <= q < |w.rows| && w.rows[q].key == k :: q == r
    case Compensate => NestedPath(d, path, i, envs) in w.done
  }

  lemma SettledAnswers<S, C, E>(d: Dispatch<S, C, E>, w: World<S, E>, path: Path, i: nat, envs: seq<Envelope>)
    requires SubsOk(d) && WorldOk(d, w) && PathOk(path) && EnvsAt(w, path) == Some(envs) && i in Matching(d, envs)
    requires SubSettled(d, w, path, i, envs) && RanOut(d, w, path, i, envs) && (!d.dlqWired ==> w.rows == [])
    ensures Answered(d, w, path, i, envs)
  {
    hide PathsOk, RowsTell, CommitsOk, CallsOk, DoneOk, DbOk, Complete, Name;
    BatchKeys(d, w, path, i, envs);
    assert SubEntry(d, w, SubKey(d, path, i, envs));
    if d.subs[i].policy == DeadLetter {
      var k := DlqKey(d, path, i, envs);
      assert Get(w, k).Some? && HasRow(w.rows, k);
      var r :| 0 <= r < |w.rows| && w.rows[r].key == k;
      assert forall q | 0 <= q < |w.rows| && w.rows[q].key == k :: q == r;
    }
  }

  /** When HandleCmd returned nil at a path, each matching subscriber that ran out of attempts with an error text was
      dead-lettered exactly once or compensated, as its policy says. */
  lemma ExhaustedAreAnswered<S(!new), C, E(!new)>(d: Dispatch<S, C, E>, db0: Db, steps: seq<BusStep>, path: Path, i: nat)
    requires RunOk(d, db0, steps)
    requires var w := Bus.Reached(d, db0, steps).w;
             && path in w.done && EnvsAt(w, path).Some? && i in Matching(d, EnvsAt(w, path).value)
             && RanOut(d, w, path, i, EnvsAt(w, path).value)
    ensures var w := Bus.Reached(d, db0, steps).w; Answered(d, w, path, i, EnvsAt(w, path).value)
  {
    hide RanOut, Answered, Matching, SubSettled;
    ReachedOk(d, db0, steps);
    var w := Bus.Reached(d, db0, steps).w;
    if !d.dlqWired {
      NoQueueNoRows(d, db0, steps);
    }
    assert PathOk(path) && Complete(d, w, path) && PathJournal(d, w, path);
    SettledAnswers(d, w, path, i, EnvsAt(w, path).value);
  }

  // ---------------------------------------------------------------- how much is left

  /** How many more moves a frame can make of its own. */
  function Local<S, C, E>(d: Dispatch<S, C, E>, p: Phase<S>): (n: nat)
    ensures n >= 1
  {
    var m := |d.subs|;
    match p
    case AtAppend => 2 * m + 5
    case AtEnvelopes(_) => 2 * m + 4
    case AtState(_, _) => 2 * m + 3
    case AtFanOut(_, envs, _, settled) => m + 2 + |Matching(d, envs) - settled.Keys|
    case AtPolicies(_, _, _, _, next) => (if next < m then m - next else 0) + 1
  }

  lemma {:induction false} CountBelow(a: set<nat>, m: nat)
    requires forall i | i in a :: i < m
    ensures |a| <= m
    decreases m
  {
    if m > 0 {
      CountBelow(a - {m - 1}, m - 1);
      assert a <= (a - {m - 1}) + {m - 1};
      if m - 1 in a {
        assert |a| == |a - {m - 1}| + 1;
      } else {
        assert a - {m - 1} == a;
      }
    } else {
      assert a == {};
    }
  }

  function Times(a: nat, b: nat): nat { if a == 0 then 0 else b + Times(a - 1, b) }

  /** A full frame with `levels` levels below it, counting everything nested in it. */
  function FullCost<S, C, E>(d: Dispatch<S, C, E>, levels: nat): nat {
    if levels == 0 then 0 else Times(2 * |d.subs| + 5, 1 + FullCost(d, levels - 1))
  }

  /** What one own move of the frame at this height may cost, nested calls included. */
  function Unit<S, C, E>(d: Dispatch<S, C, E>, height: nat, depth: nat): (n: nat)
    ensures n >= 1
  {
    1 + if height <= depth then FullCost(d, depth - height) else 0
  }

  /** What is left of frames that wait for a nested call. */
  function Waiting<S, C, E>(d: Dispatch<S, C, E>, frames: seq<Frame<S, C>>, depth: nat): nat {
    if frames == [] then 0
    else
      var n := |frames| - 1;
      Waiting(d, frames[..n], depth) + Times(Local(d, frames[n].phase) - 1, Unit(d, |frames|, depth))
  }

  function Remaining<S, C, E>(d: Dispatch<S, C, E>, stack: seq<Frame<S, C>>, depth: nat): nat
    requires stack != []
  {
    Waiting(d, stack[..|stack| - 1], depth) + Times(Local(d, Top(stack).phase), Unit(d, |stack|, depth))
  }

  lemma {:induction false} TimesLess(a: nat, b: nat, u: nat)
    requires a < b && u >= 1
    ensures Times(a, u) < Times(b, u) && Times(b - 1, u) == Times(b, u) - u
    decreases b
  {
    if a < b - 1 {
      TimesLess(a, b - 1, u);
    }
  }

  lemma TopLowers<S, C, E>(d: Dispatch<S, C, E>, stack: seq<Frame<S, C>>, phase: Phase<S>, depth: nat)
    requires stack != [] && Local(d, phase) < Local(d, Top(stack).phase)
    ensures Remaining(d, WithTop(stack, phase), depth) < Remaining(d, stack, depth)
  {
    hide Local, Unit, Waiting, Times;
    var stack' := WithTop(stack, phase);
    assert stack'[..|stack'| - 1] == stack[..|stack| - 1] && Top(stack').phase == phase && |stack'| == |stack|;
    TimesLess(Local(d, phase), Local(d, Top(stack).phase), Unit(d, |stack|, depth));
  }

  lemma PushLowers<S, C, E>(d: Dispatch<S, C, E>, stack: seq<Frame<S, C>>, g: Frame<S, C>, depth: nat)
    requires stack != [] && g.phase.AtAppend? && |stack| + 1 <= depth
    ensures Remaining(d, stack + [g], depth) < Remaining(d, stack, depth)
  {
    hide Waiting, Times;
    assert (stack + [g])[..|stack|] == stack && Top(stack + [g]) == g;
    var l, u := Local(d, Top(stack).phase), Unit(d, |stack|, depth);
    WaitingSnoc(d, stack, depth);
    TimesLess(l - 1, l, u);
    assert u == 1 + FullCost(d, depth - |stack|);
    assert FullCost(d, depth - |stack|) == Times(Local(d, g.phase), Unit(d, |stack| + 1, depth));
  }

  lemma WaitingSnoc<S, C, E>(d: Dispatch<S, C, E>, stack: seq<Frame<S, C>>, depth: nat)
    requires stack != []
    ensures Waiting(d, stack, depth)
         == Waiting(d, stack[..|stack| - 1], depth) + Times(Local(d, Top(stack).phase) - 1, Unit(d, |stack|, depth))
  {
    hide Times, Local, Unit;
  }

  lemma PopLowers<S, C, E>(d: Dispatch<S, C, E>, stack: seq<Frame<S, C>>, depth: nat)
    requires |stack| > 1
    requires var p := Top(stack[..|stack| - 1]).phase; p.AtPolicies? && p.next < |d.subs|
    ensures var below := stack[..|stack| - 1];
            Remaining(d, WithTop(below, Top(below).phase.(next := Top(below).phase.next + 1)), depth) < Remaining(d, stack, depth)
  {
    hide Waiting, Unit, Times;
    var below := stack[..|stack| - 1];
    var p := Top(below).phase;
    var p' := p.(next := p.next + 1);
    var after := WithTop(below, p');
    assert after[..|after| - 1] == below[..|below| - 1] && Top(after).phase == p' && |after| == |below|;
    WaitingSnoc(d, below, depth);
    assert Local(d, p') == Local(d, p) - 1;
    TimesLess(0, Local(d, Top(stack).phase), Unit(d, |stack|, depth));
  }

  // ---------------------------------------------------------------- one move

  /** While subscribers are out, the move completes one that has not been heard of, within its budget. */
  predicate Timely<S, C, E>(d: Dispatch<S, C, E>, s: BusSys<S, C, E>, input: Input)
    requires s.ctl.Running? && s.ctl.stack != []
  {
    var p := Top(s.ctl.stack).phase;
    p.AtFanOut? && !(Matching(d, p.envs) <= p.settled.Keys) ==>
      && input.sub in Matching(d, p.envs) && input.sub !in p.settled
      && ValidAttempts(d.subs[input.sub].maxRetries, input.attempts)
  }

  /** The dispatch returned, or is nearer to its end. */
  ghost predicate Nearer<S, C, E>(d: Dispatch<S, C, E>, s: BusSys<S, C, E>, s': BusSys<S, C, E>, depth: nat)
    requires s.ctl.Running? && s.ctl.stack != []
  {
    s'.ctl.Returned?
    || (s'.ctl.Running? && s'.ctl.stack != [] && Remaining(d, s'.ctl.stack, depth) < Remaining(d, s.ctl.stack, depth))
  }

  lemma FinishNearer<S, C, E>(d: Dispatch<S, C, E>, s: BusSys<S, C, E>, t: BusSys<S, C, E>, depth: nat)
    requires s.ctl.Running? && s.ctl.stack != [] && StackOk(d, s.w, s.ctl.stack)
    ensures Nearer(d, s, Finish(t, s.ctl.stack), depth)
  {
    hide FrameOk, Remaining;
    var stack := s.ctl.stack;
    if |stack| > 1 {
      assert Nested(d, stack[|stack| - 2], stack[|stack| - 1]);
      PopLowers(d, stack, depth);
    }
  }

  /** An append moves on to its envelopes, or its call is over. */
  lemma AppendNearer<S, C, E>(d: Dispatch<S, C, E>, s: BusSys<S, C, E>, input: Input, depth: nat)
    requires s.ctl.Running? && s.ctl.stack != [] && StackOk(d, s.w, s.ctl.stack) && Top(s.ctl.stack).phase.AtAppend?
    requires !MoveAppend(d, s, s.ctl.stack, input.meta).ctl.Failed?
    ensures Nearer(d, s, MoveAppend(d, s, s.ctl.stack, input.meta), depth)
  {
    hide StackOk, Finish, RunAppend, Load, Name, Remaining, Nearer, WithTop;
    var stack := s.ctl.stack;
    var f := Top(stack);
    var s1 := Issue(s, KAppend(f.path));
    var w1 := RunAppend(d, s.w, f.path, f.cmd, input.meta).value;
    FinishNearer(d, s, s1.(w := w1), depth);
    match Get(w1, KAppend(f.path))
    case Some(JAppend(Some(r))) => WithTopNearer(d, s, s1.(w := w1), AtEnvelopes(r), depth);
    case _ =>
  }

  lemma EnvelopesNearer<S, C, E>(d: Dispatch<S, C, E>, s: BusSys<S, C, E>, r: AppendResult, depth: nat)
    requires s.ctl.Running? && s.ctl.stack != [] && Top(s.ctl.stack).phase.AtEnvelopes?
    requires !MoveEnvelopes(d, s, s.ctl.stack, r).ctl.Failed?
    ensures Nearer(d, s, MoveEnvelopes(d, s, s.ctl.stack, r), depth)
  {
    hide RunEnvelopes, Name, Remaining, Nearer, WithTop;
    var stack := s.ctl.stack;
    var f := Top(stack);
    var w1 := RunEnvelopes(d, s.w, f.path, r);
    match Get(w1, KEnvelopes(f.path))
    case Some(JEnvelopes(envs)) => WithTopNearer(d, s, Issue(s, KEnvelopes(f.path)).(w := w1), AtState(r, envs), depth);
    case _ =>
  }

  lemma StateNearer<S, C, E>(d: Dispatch<S, C, E>, s: BusSys<S, C, E>, r: AppendResult, envs: seq<Envelope>, depth: nat)
    requires s.ctl.Running? && s.ctl.stack != [] && Top(s.ctl.stack).phase.AtState?
    requires !MoveState(d, s, s.ctl.stack, r, envs).ctl.Failed?
    ensures Nearer(d, s, MoveState(d, s, s.ctl.stack, r, envs), depth)
  {
    hide RunState, Name, Remaining, Nearer, WithTop, DecodeAll, DecodeState;
    var stack := s.ctl.stack;
    var f := Top(stack);
    var w1 := RunState(d, s.w, f.path).value;
    CountBelow(Matching(d, envs), |d.subs|);
    match Get(w1, KState(f.path))
    case Some(JState(bytes)) =>
      var p := AtFanOut(r, envs, DecodeState(d.rt, bytes).value, map[]);
      WithTopNearer(d, s, Issue(s, KState(f.path)).(w := w1), p, depth);
    case _ =>
  }

  lemma ReadsNearer<S, C, E>(d: Dispatch<S, C, E>, s: BusSys<S, C, E>, input: Input, depth: nat)
    requires SysOk(d, s) && s.ctl.Running? && Level(Top(s.ctl.stack).phase) <= 2 && !Move(d, s, input).ctl.Failed?
    ensures Nearer(d, s, Move(d, s, input), depth)
  {
    hide WorldOk, StackOk, FrameOk, IssuedOk, MoveAppend, MoveEnvelopes, MoveState, Nearer;
    TopOk(d, s);
    match Top(s.ctl.stack).phase
    case AtAppend => AppendNearer(d, s, input, depth);
    case AtEnvelopes(r) => EnvelopesNearer(d, s, r, depth);
    case AtState(r, envs) => StateNearer(d, s, r, envs, depth);
    case _ =>
  }

  lemma WithTopNearer<S, C, E>(d: Dispatch<S, C, E>, s: BusSys<S, C, E>, t: BusSys<S, C, E>, p: Phase<S>, depth: nat)
    requires s.ctl.Running? && s.ctl.stack != [] && Local(d, p) < Local(d, Top(s.ctl.stack).phase)
    ensures Nearer(d, s, t.(ctl := Running(WithTop(s.ctl.stack, p))), depth)
  {
    hide Remaining, Local;
    TopLowers(d, s.ctl.stack, p, depth);
  }

  /** A fan-out move that completes a subscriber notes its text and changes nothing else of the control. */
  lemma FanOutNotes<S, C, E>(d: Dispatch<S, C, E>, s: BusSys<S, C, E>, input: Input) returns (text: string)
    requires s.ctl.Running? && s.ctl.stack != [] && Top(s.ctl.stack).phase.AtFanOut?
    requires var p := Top(s.ctl.stack).phase; !(Matching(d, p.envs) <= p.settled.Keys) && DecodeAll(d.rt, p.envs).Some?
    requires Timely(d, s, input) && !Move(d, s, input).ctl.Failed?
    ensures var p := Top(s.ctl.stack).phase;
            Move(d, s, input).ctl == Running(WithTop(s.ctl.stack, AtFanOut(p.result, p.envs, p.state, p.settled[input.sub := text])))
  {
    hide Name, Matching, RunSubscriber, WithTop, DecodeAll, Get, SubKey;
    var f := Top(s.ctl.stack);
    var k := SubKey(d, f.path, input.sub, f.phase.envs);
    text := Get(RunSubscriber(d, s.w, f.path, input.sub, f.phase.envs, f.phase.state, input.attempts), k).value.text;
  }

  lemma FanOutEnds<S, C, E>(d: Dispatch<S, C, E>, s: BusSys<S, C, E>, input: Input)
    requires s.ctl.Running? && s.ctl.stack != [] && Top(s.ctl.stack).phase.AtFanOut?
    requires var p := Top(s.ctl.stack).phase; Matching(d, p.envs) <= p.settled.Keys
    ensures var p := Top(s.ctl.stack).phase;
            Move(d, s, input) == s.(ctl := Running(WithTop(s.ctl.stack, AtPolicies(p.result, p.envs, p.state, p.settled, 0))))
  {
    hide Name, Matching, RunSubscriber, WithTop, DecodeAll, ValidAttempts, Get, SubKey;
  }

  lemma FanOutNearer<S, C, E>(d: Dispatch<S, C, E>, s: BusSys<S, C, E>, input: Input, depth: nat)
    requires SysOk(d, s) && s.ctl.Running? && Top(s.ctl.stack).phase.AtFanOut?
    requires Timely(d, s, input) && !Move(d, s, input).ctl.Failed?
    ensures Nearer(d, s, Move(d, s, input), depth)
  {
    hide WorldOk, StackOk, IssuedOk, Remaining, Nearer, Matching, SettledOk, Move, DecodeAll, ValidAttempts, Asked;
    TopOk(d, s);
    var stack := s.ctl.stack;
    var p := Top(stack).phase;
    var all := Matching(d, p.envs);
    if all <= p.settled.Keys {
      FanOutEnds(d, s, input);
      WithTopNearer(d, s, s, AtPolicies(p.result, p.envs, p.state, p.settled, 0), depth);
    } else {
      var text := FanOutNotes(d, s, input);
      var p' := AtFanOut(p.result, p.envs, p.state, p.settled[input.sub := text]);
      assert all - p'.settled.Keys == (all - p.settled.Keys) - {input.sub};
      WithTopNearer(d, s, Move(d, s, input), p', depth);
    }
  }

  lemma PoliciesNearer<S, C, E>(d: Dispatch<S, C, E>, s: BusSys<S, C, E>, input: Input, depth: nat)
    requires SysOk(d, s) && s.ctl.Running? && Top(s.ctl.stack).phase.AtPolicies?
    requires !Move(d, s, input).ctl.Failed?
    requires Move(d, s, input).ctl.Running? ==> |Move(d, s, input).ctl.stack| <= depth
    ensures Nearer(d, s, Move(d, s, input), depth)
  {
    hide WorldOk, StackOk, FrameOk, IssuedOk, Finish, Load, Name, Remaining, Nearer, Matching, Kept, KeptEvents, Mutated, RunDeadLetter;
    TopOk(d, s);
    var stack := s.ctl.stack;
    var p := Top(stack).phase;
    if p.next >= |d.subs| {
      FinishNearer(d, s, s, depth);
    } else {
      var p' := p.(next := p.next + 1);
      var s' := Move(d, s, input);
      if Exhausted(d, p, p.next) && d.subs[p.next].policy == Compensate {
        var g := Top(s'.ctl.stack);
        assert s'.ctl.stack == stack + [g] && g.phase.AtAppend?;
        PushNearer(d, s, s', g, depth);
      } else {
        assert s'.ctl == Running(WithTop(stack, p'));
        WithTopNearer(d, s, s', p', depth);
      }
    }
  }

  lemma PushNearer<S, C, E>(d: Dispatch<S, C, E>, s: BusSys<S, C, E>, s': BusSys<S, C, E>, g: Frame<S, C>, depth: nat)
    requires s.ctl.Running? && s.ctl.stack != [] && s'.ctl == Running(s.ctl.stack + [g]) && g.phase.AtAppend?
    requires |s.ctl.stack| + 1 <= depth
    ensures Nearer(d, s, s', depth)
  {
    hide Remaining;
    PushLowers(d, s.ctl.stack, g, depth);
  }

  lemma MoveNearer<S(!new), C, E(!new)>(d: Dispatch<S, C, E>, s: BusSys<S, C, E>, input: Input, depth: nat)
    requires SubsOk(d) && Lawful(d.rt) && SysOk(d, s) && s.ctl.Running? && s.ctl.stack != []
    requires !Blocked(d, s, input) && Timely(d, s, input)
    requires Move(d, s, input).ctl.Running? ==> |Move(d, s, input).ctl.stack| <= depth
    ensures Nearer(d, s, Move(d, s, input), depth)
  {
    hide SysOk, Move, Blocked, Timely, Nearer;
    FailsIffBlocked(d, s, input);
    match Top(s.ctl.stack).phase
    case AtFanOut(_, _, _, _) => FanOutNearer(d, s, input, depth);
    case AtPolicies(_, _, _, _, _) => PoliciesNearer(d, s, input, depth);
    case _ => ReadsNearer(d, s, input, depth);
  }

  // ---------------------------------------------------------------- the dispatch ends

  /** Turn after turn: other writers commit, then the dispatch moves. */
  ghost function After<S, C, E>(d: Dispatch<S, C, E>, s: BusSys<S, C, E>, dbs: nat -> Db, inputs: nat -> Input, n: nat): BusSys<S, C, E>
    decreases n, 0
  {
    if n == 0 then s else Move(d, Ready(d, s, dbs, inputs, n - 1), inputs(n - 1))
  }

  /** The state in which turn n moves. */
  ghost function Ready<S, C, E>(d: Dispatch<S, C, E>, s: BusSys<S, C, E>, dbs: nat -> Db, inputs: nat -> Input, n: nat): BusSys<S, C, E>
    decreases n, 1
  {
    Bus.Next(d, After(d, s, dbs, inputs, n), Others(dbs(n)))
  }

  /** Nothing stands in the way of turn n, subscribers are heard of, and compensation has not nested beyond depth. */
  ghost predicate Smooth<S, C, E>(d: Dispatch<S, C, E>, s: BusSys<S, C, E>, dbs: nat -> Db, inputs: nat -> Input, depth: nat, n: nat) {
    var u := Ready(d, s, dbs, inputs, n);
    && InputOk(inputs(n))
    && (u.ctl.Running? ==> u.ctl.stack != [] && |u.ctl.stack| <= depth && !Blocked(d, u, inputs(n)) && Timely(d, u, inputs(n)))
  }

  lemma OthersKeepControl<S, C, E>(d: Dispatch<S, C, E>, s: BusSys<S, C, E>, db: Db)
    ensures Bus.Next(d, s, Others(db)).ctl == s.ctl
  {
  }

  /** The n-th turn has happened and the dispatch has not returned: then it has come that much nearer. */
  lemma {:induction false} TurnsComeNearer<S(!new), C, E(!new)>(d: Dispatch<S, C, E>, s: BusSys<S, C, E>, dbs: nat -> Db,
                                                                inputs: nat -> Input, depth: nat, n: nat)
    requires SubsOk(d) && Lawful(d.rt) && SysOk(d, s) && s.ctl.Running? && s.ctl.stack != []
    requires forall k: nat :: Smooth(d, s, dbs, inputs, depth, k)
    requires forall k: nat | k <= n :: !After(d, s, dbs, inputs, k).ctl.Returned?
    ensures var t := After(d, s, dbs, inputs, n);
            SysOk(d, t) && t.ctl.Running? && t.ctl.stack != [] && Remaining(d, t.ctl.stack, depth) + n <= Remaining(d, s.ctl.stack, depth)
  {
    hide SysOk, Move, Blocked, Timely, Remaining, Bus.Next;
    if n > 0 {
      TurnsComeNearer(d, s, dbs, inputs, depth, n - 1);
      var t, u := After(d, s, dbs, inputs, n - 1), Ready(d, s, dbs, inputs, n - 1);
      OthersKeepControl(d, t, dbs(n - 1));
      StepKeepsSysOk(d, t, Others(dbs(n - 1)));
      assert Smooth(d, s, dbs, inputs, depth, n - 1);
      MoveOk(d, u, inputs(n - 1));
      var v := After(d, s, dbs, inputs, n);
      assert v == Move(d, u, inputs(n - 1));
      OthersKeepControl(d, v, dbs(n));
      assert Smooth(d, s, dbs, inputs, depth, n);
      MoveNearer(d, u, inputs(n - 1), depth);
    }
  }

  /** From every reached state, as long as nothing stands in its way, its subscribers are heard of, and compensation
      does not nest for ever, the dispatch returns nil after finitely many moves, whatever other writers commit
      meanwhile. */
  lemma DispatchReturns<S(!new), C, E(!new)>(d: Dispatch<S, C, E>, db0: Db, steps: seq<BusStep>,
                                             dbs: nat -> Db, inputs: nat -> Input, depth: nat)
    returns (n: nat)
    requires RunOk(d, db0, steps) && !Bus.Reached(d, db0, steps).ctl.Failed?
    requires forall k: nat :: Smooth(d, Bus.Reached(d, db0, steps), dbs, inputs, depth, k)
    ensures After(d, Bus.Reached(d, db0, steps), dbs, inputs, n).ctl.Returned?
  {
    hide SysOk, Smooth, Remaining, Bus.Next;
    ReachedOk(d, db0, steps);
    var s := Bus.Reached(d, db0, steps);
    n := 0;
    if s.ctl.Running? {
      TopOk(d, s);
      var most := Remaining(d, s.ctl.stack, depth) + 1;
      if forall k: nat | k <= most :: !After(d, s, dbs, inputs, k).ctl.Returned? {
        TurnsComeNearer(d, s, dbs, inputs, depth, most);
      } else {
        n :| n <= most && After(d, s, dbs, inputs, n).ctl.Returned?;
      }
    }
  }
}
