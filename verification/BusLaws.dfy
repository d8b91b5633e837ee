/** The command bus over every run: restarts at any point, other writers, subscriber failures and nested
    compensation (cmdworkflow/bus.go). */
module BusLaws {
  import opened Basics
  import opened Store
  import opened Aggregate
  import opened Interleaving
  import opened InterleavingProofs
  import opened BusNames
  import opened Bus
  import opened BusInvariant
  import opened BusSteps
  import opened BusFuture

  ghost predicate SysOk<S, C, E>(d: Dispatch<S, C, E>, s: BusSys<S, C, E>) {
    && WorldOk(d, s.w) && Distinct(s.issued) && (forall k | k in s.issued :: KeyOk(k))
    && (s.ctl.Running? ==> StackOk(d, s.w, s.ctl.stack) && IssuedOk(d, s.ctl.stack, s.issued))
    && (s.ctl.Returned? ==> [] in s.w.done)
  }

  lemma RunningOk<S, C, E>(d: Dispatch<S, C, E>, w: World<S, E>, stack: seq<Frame<S, C>>, issued: seq<Key>)
    requires WorldOk(d, w) && StackOk(d, w, stack) && IssuedOk(d, stack, issued)
    ensures SysOk(d, BusSys(w, Running(stack), issued))
  {
  }

  lemma FailedOk<S, C, E>(d: Dispatch<S, C, E>, w: World<S, E>, issued: seq<Key>)
    requires WorldOk(d, w) && Distinct(issued) && forall k | k in issued :: KeyOk(k)
    ensures SysOk(d, BusSys(w, Failed, issued))
  {
  }

  lemma TopOk<S, C, E>(d: Dispatch<S, C, E>, s: BusSys<S, C, E>)
    requires SysOk(d, s) && s.ctl.Running?
    ensures s.ctl.stack != [] && FrameOk(d, s.w, Top(s.ctl.stack)) && PathOk(Top(s.ctl.stack).path)
    ensures WorldOk(d, s.w) && StackOk(d, s.w, s.ctl.stack) && IssuedOk(d, s.ctl.stack, s.issued)
  {
  }

  /** A move that issues step k and leaves the top frame in a new phase. */
  lemma IssuedMove<S, C, E>(d: Dispatch<S, C, E>, w: World<S, E>, w1: World<S, E>, stack: seq<Frame<S, C>>, issued: seq<Key>, k: Key, phase: Phase<S>)
    requires SubsOk(d) && WorldOk(d, w) && WorldOk(d, w1) && WGrows(w, w1)
    requires StackOk(d, w, stack) && IssuedOk(d, stack, issued) && KeyOk(k)
    requires k.path == Top(stack).path && MayIssue(d, Top(stack), true, k)
    requires Later(Top(stack).phase, phase) && !MayIssue(d, Top(stack).(phase := phase), true, k)
    requires FrameOk(d, w1, Top(stack).(phase := phase))
    ensures SysOk(d, BusSys(w1, Running(WithTop(stack, phase)), issued + [k]))
  {
    hide PathsOk, SubsJournaled, RowsOk, RowsTell, CommitsOk, CallsOk, DoneOk, DbOk, Asked;
    IssueOk(d, w, stack, issued, k, phase);
    TopMoves(d, w, w1, stack, phase);
    RunningOk(d, w1, WithTop(stack, phase), issued + [k]);
  }

  /** A move that issues step k and fails. */
  lemma FailedMove<S, C, E>(d: Dispatch<S, C, E>, w1: World<S, E>, stack: seq<Frame<S, C>>, issued: seq<Key>, k: Key)
    requires WorldOk(d, w1) && stack != [] && IssuedOk(d, stack, issued) && KeyOk(k) && MayIssue(d, Top(stack), true, k)
    ensures SysOk(d, BusSys(w1, Failed, issued + [k]))
  {
    IssueNew(d, stack, issued, k);
    FailedOk(d, w1, issued + [k]);
  }

  // ---------------------------------------------------------------- stacks

  lemma TopMoves<S, C, E>(d: Dispatch<S, C, E>, w: World<S, E>, w': World<S, E>, stack: seq<Frame<S, C>>, phase: Phase<S>)
    requires SubsOk(d) && WorldOk(d, w) && WGrows(w, w') && StackOk(d, w, stack)
    requires FrameOk(d, w', Top(stack).(phase := phase))
    ensures StackOk(d, w', WithTop(stack, phase))
  {
    hide PathsOk, SubsJournaled, RowsOk, RowsTell, CommitsOk, CallsOk, DoneOk, DbOk, Asked;
    StackGrows(d, w, w', stack);
    var stack' := WithTop(stack, phase);
    forall k | 0 <= k < |stack'| - 1 ensures Nested(d, stack'[k], stack'[k + 1]) {
      assert Nested(d, stack[k], stack[k + 1]);
    }
  }

  lemma RootOk<S, C, E>(d: Dispatch<S, C, E>, w: World<S, E>)
    requires WorldOk(d, w)
    ensures SysOk(d, Restarted(d, w))
  {
  }

  lemma TopText<S, C, E>(d: Dispatch<S, C, E>, w: World<S, E>, stack: seq<Frame<S, C>>)
    requires StackOk(d, w, stack)
    ensures TextBehind(w, Top(stack).path)
  {
    hide TextBehind, Asked, Nested;
    var f := Top(stack);
    assert FrameOk(d, w, f);
    AskedText(d, w, f.path, f.cmd);
  }

  /** The top call returns nil: it is complete, and its caller's policy for that subscriber is done. */
  lemma FinishOk<S, C, E>(d: Dispatch<S, C, E>, s: BusSys<S, C, E>, stack: seq<Frame<S, C>>, phase: Phase<S>)
    requires SubsOk(d) && WorldOk(d, s.w) && stack != [] && StackOk(d, s.w, stack)
    requires PathOk(Top(stack).path) && Complete(d, s.w, Top(stack).path) && stack[0].path == []
    requires Distinct(s.issued) && (forall k | k in s.issued :: KeyOk(k))
    requires IssuedOk(d, WithTop(stack, phase), s.issued)
    ensures SysOk(d, Finish(s, stack))
  {
    hide PathsOk, SubsJournaled, RowsOk, RowsTell, CommitsOk, CallsOk, DoneOk, DbOk, FrameOk, StackOk, Complete, IssuedOk, Asked;
    var n := |stack| - 1;
    var w' := s.w.(done := s.w.done + {stack[n].path});
    TopText(d, s.w, stack);
    DoneMore(d, s.w, stack[n].path);
    if n > 0 {
      var below := stack[..n];
      BelowOk(d, s.w, w', stack);
      var moved := WithTop(stack, phase);
      assert moved[..n] == below && moved[n - 1] == Top(below);
      PopOk(d, moved, s.issued);
      var p := Top(below).phase;
      RunningOk(d, w', WithTop(below, p.(next := p.next + 1)), s.issued);
    } else {
      RootReturns(d, w', stack, s.issued);
    }
  }

  lemma RootReturns<S, C, E>(d: Dispatch<S, C, E>, w: World<S, E>, stack: seq<Frame<S, C>>, issued: seq<Key>)
    requires WorldOk(d, w) && |stack| == 1 && stack[0].path in w.done && stack[0].path == []
    requires Distinct(issued) && forall k | k in issued :: KeyOk(k)
    ensures SysOk(d, BusSys(w, Returned, issued))
  {
  }

  lemma StackBelow<S, C, E>(d: Dispatch<S, C, E>, w: World<S, E>, stack: seq<Frame<S, C>>)
    requires |stack| > 1 && StackOk(d, w, stack)
    ensures StackOk(d, w, stack[..|stack| - 1]) && Nested(d, Top(stack[..|stack| - 1]), Top(stack))
    ensures FrameOk(d, w, Top(stack[..|stack| - 1]))
  {
    hide FrameOk, Nested;
    var below := stack[..|stack| - 1];
    assert Nested(d, stack[|stack| - 2], stack[|stack| - 1]);
    forall k | 0 <= k < |below| - 1 ensures Nested(d, below[k], below[k + 1]) {
      assert Nested(d, stack[k], stack[k + 1]);
    }
    forall k | 0 <= k < |below| ensures FrameOk(d, w, below[k]) {
      assert below[k] == stack[k];
    }
  }

  lemma NextPolicyOk<S, C, E>(d: Dispatch<S, C, E>, w: World<S, E>, f: Frame<S, C>)
    requires FrameOk(d, w, f) && f.phase.AtPolicies?
    requires Exhausted(d, f.phase, f.phase.next) ==> PolicyDone(d, w, f.path, f.phase.next, f.phase.envs)
    ensures FrameOk(d, w, f.(phase := f.phase.(next := f.phase.next + 1)))
  {
    hide BatchRead, SettledOk, PolicyDone, Asked;
    var p' := f.phase.(next := f.phase.next + 1);
    forall i: nat | i < p'.next && Exhausted(d, p', i) ensures PolicyDone(d, w, f.path, i, p'.envs) {
      assert Exhausted(d, f.phase, i);
    }
  }

  lemma BelowOk<S, C, E>(d: Dispatch<S, C, E>, w: World<S, E>, w': World<S, E>, stack: seq<Frame<S, C>>)
    requires SubsOk(d) && WorldOk(d, w) && WGrows(w, w') && |stack| > 1 && StackOk(d, w, stack)
    requires Top(stack).path in w'.done
    ensures var below := stack[..|stack| - 1];
            var p := Top(below).phase;
            p.AtPolicies? && StackOk(d, w', WithTop(below, p.(next := p.next + 1)))
  {
    hide PathsOk, SubsJournaled, RowsOk, RowsTell, CommitsOk, CallsOk, DoneOk, DbOk, FrameOk, StackOk, WGrows, Asked;
    var below := stack[..|stack| - 1];
    StackBelow(d, w, stack);
    FrameGrows(d, w, w', Top(below));
    NextPolicyOk(d, w', Top(below));
    var p := Top(below).phase;
    TopMoves(d, w, w', below, p.(next := p.next + 1));
  }

  // ---------------------------------------------------------------- moves

  lemma MoveAppendOk<S(!new), C, E(!new)>(d: Dispatch<S, C, E>, s: BusSys<S, C, E>, meta: Meta)
    requires SubsOk(d) && Lawful(d.rt) && SysOk(d, s) && s.ctl.Running? && Top(s.ctl.stack).phase.AtAppend?
    requires forall n: nat :: UuidLike(meta.ids(n))
    ensures SysOk(d, MoveAppend(d, s, s.ctl.stack, meta))
  {
    hide PathsOk, SubsJournaled, RowsOk, RowsTell, CommitsOk, CallsOk, DoneOk, DbOk, StackOk, FrameOk, IssuedOk, Finish, RunAppend, Load, Asked;
    TopOk(d, s);
    var stack := s.ctl.stack;
    var f := Top(stack);
    var k := KAppend(f.path);
    var ran := RunAppend(d, s.w, f.path, f.cmd, meta);
    if ran.None? {
      FailedMove(d, s.w, stack, s.issued, k);
    } else {
      AppendOk(d, s.w, f.path, f.cmd, meta);
      AppendedMove(d, s, ran.value);
    }
  }

  lemma AppendedMove<S, C, E>(d: Dispatch<S, C, E>, s: BusSys<S, C, E>, w1: World<S, E>)
    requires SubsOk(d) && SysOk(d, s) && s.ctl.Running? && Top(s.ctl.stack).phase.AtAppend?
    requires WorldOk(d, w1) && WGrows(s.w, w1) && Get(w1, KAppend(Top(s.ctl.stack).path)).Some?
    ensures var k, r := KAppend(Top(s.ctl.stack).path), ResultAt(w1, Top(s.ctl.stack).path);
            && Get(w1, k).value.JAppend?
            && SysOk(d, BusSys(w1, Failed, s.issued + [k]))
            && (r.Some? ==> SysOk(d, BusSys(w1, Running(WithTop(s.ctl.stack, AtEnvelopes(r.value))), s.issued + [k])))
            && (r.None? ==> SysOk(d, Finish(Issue(s, k).(w := w1), s.ctl.stack)))
  {
    hide SubsJournaled, RowsOk, RowsTell, CommitsOk, CallsOk, DoneOk, DbOk, Asked;
    TopOk(d, s);
    var stack := s.ctl.stack;
    var f := Top(stack);
    var k := KAppend(f.path);
    assert PathJournal(d, w1, f.path);
    AskedGrows(d, s.w, w1, f.path, f.cmd);
    FailedMove(d, w1, stack, s.issued, k);
    var r := ResultAt(w1, f.path);
    if r.Some? {
      IssuedMove(d, s.w, w1, stack, s.issued, k, AtEnvelopes(r.value));
    } else {
      var past := AtEnvelopes(AppendResult(0, 0, 0, 0));
      IssueOk(d, s.w, stack, s.issued, k, past);
      StackGrows(d, s.w, w1, stack);
      FinishOk(d, Issue(s, k).(w := w1), stack, past);
    }
  }

  lemma MoveEnvelopesOk<S, C, E>(d: Dispatch<S, C, E>, s: BusSys<S, C, E>, r: AppendResult)
    requires SubsOk(d) && SysOk(d, s) && s.ctl.Running? && Top(s.ctl.stack).phase == AtEnvelopes(r)
    ensures SysOk(d, MoveEnvelopes(d, s, s.ctl.stack, r))
  {
    hide PathsOk, SubsJournaled, RowsOk, RowsTell, CommitsOk, CallsOk, DoneOk, DbOk, Asked;
    TopOk(d, s);
    var stack := s.ctl.stack;
    var f := Top(stack);
    var k := KEnvelopes(f.path);
    EnvelopesOk(d, s.w, f.path, r);
    var w1 := RunEnvelopes(d, s.w, f.path, r);
    AskedGrows(d, s.w, w1, f.path, f.cmd);
    IssuedMove(d, s.w, w1, stack, s.issued, k, AtState(r, EnvsAt(w1, f.path).value));
  }

  lemma MoveStateOk<S(!new), C, E(!new)>(d: Dispatch<S, C, E>, s: BusSys<S, C, E>, r: AppendResult, envs: seq<Envelope>)
    requires SubsOk(d) && Lawful(d.rt) && SysOk(d, s) && s.ctl.Running? && Top(s.ctl.stack).phase == AtState(r, envs)
    ensures SysOk(d, MoveState(d, s, s.ctl.stack, r, envs))
  {
    hide PathsOk, SubsJournaled, RowsOk, RowsTell, CommitsOk, CallsOk, DoneOk, DbOk, Asked;
    TopOk(d, s);
    var f := Top(s.ctl.stack);
    if RunState(d, s.w, f.path).None? {
      FailedMove(d, s.w, s.ctl.stack, s.issued, KState(f.path));
    } else {
      StateOk(d, s.w, f.path, r, envs);
      StatedMove(d, s, RunState(d, s.w, f.path).value, r, envs);
    }
  }

  lemma StatedMove<S, C, E>(d: Dispatch<S, C, E>, s: BusSys<S, C, E>, w1: World<S, E>, r: AppendResult, envs: seq<Envelope>)
    requires SubsOk(d) && SysOk(d, s) && s.ctl.Running? && Top(s.ctl.stack).phase == AtState(r, envs)
    requires WorldOk(d, w1) && WGrows(s.w, w1)
    requires var path := Top(s.ctl.stack).path;
             StateAt(d, w1, path).Some? && ResultAt(w1, path) == Some(r) && EnvsAt(w1, path) == Some(envs)
    ensures var path := Top(s.ctl.stack).path;
            && SysOk(d, BusSys(w1, Failed, s.issued + [KState(path)]))
            && (DecodeAll(d.rt, envs).Some? ==>
                  SysOk(d, BusSys(w1, Running(WithTop(s.ctl.stack, AtFanOut(r, envs, StateAt(d, w1, path).value, map[]))),
                                  s.issued + [KState(path)])))
  {
    hide PathsOk, SubsJournaled, RowsOk, RowsTell, CommitsOk, CallsOk, DoneOk, DbOk, StackOk, IssuedOk, Asked;
    TopOk(d, s);
    var path := Top(s.ctl.stack).path;
    FailedMove(d, w1, s.ctl.stack, s.issued, KState(path));
    if DecodeAll(d.rt, envs).Some? {
      var phase := AtFanOut(r, envs, StateAt(d, w1, path).value, map[]);
      AskedGrows(d, s.w, w1, path, Top(s.ctl.stack).cmd);
      IssuedMove(d, s.w, w1, s.ctl.stack, s.issued, KState(path), phase);
    }
  }

  lemma SubIssue<S, C, E>(d: Dispatch<S, C, E>, f: Frame<S, C>, p': Phase<S>, i: nat)
    requires SubsOk(d) && f.phase.AtFanOut? && i in Matching(d, f.phase.envs) && i !in f.phase.settled
    requires p'.AtFanOut? && p'.settled.Keys == f.phase.settled.Keys + {i}
    ensures var k := SubKey(d, f.path, i, f.phase.envs);
            MayIssue(d, f, true, k) && !MayIssue(d, f.(phase := p'), true, k)
  {
    assert i !in SettledOf(f.phase) && d.subs[i].name == SubKey(d, f.path, i, f.phase.envs).name;
  }

  lemma SettledMore<S, C, E>(d: Dispatch<S, C, E>, w1: World<S, E>, f: Frame<S, C>, i: nat, text: string)
    requires FrameOk(d, w1, f) && f.phase.AtFanOut? && i in Matching(d, f.phase.envs)
    requires Get(w1, SubKey(d, f.path, i, f.phase.envs)) == Some(JSubscriber(text))
    ensures var p := f.phase; FrameOk(d, w1, f.(phase := AtFanOut(p.result, p.envs, p.state, p.settled[i := text])))
  {
  }

  lemma FanFacts<S, C, E>(d: Dispatch<S, C, E>, w: World<S, E>, f: Frame<S, C>)
    requires FrameOk(d, w, f) && f.phase.AtFanOut?
    ensures BatchRead(d, w, f.path, f.phase.result, f.phase.envs, f.phase.state)
  {
  }

  lemma FanOutStepOk<S, C, E>(d: Dispatch<S, C, E>, s: BusSys<S, C, E>, p: Phase<S>, i: nat, attempts: seq<Option<string>>)
    requires SubsOk(d) && SysOk(d, s) && s.ctl.Running? && Top(s.ctl.stack).phase == p && p.AtFanOut?
    requires i in Matching(d, p.envs) && i !in p.settled && ValidAttempts(d.subs[i].maxRetries, attempts)
    requires DecodeAll(d.rt, p.envs).Some?
    ensures var f := Top(s.ctl.stack);
            var k := SubKey(d, f.path, i, p.envs);
            var w1 := RunSubscriber(d, s.w, f.path, i, p.envs, p.state, attempts);
            && Get(w1, k).Some? && Get(w1, k).value.JSubscriber?
            && var p' := AtFanOut(p.result, p.envs, p.state, p.settled[i := Get(w1, k).value.text]);
               SysOk(d, BusSys(w1, Running(WithTop(s.ctl.stack, p')), s.issued + [k]))
  {
    hide PathsOk, SubsJournaled, RowsOk, RowsTell, CommitsOk, CallsOk, DoneOk, DbOk, StackOk, IssuedOk, RunSubscriber, FrameOk, BatchRead, Asked;
    TopOk(d, s);
    var f := Top(s.ctl.stack);
    var k := SubKey(d, f.path, i, p.envs);
    FanFacts(d, s.w, f);
    SubscriberOk(d, s.w, f.path, p.result, i, p.envs, p.state, attempts);
    var w1 := RunSubscriber(d, s.w, f.path, i, p.envs, p.state, attempts);
    var text := Get(w1, k).value.text;
    var p' := AtFanOut(p.result, p.envs, p.state, p.settled[i := text]);
    SubIssue(d, f, p', i);
    FrameGrows(d, s.w, w1, f);
    SettledMore(d, w1, f, i, text);
    IssuedMove(d, s.w, w1, s.ctl.stack, s.issued, k, p');
  }

  lemma PoliciesFrame<S, C, E>(d: Dispatch<S, C, E>, w: World<S, E>, f: Frame<S, C>)
    requires FrameOk(d, w, f) && f.phase.AtFanOut? && Matching(d, f.phase.envs) <= f.phase.settled.Keys
    ensures var p := f.phase; FrameOk(d, w, f.(phase := AtPolicies(p.result, p.envs, p.state, p.settled, 0)))
    ensures var p := f.phase; Later(p, AtPolicies(p.result, p.envs, p.state, p.settled, 0))
  {
  }

  lemma StartPolicies<S, C, E>(d: Dispatch<S, C, E>, s: BusSys<S, C, E>, p: Phase<S>)
    requires SubsOk(d) && SysOk(d, s) && s.ctl.Running? && Top(s.ctl.stack).phase == p && p.AtFanOut?
    requires Matching(d, p.envs) <= p.settled.Keys
    ensures SysOk(d, s.(ctl := Running(WithTop(s.ctl.stack, AtPolicies(p.result, p.envs, p.state, p.settled, 0)))))
  {
    hide PathsOk, SubsJournaled, RowsOk, RowsTell, CommitsOk, CallsOk, DoneOk, DbOk, Asked;
    TopOk(d, s);
    var stack := s.ctl.stack;
    PoliciesFrame(d, s.w, Top(stack));
    SilentMove(d, s, AtPolicies(p.result, p.envs, p.state, p.settled, 0));
  }

  /** A move that issues nothing. */
  lemma SilentMove<S, C, E>(d: Dispatch<S, C, E>, s: BusSys<S, C, E>, phase: Phase<S>)
    requires SubsOk(d) && SysOk(d, s) && s.ctl.Running? && s.ctl.stack != []
    requires Later(Top(s.ctl.stack).phase, phase) && FrameOk(d, s.w, Top(s.ctl.stack).(phase := phase))
    ensures SysOk(d, s.(ctl := Running(WithTop(s.ctl.stack, phase))))
  {
    hide PathsOk, SubsJournaled, RowsOk, RowsTell, CommitsOk, CallsOk, DoneOk, DbOk, Asked;
    TopOk(d, s);
    var stack := s.ctl.stack;
    AdvanceOk(d, stack, s.issued, phase);
    TopMoves(d, s.w, s.w, stack, phase);
    RunningOk(d, s.w, WithTop(stack, phase), s.issued);
  }

  lemma MoveFanOutOk<S, C, E>(d: Dispatch<S, C, E>, s: BusSys<S, C, E>, p: Phase<S>, input: Input)
    requires SubsOk(d) && SysOk(d, s) && s.ctl.Running? && Top(s.ctl.stack).phase == p && p.AtFanOut?
    ensures SysOk(d, MoveFanOut(d, s, s.ctl.stack, p, input))
  {
    hide PathsOk, SubsJournaled, RowsOk, RowsTell, CommitsOk, CallsOk, DoneOk, DbOk, Asked;
    if Matching(d, p.envs) <= p.settled.Keys {
      StartPolicies(d, s, p);
    } else if !(input.sub !in Matching(d, p.envs) || input.sub in p.settled || DecodeAll(d.rt, p.envs).None?
                || !ValidAttempts(d.subs[input.sub].maxRetries, input.attempts)) {
      FanOutStepOk(d, s, p, input.sub, input.attempts);
    }
  }

  lemma AllPoliciesDone<S, C, E>(d: Dispatch<S, C, E>, w: World<S, E>, f: Frame<S, C>)
    requires FrameOk(d, w, f) && f.phase.AtPolicies? && f.phase.next >= |d.subs|
    ensures Complete(d, w, f.path)
  {
    var p := f.phase;
    forall i | i in Matching(d, p.envs) ensures SubSettled(d, w, f.path, i, p.envs) {
      assert i in p.settled;
      if p.settled[i] != "" {
        assert Exhausted(d, p, i);
      }
    }
  }

  lemma OnwardOk<S, C, E>(d: Dispatch<S, C, E>, s: BusSys<S, C, E>, p: Phase<S>)
    requires SubsOk(d) && SysOk(d, s) && s.ctl.Running? && Top(s.ctl.stack).phase == p && p.AtPolicies?
    requires Exhausted(d, p, p.next) ==> PolicyDone(d, s.w, Top(s.ctl.stack).path, p.next, p.envs)
    ensures SysOk(d, s.(ctl := Running(WithTop(s.ctl.stack, p.(next := p.next + 1)))))
  {
    hide PathsOk, SubsJournaled, RowsOk, RowsTell, CommitsOk, CallsOk, DoneOk, DbOk, Asked;
    TopOk(d, s);
    var stack := s.ctl.stack;
    NextPolicyOk(d, s.w, Top(stack));
    SilentMove(d, s, p.(next := p.next + 1));
  }

  lemma DlqIssue<S, C, E>(d: Dispatch<S, C, E>, f: Frame<S, C>)
    requires SubsOk(d) && f.phase.AtPolicies? && f.phase.next < |d.subs| && Exhausted(d, f.phase, f.phase.next)
    ensures var k := DlqKey(d, f.path, f.phase.next, f.phase.envs);
            MayIssue(d, f, true, k) && !MayIssue(d, f.(phase := f.phase.(next := f.phase.next + 1)), true, k)
  {
    assert d.subs[f.phase.next].name == DlqKey(d, f.path, f.phase.next, f.phase.envs).name;
  }

  lemma PolicyFacts<S, C, E>(d: Dispatch<S, C, E>, w: World<S, E>, f: Frame<S, C>)
    requires FrameOk(d, w, f) && f.phase.AtPolicies? && Exhausted(d, f.phase, f.phase.next)
    ensures var p := f.phase;
            && EnvsAt(w, f.path) == Some(p.envs) && p.settled[p.next] != ""
            && Get(w, SubKey(d, f.path, p.next, p.envs)) == Some(JSubscriber(p.settled[p.next]))
  {
  }

  lemma MoveDeadLetterOk<S, C, E>(d: Dispatch<S, C, E>, s: BusSys<S, C, E>, p: Phase<S>, writes: bool)
    requires SubsOk(d) && SysOk(d, s) && s.ctl.Running? && Top(s.ctl.stack).phase == p && p.AtPolicies?
    requires p.next < |d.subs| && Exhausted(d, p, p.next) && d.subs[p.next].policy == DeadLetter
    ensures SysOk(d, MoveDeadLetter(d, s, s.ctl.stack, p, writes))
  {
    hide PathsOk, SubsJournaled, RowsOk, RowsTell, CommitsOk, CallsOk, DoneOk, DbOk, StackOk, FrameOk, IssuedOk, RunDeadLetter, Asked;
    TopOk(d, s);
    var stack := s.ctl.stack;
    var f := Top(stack);
    var k := DlqKey(d, f.path, p.next, p.envs);
    DlqIssue(d, f);
    PolicyFacts(d, s.w, f);
    var ran := RunDeadLetter(d, s.w, f.path, p.next, p.envs, p.settled[p.next], writes);
    if ran.None? {
      BatchKeys(d, s.w, f.path, p.next, p.envs);
      FailedMove(d, s.w, stack, s.issued, k);
    } else {
      DeadLetterOk(d, s.w, f.path, p.next, p.envs, p.settled[p.next], writes);
      FrameGrows(d, s.w, ran.value, f);
      NextPolicyOk(d, ran.value, f);
      IssuedMove(d, s.w, ran.value, stack, s.issued, k, p.(next := p.next + 1));
    }
  }

  lemma PushStackOk<S, C, E>(d: Dispatch<S, C, E>, w: World<S, E>, stack: seq<Frame<S, C>>, g: Frame<S, C>)
    requires StackOk(d, w, stack) && Nested(d, Top(stack), g) && PathOk(g.path) && g.phase.AtAppend?
    requires Asked(d, w, g.path, g.cmd)
    ensures StackOk(d, w, stack + [g])
  {
    var stack' := stack + [g];
    forall k | 0 <= k < |stack'| - 1 ensures Nested(d, stack'[k], stack'[k + 1]) {
      if k < |stack| - 1 {
        assert Nested(d, stack[k], stack[k + 1]);
      }
    }
    forall k | 0 <= k < |stack'| ensures FrameOk(d, w, stack'[k]) {
      assert k < |stack| ==> FrameOk(d, w, stack[k]);
    }
  }

  lemma AskedOfTop<S, C, E>(d: Dispatch<S, C, E>, w: World<S, E>, f: Frame<S, C>, cmd: C)
    requires FrameOk(d, w, f) && f.phase.AtPolicies? && f.phase.next < |d.subs| && Exhausted(d, f.phase, f.phase.next)
    requires d.subs[f.phase.next].policy == Compensate && DecodeAll(d.rt, f.phase.envs).Some?
    requires KeyOk(SubKey(d, f.path, f.phase.next, f.phase.envs))
    requires var p := f.phase;
             Some(cmd) == d.subs[p.next].compensate(Kept(d.subs[p.next].filter, p.envs), p.state,
                                                    KeptEvents(d.subs[p.next].filter, p.envs, DecodeAll(d.rt, p.envs).value))
    ensures Asked(d, w, NestedPath(d, f.path, f.phase.next, f.phase.envs), cmd)
  {
    var path := NestedPath(d, f.path, f.phase.next, f.phase.envs);
    PolicyFacts(d, w, f);
    assert path[..|path| - 1] == f.path;
    assert AskedBy(d, w, f.path, f.phase.next, path, cmd);
  }

  lemma MoveCompensateOk<S, C, E>(d: Dispatch<S, C, E>, s: BusSys<S, C, E>, p: Phase<S>, cmd: C)
    requires SubsOk(d) && SysOk(d, s) && s.ctl.Running? && Top(s.ctl.stack).phase == p && p.AtPolicies?
    requires p.next < |d.subs| && Exhausted(d, p, p.next) && d.subs[p.next].policy == Compensate
    requires DecodeAll(d.rt, p.envs).Some?
    requires Some(cmd) == d.subs[p.next].compensate(Kept(d.subs[p.next].filter, p.envs), p.state,
                                                    KeptEvents(d.subs[p.next].filter, p.envs, DecodeAll(d.rt, p.envs).value))
    ensures SysOk(d, s.(ctl := Running(s.ctl.stack + [Frame(NestedPath(d, Top(s.ctl.stack).path, p.next, p.envs), cmd, AtAppend)])))
  {
    hide PathsOk, SubsJournaled, RowsOk, RowsTell, CommitsOk, CallsOk, DoneOk, DbOk, Asked;
    TopOk(d, s);
    var stack := s.ctl.stack;
    var f := Top(stack);
    BatchKeys(d, s.w, f.path, p.next, p.envs);
    var g := Frame(NestedPath(d, f.path, p.next, p.envs), cmd, AtAppend);
    AskedOfTop(d, s.w, f, cmd);
    PushOk(d, stack, s.issued, g);
    PushStackOk(d, s.w, stack, g);
    RunningOk(d, s.w, stack + [g], s.issued);
  }

  lemma EndPolicies<S, C, E>(d: Dispatch<S, C, E>, s: BusSys<S, C, E>, p: Phase<S>)
    requires SubsOk(d) && SysOk(d, s) && s.ctl.Running? && Top(s.ctl.stack).phase == p && p.AtPolicies?
    requires p.next >= |d.subs|
    ensures SysOk(d, Finish(s, s.ctl.stack)) && SysOk(d, s.(ctl := Failed))
  {
    hide PathsOk, SubsJournaled, RowsOk, RowsTell, CommitsOk, CallsOk, DoneOk, DbOk, Asked;
    TopOk(d, s);
    var stack := s.ctl.stack;
    AllPoliciesDone(d, s.w, Top(stack));
    assert WithTop(stack, p) == stack;
    FinishOk(d, s, stack, p);
    FailedOk(d, s.w, s.issued);
  }

  lemma MovePoliciesOk<S, C, E>(d: Dispatch<S, C, E>, s: BusSys<S, C, E>, p: Phase<S>, input: Input)
    requires SubsOk(d) && SysOk(d, s) && s.ctl.Running? && Top(s.ctl.stack).phase == p && p.AtPolicies?
    ensures SysOk(d, MovePolicies(d, s, s.ctl.stack, p, input))
  {
    hide PathsOk, SubsJournaled, RowsOk, RowsTell, CommitsOk, CallsOk, DoneOk, DbOk, StackOk, FrameOk, IssuedOk, Finish, MoveDeadLetter, Asked;
    FailedOk(d, s.w, s.issued);
    if p.next >= |d.subs| {
      EndPolicies(d, s, p);
    } else if !Exhausted(d, p, p.next) || d.subs[p.next].policy == Drop {
      OnwardOk(d, s, p);
    } else if d.subs[p.next].policy == DeadLetter {
      MoveDeadLetterOk(d, s, p, input.writes);
    } else {
      var events := DecodeAll(d.rt, p.envs);
      if events.Some? {
        var cmd := d.subs[p.next].compensate(Kept(d.subs[p.next].filter, p.envs), p.state,
                                             KeptEvents(d.subs[p.next].filter, p.envs, events.value));
        if cmd.Some? {
          MoveCompensateOk(d, s, p, cmd.value);
        }
      }
    }
  }

  lemma CrashOk<S, C, E>(d: Dispatch<S, C, E>, s: BusSys<S, C, E>, i: nat)
    requires SubsOk(d) && SysOk(d, s)
    ensures SysOk(d, CrashCall(d, s, i))
  {
    hide PathsOk, SubsJournaled, RowsOk, RowsTell, CommitsOk, CallsOk, DoneOk, DbOk, StackOk, IssuedOk, Asked;
    if s.ctl.Running? {
      TopOk(d, s);
      var f := Top(s.ctl.stack);
      if f.phase.AtFanOut? && i in Matching(d, f.phase.envs) {
        var w' := s.w.(calls := s.w.calls + [CallFor(d, f.path, i, f.phase.envs, f.phase.state)]);
        LostCallOk(d, s.w, w', f.path, i, f.phase.envs, f.phase.state);
        RootOk(d, w');
      }
    }
  }

  lemma LostCallOk<S, C, E>(d: Dispatch<S, C, E>, w: World<S, E>, w': World<S, E>, path: Path, i: nat, envs: seq<Envelope>, state: S)
    requires SubsOk(d) && WorldOk(d, w) && PathOk(path) && i in Matching(d, envs) && DecodeAll(d.rt, envs).Some?
    requires EnvsAt(w, path) == Some(envs) && StateAt(d, w, path) == Some(state)
    requires w' == w.(calls := w.calls + [CallFor(d, path, i, envs, state)])
    ensures WorldOk(d, w')
  {
    hide PathsOk, SubsJournaled, RowsOk, RowsTell, CommitsOk, DoneOk, DbOk, Asked;
    SameJournal(d, w, w');
    HistoryKept(d, w, w');
    NewCallOk(d, w, w', path, i, envs, state);
  }

  lemma MoveReadsOk<S(!new), C, E(!new)>(d: Dispatch<S, C, E>, s: BusSys<S, C, E>, input: Input)
    requires SubsOk(d) && Lawful(d.rt) && SysOk(d, s) && InputOk(input) && s.ctl.Running?
    requires Level(Top(s.ctl.stack).phase) <= 2
    ensures SysOk(d, Move(d, s, input))
  {
    hide PathsOk, SubsJournaled, RowsOk, RowsTell, CommitsOk, CallsOk, DoneOk, DbOk, Asked;
    match Top(s.ctl.stack).phase
    case AtAppend => MoveAppendOk(d, s, input.meta);
    case AtEnvelopes(r) => MoveEnvelopesOk(d, s, r);
    case AtState(r, envs) => MoveStateOk(d, s, r, envs);
  }

  lemma MoveFansOk<S, C, E>(d: Dispatch<S, C, E>, s: BusSys<S, C, E>, input: Input)
    requires SubsOk(d) && SysOk(d, s) && s.ctl.Running? && Level(Top(s.ctl.stack).phase) == 3
    ensures SysOk(d, Move(d, s, input))
  {
    hide PathsOk, SubsJournaled, RowsOk, RowsTell, CommitsOk, CallsOk, DoneOk, DbOk, Asked;
    MoveFanOutOk(d, s, Top(s.ctl.stack).phase, input);
  }

  lemma MoveEndsOk<S, C, E>(d: Dispatch<S, C, E>, s: BusSys<S, C, E>, input: Input)
    requires SubsOk(d) && SysOk(d, s) && s.ctl.Running? && Level(Top(s.ctl.stack).phase) == 4
    ensures SysOk(d, Move(d, s, input))
  {
    hide PathsOk, SubsJournaled, RowsOk, RowsTell, CommitsOk, CallsOk, DoneOk, DbOk, Asked;
    MovePoliciesOk(d, s, Top(s.ctl.stack).phase, input);
  }

  lemma MoveOk<S(!new), C, E(!new)>(d: Dispatch<S, C, E>, s: BusSys<S, C, E>, input: Input)
    requires SubsOk(d) && Lawful(d.rt) && SysOk(d, s) && InputOk(input)
    ensures SysOk(d, Move(d, s, input))
  {
    hide PathsOk, SubsJournaled, RowsOk, RowsTell, CommitsOk, CallsOk, DoneOk, DbOk, Asked;
    if s.ctl.Running? {
      var level := Level(Top(s.ctl.stack).phase);
      if level <= 2 {
        MoveReadsOk(d, s, input);
      } else if level == 3 {
        MoveFansOk(d, s, input);
      } else {
        MoveEndsOk(d, s, input);
      }
    }
  }

  lemma StepKeepsSysOk<S(!new), C, E(!new)>(d: Dispatch<S, C, E>, s: BusSys<S, C, E>, step: BusStep)
    requires SubsOk(d) && Lawful(d.rt) && SysOk(d, s) && StepOk(step)
    ensures SysOk(d, Bus.Next(d, s, step))
  {
    hide PathsOk, SubsJournaled, RowsOk, RowsTell, CommitsOk, CallsOk, DoneOk, DbOk, FrameOk, IssuedOk, Move, CrashCall, Asked;
    match step
    case Advance(input) => MoveOk(d, s, input);
    case Restart => RootOk(d, s.w);
    case CrashInSubscriber(i) => CrashOk(d, s, i);
    case Others(db') =>
      if Grows(s.w.db, db') && DbOk(d.rt, db') {
        OthersOk(d, s.w, db');
        if s.ctl.Running? {
          StackGrows(d, s.w, s.w.(db := db'), s.ctl.stack);
        }
      }
  }

  lemma EmptyWorldOk<S, C, E>(d: Dispatch<S, C, E>, db0: Db)
    requires DbOk(d.rt, db0)
    ensures WorldOk(d, World(db0, map[], [], [], map[], [], {}))
  {
  }

  lemma {:induction false} ReachedOk<S(!new), C, E(!new)>(d: Dispatch<S, C, E>, db0: Db, steps: seq<BusStep>)
    requires SubsOk(d) && Lawful(d.rt) && DbOk(d.rt, db0) && forall i | 0 <= i < |steps| :: StepOk(steps[i])
    ensures SysOk(d, Reached(d, db0, steps))
    decreases |steps|
  {
    hide PathsOk, SubsJournaled, RowsOk, RowsTell, CommitsOk, CallsOk, DoneOk, DbOk, StackOk, FrameOk, IssuedOk, Asked;
    if steps == [] {
      EmptyWorldOk(d, db0);
      RootOk(d, World(db0, map[], [], [], map[], [], {}));
    } else {
      var n := |steps| - 1;
      assert forall i | 0 <= i < n :: steps[..n][i] == steps[i];
      ReachedOk(d, db0, steps[..n]);
      StepKeepsSysOk(d, Reached(d, db0, steps[..n]), steps[n]);
    }
  }
}
