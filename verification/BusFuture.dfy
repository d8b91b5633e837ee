/** Within one incarnation no journaled step is issued twice, at any depth of compensation. */
module BusFuture {
  import opened BusNames
  import opened Bus
  import opened BusInvariant

  function Level<S>(p: Phase<S>): nat {
    match p
    case AtAppend => 0
    case AtEnvelopes(_) => 1
    case AtState(_, _) => 2
    case AtFanOut(_, _, _, _) => 3
    case AtPolicies(_, _, _, _, _) => 4
  }

  function SettledOf<S>(p: Phase<S>): set<nat> { if p.AtFanOut? then p.settled.Keys else {} }

  /** The first subscriber whose policy a frame may still start; one that is being compensated has started. */
  function NextPolicy<S>(p: Phase<S>, top: bool): nat {
    if !p.AtPolicies? then 0 else if top then p.next else p.next + 1
  }

  predicate NamedFrom<S, C, E>(d: Dispatch<S, C, E>, from: nat, name: string) {
    exists i | from <= i < |d.subs| :: d.subs[i].name == name
  }

  predicate NamedOutside<S, C, E>(d: Dispatch<S, C, E>, settled: set<nat>, name: string) {
    exists i: nat | i < |d.subs| :: i !in settled && d.subs[i].name == name
  }

  /** Steps a frame may still issue, itself or through compensations it may still start. */
  predicate MayIssue<S, C, E>(d: Dispatch<S, C, E>, f: Frame<S, C>, top: bool, k: Key) {
    || (k.path == f.path &&
        match k
        case KAppend(_) => Level(f.phase) == 0
        case KEnvelopes(_) => Level(f.phase) <= 1
        case KState(_) => Level(f.phase) <= 2
        case KSubscriber(_, n, _) => Level(f.phase) <= 3 && NamedOutside(d, SettledOf(f.phase), n)
        case KDeadLetter(_, n, _) => NamedFrom(d, NextPolicy(f.phase, top), n))
    || (f.path < k.path && NamedFrom(d, NextPolicy(f.phase, top), k.path[|f.path|].name))
  }

  /** No frame of the stack can issue the step any more. */
  ghost predicate Spent<S, C, E>(d: Dispatch<S, C, E>, stack: seq<Frame<S, C>>, k: Key) {
    forall j | 0 <= j < |stack| :: !MayIssue(d, stack[j], j == |stack| - 1, k)
  }

  ghost predicate Distinct(keys: seq<Key>) { forall i, j | 0 <= i < j < |keys| :: keys[i] != keys[j] }

  ghost predicate IssuedOk<S, C, E>(d: Dispatch<S, C, E>, stack: seq<Frame<S, C>>, issued: seq<Key>) {
    Distinct(issued) && forall k | k in issued :: KeyOk(k) && Spent(d, stack, k)
  }

  predicate Later<S>(p: Phase<S>, p': Phase<S>) {
    Level(p) <= Level(p') && SettledOf(p) <= SettledOf(p') + (if Level(p') > 3 then SettledOf(p) else {})
    && NextPolicy(p, true) <= NextPolicy(p', true)
  }

  lemma LaterIssuesLess<S, C, E>(d: Dispatch<S, C, E>, f: Frame<S, C>, phase: Phase<S>, k: Key)
    requires Later(f.phase, phase) && !MayIssue(d, f, true, k)
    ensures !MayIssue(d, f.(phase := phase), true, k)
  {
  }

  lemma SpentAdvance<S, C, E>(d: Dispatch<S, C, E>, stack: seq<Frame<S, C>>, phase: Phase<S>, k: Key)
    requires stack != [] && Later(Top(stack).phase, phase) && Spent(d, stack, k)
    ensures Spent(d, WithTop(stack, phase), k)
  {
    var stack' := WithTop(stack, phase);
    var n := |stack| - 1;
    assert !MayIssue(d, stack[n], true, k);
    LaterIssuesLess(d, stack[n], phase, k);
    forall j | 0 <= j < |stack'| ensures !MayIssue(d, stack'[j], j == |stack'| - 1, k) {
      if j < n {
        assert stack'[j] == stack[j] && !MayIssue(d, stack[j], false, k);
      }
    }
  }

  /** Paths of higher frames extend those of lower ones through the compensation in progress. */
  lemma {:induction false} PathsExtend<S, C, E>(d: Dispatch<S, C, E>, stack: seq<Frame<S, C>>, j: nat, n: nat)
    requires j < n < |stack| && forall k | 0 <= k < |stack| - 1 :: Nested(d, stack[k], stack[k + 1])
    ensures stack[j].path < stack[n].path && stack[j].phase.AtPolicies? && stack[j].phase.next < |d.subs|
    ensures stack[n].path[|stack[j].path|].name == d.subs[stack[j].phase.next].name
    decreases n
  {
    assert Nested(d, stack[n - 1], stack[n]);
    if j < n - 1 {
      PathsExtend(d, stack, j, n - 1);
    }
  }

  /** Lower frames cannot issue what belongs to the top frame. */
  lemma OnlyTopIssues<S, C, E>(d: Dispatch<S, C, E>, w: World<S, E>, stack: seq<Frame<S, C>>, k: Key, j: nat)
    requires SubsOk(d) && StackOk(d, w, stack) && j < |stack| - 1 && k.path == Top(stack).path
    ensures !MayIssue(d, stack[j], false, k)
  {
    hide FrameOk, Nested, NamedOutside;
    PathsExtend(d, stack, j, |stack| - 1);
  }

  /** Issuing a step that the top frame may issue, after which it may not. */
  lemma IssueOk<S, C, E>(d: Dispatch<S, C, E>, w: World<S, E>, stack: seq<Frame<S, C>>, issued: seq<Key>, k: Key, phase: Phase<S>)
    requires SubsOk(d) && StackOk(d, w, stack) && IssuedOk(d, stack, issued) && KeyOk(k)
    requires k.path == Top(stack).path && MayIssue(d, Top(stack), true, k)
    requires Later(Top(stack).phase, phase) && !MayIssue(d, Top(stack).(phase := phase), true, k)
    ensures IssuedOk(d, WithTop(stack, phase), issued + [k])
  {
    var stack' := WithTop(stack, phase);
    var n := |stack| - 1;
    IssueNew(d, stack, issued, k);
    forall x | x in issued + [k] ensures KeyOk(x) && Spent(d, stack', x) {
      if x in issued {
        SpentAdvance(d, stack, phase, x);
      } else {
        forall j | 0 <= j < |stack'| ensures !MayIssue(d, stack'[j], j == |stack'| - 1, x) {
          if j < n {
            assert stack'[j] == stack[j];
            OnlyTopIssues(d, w, stack, k, j);
          }
        }
      }
    }
  }

  lemma IssueNew<S, C, E>(d: Dispatch<S, C, E>, stack: seq<Frame<S, C>>, issued: seq<Key>, k: Key)
    requires stack != [] && IssuedOk(d, stack, issued) && MayIssue(d, Top(stack), true, k)
    ensures k !in issued && Distinct(issued + [k])
  {
    assert !Spent(d, stack, k);
  }

  /** Moving on without issuing anything. */
  lemma AdvanceOk<S, C, E>(d: Dispatch<S, C, E>, stack: seq<Frame<S, C>>, issued: seq<Key>, phase: Phase<S>)
    requires stack != [] && IssuedOk(d, stack, issued) && Later(Top(stack).phase, phase)
    ensures IssuedOk(d, WithTop(stack, phase), issued)
  {
    forall x | x in issued ensures Spent(d, WithTop(stack, phase), x) {
      SpentAdvance(d, stack, phase, x);
    }
  }

  /** Starting a compensation: whatever it may issue, its parent might have issued. */
  lemma PushOk<S, C, E>(d: Dispatch<S, C, E>, stack: seq<Frame<S, C>>, issued: seq<Key>, f: Frame<S, C>)
    requires stack != [] && IssuedOk(d, stack, issued) && Nested(d, Top(stack), f)
    ensures IssuedOk(d, stack + [f], issued)
  {
    var top := Top(stack);
    forall x | x in issued ensures Spent(d, stack + [f], x) {
      var n := |stack| - 1;
      assert !MayIssue(d, stack[n], true, x);
      forall j | 0 <= j < |stack + [f]| ensures !MayIssue(d, (stack + [f])[j], j == |stack + [f]| - 1, x) {
        if j < n {
          assert (stack + [f])[j] == stack[j] && !MayIssue(d, stack[j], false, x);
        } else if j == n {
          assert (stack + [f])[j] == top;
        } else if MayIssue(d, f, true, x) {
          NestedIssues(d, top, f, x);
        }
      }
    }
  }

  lemma NestedIssues<S, C, E>(d: Dispatch<S, C, E>, top: Frame<S, C>, f: Frame<S, C>, k: Key)
    requires Nested(d, top, f) && MayIssue(d, f, true, k)
    ensures MayIssue(d, top, true, k)
  {
    assert top.path < k.path && k.path[|top.path|] == f.path[|top.path|];
    assert d.subs[top.phase.next].name == k.path[|top.path|].name;
  }

  /** Returning from a compensation: its parent had already counted it as started. */
  lemma PopOk<S, C, E>(d: Dispatch<S, C, E>, stack: seq<Frame<S, C>>, issued: seq<Key>)
    requires |stack| > 1 && IssuedOk(d, stack, issued) && stack[|stack| - 2].phase.AtPolicies?
    ensures var below := stack[..|stack| - 1];
            var p := Top(below).phase;
            IssuedOk(d, WithTop(below, p.(next := p.next + 1)), issued)
  {
    var below := stack[..|stack| - 1];
    var p := Top(below).phase;
    var stack' := WithTop(below, p.(next := p.next + 1));
    forall x | x in issued ensures Spent(d, stack', x) {
      forall j | 0 <= j < |stack'| ensures !MayIssue(d, stack'[j], j == |stack'| - 1, x) {
        assert !MayIssue(d, stack[j], false, x);
        if j < |stack'| - 1 {
          assert stack'[j] == stack[j];
        } else {
          PoppedIssues(d, stack[j], x);
        }
      }
    }
  }

  lemma PoppedIssues<S, C, E>(d: Dispatch<S, C, E>, f: Frame<S, C>, k: Key)
    requires f.phase.AtPolicies? && !MayIssue(d, f, false, k)
    ensures !MayIssue(d, f.(phase := f.phase.(next := f.phase.next + 1)), true, k)
  {
  }
}
