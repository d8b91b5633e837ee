/** What a command dispatch guarantees (cmdworkflow/bus.go). */
module BusTheorems {
  import opened Basics
  import opened Store
  import opened StoreLaws
  import opened Aggregate
  import opened Interleaving
  import opened BusNames
  import opened Bus
  import opened BusInvariant
  import opened BusLaws

  ghost predicate RunOk<S(!new), C, E(!new)>(d: Dispatch<S, C, E>, db0: Db, steps: seq<BusStep>) {
    SubsOk(d) && Lawful(d.rt) && DbOk(d.rt, db0) && forall i | 0 <= i < |steps| :: StepOk(steps[i])
  }

  /** All step names of one incarnation are different, at any depth of nested compensation. */
  lemma StepNamesDistinct<S(!new), C, E(!new)>(d: Dispatch<S, C, E>, db0: Db, steps: seq<BusStep>)
    requires RunOk(d, db0, steps)
    ensures var issued := Bus.Reached(d, db0, steps).issued;
            forall i, j | 0 <= i < j < |issued| :: Name(issued[i]) != Name(issued[j])
  {
    ReachedOk(d, db0, steps);
    var issued := Bus.Reached(d, db0, steps).issued;
    forall i, j | 0 <= i < j < |issued| ensures Name(issued[i]) != Name(issued[j]) {
      assert issued[i] in issued && issued[j] in issued;
      if Name(issued[i]) == Name(issued[j]) {
        NamesDiffer(issued[i], issued[j]);
      }
    }
  }

  /** However often the dispatch is restarted from its journal, no append step commits a second batch and no
      dead letter is written twice. */
  lemma ReplayCommitsOnce<S(!new), C, E(!new)>(d: Dispatch<S, C, E>, db0: Db, steps: seq<BusStep>)
    requires RunOk(d, db0, steps)
    ensures var w := Bus.Reached(d, db0, steps).w;
            && (forall i, j | 0 <= i < j < |w.commits| :: Name(KAppend(w.commits[i])) != Name(KAppend(w.commits[j])))
            && (forall i, j | 0 <= i < j < |w.rows| :: Name(w.rows[i].key) != Name(w.rows[j].key))
  {
    ReachedOk(d, db0, steps);
    var w := Bus.Reached(d, db0, steps).w;
    forall i, j | 0 <= i < j < |w.commits| ensures Name(KAppend(w.commits[i])) != Name(KAppend(w.commits[j])) {
      if Name(KAppend(w.commits[i])) == Name(KAppend(w.commits[j])) {
        NamesDiffer(KAppend(w.commits[i]), KAppend(w.commits[j]));
      }
    }
    forall i, j | 0 <= i < j < |w.rows| ensures Name(w.rows[i].key) != Name(w.rows[j].key) {
      if Name(w.rows[i].key) == Name(w.rows[j].key) {
        NamesDiffer(w.rows[i].key, w.rows[j].key);
      }
    }
  }

  lemma SameSubscriber<S, C, E>(d: Dispatch<S, C, E>, i: nat, j: nat)
    requires SubsOk(d) && i < |d.subs| && j < |d.subs| && d.subs[i].name == d.subs[j].name
    ensures i == j
  {
  }

  lemma CallsAgree<S, C, E>(d: Dispatch<S, C, E>, w: World<S, E>, a: Call<S, E>, b: Call<S, E>, i: nat, j: nat)
    requires SubsOk(d) && CallOf(d, w, a, i) && CallOf(d, w, b, j) && a.key == b.key
    ensures a == b
  {
    SameSubscriber(d, i, j);
  }

  lemma CallKeyOk<S, C, E>(d: Dispatch<S, C, E>, w: World<S, E>, a: Call<S, E>, i: nat)
    requires SubsOk(d) && WorldOk(d, w) && CallOf(d, w, a, i)
    ensures KeyOk(a.key)
  {
    BatchKeys(d, w, a.key.path, i, EnvsAt(w, a.key.path).value);
  }

  /** A subscriber step that is run again after a crash is given the same envelopes, state and events. */
  lemma ReplayGivesSameInputs<S(!new), C, E(!new)>(d: Dispatch<S, C, E>, db0: Db, steps: seq<BusStep>, a: Call<S, E>, b: Call<S, E>)
    requires RunOk(d, db0, steps)
    requires var w := Bus.Reached(d, db0, steps).w; a in w.calls && b in w.calls && Name(a.key) == Name(b.key)
    ensures a.envs == b.envs && a.state == b.state && a.events == b.events
  {
    ReachedOk(d, db0, steps);
    var w := Bus.Reached(d, db0, steps).w;
    assert CallOk(d, w, a) && CallOk(d, w, b);
    var i :| CallOf(d, w, a, i);
    var j :| CallOf(d, w, b, j);
    CallKeyOk(d, w, a, i);
    CallKeyOk(d, w, b, j);
    NamesDiffer(a.key, b.key);
    CallsAgree(d, w, a, b, i, j);
  }

  /** Whatever call is in progress, at any depth, its command is the dispatched one or what the exhausted
      subscriber's Compensate gives for its journaled batch and state. */
  lemma CommandsAreAsked<S(!new), C, E(!new)>(d: Dispatch<S, C, E>, db0: Db, steps: seq<BusStep>, k: nat)
    requires RunOk(d, db0, steps)
    requires var ctl := Bus.Reached(d, db0, steps).ctl; ctl.Running? && k < |ctl.stack|
    ensures var s := Bus.Reached(d, db0, steps); Asked(d, s.w, s.ctl.stack[k].path, s.ctl.stack[k].cmd)
  {
    ReachedOk(d, db0, steps);
    var s := Bus.Reached(d, db0, steps);
    assert FrameOk(d, s.w, s.ctl.stack[k]);
  }

  /** Every dead letter ever written lists its batch in order, the error its subscriber ended with and its budget. */
  lemma DeadLettersTell<S(!new), C, E(!new)>(d: Dispatch<S, C, E>, db0: Db, steps: seq<BusStep>, row: DlqRow)
    requires RunOk(d, db0, steps) && row in Bus.Reached(d, db0, steps).w.rows
    ensures RowTells(d, Bus.Reached(d, db0, steps).w, row)
  {
    ReachedOk(d, db0, steps);
  }

  // ---------------------------------------------------------------- the batch

  /** Versions start..end, in order. */
  predicate IsRange(envs: seq<Envelope>, r: AppendResult) {
    |envs| == r.endVersion + 1 - r.startVersion && forall j | 0 <= j < |envs| :: envs[j].hashed.version == r.startVersion + j
  }

  lemma WindowIsRange<S, C, E>(d: Dispatch<S, C, E>, db: Db, r: AppendResult)
    requires Contiguous(db.events) && RangeOk(d, db, r)
    ensures IsRange(Window(d, db, r), r)
  {
    assert ContiguousLog(StreamLog(db.events, d.sid));
  }

  lemma {:induction false} DecodedAt<S, C, E>(rt: Runtime<S, C, E>, envs: seq<Envelope>)
    requires DecodeAll(rt, envs).Some?
    ensures forall j | 0 <= j < |envs| :: rt.codec.decode(EncodedOf(envs[j].hashed.content)) == Some(DecodeAll(rt, envs).value[j])
    decreases |envs|
  {
    if envs != [] {
      DecodedAt(rt, envs[..|envs| - 1]);
    }
  }

  ghost predicate Aligned<S, C, E>(rt: Runtime<S, C, E>, envs: seq<Envelope>, events: seq<E>) {
    |envs| == |events| && forall j | 0 <= j < |envs| :: rt.codec.decode(EncodedOf(envs[j].hashed.content)) == Some(events[j])
  }

  /** Filtering keeps envelopes and events index-aligned. */
  lemma {:induction false} KeptAligned<S, C, E>(rt: Runtime<S, C, E>, keep: Envelope -> bool, envs: seq<Envelope>, events: seq<E>)
    requires Aligned(rt, envs, events)
    ensures Aligned(rt, Kept(keep, envs), KeptEvents(keep, envs, events))
    decreases |envs|
  {
    if envs != [] {
      var n := |envs| - 1;
      KeptAligned(rt, keep, envs[..n], events[..n]);
    }
  }

  /** Filtering takes the batch envelope by envelope, in order. */
  lemma {:induction false} KeptIsFilter(keep: Envelope -> bool, a: seq<Envelope>, e: Envelope, b: seq<Envelope>)
    ensures Kept(keep, a + [e] + b) == Kept(keep, a) + (if keep(e) then [e] else []) + Kept(keep, b)
    decreases |b|
  {
    var all := a + [e] + b;
    if b == [] {
      assert all == a + [e] && all[..|all| - 1] == a;
    } else {
      var n := |b| - 1;
      assert all[..|all| - 1] == a + [e] + b[..n] && all[|all| - 1] == b[n];
      KeptIsFilter(keep, a, e, b[..n]);
    }
  }

  /** A subscriber the bus waits for, with an envelope in the batch that its filter takes. */
  ghost predicate IsFor<S, C, E>(d: Dispatch<S, C, E>, i: nat, envs: seq<Envelope>) {
    i < |d.subs| && d.subs[i].mode == Sync && exists e :: e in envs && d.subs[i].filter(e)
  }

  lemma MatchingIff<S, C, E>(d: Dispatch<S, C, E>, i: nat, envs: seq<Envelope>)
    ensures i in Matching(d, envs) <==> IsFor(d, i, envs)
  {
    if i < |d.subs| {
      var keep := d.subs[i].filter;
      if j: nat :| j < |envs| && keep(envs[j]) {
        KeptIsFilter(keep, envs[..j], envs[j], envs[j + 1..]);
        assert envs == envs[..j] + [envs[j]] + envs[j + 1..];
      }
      if Kept(keep, envs) != [] {
        KeptMembers(keep, envs);
        assert Kept(keep, envs)[0] in Kept(keep, envs);
      }
    }
  }

  /** Every call ever made to a subscriber: a filtered, aligned part of exactly the committed version range of
      its dispatch, with one state per dispatch, the fold of the stream at some version that includes the batch. */
  ghost predicate CallSound<S, C, E>(d: Dispatch<S, C, E>, w: World<S, E>, c: Call<S, E>) {
    && c.key.KSubscriber? && PathOk(c.key.path) && ResultAt(w, c.key.path).Some? && EnvsAt(w, c.key.path).Some?
    && IsRange(EnvsAt(w, c.key.path).value, ResultAt(w, c.key.path).value)
    && (exists i: nat | IsFor(d, i, EnvsAt(w, c.key.path).value) ::
          d.subs[i].name == c.key.name && c.envs == Kept(d.subs[i].filter, EnvsAt(w, c.key.path).value))
    && Aligned(d.rt, c.envs, c.events)
    && StateAt(d, w, c.key.path) == Some(c.state) && StateSeen(d, w.db, ResultAt(w, c.key.path).value, c.state)
  }

  lemma CallAligned<S, C, E>(d: Dispatch<S, C, E>, w: World<S, E>, c: Call<S, E>, i: nat)
    requires CallOf(d, w, c, i)
    ensures Aligned(d.rt, c.envs, c.events)
  {
    var envs := EnvsAt(w, c.key.path).value;
    DecodedAt(d.rt, envs);
    KeptAligned(d.rt, d.subs[i].filter, envs, DecodeAll(d.rt, envs).value);
  }

  lemma CallIsSound<S, C, E>(d: Dispatch<S, C, E>, w: World<S, E>, c: Call<S, E>, i: nat)
    requires Contiguous(w.db.events) && PathJournal(d, w, c.key.path) && CallOf(d, w, c, i)
    ensures CallSound(d, w, c)
  {
    CallAligned(d, w, c, i);
    MatchingIff(d, i, EnvsAt(w, c.key.path).value);
    WindowIsRange(d, w.db, ResultAt(w, c.key.path).value);
    assert d.subs[i].name == c.key.name && c.envs == Kept(d.subs[i].filter, EnvsAt(w, c.key.path).value);
  }

  lemma CallsAreSound<S(!new), C, E(!new)>(d: Dispatch<S, C, E>, db0: Db, steps: seq<BusStep>, c: Call<S, E>)
    requires RunOk(d, db0, steps) && c in Bus.Reached(d, db0, steps).w.calls
    ensures CallSound(d, Bus.Reached(d, db0, steps).w, c)
  {
    ReachedOk(d, db0, steps);
    var w := Bus.Reached(d, db0, steps).w;
    assert CallOk(d, w, c);
    var i :| CallOf(d, w, c, i);
    CallIsSound(d, w, c, i);
  }

  // ---------------------------------------------------------------- settlement

  /** The last Handle call of a subscriber step. */
  function LastTry(attempts: seq<Option<string>>): Option<string>
    requires attempts != []
  {
    attempts[|attempts| - 1]
  }

  /** The subscriber succeeded within its budget, or used the budget up and its policy was completed. */
  ghost predicate Settlement<S, C, E>(d: Dispatch<S, C, E>, w: World<S, E>, path: Path, i: nat, envs: seq<Envelope>)
    requires i in Matching(d, envs)
  {
    var k := SubKey(d, path, i, envs);
    && k in w.attempts && ValidAttempts(d.subs[i].maxRetries, w.attempts[k])
    && (LastTry(w.attempts[k]).None? || PolicyDone(d, w, path, i, envs))
  }

  /** The budget was used up by an error whose text is empty. */
  predicate EmptyError<S, C, E>(d: Dispatch<S, C, E>, w: World<S, E>, path: Path, i: nat, envs: seq<Envelope>)
    requires i in Matching(d, envs)
  {
    var k := SubKey(d, path, i, envs);
    k in w.attempts && w.attempts[k] != [] && LastTry(w.attempts[k]) == Some("")
  }

  lemma SettledFacts<S, C, E>(d: Dispatch<S, C, E>, w: World<S, E>, path: Path, i: nat, envs: seq<Envelope>)
    requires SubsOk(d) && WorldOk(d, w) && PathOk(path) && EnvsAt(w, path) == Some(envs) && i in Matching(d, envs)
    requires SubSettled(d, w, path, i, envs)
    ensures Settlement(d, w, path, i, envs) || EmptyError(d, w, path, i, envs)
    ensures Settlement(d, w, path, i, envs) <==> !EmptyError(d, w, path, i, envs) || d.subs[i].policy == Drop
  {
    hide PathsOk, RowsTell, CommitsOk, CallsOk, Complete;
    var k := SubKey(d, path, i, envs);
    BatchKeys(d, w, path, i, envs);
    assert SubEntry(d, w, k);
    var j :| 0 <= j < |d.subs| && d.subs[j].name == k.name && ValidAttempts(d.subs[j].maxRetries, w.attempts[k]);
    assert i == j;
    var dk := DlqKey(d, path, i, envs);
    assert Get(w, dk).Some? ==> ErrorBehind(w, dk);
    var nested := NestedPath(d, path, i, envs);
    assert nested[..|nested| - 1] == path;
    assert nested in w.done ==> TextBehind(w, nested);
  }

  /** Of every path that returned nil with a committed batch: */
  ghost predicate ReturnedSettled<S, C, E>(d: Dispatch<S, C, E>, w: World<S, E>, path: Path) {
    && Get(w, KAppend(path)).Some?
    && (ResultAt(w, path).Some? ==>
          && EnvsAt(w, path).Some? && IsRange(EnvsAt(w, path).value, ResultAt(w, path).value)
          && StateAt(d, w, path).Some? && StateSeen(d, w.db, ResultAt(w, path).value, StateAt(d, w, path).value)
          && forall i: nat | IsFor(d, i, EnvsAt(w, path).value) ::
               && i in Matching(d, EnvsAt(w, path).value)
               && (Settlement(d, w, path, i, EnvsAt(w, path).value) || EmptyError(d, w, path, i, EnvsAt(w, path).value)))
  }

  lemma DoneIsSettled<S, C, E>(d: Dispatch<S, C, E>, w: World<S, E>, path: Path)
    requires SubsOk(d) && WorldOk(d, w) && path in w.done
    ensures ReturnedSettled(d, w, path)
  {
    assert PathOk(path) && Complete(d, w, path) && PathJournal(d, w, path);
    if ResultAt(w, path).Some? {
      var envs := EnvsAt(w, path).value;
      WindowIsRange(d, w.db, ResultAt(w, path).value);
      forall i: nat | IsFor(d, i, envs)
        ensures i in Matching(d, envs) && (Settlement(d, w, path, i, envs) || EmptyError(d, w, path, i, envs))
      {
        MatchingIff(d, i, envs);
        SettledFacts(d, w, path, i, envs);
      }
    }
  }

  /** When HandleCmd returns nil, its fan-out batch is exactly the committed version range even if others
      committed in between, its state is the fold at a version that includes it, and every matching Sync
      subscriber is settled, unless it ran out of attempts with an empty error text. The same holds of every
      compensation that was completed on the way. */
  lemma ReturnIsSettled<S(!new), C, E(!new)>(d: Dispatch<S, C, E>, db0: Db, steps: seq<BusStep>)
    requires RunOk(d, db0, steps)
    ensures var s := Bus.Reached(d, db0, steps);
            && (s.ctl.Returned? ==> ReturnedSettled(d, s.w, []))
            && (forall path | path in s.w.done :: ReturnedSettled(d, s.w, path))
  {
    ReachedOk(d, db0, steps);
    var s := Bus.Reached(d, db0, steps);
    forall path | path in s.w.done ensures ReturnedSettled(d, s.w, path) {
      DoneIsSettled(d, s.w, path);
    }
  }

  /** The exception is exact: a subscriber is settled if and only if it did not run out of attempts with an empty
      error text, or its policy is to drop. With an empty text nothing is dead-lettered and nothing compensated. */
  lemma EmptyErrorIsLost<S(!new), C, E(!new)>(d: Dispatch<S, C, E>, db0: Db, steps: seq<BusStep>, path: Path, i: nat)
    requires RunOk(d, db0, steps)
    requires var w := Bus.Reached(d, db0, steps).w;
             path in w.done && EnvsAt(w, path).Some? && i in Matching(d, EnvsAt(w, path).value)
    ensures var w := Bus.Reached(d, db0, steps).w;
            Settlement(d, w, path, i, EnvsAt(w, path).value) <==>
            !EmptyError(d, w, path, i, EnvsAt(w, path).value) || d.subs[i].policy == Drop
  {
    ReachedOk(d, db0, steps);
    var w := Bus.Reached(d, db0, steps).w;
    assert PathOk(path) && Complete(d, w, path) && PathJournal(d, w, path);
    SettledFacts(d, w, path, i, EnvsAt(w, path).value);
  }
}
