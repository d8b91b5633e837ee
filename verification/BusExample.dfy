/** Dispatches whose only subscriber uses up its budget: with an error text and a dead-letter queue, with an error
    text and no queue, and with an error of empty text, where HandleCmd returns nil and the subscriber is neither
    dead-lettered nor compensated (cmdworkflow/bus.go). */
module BusExample {
  import opened Basics
  import opened StreamIds
  import opened Store
  import opened Aggregate
  import opened BusNames
  import opened Bus
  import opened BusInvariant
  import opened BusTheorems

  datatype One = One

  function Id(): string { seq(UUID_LENGTH, i => '0') }

  lemma IdOk()
    ensures UuidLike(Id()) && ColonFree(Id()) && ColonFree("n")
  {
  }

  const SID := StreamId("t", "a", "b")
  const NOBODY := Actor(0, "", "", "", map[])

  /** One kind of event, and every command appends one. */
  function OneRuntime(): Runtime<One, One, One> {
    Runtime(One, (s: One, c: One) => Accept([One], []), (s: One, e: One) => One, (s: One) => false,
            Codec((e: One) => Some(Encoded("e", 1, [])), (x: Encoded) => Some(One)),
            Some(StateCodec((s: One) => Some(EncodedState([], "s")), (b: Bytes) => Some(One))), 1)
  }

  function OneChain(): ChainFns { ChainFns((b: Bytes) => ZERO_HASH, (x: Wire) => Some([])) }

  function OneSubscriber(policy: Policy): Subscriber<One, One, One> {
    Subscriber("n", (e: Envelope) => true, Sync, 0, policy, (envs: seq<Envelope>, s: One, events: seq<One>) => Some(One))
  }

  function OneDispatch(c: Case): Dispatch<One, One, One> {
    Dispatch(OneRuntime(), OneChain(), SID, One, [OneSubscriber(c.policy)], c.wired)
  }

  /** The policy of the subscriber, whether a dead-letter queue is wired, and the error of its one attempt. */
  datatype Case = Case(policy: Policy, wired: bool, text: string)

  function OneMeta(): Meta { Meta((n: nat) => Id(), 0, "", "", "", NOBODY) }

  function OneInput(c: Case): Input { Input(OneMeta(), 0, [Some(c.text)], true) }

  function Steps(c: Case, n: nat): seq<BusStep> {
    if n == 0 then [] else Steps(c, n - 1) + [BusStep.Advance(OneInput(c))]
  }

  lemma {:induction false} StepsAre(c: Case, n: nat)
    ensures |Steps(c, n)| == n && forall s | s in Steps(c, n) :: s == BusStep.Advance(OneInput(c))
  {
    if n > 0 {
      StepsAre(c, n - 1);
    }
  }

  lemma Stepped(c: Case, n: nat)
    ensures Bus.Reached(OneDispatch(c), EMPTY_DB, Steps(c, n + 1))
         == Move(OneDispatch(c), Bus.Reached(OneDispatch(c), EMPTY_DB, Steps(c, n)), OneInput(c))
  {
    hide Move;
    StepsAre(c, n);
    assert Steps(c, n + 1)[..n] == Steps(c, n);
  }

  lemma ExampleOk(c: Case, n: nat)
    ensures RunOk(OneDispatch(c), EMPTY_DB, Steps(c, n))
  {
    var d := OneDispatch(c);
    assert forall sid: StreamId :: StreamLog(EMPTY_DB.events, sid) == [];
    assert CodecRoundTrips(d.rt) by {
      forall e: One ensures d.rt.codec.decode(d.rt.codec.encode(e).value) == Some(e) {
        assert e == One;
      }
    }
    assert StateCodecRoundTrips(d.rt) by {
      forall s: One ensures d.rt.stateCodec.value.decode(d.rt.stateCodec.value.encode(s).value.bytes) == Some(s) {
        assert s == One;
      }
    }
    IdOk();
    assert InputOk(OneInput(c));
    StepsAre(c, n);
    forall i | 0 <= i < |Steps(c, n)| ensures StepOk(Steps(c, n)[i]) {
      assert Steps(c, n)[i] in Steps(c, n);
    }
  }

  // ---------------------------------------------------------------- the states of the run

  function Row(): Envelope {
    Envelope(Hashed(Id(), SID, 1, Content("e", 1, 0, "", "", "", NOBODY, [], [])), 1, ZERO_HASH, ZERO_HASH)
  }

  function OneDb(): Db {
    Db([Row()], [OutboxRowFor(Row())], map[], map[SID := CacheRow("s", [], 1, false, 1)])
  }

  const RESULT := AppendResult(1, 1, 1, 1)

  lemma Appends(c: Case)
    ensures var d := OneDispatch(c);
            Handle(d.rt, d.ch, EMPTY_DB, SID, One, OneMeta()) == (OneDb(), Committed(RESULT))
  {
    var rt := OneRuntime();
    assert Load(rt, EMPTY_DB, SID) == Some(Loaded(One, 0));
    var ne := NewEventFor(OneMeta(), 0, Encoded("e", 1, []));
    assert [One][..0] == [];
    assert EncodeEvents(rt, OneMeta(), [One]) == Some([ne]) by {
      assert EncodeEvents(rt, OneMeta(), [One][..0]) == Some([]);
      assert [] + [ne] == [ne];
    }
    var p := AppendParams(SID, 0, [ne], [], Some(NewState([], "s", 1, false)));
    assert PlanAppend(rt, SID, One, OneMeta(), Loaded(One, 0)) == Plan.Submit(p);
    assert Validate(SID).None?;
    assert InsertEvents(OneChain(), [], [], p, 0, ZERO_HASH) == Inserted([Row()], [OutboxRowFor(Row())]) by {
      assert HashedAt(p, 0) == Row().hashed;
      assert [] + [Row()] == [Row()] && [] + [OutboxRowFor(Row())] == [OutboxRowFor(Row())];
      assert InsertEvents(OneChain(), [Row()], [OutboxRowFor(Row())], p, 1, ZERO_HASH) == Inserted([Row()], [OutboxRowFor(Row())]);
    }
  }

  function Sub(): Key { KSubscriber([], "n", Id()) }

  /** The journal holds exactly these entries, nothing is dead-lettered and no call has returned. */
  ghost predicate Holds(w: World<One, One>, entries: map<Key, JVal>, db: Db) {
    && (forall k | KeyOk(k) :: Get(w, k) == if k in entries then Some(entries[k]) else None)
    && w.rows == [] && w.done == {} && w.db == db
  }

  lemma HoldsMore(w: World<One, One>, entries: map<Key, JVal>, db: Db, a: Key, v: JVal)
    requires Holds(w, entries, db) && KeyOk(a)
    ensures Holds(Put(w, a, v), entries[a := v], db)
  {
    hide Name;
    var w' := Put(w, a, v);
    forall k | KeyOk(k) ensures Get(w', k) == if k in entries[a := v] then Some(entries[a := v][k]) else None {
      PutGet(w, a, v, k);
    }
  }

  function At(phase: Phase<One>): Control<One, One> { Running([Frame([], One, phase)]) }

  lemma AtTop(phase: Phase<One>, next: Phase<One>)
    ensures At(phase).Running? && At(phase).stack != [] && Top(At(phase).stack) == Frame([], One, phase)
    ensures Running(WithTop(At(phase).stack, next)) == At(next)
  {
  }

  lemma AppendMove(c: Case, s: BusSys<One, One, One>)
    requires s.ctl == At(AtAppend) && Holds(s.w, map[], EMPTY_DB)
    ensures var s' := Move(OneDispatch(c), s, OneInput(c));
            s'.ctl == At(AtEnvelopes(RESULT)) && Holds(s'.w, map[KAppend([]) := JAppend(Some(RESULT))], OneDb())
  {
    hide Handle, Holds, Put, OneDb, WithTop, At, Get;
    AtTop(AtAppend, AtEnvelopes(RESULT));
    Appends(c);
    var k, v := KAppend([]), JAppend(Some(RESULT));
    HoldsMore(s.w, map[], EMPTY_DB, k, v);
    var w1 := Put(s.w, k, v);
    HoldsCommit(w1, map[][k := v], EMPTY_DB, OneDb(), s.w.commits + [[]]);
    HoldsGet(s.w, map[], EMPTY_DB, k);
    HoldsGet(w1.(db := OneDb(), commits := s.w.commits + [[]]), map[][k := v], OneDb(), k);
  }

  lemma HoldsGet(w: World<One, One>, entries: map<Key, JVal>, db: Db, k: Key)
    requires Holds(w, entries, db) && KeyOk(k)
    ensures Get(w, k) == if k in entries then Some(entries[k]) else None
    ensures w.db == db
  {
  }

  lemma HoldsCommit(w: World<One, One>, entries: map<Key, JVal>, db: Db, db': Db, commits: seq<Path>)
    requires Holds(w, entries, db)
    ensures Holds(w.(db := db', commits := commits), entries, db')
  {
    hide Name;
    var w' := w.(db := db', commits := commits);
    forall k | KeyOk(k) ensures Get(w', k) == Get(w, k) {
    }
  }

  const APPENDED := map[KAppend([]) := JAppend(Some(RESULT))]

  function Batch(): seq<Envelope> { [Row()] }

  lemma RowFacts()
    ensures Row().hashed.sid == SID && Row().hashed.version == 1 && Row().hashed.eventId == Id()
  {
  }

  lemma StoreReads()
    ensures ReadBack(OneDb(), SID, RESULT) == Batch() && Load(OneRuntime(), OneDb(), SID) == Some(Loaded(One, 1))
  {
    hide Row, Canonical, Id, OutboxRowFor;
    RowFacts();
    assert Batch()[..0] == [] && [] + [Row()] == Batch();
    assert StreamLog(OneDb().events, SID) == Batch() && SortByVersion(Batch()) == Batch();
    assert AfterVersion(Batch(), 0) == Batch() && AfterVersion(Batch(), 1) == [];
  }

  lemma Decodes()
    ensures DecodeAll(OneRuntime(), Batch()) == Some([One])
  {
    hide Row;
    assert Batch()[..0] == [] && DecodeAll(OneRuntime(), Batch()[..0]) == Some([]) && [] + [One] == [One];
  }

  lemma Matches(c: Case)
    ensures Matching(OneDispatch(c), Batch()) == {0} && SubKey(OneDispatch(c), [], 0, Batch()) == Sub()
  {
    hide Row, Id, Kept, OneRuntime, OneChain;
    RowFacts();
    KeptSame(c);
  }

  lemma KeptSame(c: Case)
    ensures Kept(OneSubscriber(c.policy).filter, Batch()) == Batch()
  {
    hide Row;
    assert Batch()[..0] == [] && Kept(OneSubscriber(c.policy).filter, Batch()[..0]) == [];
  }

  lemma BatchReads(c: Case)
    ensures var d := OneDispatch(c);
            && ReadBack(OneDb(), SID, RESULT) == Batch() && Load(d.rt, OneDb(), SID) == Some(Loaded(One, 1))
            && DecodeAll(d.rt, Batch()) == Some([One])
            && Matching(d, Batch()) == {0} && SubKey(d, [], 0, Batch()) == Sub()
  {
    hide Row, Id, Batch, OneRuntime, OneChain, OneSubscriber, Matching, SubKey, ReadBack, Load, DecodeAll, OneDb, Sub;
    StoreReads();
    Decodes();
    Matches(c);
  }

  function Read(): map<Key, JVal> { APPENDED[KEnvelopes([]) := JEnvelopes(Batch())] }

  /** A read-envelopes step that finds nothing journaled. */
  lemma EnvelopesStep<S, C, E>(d: Dispatch<S, C, E>, s: BusSys<S, C, E>, r: AppendResult, envs: seq<Envelope>, input: Input)
    requires s.ctl.Running? && s.ctl.stack != [] && Top(s.ctl.stack).path == [] && Top(s.ctl.stack).phase == AtEnvelopes(r)
    requires Get(s.w, KEnvelopes([])).None? && ReadBack(s.w.db, d.sid, r) == envs
    requires Get(Put(s.w, KEnvelopes([]), JEnvelopes(envs)), KEnvelopes([])) == Some(JEnvelopes(envs))
    ensures var s' := Move(d, s, input);
            && s'.w == Put(s.w, KEnvelopes([]), JEnvelopes(envs))
            && s'.ctl == Running(WithTop(s.ctl.stack, AtState(r, envs)))
  {
    hide Get, Put, ReadBack, WithTop, MoveFanOut, MovePolicies, MoveAppend, MoveState;
    assert RunEnvelopes(d, s.w, [], r) == Put(s.w, KEnvelopes([]), JEnvelopes(envs));
  }

  lemma EnvelopesMove(c: Case, s: BusSys<One, One, One>)
    requires s.ctl == At(AtEnvelopes(RESULT)) && Holds(s.w, APPENDED, OneDb())
    ensures var s' := Move(OneDispatch(c), s, OneInput(c));
            s'.ctl == At(AtState(RESULT, Batch())) && Holds(s'.w, Read(), OneDb())
  {
    hide Holds, Put, OneDb, WithTop, At, Get, ReadBack, Load, Batch, DecodeAll, Move, Row, Id, Matching, Name, SubKey;
    AtTop(AtEnvelopes(RESULT), AtState(RESULT, Batch()));
    BatchReads(c);
    var k, v := KEnvelopes([]), JEnvelopes(Batch());
    HoldsMore(s.w, APPENDED, OneDb(), k, v);
    HoldsGet(s.w, APPENDED, OneDb(), k);
    HoldsGet(Put(s.w, k, v), Read(), OneDb(), k);
    EnvelopesStep(OneDispatch(c), s, RESULT, Batch(), OneInput(c));
  }

  function Loaded0(): map<Key, JVal> { Read()[KState([]) := JState([])] }

  /** A read-state step that finds nothing journaled. */
  lemma StateStep<S, C, E>(d: Dispatch<S, C, E>, s: BusSys<S, C, E>, r: AppendResult, envs: seq<Envelope>, l: Loaded<S>,
                           es: EncodedState, input: Input)
    requires s.ctl.Running? && s.ctl.stack != [] && Top(s.ctl.stack).path == [] && Top(s.ctl.stack).phase == AtState(r, envs)
    requires Get(s.w, KState([])).None? && Load(d.rt, s.w.db, d.sid) == Some(l) && DecodeAll(d.rt, envs).Some?
    requires d.rt.stateCodec.Some? && d.rt.stateCodec.value.encode(l.state) == Some(es)
    requires d.rt.stateCodec.value.decode(es.bytes) == Some(l.state)
    requires Get(Put(s.w, KState([]), JState(es.bytes)), KState([])) == Some(JState(es.bytes))
    ensures var s' := Move(d, s, input);
            && s'.w == Put(s.w, KState([]), JState(es.bytes))
            && s'.ctl == Running(WithTop(s.ctl.stack, AtFanOut(r, envs, l.state, map[])))
  {
    hide Get, Put, Load, DecodeAll, WithTop, MoveFanOut, MovePolicies, MoveAppend, MoveEnvelopes;
    assert RunState(d, s.w, []) == Some(Put(s.w, KState([]), JState(es.bytes)));
    assert DecodeState(d.rt, es.bytes) == Some(l.state);
  }

  lemma StateMove(c: Case, s: BusSys<One, One, One>)
    requires s.ctl == At(AtState(RESULT, Batch())) && Holds(s.w, Read(), OneDb())
    ensures var s' := Move(OneDispatch(c), s, OneInput(c));
            s'.ctl == At(AtFanOut(RESULT, Batch(), One, map[])) && Holds(s'.w, Loaded0(), OneDb())
  {
    hide Holds, Put, OneDb, WithTop, At, Get, Load, Batch, DecodeAll, Move, Row, Id, Matching, Name, SubKey;
    AtTop(AtState(RESULT, Batch()), AtFanOut(RESULT, Batch(), One, map[]));
    BatchReads(c);
    var k, v := KState([]), JState([]);
    HoldsMore(s.w, Read(), OneDb(), k, v);
    HoldsGet(s.w, Read(), OneDb(), k);
    HoldsGet(Put(s.w, k, v), Loaded0(), OneDb(), k);
    StateStep(OneDispatch(c), s, RESULT, Batch(), Loaded(One, 1), EncodedState([], "s"), OneInput(c));
  }

  function Tried(c: Case): map<Key, JVal> { Loaded0()[Sub() := JSubscriber(c.text)] }

  ghost predicate AfterTry(c: Case, w: World<One, One>) {
    Holds(w, Tried(c), OneDb()) && Sub() in w.attempts && w.attempts[Sub()] == [Some(c.text)]
  }

  lemma TryIsNew(c: Case)
    ensures KeyOk(Sub()) && Sub() !in Loaded0() && Loaded0()[Sub() := JSubscriber(c.text)] == Tried(c)
    ensures Sub() in Tried(c) && Tried(c)[Sub()] == JSubscriber(c.text)
  {
    hide Id, Batch, UuidLike;
    IdOk();
  }

  lemma FirstRun<S, C, E>(d: Dispatch<S, C, E>, w: World<S, E>, i: nat, envs: seq<Envelope>, state: S,
                          attempts: seq<Option<string>>, k: Key)
    requires i in Matching(d, envs) && DecodeAll(d.rt, envs).Some? && attempts != []
    requires SubKey(d, [], i, envs) == k && Get(w, k).None?
    ensures RunSubscriber(d, w, [], i, envs, state, attempts)
         == Put(w, k, JSubscriber(TextOf(attempts)))
              .(calls := w.calls + [CallFor(d, [], i, envs, state)], attempts := w.attempts[k := attempts])
  {
    hide Matching, DecodeAll, SubKey, Get, Put, TextOf, CallFor;
  }

  lemma SubscriberRuns(c: Case, w: World<One, One>)
    requires Holds(w, Loaded0(), OneDb())
    ensures 0 in Matching(OneDispatch(c), Batch()) && DecodeAll(OneDispatch(c).rt, Batch()).Some?
    ensures var w' := RunSubscriber(OneDispatch(c), w, [], 0, Batch(), One, [Some(c.text)]);
            AfterTry(c, w') && Get(w', Sub()) == Some(JSubscriber(c.text))
  {
    hide Holds, Put, OneDb, Get, Batch, DecodeAll, Matching, SubKey, CallFor, OneDispatch, Tried, Loaded0, Name, Sub, RunSubscriber;
    var d := OneDispatch(c);
    BatchReads(c);
    var k, v := Sub(), JSubscriber(c.text);
    TryIsNew(c);
    HoldsGet(w, Loaded0(), OneDb(), k);
    FirstRun(d, w, 0, Batch(), One, [Some(c.text)], k);
    HoldsMore(w, Loaded0(), OneDb(), k, v);
    var w' := RunSubscriber(d, w, [], 0, Batch(), One, [Some(c.text)]);
    HoldsCalls(Put(w, k, v), Tried(c), w'.calls, w'.attempts);
    HoldsGet(w', Tried(c), OneDb(), k);
  }

  /** One subscriber step of a fan-out that journals this text. */
  lemma FanOutStep<S, C, E>(d: Dispatch<S, C, E>, s: BusSys<S, C, E>, stack: seq<Frame<S, C>>, p: Phase<S>, input: Input, text: string)
    requires stack != [] && p.AtFanOut? && Top(stack).path == [] && p.settled == map[]
    requires input.sub in Matching(d, p.envs) && DecodeAll(d.rt, p.envs).Some?
    requires ValidAttempts(d.subs[input.sub].maxRetries, input.attempts)
    requires Get(RunSubscriber(d, s.w, [], input.sub, p.envs, p.state, input.attempts), SubKey(d, [], input.sub, p.envs))
          == Some(JSubscriber(text))
    ensures var s' := MoveFanOut(d, s, stack, p, input);
            && s'.ctl == Running(WithTop(stack, AtFanOut(p.result, p.envs, p.state, map[input.sub := text])))
            && s'.w == RunSubscriber(d, s.w, [], input.sub, p.envs, p.state, input.attempts)
  {
    hide Matching, DecodeAll, SubKey, Get, RunSubscriber, ValidAttempts, WithTop;
    assert p.settled[input.sub := text] == map[input.sub := text];
  }

  lemma SubscriberMove(c: Case, s: BusSys<One, One, One>)
    requires s.ctl == At(AtFanOut(RESULT, Batch(), One, map[])) && Holds(s.w, Loaded0(), OneDb())
    ensures var s' := Move(OneDispatch(c), s, OneInput(c));
            s'.ctl == At(AtFanOut(RESULT, Batch(), One, map[0 := c.text])) && AfterTry(c, s'.w)
  {
    hide Holds, AfterTry, OneDb, WithTop, At, Get, Batch, DecodeAll, Matching, RunSubscriber, SubKey, Loaded0, Sub, Id, MoveFanOut;
    var d := OneDispatch(c);
    var p := AtFanOut(RESULT, Batch(), One, map[]);
    AtTop(p, AtFanOut(RESULT, Batch(), One, map[0 := c.text]));
    BatchReads(c);
    SubscriberRuns(c, s.w);
    FanOutStep(d, s, s.ctl.stack, p, OneInput(c), c.text);
    MoveAtFanOut(d, s, OneInput(c));
  }

  lemma MoveAtFanOut<S, C, E>(d: Dispatch<S, C, E>, s: BusSys<S, C, E>, input: Input)
    requires s.ctl.Running? && s.ctl.stack != [] && Top(s.ctl.stack).phase.AtFanOut?
    ensures Move(d, s, input) == MoveFanOut(d, s, s.ctl.stack, Top(s.ctl.stack).phase, input)
  {
    hide MoveFanOut;
  }

  lemma HoldsCalls(w: World<One, One>, entries: map<Key, JVal>, calls: seq<Call<One, One>>, attempts: map<Key, seq<Option<string>>>)
    requires Holds(w, entries, OneDb())
    ensures Holds(w.(calls := calls, attempts := attempts), entries, OneDb())
  {
    hide Name;
    var w' := w.(calls := calls, attempts := attempts);
    forall k | KeyOk(k) ensures Get(w', k) == Get(w, k) {
    }
  }

  function Over(c: Case, next: nat): Phase<One> { AtPolicies(RESULT, Batch(), One, map[0 := c.text], next) }

  lemma FannedOut(c: Case, s: BusSys<One, One, One>)
    requires s.ctl == At(AtFanOut(RESULT, Batch(), One, map[0 := c.text]))
    ensures Move(OneDispatch(c), s, OneInput(c)) == s.(ctl := At(Over(c, 0)))
  {
    hide OneDb, WithTop, At, Batch, Matching, RunSubscriber, MovePolicies, MoveAppend, MoveState, MoveEnvelopes, Row;
    hide Id, SubKey, DecodeAll, Get, Load, ReadBack, Name;
    var p := AtFanOut(RESULT, Batch(), One, map[0 := c.text]);
    BatchReads(c);
    AtTop(p, Over(c, 0));
    assert Move(OneDispatch(c), s, OneInput(c)) == MoveFanOut(OneDispatch(c), s, s.ctl.stack, p, OneInput(c));
  }

  lemma NoPolicy(c: Case, s: BusSys<One, One, One>)
    requires s.ctl == At(Over(c, 0)) && c.text == ""
    ensures Move(OneDispatch(c), s, OneInput(c)) == s.(ctl := At(Over(c, 1)))
  {
    hide OneDb, WithTop, At, Batch, Matching, MoveFanOut, MoveAppend, MoveState, MoveDeadLetter, Finish;
    AtTop(Over(c, 0), Over(c, 1));
    assert Move(OneDispatch(c), s, OneInput(c)) == MovePolicies(OneDispatch(c), s, s.ctl.stack, Over(c, 0), OneInput(c));
    assert !Exhausted(OneDispatch(c), Over(c, 0), 0);
  }

  lemma Returns(c: Case, s: BusSys<One, One, One>)
    requires s.ctl == At(Over(c, 1)) && (c.text == "" || c.policy != Compensate)
    ensures Move(OneDispatch(c), s, OneInput(c)) == s.(w := s.w.(done := s.w.done + {[]}), ctl := Returned)
  {
    hide OneDb, WithTop, Batch, Matching, MoveFanOut, MoveAppend, MoveState, MoveDeadLetter;
    AtTop(Over(c, 1), Over(c, 1));
    assert Move(OneDispatch(c), s, OneInput(c)) == MovePolicies(OneDispatch(c), s, s.ctl.stack, Over(c, 1), OneInput(c));
    assert !Mutated(OneDispatch(c), Over(c, 1));
  }

  // ---------------------------------------------------------------- the failing run

  lemma ReachesTry(c: Case)
    ensures var s := Bus.Reached(OneDispatch(c), EMPTY_DB, Steps(c, 4));
            s.ctl == At(AtFanOut(RESULT, Batch(), One, map[0 := c.text])) && AfterTry(c, s.w)
  {
    hide Move, Holds, AfterTry, At, Batch;
    var d := OneDispatch(c);
    Starts(c);
    Stepped(c, 0);
    AppendMove(c, Bus.Reached(d, EMPTY_DB, Steps(c, 0)));
    Stepped(c, 1);
    EnvelopesMove(c, Bus.Reached(d, EMPTY_DB, Steps(c, 1)));
    Stepped(c, 2);
    StateMove(c, Bus.Reached(d, EMPTY_DB, Steps(c, 2)));
    Stepped(c, 3);
    SubscriberMove(c, Bus.Reached(d, EMPTY_DB, Steps(c, 3)));
  }

  lemma Starts(c: Case)
    ensures var s := Bus.Reached(OneDispatch(c), EMPTY_DB, Steps(c, 0)); s.ctl == At(AtAppend) && Holds(s.w, map[], EMPTY_DB)
  {
  }

  /** HandleCmd returns nil although its subscriber used up its budget, the error text was empty, and there is
      neither a dead letter nor a compensation for it. */
  lemma EmptyErrorIsReached(c: Case)
    requires c.text == "" && c.policy != Drop
    ensures var d, s := OneDispatch(c), Bus.Reached(OneDispatch(c), EMPTY_DB, Steps(c, 7));
            && RunOk(d, EMPTY_DB, Steps(c, 7)) && s.ctl.Returned? && s.w.rows == [] && s.w.done == {[]}
            && EnvsAt(s.w, []).Some? && 0 in Matching(d, EnvsAt(s.w, []).value)
            && EmptyError(d, s.w, [], 0, EnvsAt(s.w, []).value) && !Settlement(d, s.w, [], 0, EnvsAt(s.w, []).value)
  {
    hide Move, At, Batch, Settlement, Matching, RunOk, Over;
    var d := OneDispatch(c);
    ReachesTry(c);
    ExampleOk(c, 7);
    var s4 := Bus.Reached(d, EMPTY_DB, Steps(c, 4));
    Stepped(c, 4);
    FannedOut(c, s4);
    Stepped(c, 5);
    NoPolicy(c, s4.(ctl := At(Over(c, 0))));
    Stepped(c, 6);
    Returns(c, s4.(ctl := At(Over(c, 1))));
    EndState(c, s4.w);
    EmptyErrorIsLost(d, EMPTY_DB, Steps(c, 7), [], 0);
  }

  lemma EndState(c: Case, w: World<One, One>)
    requires AfterTry(c, w) && c.text == ""
    ensures var w' := w.(done := w.done + {[]});
            && w'.rows == [] && w'.done == {[]} && EnvsAt(w', []) == Some(Batch()) && 0 in Matching(OneDispatch(c), Batch())
            && EmptyError(OneDispatch(c), w', [], 0, Batch())
  {
    hide Matching, Batch, OneDb, Id, Row, DecodeAll, Load, ReadBack, Name;
    BatchReads(c);
    HoldsGet(w, Tried(c), OneDb(), KEnvelopes([]));
  }

  // ---------------------------------------------------------------- with an error text

  function Letter(c: Case): DlqRow { DlqRow(KDeadLetter([], "n", Id()), "n", SID, [Id()], ["e"], c.text, 1) }

  lemma LetterIs(c: Case)
    ensures 0 in Matching(OneDispatch(c), Batch())
    ensures DlqKey(OneDispatch(c), [], 0, Batch()) == Letter(c).key && RowFor(OneDispatch(c), [], 0, Batch(), c.text) == Letter(c)
    ensures KeyOk(Letter(c).key) && Letter(c).key !in Tried(c)
  {
    hide Id, OneRuntime, OneChain, UuidLike;
    IdOk();
    BatchReads(c);
    KeptSame(c);
  }

  lemma PoliciesMove<S, C, E>(d: Dispatch<S, C, E>, s: BusSys<S, C, E>, input: Input)
    requires s.ctl.Running? && s.ctl.stack != [] && Top(s.ctl.stack).phase.AtPolicies?
    ensures Move(d, s, input) == MovePolicies(d, s, s.ctl.stack, Top(s.ctl.stack).phase, input)
  {
    hide MovePolicies;
  }

  /** The policy move of an exhausted subscriber whose policy is to dead-letter. */
  lemma LetterMove<S, C, E>(d: Dispatch<S, C, E>, s: BusSys<S, C, E>, stack: seq<Frame<S, C>>, p: Phase<S>, input: Input)
    requires stack != [] && p.AtPolicies? && p.next < |d.subs| && d.subs[p.next].policy == DeadLetter && Exhausted(d, p, p.next)
    requires input.writes && Get(s.w, DlqKey(d, Top(stack).path, p.next, p.envs)).None?
    ensures var s' := MovePolicies(d, s, stack, p, input);
            if !d.dlqWired then s' == s.(ctl := Failed)
            else
              && s'.ctl == Running(WithTop(stack, p.(next := p.next + 1))) && s'.w.done == s.w.done
              && s'.w.rows == s.w.rows + [RowFor(d, Top(stack).path, p.next, p.envs, p.settled[p.next])]
  {
    hide Matching, Get, DlqKey, RowFor, WithTop, Finish, Mutated, Load, DecodeAll;
  }

  lemma DeadLetterMoves(c: Case, s: BusSys<One, One, One>)
    requires s.ctl == At(Over(c, 0)) && AfterTry(c, s.w) && c.text != "" && c.policy == DeadLetter
    ensures var s' := Move(OneDispatch(c), s, OneInput(c));
            if c.wired then s'.ctl == At(Over(c, 1)) && s'.w.rows == [Letter(c)] && s'.w.done == {}
            else s'.ctl == Failed && s'.w.rows == []
  {
    hide OneDb, WithTop, At, Batch, Matching, MovePolicies, Finish, DlqKey, RowFor, Letter, Tried, Move, Get;
    hide Name, Id, OneRuntime, OneChain;
    var d := OneDispatch(c);
    AtTop(Over(c, 0), Over(c, 1));
    BatchReads(c);
    LetterIs(c);
    HoldsGet(s.w, Tried(c), OneDb(), Letter(c).key);
    PoliciesMove(d, s, OneInput(c));
    assert Exhausted(d, Over(c, 0), 0);
    LetterMove(d, s, s.ctl.stack, Over(c, 0), OneInput(c));
    assert [] + [Letter(c)] == [Letter(c)];
  }

  lemma ReachesPolicies(c: Case)
    ensures var s := Bus.Reached(OneDispatch(c), EMPTY_DB, Steps(c, 5)); s.ctl == At(Over(c, 0)) && AfterTry(c, s.w)
  {
    hide Move, At, Batch, Over, AfterTry;
    ReachesTry(c);
    Stepped(c, 4);
    FannedOut(c, Bus.Reached(OneDispatch(c), EMPTY_DB, Steps(c, 4)));
  }

  /** With a queue, HandleCmd returns nil and the subscriber's one dead letter tells its batch, error and budget.
      Without one it fails and nothing is written. */
  lemma DeadLetterIsWritten(c: Case)
    requires c.text != "" && c.policy == DeadLetter
    ensures RunOk(OneDispatch(c), EMPTY_DB, Steps(c, 7))
    ensures var s := Bus.Reached(OneDispatch(c), EMPTY_DB, Steps(c, 7));
            if c.wired then s.ctl == Returned && s.w.rows == [Letter(c)] && [] in s.w.done else s.ctl == Failed && s.w.rows == []
  {
    hide Move, At, Batch, Over, AfterTry, RunOk, Letter;
    var d := OneDispatch(c);
    ExampleOk(c, 7);
    ReachesPolicies(c);
    var s5, s6 := Bus.Reached(d, EMPTY_DB, Steps(c, 5)), Bus.Reached(d, EMPTY_DB, Steps(c, 6));
    Stepped(c, 5);
    DeadLetterMoves(c, s5);
    Stepped(c, 6);
    if c.wired {
      Returns(c, s6);
    } else {
      FailedStays(d, s6, OneInput(c));
    }
  }

  lemma FailedStays(d: Dispatch<One, One, One>, s: BusSys<One, One, One>, input: Input)
    requires s.ctl.Failed?
    ensures Move(d, s, input) == s
  {
  }
}
