/** The command bus on a journaling workflow runtime, as a machine with one move per journaled step
    (cmdworkflow/bus.go, cmdworkflow/subscriber.go, cmdworkflow/runtime.go). */
module Bus {
  import opened Basics
  import opened StreamIds
  import opened Store
  import opened Aggregate
  import opened Interleaving
  import opened InterleavingProofs
  import opened BusNames

  // ---------------------------------------------------------------- subscribers

  datatype Mode = Sync | Async

  datatype Policy = DeadLetter | Compensate | Drop

  /** filter stands for EventFilter.Matches and compensate for the Compensate function, both deterministic. */
  datatype Subscriber<!S, !C, !E> = Subscriber(
    name: string, filter: Envelope -> bool, mode: Mode, maxRetries: int, policy: Policy,
    compensate: (seq<Envelope>, S, seq<E>) -> Option<C>)

  /** One HandleCmd invocation: the command, its stream and the wired bus. */
  datatype Dispatch<!S, !C, !E> = Dispatch(
    rt: Runtime<S, C, E>, ch: ChainFns, sid: StreamId, cmd: C, subs: seq<Subscriber<S, C, E>>, dlqWired: bool)

  function Kept(keep: Envelope -> bool, envs: seq<Envelope>): seq<Envelope> {
    if envs == [] then []
    else Kept(keep, envs[..|envs| - 1]) + if keep(envs[|envs| - 1]) then [envs[|envs| - 1]] else []
  }

  /** The events at the kept positions. */
  function KeptEvents<E>(keep: Envelope -> bool, envs: seq<Envelope>, events: seq<E>): seq<E>
    requires |envs| == |events|
  {
    if envs == [] then []
    else
      var n := |envs| - 1;
      KeptEvents(keep, envs[..n], events[..n]) + if keep(envs[n]) then [events[n]] else []
  }

  function DecodeAll<S, C, E>(rt: Runtime<S, C, E>, envs: seq<Envelope>): (r: Option<seq<E>>)
    ensures r.Some? ==> |r.value| == |envs|
  {
    if envs == [] then Some([])
    else
      var n := |envs| - 1;
      match DecodeAll(rt, envs[..n])
      case None => None
      case Some(init) =>
        match rt.codec.decode(EncodedOf(envs[n].hashed.content))
        case None => None
        case Some(e) => Some(init + [e])
  }

  /** The Sync subscribers that some envelope of the batch is for. */
  function Matching<S, C, E>(d: Dispatch<S, C, E>, envs: seq<Envelope>): set<nat> {
    set i: nat | i < |d.subs| && d.subs[i].mode == Sync && Kept(d.subs[i].filter, envs) != []
  }

  function FirstId<S, C, E>(d: Dispatch<S, C, E>, i: nat, envs: seq<Envelope>): string
    requires i in Matching(d, envs)
  {
    Kept(d.subs[i].filter, envs)[0].hashed.eventId
  }

  /** The results of the Handle calls made for one batch: None is success, else the error text. */
  predicate ValidAttempts(maxRetries: int, attempts: seq<Option<string>>) {
    && attempts != []
    && (forall j | 0 <= j < |attempts| - 1 :: attempts[j].Some?)
    && (maxRetries >= 0 ==> |attempts| <= maxRetries + 1)
    && (attempts[|attempts| - 1].Some? ==> |attempts| == maxRetries + 1)
  }

  /** What travels back from the subscriber step: empty bytes are read as success. */
  function TextOf(attempts: seq<Option<string>>): string
    requires attempts != []
  {
    var last := attempts[|attempts| - 1];
    if last.Some? then last.value else ""
  }

  // ---------------------------------------------------------------- the world and the journal

  datatype JVal =
    | JAppend(result: Option<AppendResult>)
    | JEnvelopes(envs: seq<Envelope>)
    | JState(bytes: Bytes)
    | JSubscriber(text: string)
    | JDeadLetter

  datatype Call<S, E> = Call(key: Key, envs: seq<Envelope>, state: S, events: seq<E>)

  datatype DlqRow = DlqRow(key: Key, subscriber: string, stream: StreamId, eventIds: seq<string>,
                           typeUrls: seq<string>, lastError: string, attempts: int)

  /** What survives a crash. attempts, calls, commits and done record the history for the statements. */
  datatype World<S, E> = World(db: Db, journal: map<string, JVal>, rows: seq<DlqRow>,
                               calls: seq<Call<S, E>>, attempts: map<Key, seq<Option<string>>>,
                               commits: seq<Path>, done: set<Path>)

  function Get<S, E>(w: World<S, E>, k: Key): Option<JVal> {
    if Name(k) in w.journal then Some(w.journal[Name(k)]) else None
  }

  function Put<S, E>(w: World<S, E>, k: Key, v: JVal): World<S, E> { w.(journal := w.journal[Name(k) := v]) }

  // ---------------------------------------------------------------- control

  datatype Phase<S> =
    | AtAppend
    | AtEnvelopes(result: AppendResult)
    | AtState(result: AppendResult, envs: seq<Envelope>)
    | AtFanOut(result: AppendResult, envs: seq<Envelope>, state: S, settled: map<nat, string>)
    | AtPolicies(result: AppendResult, envs: seq<Envelope>, state: S, settled: map<nat, string>, next: nat)

  datatype Frame<S, C> = Frame(path: Path, cmd: C, phase: Phase<S>)

  datatype Control<S, C> = Running(stack: seq<Frame<S, C>>) | Returned | Failed

  /** issued lists the journaled steps of the current incarnation, in order. */
  datatype BusSys<S, C, E> = BusSys(w: World<S, E>, ctl: Control<S, C>, issued: seq<Key>)

  function Root<S, C, E>(d: Dispatch<S, C, E>): seq<Frame<S, C>> { [Frame([], d.cmd, AtAppend)] }

  function Top<S, C>(stack: seq<Frame<S, C>>): Frame<S, C>
    requires stack != []
  {
    stack[|stack| - 1]
  }

  function WithTop<S, C>(stack: seq<Frame<S, C>>, phase: Phase<S>): seq<Frame<S, C>>
    requires stack != []
  {
    stack[..|stack| - 1] + [Top(stack).(phase := phase)]
  }

  /** The call of the top frame returns nil to whoever made it. */
  function Finish<S, C, E>(s: BusSys<S, C, E>, stack: seq<Frame<S, C>>): BusSys<S, C, E>
    requires stack != []
  {
    var w' := s.w.(done := s.w.done + {Top(stack).path});
    if |stack| == 1 then s.(w := w', ctl := Returned)
    else
      var below := stack[..|stack| - 1];
      var p := Top(below).phase;
      if !p.AtPolicies? then s.(w := w', ctl := Failed)
      else s.(w := w', ctl := Running(WithTop(below, p.(next := p.next + 1))))
  }

  // ---------------------------------------------------------------- the journaled steps

  /** appendStep: Handle and its journal entry are one step; errors are not journaled. */
  function RunAppend<S, C, E>(d: Dispatch<S, C, E>, w: World<S, E>, path: Path, cmd: C, meta: Meta): Option<World<S, E>> {
    if Get(w, KAppend(path)).Some? then Some(w)
    else
      var (db', o) := Handle(d.rt, d.ch, w.db, d.sid, cmd, meta);
      match o
      case Committed(r) => Some(Put(w, KAppend(path), JAppend(Some(r))).(db := db', commits := w.commits + [path]))
      case NoChange => Some(Put(w, KAppend(path), JAppend(None)))
      case _ => None
  }

  /** The rows after the batch's start, cut to the batch's length. */
  function ReadBack(db: Db, sid: StreamId, r: AppendResult): seq<Envelope> {
    var envs := ReadStream(db.events, sid, if r.startVersion > 0 then r.startVersion - 1 else 0);
    var want := r.endVersion + 1 - r.startVersion;
    if 0 <= want < |envs| then envs[..want] else envs
  }

  function RunEnvelopes<S, C, E>(d: Dispatch<S, C, E>, w: World<S, E>, path: Path, r: AppendResult): World<S, E> {
    if Get(w, KEnvelopes(path)).Some? then w else Put(w, KEnvelopes(path), JEnvelopes(ReadBack(w.db, d.sid, r)))
  }

  function RunState<S, C, E>(d: Dispatch<S, C, E>, w: World<S, E>, path: Path): Option<World<S, E>> {
    if Get(w, KState(path)).Some? then Some(w)
    else
      match Load(d.rt, w.db, d.sid)
      case None => None
      case Some(l) =>
        if d.rt.stateCodec.None? then None
        else
          match d.rt.stateCodec.value.encode(l.state)
          case None => None
          case Some(es) => Some(Put(w, KState(path), JState(es.bytes)))
  }

  function DecodeState<S, C, E>(rt: Runtime<S, C, E>, bytes: Bytes): Option<S> {
    if rt.stateCodec.None? then None else rt.stateCodec.value.decode(bytes)
  }

  function SubKey<S, C, E>(d: Dispatch<S, C, E>, path: Path, i: nat, envs: seq<Envelope>): Key
    requires i in Matching(d, envs)
  {
    KSubscriber(path, d.subs[i].name, FirstId(d, i, envs))
  }

  function DlqKey<S, C, E>(d: Dispatch<S, C, E>, path: Path, i: nat, envs: seq<Envelope>): Key
    requires i in Matching(d, envs)
  {
    KDeadLetter(path, d.subs[i].name, FirstId(d, i, envs))
  }

  function CallFor<S, C, E>(d: Dispatch<S, C, E>, path: Path, i: nat, envs: seq<Envelope>, state: S): Call<S, E>
    requires i in Matching(d, envs) && DecodeAll(d.rt, envs).Some?
  {
    Call(SubKey(d, path, i, envs), Kept(d.subs[i].filter, envs), state,
         KeptEvents(d.subs[i].filter, envs, DecodeAll(d.rt, envs).value))
  }

  /** runSyncSubscriber: the whole retry loop is one journaled step. */
  function RunSubscriber<S, C, E>(d: Dispatch<S, C, E>, w: World<S, E>, path: Path, i: nat, envs: seq<Envelope>, state: S,
                                  attempts: seq<Option<string>>): World<S, E>
    requires i in Matching(d, envs) && DecodeAll(d.rt, envs).Some? && attempts != []
  {
    var k := SubKey(d, path, i, envs);
    if Get(w, k).Some? then w
    else
      Put(w, k, JSubscriber(TextOf(attempts)))
        .(calls := w.calls + [CallFor(d, path, i, envs, state)], attempts := w.attempts[k := attempts])
  }

  function RowFor<S, C, E>(d: Dispatch<S, C, E>, path: Path, i: nat, envs: seq<Envelope>, text: string): DlqRow
    requires i in Matching(d, envs)
  {
    var kept := Kept(d.subs[i].filter, envs);
    DlqRow(DlqKey(d, path, i, envs), d.subs[i].name, d.sid,
           seq(|kept|, j requires 0 <= j < |kept| => kept[j].hashed.eventId),
           seq(|kept|, j requires 0 <= j < |kept| => kept[j].hashed.content.typeUrl),
           text, d.subs[i].maxRetries + 1)
  }

  function RunDeadLetter<S, C, E>(d: Dispatch<S, C, E>, w: World<S, E>, path: Path, i: nat, envs: seq<Envelope>, text: string,
                                  writes: bool): Option<World<S, E>>
    requires i in Matching(d, envs)
  {
    var k := DlqKey(d, path, i, envs);
    if Get(w, k).Some? then Some(w)
    else if !writes then None
    else Some(Put(w, k, JDeadLetter).(rows := w.rows + [RowFor(d, path, i, envs, text)]))
  }

  // ---------------------------------------------------------------- moves

  /** What the outside contributes to a move: the append's ids, which subscriber step completes, its attempts,
      and whether a dead-letter insert works. */
  datatype Input = Input(meta: Meta, sub: nat, attempts: seq<Option<string>>, writes: bool)

  function Issue<S, C, E>(s: BusSys<S, C, E>, k: Key): BusSys<S, C, E> { s.(issued := s.issued + [k]) }

  function MoveAppend<S, C, E>(d: Dispatch<S, C, E>, s: BusSys<S, C, E>, stack: seq<Frame<S, C>>, meta: Meta): BusSys<S, C, E>
    requires stack != []
  {
    var f := Top(stack);
    var s1 := Issue(s, KAppend(f.path));
    match RunAppend(d, s.w, f.path, f.cmd, meta)
    case None => s1.(ctl := Failed)
    case Some(w1) =>
      match Get(w1, KAppend(f.path))
      case Some(JAppend(Some(r))) => s1.(w := w1, ctl := Running(WithTop(stack, AtEnvelopes(r))))
      case Some(JAppend(None)) =>
        if Load(d.rt, w1.db, d.sid).None? then s1.(w := w1, ctl := Failed) else Finish(s1.(w := w1), stack)
      case _ => s1.(w := w1, ctl := Failed)
  }

  function MoveEnvelopes<S, C, E>(d: Dispatch<S, C, E>, s: BusSys<S, C, E>, stack: seq<Frame<S, C>>, r: AppendResult): BusSys<S, C, E>
    requires stack != []
  {
    var f := Top(stack);
    var w1 := RunEnvelopes(d, s.w, f.path, r);
    var s1 := Issue(s, KEnvelopes(f.path)).(w := w1);
    match Get(w1, KEnvelopes(f.path))
    case Some(JEnvelopes(envs)) => s1.(ctl := Running(WithTop(stack, AtState(r, envs))))
    case _ => s1.(ctl := Failed)
  }

  function MoveState<S, C, E>(d: Dispatch<S, C, E>, s: BusSys<S, C, E>, stack: seq<Frame<S, C>>, r: AppendResult, envs: seq<Envelope>)
    : BusSys<S, C, E>
    requires stack != []
  {
    var f := Top(stack);
    var s1 := Issue(s, KState(f.path));
    match RunState(d, s.w, f.path)
    case None => s1.(ctl := Failed)
    case Some(w1) =>
      match Get(w1, KState(f.path))
      case Some(JState(bytes)) =>
        var state := DecodeState(d.rt, bytes);
        if state.None? || DecodeAll(d.rt, envs).None? then s1.(w := w1, ctl := Failed)
        else s1.(w := w1, ctl := Running(WithTop(stack, AtFanOut(r, envs, state.value, map[]))))
      case _ => s1.(w := w1, ctl := Failed)
  }

  /** Fan-out: subscriber steps complete in any order; when all have, the policies start. */
  function MoveFanOut<S, C, E>(d: Dispatch<S, C, E>, s: BusSys<S, C, E>, stack: seq<Frame<S, C>>, p: Phase<S>, input: Input)
    : BusSys<S, C, E>
    requires stack != [] && p.AtFanOut?
  {
    var f := Top(stack);
    if Matching(d, p.envs) <= p.settled.Keys then
      s.(ctl := Running(WithTop(stack, AtPolicies(p.result, p.envs, p.state, p.settled, 0))))
    else if input.sub !in Matching(d, p.envs) || input.sub in p.settled || DecodeAll(d.rt, p.envs).None?
            || !ValidAttempts(d.subs[input.sub].maxRetries, input.attempts) then s
    else
      var k := SubKey(d, f.path, input.sub, p.envs);
      var w1 := RunSubscriber(d, s.w, f.path, input.sub, p.envs, p.state, input.attempts);
      var s1 := Issue(s, k).(w := w1);
      match Get(w1, k)
      case Some(JSubscriber(text)) =>
        s1.(ctl := Running(WithTop(stack, AtFanOut(p.result, p.envs, p.state, p.settled[input.sub := text]))))
      case _ => s1.(ctl := Failed)
  }

  predicate Exhausted<S, C, E>(d: Dispatch<S, C, E>, p: Phase<S>, i: nat)
    requires p.AtPolicies?
  {
    i in Matching(d, p.envs) && i in p.settled && p.settled[i] != ""
  }

  predicate Mutated<S, C, E>(d: Dispatch<S, C, E>, p: Phase<S>)
    requires p.AtPolicies?
  {
    exists i: nat | i < |d.subs| :: Exhausted(d, p, i) && d.subs[i].policy == Compensate
  }

  function NestedPath<S, C, E>(d: Dispatch<S, C, E>, path: Path, i: nat, envs: seq<Envelope>): Path
    requires i in Matching(d, envs)
  {
    path + [Hop(d.subs[i].name, FirstId(d, i, envs))]
  }

  /** The policies of the exhausted subscribers, in registration order. */
  function MovePolicies<S, C, E>(d: Dispatch<S, C, E>, s: BusSys<S, C, E>, stack: seq<Frame<S, C>>, p: Phase<S>, input: Input)
    : BusSys<S, C, E>
    requires stack != [] && p.AtPolicies?
  {
    var f := Top(stack);
    var i := p.next;
    var onward := s.(ctl := Running(WithTop(stack, p.(next := i + 1))));
    if i >= |d.subs| then
      if Mutated(d, p) && Load(d.rt, s.w.db, d.sid).None? then s.(ctl := Failed) else Finish(s, stack)
    else if !Exhausted(d, p, i) then onward
    else
      match d.subs[i].policy
      case Drop => onward
      case DeadLetter => if !d.dlqWired then s.(ctl := Failed) else MoveDeadLetter(d, s, stack, p, input.writes)
      case Compensate =>
        if DecodeAll(d.rt, p.envs).None? then s.(ctl := Failed)
        else
          match d.subs[i].compensate(Kept(d.subs[i].filter, p.envs), p.state,
                                     KeptEvents(d.subs[i].filter, p.envs, DecodeAll(d.rt, p.envs).value))
          case None => s.(ctl := Failed)
          case Some(cmd) => s.(ctl := Running(stack + [Frame(NestedPath(d, f.path, i, p.envs), cmd, AtAppend)]))
  }

  function MoveDeadLetter<S, C, E>(d: Dispatch<S, C, E>, s: BusSys<S, C, E>, stack: seq<Frame<S, C>>, p: Phase<S>, writes: bool)
    : BusSys<S, C, E>
    requires stack != [] && p.AtPolicies? && Exhausted(d, p, p.next)
  {
    var f := Top(stack);
    var s1 := Issue(s, DlqKey(d, f.path, p.next, p.envs));
    match RunDeadLetter(d, s.w, f.path, p.next, p.envs, p.settled[p.next], writes)
    case None => s1.(ctl := Failed)
    case Some(w1) => s1.(w := w1, ctl := Running(WithTop(stack, p.(next := p.next + 1))))
  }

  datatype BusStep =
    | Advance(input: Input)
    | Restart
    | CrashInSubscriber(sub: nat)
    | Others(db: Db)

  function Restarted<S, C, E>(d: Dispatch<S, C, E>, w: World<S, E>): BusSys<S, C, E> { BusSys(w, Running(Root(d)), []) }

  ghost predicate IdsOk(events: seq<Envelope>) { forall e | e in events :: UuidLike(e.hashed.eventId) }

  ghost predicate DbOk<S, C, E>(rt: Runtime<S, C, E>, db: Db) {
    EventsGood(rt, db.events) && CacheGood(rt, db) && IdsOk(db.events)
  }

  /** A crash after the subscriber was called and before the journal entry. */
  function CrashCall<S, C, E>(d: Dispatch<S, C, E>, s: BusSys<S, C, E>, i: nat): BusSys<S, C, E> {
    if !s.ctl.Running? || s.ctl.stack == [] || !Top(s.ctl.stack).phase.AtFanOut? then s
    else
      var f := Top(s.ctl.stack);
      var p := f.phase;
      if i !in Matching(d, p.envs) || DecodeAll(d.rt, p.envs).None? || Get(s.w, SubKey(d, f.path, i, p.envs)).Some? then s
      else Restarted(d, s.w.(calls := s.w.calls + [CallFor(d, f.path, i, p.envs, p.state)]))
  }

  function Move<S, C, E>(d: Dispatch<S, C, E>, s: BusSys<S, C, E>, input: Input): BusSys<S, C, E> {
    if !s.ctl.Running? || s.ctl.stack == [] then s
    else
      var stack := s.ctl.stack;
      match Top(stack).phase
      case AtAppend => MoveAppend(d, s, stack, input.meta)
      case AtEnvelopes(r) => MoveEnvelopes(d, s, stack, r)
      case AtState(r, envs) => MoveState(d, s, stack, r, envs)
      case AtFanOut(_, _, _, _) => MoveFanOut(d, s, stack, Top(stack).phase, input)
      case AtPolicies(_, _, _, _, _) => MovePolicies(d, s, stack, Top(stack).phase, input)
  }

  /** Advance the workflow, restart it from the journal at any point, or let other writers commit. */
  ghost function Next<S, C, E>(d: Dispatch<S, C, E>, s: BusSys<S, C, E>, step: BusStep): BusSys<S, C, E> {
    match step
    case Advance(input) => Move(d, s, input)
    case Restart => Restarted(d, s.w)
    case CrashInSubscriber(i) => CrashCall(d, s, i)
    case Others(db') => if Grows(s.w.db, db') && DbOk(d.rt, db') then s.(w := s.w.(db := db')) else s
  }

  ghost function Reached<S, C, E>(d: Dispatch<S, C, E>, db0: Db, steps: seq<BusStep>): BusSys<S, C, E> {
    if steps == [] then Restarted(d, World(db0, map[], [], [], map[], [], {}))
    else Next(d, Reached(d, db0, steps[..|steps| - 1]), steps[|steps| - 1])
  }

  /** The ids an append draws are event ids. */
  ghost predicate InputOk(input: Input) { forall n: nat :: UuidLike(input.meta.ids(n)) }

  ghost predicate StepOk(step: BusStep) { step.Advance? ==> InputOk(step.input) }

  /** Unique subscriber names without colons. */
  ghost predicate SubsOk<S, C, E>(d: Dispatch<S, C, E>) {
    && (forall i | 0 <= i < |d.subs| :: ColonFree(d.subs[i].name))
    && (forall i, j | 0 <= i < j < |d.subs| :: d.subs[i].name != d.subs[j].name)
  }
}
