/** What the journal, the control stack and the history of a command dispatch always satisfy. */
module BusInvariant {
  import opened Basics
  import opened Store
  import opened StoreLaws
  import opened Aggregate
  import opened Interleaving
  import opened InterleavingProofs
  import opened BusNames
  import opened Bus

  // ---------------------------------------------------------------- reading the journal

  function ResultAt<S, E>(w: World<S, E>, path: Path): Option<AppendResult> {
    match Get(w, KAppend(path)) case Some(JAppend(r)) => r case _ => None
  }

  function EnvsAt<S, E>(w: World<S, E>, path: Path): Option<seq<Envelope>> {
    match Get(w, KEnvelopes(path)) case Some(JEnvelopes(envs)) => Some(envs) case _ => None
  }

  function StateAt<S, C, E>(d: Dispatch<S, C, E>, w: World<S, E>, path: Path): Option<S> {
    match Get(w, KState(path)) case Some(JState(b)) => DecodeState(d.rt, b) case _ => None
  }

  /** The committed version range lies in the stream. */
  predicate RangeOk<S, C, E>(d: Dispatch<S, C, E>, db: Db, r: AppendResult) {
    1 <= r.startVersion <= r.endVersion <= |StreamLog(db.events, d.sid)|
  }

  /** Exactly the rows of the range. */
  function Window<S, C, E>(d: Dispatch<S, C, E>, db: Db, r: AppendResult): seq<Envelope>
    requires RangeOk(d, db, r)
  {
    StreamLog(db.events, d.sid)[r.startVersion - 1..r.endVersion]
  }

  /** The state is the fold of the stream at some version that includes the batch. */
  ghost predicate StateSeen<S, C, E>(d: Dispatch<S, C, E>, db: Db, r: AppendResult, s: S) {
    exists v: nat :: r.endVersion <= v && FoldIs(d.rt, db.events, d.sid, Loaded(s, v))
  }

  ghost predicate PathJournal<S, C, E>(d: Dispatch<S, C, E>, w: World<S, E>, path: Path) {
    && (Get(w, KAppend(path)).Some? ==>
          Get(w, KAppend(path)).value.JAppend? && (ResultAt(w, path).Some? ==> RangeOk(d, w.db, ResultAt(w, path).value)))
    && (Get(w, KEnvelopes(path)).Some? ==>
          && Get(w, KEnvelopes(path)).value.JEnvelopes? && ResultAt(w, path).Some?
          && EnvsAt(w, path) == Some(Window(d, w.db, ResultAt(w, path).value)))
    && (Get(w, KState(path)).Some? ==>
          && ResultAt(w, path).Some? && StateAt(d, w, path).Some?
          && StateSeen(d, w.db, ResultAt(w, path).value, StateAt(d, w, path).value))
  }

  ghost predicate PathsOk<S, C, E>(d: Dispatch<S, C, E>, w: World<S, E>) {
    forall path | PathOk(path) :: PathJournal(d, w, path)
  }

  /** A journaled subscriber step ran its retry loop exactly once, and journaled its outcome. */
  ghost predicate SubEntry<S, C, E>(d: Dispatch<S, C, E>, w: World<S, E>, k: Key)
    requires k.KSubscriber?
  {
    && k in w.attempts && w.attempts[k] != [] && Get(w, k) == Some(JSubscriber(TextOf(w.attempts[k])))
    && exists i | 0 <= i < |d.subs| :: d.subs[i].name == k.name && ValidAttempts(d.subs[i].maxRetries, w.attempts[k])
  }

  ghost predicate SubsJournaled<S, C, E>(d: Dispatch<S, C, E>, w: World<S, E>) {
    forall k: Key | KeyOk(k) && k.KSubscriber? && Get(w, k).Some? :: SubEntry(d, w, k)
  }

  predicate HasRow(rows: seq<DlqRow>, k: Key) { exists i | 0 <= i < |rows| :: rows[i].key == k }

  /** The subscriber step behind a dead letter ended with a non-empty error text. */
  predicate ErrorBehind<S, E>(w: World<S, E>, k: Key)
    requires k.KDeadLetter?
  {
    match Get(w, KSubscriber(k.path, k.name, k.eventId)) case Some(JSubscriber(text)) => text != "" case _ => false
  }

  /** Dead letters: one row per journaled step, none twice, and only for an error. */
  ghost predicate RowsOk<S, E>(w: World<S, E>) {
    && (forall k: Key | KeyOk(k) && k.KDeadLetter? && Get(w, k).Some? :: ErrorBehind(w, k))
    && (forall k: Key | KeyOk(k) && k.KDeadLetter? && Get(w, k).Some? :: Get(w, k).value.JDeadLetter? && HasRow(w.rows, k))
    && (forall i | 0 <= i < |w.rows| :: KeyOk(w.rows[i].key) && w.rows[i].key.KDeadLetter? && Get(w, w.rows[i].key).Some?)
    && (forall i, j | 0 <= i < j < |w.rows| :: w.rows[i].key != w.rows[j].key)
  }

  /** Each path committed at most one batch. */
  ghost predicate CommitsOk<S, E>(w: World<S, E>) {
    && (forall i | 0 <= i < |w.commits| :: PathOk(w.commits[i]) && ResultAt(w, w.commits[i]).Some?)
    && (forall i, j | 0 <= i < j < |w.commits| :: w.commits[i] != w.commits[j])
  }

  ghost predicate CallOf<S, C, E>(d: Dispatch<S, C, E>, w: World<S, E>, c: Call<S, E>, i: nat) {
    && PathOk(c.key.path) && EnvsAt(w, c.key.path).Some? && StateAt(d, w, c.key.path).Some?
    && i in Matching(d, EnvsAt(w, c.key.path).value) && DecodeAll(d.rt, EnvsAt(w, c.key.path).value).Some?
    && c == CallFor(d, c.key.path, i, EnvsAt(w, c.key.path).value, StateAt(d, w, c.key.path).value)
  }

  /** Every subscriber call was made with the journaled batch and state. */
  ghost predicate CallOk<S, C, E>(d: Dispatch<S, C, E>, w: World<S, E>, c: Call<S, E>) { exists i :: CallOf(d, w, c, i) }

  ghost predicate CallsOk<S, C, E>(d: Dispatch<S, C, E>, w: World<S, E>) { forall c | c in w.calls :: CallOk(d, w, c) }

  /** A dead letter lists its batch's ids and types in order, the error its step ended with and the budget. */
  ghost predicate RowOf<S, C, E>(d: Dispatch<S, C, E>, w: World<S, E>, row: DlqRow, i: nat) {
    var path := row.key.path;
    && PathOk(path) && EnvsAt(w, path).Some? && i in Matching(d, EnvsAt(w, path).value)
    && var envs := EnvsAt(w, path).value;
       var kept := Kept(d.subs[i].filter, envs);
       && row.key == DlqKey(d, path, i, envs) && row.subscriber == d.subs[i].name && row.stream == d.sid
       && |row.eventIds| == |kept| && (forall j | 0 <= j < |kept| :: row.eventIds[j] == kept[j].hashed.eventId)
       && |row.typeUrls| == |kept| && (forall j | 0 <= j < |kept| :: row.typeUrls[j] == kept[j].hashed.content.typeUrl)
       && Get(w, SubKey(d, path, i, envs)) == Some(JSubscriber(row.lastError)) && row.lastError != ""
       && row.attempts == d.subs[i].maxRetries + 1
  }

  ghost predicate RowTells<S, C, E>(d: Dispatch<S, C, E>, w: World<S, E>, row: DlqRow) { exists i :: RowOf(d, w, row, i) }

  ghost predicate RowsTell<S, C, E>(d: Dispatch<S, C, E>, w: World<S, E>) { forall row | row in w.rows :: RowTells(d, w, row) }

  // ---------------------------------------------------------------- settlement

  ghost predicate PolicyDone<S, C, E>(d: Dispatch<S, C, E>, w: World<S, E>, path: Path, i: nat, envs: seq<Envelope>)
    requires i in Matching(d, envs)
  {
    match d.subs[i].policy
    case Drop => true
    case DeadLetter => Get(w, DlqKey(d, path, i, envs)) == Some(JDeadLetter)
    case Compensate => NestedPath(d, path, i, envs) in w.done
  }

  ghost predicate SubSettled<S, C, E>(d: Dispatch<S, C, E>, w: World<S, E>, path: Path, i: nat, envs: seq<Envelope>)
    requires i in Matching(d, envs)
  {
    match Get(w, SubKey(d, path, i, envs))
    case Some(JSubscriber(text)) => text != "" ==> PolicyDone(d, w, path, i, envs)
    case _ => false
  }

  /** A HandleCmd at this path returned nil: a no-op, or every matching Sync subscriber is settled. */
  ghost predicate Complete<S, C, E>(d: Dispatch<S, C, E>, w: World<S, E>, path: Path) {
    && Get(w, KAppend(path)).Some?
    && (ResultAt(w, path).Some? ==>
          && EnvsAt(w, path).Some? && StateAt(d, w, path).Some? && DecodeAll(d.rt, EnvsAt(w, path).value).Some?
          && forall i | i in Matching(d, EnvsAt(w, path).value) :: SubSettled(d, w, path, i, EnvsAt(w, path).value))
  }

  /** The subscriber step that a compensation answers journaled a non-empty error text. */
  predicate TextBehind<S, E>(w: World<S, E>, path: Path) {
    path == [] ||
    var n := |path| - 1;
    var k := KSubscriber(path[..n], path[n].name, path[n].eventId);
    KeyOk(k) && match Get(w, k) case Some(JSubscriber(text)) => text != "" case _ => false
  }

  ghost predicate DoneOk<S, C, E>(d: Dispatch<S, C, E>, w: World<S, E>) {
    forall p | p in w.done :: PathOk(p) && Complete(d, w, p) && TextBehind(w, p)
  }

  ghost predicate WorldOk<S, C, E>(d: Dispatch<S, C, E>, w: World<S, E>) {
    && DbOk(d.rt, w.db) && PathsOk(d, w) && SubsJournaled(d, w) && RowsOk(w) && CommitsOk(w)
    && RowsTell(d, w) && CallsOk(d, w) && DoneOk(d, w)
  }

  // ---------------------------------------------------------------- the control stack

  ghost predicate SettledOk<S, C, E>(d: Dispatch<S, C, E>, w: World<S, E>, path: Path, envs: seq<Envelope>, settled: map<nat, string>) {
    forall i | i in settled :: i in Matching(d, envs) && Get(w, SubKey(d, path, i, envs)) == Some(JSubscriber(settled[i]))
  }

  ghost predicate BatchRead<S, C, E>(d: Dispatch<S, C, E>, w: World<S, E>, path: Path, r: AppendResult, envs: seq<Envelope>, state: S) {
    && ResultAt(w, path) == Some(r) && EnvsAt(w, path) == Some(envs) && StateAt(d, w, path) == Some(state)
    && DecodeAll(d.rt, envs).Some?
  }

  /** The command a subscriber's Compensate gives for the journaled batch and state of a path, after that
      subscriber ran out of attempts with an error. */
  ghost predicate AskedBy<S, C, E>(d: Dispatch<S, C, E>, w: World<S, E>, parent: Path, i: nat, path: Path, cmd: C) {
    && PathOk(parent) && EnvsAt(w, parent).Some? && StateAt(d, w, parent).Some? && i in Matching(d, EnvsAt(w, parent).value)
    && DecodeAll(d.rt, EnvsAt(w, parent).value).Some?
    && var c := CallFor(d, parent, i, EnvsAt(w, parent).value, StateAt(d, w, parent).value);
       path == NestedPath(d, parent, i, EnvsAt(w, parent).value) && d.subs[i].policy == Compensate
       && d.subs[i].compensate(c.envs, c.state, c.events) == Some(cmd) && TextBehind(w, path)
  }

  /** The command of a path: the dispatched one at the root, else what a Compensate asked for. */
  ghost predicate Asked<S, C, E>(d: Dispatch<S, C, E>, w: World<S, E>, path: Path, cmd: C) {
    if path == [] then cmd == d.cmd else exists parent, i :: AskedBy(d, w, parent, i, path, cmd)
  }

  ghost predicate FrameOk<S, C, E>(d: Dispatch<S, C, E>, w: World<S, E>, f: Frame<S, C>) {
    PathOk(f.path) && Asked(d, w, f.path, f.cmd) &&
    match f.phase
    case AtAppend => true
    case AtEnvelopes(r) => ResultAt(w, f.path) == Some(r)
    case AtState(r, envs) => ResultAt(w, f.path) == Some(r) && EnvsAt(w, f.path) == Some(envs)
    case AtFanOut(r, envs, state, settled) => BatchRead(d, w, f.path, r, envs, state) && SettledOk(d, w, f.path, envs, settled)
    case AtPolicies(r, envs, state, settled, next) =>
      && BatchRead(d, w, f.path, r, envs, state) && SettledOk(d, w, f.path, envs, settled)
      && Matching(d, envs) <= settled.Keys
      && (forall i: nat | i < next && Exhausted(d, f.phase, i) :: PolicyDone(d, w, f.path, i, envs))
  }

  /** The upper frame is the compensation the lower one is waiting for. */
  predicate Nested<S, C, E>(d: Dispatch<S, C, E>, below: Frame<S, C>, above: Frame<S, C>) {
    && below.phase.AtPolicies? && below.phase.next < |d.subs| && Exhausted(d, below.phase, below.phase.next)
    && d.subs[below.phase.next].policy == Compensate
    && above.path == NestedPath(d, below.path, below.phase.next, below.phase.envs)
  }

  ghost predicate StackOk<S, C, E>(d: Dispatch<S, C, E>, w: World<S, E>, stack: seq<Frame<S, C>>) {
    && stack != [] && stack[0].path == []
    && (forall k | 0 <= k < |stack| :: FrameOk(d, w, stack[k]))
    && (forall k | 0 <= k < |stack| - 1 :: Nested(d, stack[k], stack[k + 1]))
  }

  // ---------------------------------------------------------------- growth

  /** Journal entries stay, the log grows, finished calls stay finished. */
  ghost predicate WGrows<S, E>(w: World<S, E>, w': World<S, E>) {
    && (forall k: Key | KeyOk(k) && Get(w, k).Some? :: Get(w', k) == Get(w, k))
    && Grows(w.db, w'.db) && w.done <= w'.done
  }

  lemma PutGet<S, E>(w: World<S, E>, a: Key, v: JVal, b: Key)
    requires KeyOk(a) && KeyOk(b)
    ensures Get(Put(w, a, v), b) == if a == b then Some(v) else Get(w, b)
  {
    if Name(a) == Name(b) {
      NamesDiffer(a, b);
    }
  }

  lemma PutGrows<S, E>(w: World<S, E>, a: Key, v: JVal)
    requires KeyOk(a) && Get(w, a).None?
    ensures WGrows(w, Put(w, a, v))
  {
    forall k: Key | KeyOk(k) && Get(w, k).Some? ensures Get(Put(w, a, v), k) == Get(w, k) {
      PutGet(w, a, v, k);
    }
  }

  lemma ReadsGrow<S, C, E>(d: Dispatch<S, C, E>, w: World<S, E>, w': World<S, E>, path: Path)
    requires WGrows(w, w') && PathOk(path)
    ensures Get(w, KAppend(path)).Some? ==> Get(w', KAppend(path)) == Get(w, KAppend(path)) && ResultAt(w', path) == ResultAt(w, path)
    ensures ResultAt(w, path).Some? ==> ResultAt(w', path) == ResultAt(w, path)
    ensures EnvsAt(w, path).Some? ==> EnvsAt(w', path) == EnvsAt(w, path)
    ensures StateAt(d, w, path).Some? ==> StateAt(d, w', path) == StateAt(d, w, path)
  {
    assert KeyOk(KAppend(path)) && KeyOk(KEnvelopes(path)) && KeyOk(KState(path));
  }

  lemma RangeGrows<S, C, E>(d: Dispatch<S, C, E>, db: Db, db': Db, r: AppendResult)
    requires Grows(db, db') && RangeOk(d, db, r)
    ensures RangeOk(d, db', r) && Window(d, db', r) == Window(d, db, r)
  {
    StreamLogGrows(db.events, db'.events, d.sid);
  }

  lemma StateGrows<S, C, E>(d: Dispatch<S, C, E>, db: Db, db': Db, r: AppendResult, s: S)
    requires Grows(db, db') && StateSeen(d, db, r, s)
    ensures StateSeen(d, db', r, s)
  {
    var v: nat :| r.endVersion <= v && FoldIs(d.rt, db.events, d.sid, Loaded(s, v));
    StreamLogGrows(db.events, db'.events, d.sid);
    FoldIsGrows(d.rt, db.events, db'.events, d.sid, Loaded(s, v));
  }

  /** Ids of a batch read back are event ids. */
  lemma {:induction false} KeptMembers(keep: Envelope -> bool, envs: seq<Envelope>)
    ensures forall e | e in Kept(keep, envs) :: e in envs && keep(e)
    decreases |envs|
  {
    if envs != [] {
      KeptMembers(keep, envs[..|envs| - 1]);
    }
  }

  lemma WindowIds<S, C, E>(d: Dispatch<S, C, E>, db: Db, r: AppendResult, e: Envelope)
    requires RangeOk(d, db, r) && IdsOk(db.events) && e in Window(d, db, r)
    ensures UuidLike(e.hashed.eventId)
  {
    var log := StreamLog(db.events, d.sid);
    var k :| 0 <= k < |log| && log[k] == e;
    var i := StreamLogMember(db.events, d.sid, k);
    assert db.events[i] in db.events;
  }

  /** The keys of a journaled batch are well formed. */
  lemma BatchKeys<S, C, E>(d: Dispatch<S, C, E>, w: World<S, E>, path: Path, i: nat, envs: seq<Envelope>)
    requires SubsOk(d) && DbOk(d.rt, w.db) && PathsOk(d, w) && PathOk(path)
    requires EnvsAt(w, path) == Some(envs) && i in Matching(d, envs)
    ensures KeyOk(SubKey(d, path, i, envs)) && KeyOk(DlqKey(d, path, i, envs)) && PathOk(NestedPath(d, path, i, envs))
  {
    assert PathJournal(d, w, path);
    var kept := Kept(d.subs[i].filter, envs);
    KeptMembers(d.subs[i].filter, envs);
    assert kept[0] in kept;
    WindowIds(d, w.db, ResultAt(w, path).value, kept[0]);
  }

  lemma FirstIdGrows<S, C, E>(d: Dispatch<S, C, E>, w: World<S, E>, w': World<S, E>, path: Path, i: nat, envs: seq<Envelope>)
    requires SubsOk(d) && DbOk(d.rt, w.db) && PathsOk(d, w) && PathOk(path) && WGrows(w, w')
    requires EnvsAt(w, path) == Some(envs) && i in Matching(d, envs)
    ensures SubSettled(d, w, path, i, envs) ==> SubSettled(d, w', path, i, envs)
    ensures PolicyDone(d, w, path, i, envs) ==> PolicyDone(d, w', path, i, envs)
    ensures Get(w, SubKey(d, path, i, envs)).Some? ==> Get(w', SubKey(d, path, i, envs)) == Get(w, SubKey(d, path, i, envs))
  {
    BatchKeys(d, w, path, i, envs);
  }

  lemma CompleteGrows<S, C, E>(d: Dispatch<S, C, E>, w: World<S, E>, w': World<S, E>, path: Path)
    requires SubsOk(d) && DbOk(d.rt, w.db) && PathsOk(d, w) && PathOk(path) && WGrows(w, w') && Complete(d, w, path)
    ensures Complete(d, w', path)
  {
    ReadsGrow(d, w, w', path);
    if ResultAt(w, path).Some? {
      var envs := EnvsAt(w, path).value;
      forall i | i in Matching(d, envs) ensures SubSettled(d, w', path, i, envs) {
        FirstIdGrows(d, w, w', path, i, envs);
      }
    }
  }

  lemma CallGrows<S, C, E>(d: Dispatch<S, C, E>, w: World<S, E>, w': World<S, E>, c: Call<S, E>)
    requires WGrows(w, w') && CallOk(d, w, c)
    ensures CallOk(d, w', c)
  {
    var i :| CallOf(d, w, c, i);
    ReadsGrow(d, w, w', c.key.path);
    assert CallOf(d, w', c, i);
  }

  lemma RowGrows<S, C, E>(d: Dispatch<S, C, E>, w: World<S, E>, w': World<S, E>, row: DlqRow)
    requires SubsOk(d) && DbOk(d.rt, w.db) && PathsOk(d, w) && WGrows(w, w') && RowTells(d, w, row)
    ensures RowTells(d, w', row)
  {
    var i :| RowOf(d, w, row, i);
    ReadsGrow(d, w, w', row.key.path);
    FirstIdGrows(d, w, w', row.key.path, i, EnvsAt(w, row.key.path).value);
    assert RowOf(d, w', row, i);
  }

  lemma TextGrows<S, E>(w: World<S, E>, w': World<S, E>, path: Path)
    requires WGrows(w, w') && TextBehind(w, path)
    ensures TextBehind(w', path)
  {
  }

  lemma AskedGrows<S, C, E>(d: Dispatch<S, C, E>, w: World<S, E>, w': World<S, E>, path: Path, cmd: C)
    requires WGrows(w, w') && Asked(d, w, path, cmd)
    ensures Asked(d, w', path, cmd)
  {
    if path != [] {
      var parent, i :| AskedBy(d, w, parent, i, path, cmd);
      ReadsGrow(d, w, w', parent);
      TextGrows(w, w', path);
      assert AskedBy(d, w', parent, i, path, cmd);
    }
  }

  lemma AskedText<S, C, E>(d: Dispatch<S, C, E>, w: World<S, E>, path: Path, cmd: C)
    requires Asked(d, w, path, cmd)
    ensures TextBehind(w, path)
  {
    hide TextBehind;
    if path != [] {
      var parent, i :| AskedBy(d, w, parent, i, path, cmd);
    } else {
      RootText(w);
    }
  }

  lemma RootText<S, E>(w: World<S, E>)
    ensures TextBehind(w, [])
  {
  }

  lemma FrameGrows<S, C, E>(d: Dispatch<S, C, E>, w: World<S, E>, w': World<S, E>, f: Frame<S, C>)
    requires SubsOk(d) && DbOk(d.rt, w.db) && PathsOk(d, w) && WGrows(w, w') && FrameOk(d, w, f)
    ensures FrameOk(d, w', f)
  {
    hide Asked;
    AskedGrows(d, w, w', f.path, f.cmd);
    ReadsGrow(d, w, w', f.path);
    if f.phase.AtFanOut? || f.phase.AtPolicies? {
      forall i | i in f.phase.settled ensures Get(w', SubKey(d, f.path, i, f.phase.envs)) == Some(JSubscriber(f.phase.settled[i])) {
        FirstIdGrows(d, w, w', f.path, i, f.phase.envs);
      }
    }
    if f.phase.AtPolicies? {
      forall i: nat | i < f.phase.next && Exhausted(d, f.phase, i) ensures PolicyDone(d, w', f.path, i, f.phase.envs) {
        FirstIdGrows(d, w, w', f.path, i, f.phase.envs);
      }
    }
  }

  lemma StackGrows<S, C, E>(d: Dispatch<S, C, E>, w: World<S, E>, w': World<S, E>, stack: seq<Frame<S, C>>)
    requires SubsOk(d) && DbOk(d.rt, w.db) && PathsOk(d, w) && WGrows(w, w') && StackOk(d, w, stack)
    ensures StackOk(d, w', stack)
  {
    forall k | 0 <= k < |stack| ensures FrameOk(d, w', stack[k]) {
      FrameGrows(d, w, w', stack[k]);
    }
  }
}
