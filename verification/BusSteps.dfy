/** Each journaled step of a command dispatch keeps the invariant of the world. */
module BusSteps {
  import opened Basics
  import opened Store
  import opened StoreLaws
  import opened Aggregate
  import opened Interleaving
  import opened InterleavingProofs
  import opened Serializability
  import opened BusNames
  import opened Bus
  import opened BusInvariant

  /** At most the entry of one key is new. */
  ghost predicate OnlyAdds<S, E>(w: World<S, E>, w': World<S, E>, a: Key) {
    forall k: Key | KeyOk(k) && k != a :: Get(w', k) == Get(w, k)
  }

  lemma PutOnlyAdds<S, E>(w: World<S, E>, a: Key, v: JVal)
    requires KeyOk(a) && Get(w, a).None?
    ensures OnlyAdds(w, Put(w, a, v), a) && WGrows(w, Put(w, a, v)) && Get(Put(w, a, v), a) == Some(v)
  {
    PutGrows(w, a, v);
    forall k: Key | KeyOk(k) && k != a ensures Get(Put(w, a, v), k) == Get(w, k) {
      PutGet(w, a, v, k);
    }
  }

  lemma PathJournalKept<S, C, E>(d: Dispatch<S, C, E>, w: World<S, E>, w': World<S, E>, path: Path)
    requires PathOk(path) && WGrows(w, w') && PathJournal(d, w, path)
    requires Get(w', KAppend(path)) == Get(w, KAppend(path)) && Get(w', KEnvelopes(path)) == Get(w, KEnvelopes(path))
    requires Get(w', KState(path)) == Get(w, KState(path))
    ensures PathJournal(d, w', path)
  {
    if ResultAt(w, path).Some? {
      RangeGrows(d, w.db, w'.db, ResultAt(w, path).value);
      if Get(w, KState(path)).Some? {
        StateGrows(d, w.db, w'.db, ResultAt(w, path).value, StateAt(d, w, path).value);
      }
    }
  }

  lemma PathsKept<S, C, E>(d: Dispatch<S, C, E>, w: World<S, E>, w': World<S, E>, a: Key)
    requires KeyOk(a) && PathsOk(d, w) && WGrows(w, w') && OnlyAdds(w, w', a)
    requires !a.KSubscriber? && !a.KDeadLetter? ==> PathJournal(d, w', a.path)
    ensures PathsOk(d, w')
  {
    forall path | PathOk(path) ensures PathJournal(d, w', path) {
      if path != a.path || a.KSubscriber? || a.KDeadLetter? {
        assert KeyOk(KAppend(path)) && KeyOk(KEnvelopes(path)) && KeyOk(KState(path));
        PathJournalKept(d, w, w', path);
      }
    }
  }

  lemma HistoryKept<S, C, E>(d: Dispatch<S, C, E>, w: World<S, E>, w': World<S, E>)
    requires SubsOk(d) && WorldOk(d, w) && WGrows(w, w')
    ensures w'.done == w.done ==> DoneOk(d, w')
    ensures w'.calls == w.calls ==> CallsOk(d, w')
    ensures forall c | c in w.calls :: CallOk(d, w', c)
    ensures w'.rows == w.rows ==> RowsTell(d, w')
    ensures forall row | row in w.rows :: RowTells(d, w', row)
    ensures w'.commits == w.commits ==> CommitsOk(w')
    ensures forall p | PathOk(p) && ResultAt(w, p).Some? :: ResultAt(w', p) == ResultAt(w, p)
  {
    forall p | p in w.done ensures PathOk(p) && Complete(d, w', p) && TextBehind(w', p) {
      CompleteGrows(d, w, w', p);
      TextGrows(w, w', p);
    }
    forall c | c in w.calls ensures CallOk(d, w', c) {
      CallGrows(d, w, w', c);
    }
    forall row | row in w.rows ensures RowTells(d, w', row) {
      RowGrows(d, w, w', row);
    }
    forall p | PathOk(p) && ResultAt(w, p).Some? ensures ResultAt(w', p) == ResultAt(w, p) {
      ReadsGrow(d, w, w', p);
    }
  }

  lemma SubsKept<S, C, E>(d: Dispatch<S, C, E>, w: World<S, E>, w': World<S, E>, a: Key)
    requires SubsJournaled(d, w) && OnlyAdds(w, w', a) && KeyOk(a)
    requires forall k | k in w.attempts && k != a :: k in w'.attempts && w'.attempts[k] == w.attempts[k]
    requires a.KSubscriber? ==> SubEntry(d, w', a)
    ensures SubsJournaled(d, w')
  {
    forall k: Key | KeyOk(k) && k.KSubscriber? && Get(w', k).Some? ensures SubEntry(d, w', k) {
      if k != a {
        assert SubEntry(d, w, k);
      }
    }
  }

  lemma RowsKept<S, E>(w: World<S, E>, w': World<S, E>, a: Key)
    requires RowsOk(w) && OnlyAdds(w, w', a) && WGrows(w, w') && !a.KDeadLetter? && w'.rows == w.rows
    ensures RowsOk(w')
  {
    forall k: Key | KeyOk(k) && k.KDeadLetter? && Get(w', k).Some? ensures ErrorBehind(w', k) {
      ErrorStays(w, w', k);
    }
  }

  lemma ErrorStays<S, E>(w: World<S, E>, w': World<S, E>, k: Key)
    requires WGrows(w, w') && KeyOk(k) && k.KDeadLetter? && ErrorBehind(w, k)
    ensures ErrorBehind(w', k)
  {
    assert KeyOk(KSubscriber(k.path, k.name, k.eventId));
  }

  // ---------------------------------------------------------------- reads

  lemma LoadFolds<S, C, E>(d: Dispatch<S, C, E>, db: Db)
    requires EventsGood(d.rt, db.events) && CacheGood(d.rt, db) && Load(d.rt, db, d.sid).Some?
    ensures FoldIs(d.rt, db.events, d.sid, Load(d.rt, db, d.sid).value)
    ensures Load(d.rt, db, d.sid).value.version == |StreamLog(db.events, d.sid)|
  {
    InvLoad(d.rt, db, d.sid);
    var log := StreamLog(db.events, d.sid);
    assert log[..|log|] == log;
  }

  /** Reading back gives exactly the committed range, whatever was appended since. */
  lemma ReadBackIsWindow<S, C, E>(d: Dispatch<S, C, E>, db: Db, r: AppendResult)
    requires Contiguous(db.events) && RangeOk(d, db, r)
    ensures ReadBack(db, d.sid, r) == Window(d, db, r)
  {
    ReadStreamIsSuffix(db.events, d.sid, r.startVersion - 1);
  }

  lemma EnvelopesOk<S, C, E>(d: Dispatch<S, C, E>, w: World<S, E>, path: Path, r: AppendResult)
    requires SubsOk(d) && WorldOk(d, w) && PathOk(path) && ResultAt(w, path) == Some(r)
    ensures var w' := RunEnvelopes(d, w, path, r);
            && WorldOk(d, w') && WGrows(w, w') && EnvsAt(w', path).Some? && ResultAt(w', path) == Some(r)
  {
    hide SubsJournaled, RowsOk, RowsTell, CommitsOk, DoneOk, CallsOk, ReadBack;
    var k := KEnvelopes(path);
    assert PathJournal(d, w, path);
    if Get(w, k).None? {
      var w' := RunEnvelopes(d, w, path, r);
      PutOnlyAdds(w, k, JEnvelopes(ReadBack(w.db, d.sid, r)));
      ReadBackIsWindow(d, w.db, r);
      assert KeyOk(KAppend(path)) && KeyOk(KState(path));
      assert PathJournal(d, w', path);
      PathsKept(d, w, w', k);
      SubsKept(d, w, w', k);
      RowsKept(w, w', k);
      HistoryKept(d, w, w');
    }
  }

  lemma StateEntryOk<S(!new), C, E(!new)>(d: Dispatch<S, C, E>, w: World<S, E>, path: Path, r: AppendResult, envs: seq<Envelope>)
    requires Lawful(d.rt) && DbOk(d.rt, w.db) && PathOk(path) && PathJournal(d, w, path)
    requires ResultAt(w, path) == Some(r) && EnvsAt(w, path) == Some(envs)
    requires RunState(d, w, path).Some? && Get(w, KState(path)).None?
    ensures var w' := RunState(d, w, path).value;
            && WGrows(w, w') && OnlyAdds(w, w', KState(path)) && PathJournal(d, w', path)
            && StateAt(d, w', path).Some? && Get(w', KState(path)).value.JState?
            && w'.db == w.db && w' == w.(journal := w'.journal)
            && ResultAt(w', path) == Some(r) && EnvsAt(w', path) == Some(envs)
  {
    hide Load, FoldIs;
    var k := KState(path);
    var l := Load(d.rt, w.db, d.sid).value;
    LoadFolds(d, w.db);
    PutOnlyAdds(w, k, JState(d.rt.stateCodec.value.encode(l.state).value.bytes));
    assert StateSeen(d, w.db, r, l.state);
    assert KeyOk(KAppend(path)) && KeyOk(KEnvelopes(path));
  }

  lemma StateOk<S(!new), C, E(!new)>(d: Dispatch<S, C, E>, w: World<S, E>, path: Path, r: AppendResult, envs: seq<Envelope>)
    requires SubsOk(d) && Lawful(d.rt) && WorldOk(d, w) && PathOk(path)
    requires ResultAt(w, path) == Some(r) && EnvsAt(w, path) == Some(envs)
    requires RunState(d, w, path).Some?
    ensures var w' := RunState(d, w, path).value;
            && WorldOk(d, w') && WGrows(w, w') && StateAt(d, w', path).Some? && Get(w', KState(path)).value.JState?
            && ResultAt(w', path) == Some(r) && EnvsAt(w', path) == Some(envs)
  {
    var k := KState(path);
    assert PathJournal(d, w, path);
    if Get(w, k).None? {
      hide PathsOk, SubsJournaled, RowsOk, RowsTell, CommitsOk, DoneOk, CallsOk, PathJournal, RunState, DbOk, OnlyAdds;
      var w' := RunState(d, w, path).value;
      StateEntryOk(d, w, path, r, envs);
      PathsKept(d, w, w', k);
      SubsKept(d, w, w', k);
      RowsKept(w, w', k);
      HistoryKept(d, w, w');
    }
  }

  // ---------------------------------------------------------------- append

  lemma {:induction false} EncodedIds<S, C, E>(rt: Runtime<S, C, E>, meta: Meta, events: seq<E>)
    requires EncodeEvents(rt, meta, events).Some?
    ensures |EncodeEvents(rt, meta, events).value| == |events|
    ensures forall i | 0 <= i < |events| :: EncodeEvents(rt, meta, events).value[i].eventId == meta.ids(i)
    decreases |events|
  {
    if events != [] {
      EncodedIds(rt, meta, events[..|events| - 1]);
    }
  }

  lemma CommitIds<S, C, E>(rt: Runtime<S, C, E>, ch: ChainFns, db: Db, p: AppendParams, meta: Meta, batch: seq<E>)
    requires AppendTx(ch, db, p).1.Ok? && EncodeEvents(rt, meta, batch) == Some(p.events) && IdsOk(db.events)
    requires forall n: nat :: UuidLike(meta.ids(n))
    ensures IdsOk(AppendTx(ch, db, p).0.events)
  {
    var rows := AppendAddsRows(ch, db, p);
    EncodedIds(rt, meta, batch);
    forall e | e in db.events + rows ensures UuidLike(e.hashed.eventId) {
      if e !in db.events {
        var k :| 0 <= k < |rows| && rows[k] == e;
        assert rows[k].hashed == HashedAt(p, 0 + k);
      }
    }
  }

  /** A committed append: the world stays good and the range is in the stream. */
  lemma CommitOk<S(!new), C, E(!new)>(d: Dispatch<S, C, E>, db: Db, cmd: C, meta: Meta)
    requires Lawful(d.rt) && DbOk(d.rt, db) && (forall n: nat :: UuidLike(meta.ids(n)))
    requires Handle(d.rt, d.ch, db, d.sid, cmd, meta).1.Committed?
    ensures var (db', o) := Handle(d.rt, d.ch, db, d.sid, cmd, meta);
            DbOk(d.rt, db') && Grows(db, db') && RangeOk(d, db', o.result)
  {
    var l := Load(d.rt, db, d.sid).value;
    LoadFolds(d, db);
    var batch := CommitFacts(d.rt, d.ch, db, d.sid, cmd, meta, l);
    var p, batch2 := CommittedPlan(d.rt, d.ch, db, d.sid, cmd, meta, l);
    CommitIds(d.rt, d.ch, db, p, meta, batch2);
  }

  lemma AppendOk<S(!new), C, E(!new)>(d: Dispatch<S, C, E>, w: World<S, E>, path: Path, cmd: C, meta: Meta)
    requires SubsOk(d) && Lawful(d.rt) && WorldOk(d, w) && PathOk(path) && (forall n: nat :: UuidLike(meta.ids(n)))
    requires RunAppend(d, w, path, cmd, meta).Some?
    ensures var w' := RunAppend(d, w, path, cmd, meta).value;
            WorldOk(d, w') && WGrows(w, w') && Get(w', KAppend(path)).Some?
  {
    hide PathsOk, SubsJournaled, RowsOk, RowsTell, CommitsOk, DoneOk, CallsOk, Handle;
    var k := KAppend(path);
    if Get(w, k).None? {
      var w' := RunAppend(d, w, path, cmd, meta).value;
      var (db', o) := Handle(d.rt, d.ch, w.db, d.sid, cmd, meta);
      if o.Committed? {
        CommitOk(d, w.db, cmd, meta);
        PutOnlyAdds(w, k, JAppend(Some(o.result)));
      } else {
        PutOnlyAdds(w, k, JAppend(None));
      }
      AppendEntryOk(d, w, w', path);
    }
  }

  lemma AppendEntryOk<S, C, E>(d: Dispatch<S, C, E>, w: World<S, E>, w': World<S, E>, path: Path)
    requires SubsOk(d) && WorldOk(d, w) && PathOk(path) && Get(w, KAppend(path)).None?
    requires WGrows(w, w') && OnlyAdds(w, w', KAppend(path)) && DbOk(d.rt, w'.db)
    requires Get(w', KAppend(path)).Some? && Get(w', KAppend(path)).value.JAppend?
    requires ResultAt(w', path).Some? ==> RangeOk(d, w'.db, ResultAt(w', path).value)
    requires w' == w.(db := w'.db, journal := w'.journal, commits := w'.commits)
    requires w'.commits == if ResultAt(w', path).Some? then w.commits + [path] else w.commits
    ensures WorldOk(d, w')
  {
    var k := KAppend(path);
    assert PathJournal(d, w, path);
    assert KeyOk(k) && KeyOk(KEnvelopes(path)) && KeyOk(KState(path));
    assert PathJournal(d, w', path);
    PathsKept(d, w, w', k);
    SubsKept(d, w, w', k);
    RowsKept(w, w', k);
    HistoryKept(d, w, w');
  }

  // ---------------------------------------------------------------- subscriber and dead letter

  lemma SubscriberOk<S, C, E>(d: Dispatch<S, C, E>, w: World<S, E>, path: Path, r: AppendResult, i: nat, envs: seq<Envelope>, state: S,
                              attempts: seq<Option<string>>)
    requires SubsOk(d) && WorldOk(d, w) && PathOk(path) && BatchRead(d, w, path, r, envs, state)
    requires i in Matching(d, envs) && ValidAttempts(d.subs[i].maxRetries, attempts)
    ensures var w' := RunSubscriber(d, w, path, i, envs, state, attempts);
            var k := SubKey(d, path, i, envs);
            WorldOk(d, w') && WGrows(w, w') && KeyOk(k) && Get(w', k).Some? && Get(w', k).value.JSubscriber?
  {
    hide PathsOk, RowsOk, RowsTell, CommitsOk, DoneOk, CallsOk, DbOk;
    var k := SubKey(d, path, i, envs);
    BatchKeys(d, w, path, i, envs);
    if Get(w, k).None? {
      var w' := RunSubscriber(d, w, path, i, envs, state, attempts);
      PutOnlyAdds(w, k, JSubscriber(TextOf(attempts)));
      SubscriberEntryOk(d, w, w', path, i, envs, state, attempts);
    } else {
      assert SubEntry(d, w, k);
    }
  }

  lemma SubscriberEntryOk<S, C, E>(d: Dispatch<S, C, E>, w: World<S, E>, w': World<S, E>, path: Path, i: nat, envs: seq<Envelope>,
                                   state: S, attempts: seq<Option<string>>)
    requires SubsOk(d) && WorldOk(d, w) && PathOk(path) && i in Matching(d, envs) && ValidAttempts(d.subs[i].maxRetries, attempts)
    requires EnvsAt(w, path) == Some(envs) && StateAt(d, w, path) == Some(state) && DecodeAll(d.rt, envs).Some?
    requires var k := SubKey(d, path, i, envs);
             && KeyOk(k) && WGrows(w, w') && OnlyAdds(w, w', k) && Get(w', k) == Some(JSubscriber(TextOf(attempts)))
             && w' == w.(journal := w'.journal, calls := w.calls + [CallFor(d, path, i, envs, state)],
                         attempts := w.attempts[k := attempts])
    ensures WorldOk(d, w')
  {
    hide PathsOk, RowsOk, RowsTell, CommitsOk, DoneOk, CallOk, DbOk, SubsJournaled;
    var k := SubKey(d, path, i, envs);
    PathsKept(d, w, w', k);
    assert d.subs[i].name == k.name;
    assert SubEntry(d, w', k);
    SubsKept(d, w, w', k);
    RowsKept(w, w', k);
    HistoryKept(d, w, w');
    NewCallOk(d, w, w', path, i, envs, state);
  }

  lemma NewCallOk<S, C, E>(d: Dispatch<S, C, E>, w: World<S, E>, w': World<S, E>, path: Path, i: nat, envs: seq<Envelope>, state: S)
    requires PathOk(path) && i in Matching(d, envs) && WGrows(w, w')
    requires EnvsAt(w, path) == Some(envs) && StateAt(d, w, path) == Some(state) && DecodeAll(d.rt, envs).Some?
    ensures CallOk(d, w', CallFor(d, path, i, envs, state))
  {
    ReadsGrow(d, w, w', path);
    assert CallOf(d, w', CallFor(d, path, i, envs, state), i);
  }

  lemma DeadLetterOk<S, C, E>(d: Dispatch<S, C, E>, w: World<S, E>, path: Path, i: nat, envs: seq<Envelope>, text: string, writes: bool)
    requires SubsOk(d) && WorldOk(d, w) && PathOk(path) && EnvsAt(w, path) == Some(envs) && i in Matching(d, envs)
    requires Get(w, SubKey(d, path, i, envs)) == Some(JSubscriber(text)) && text != ""
    requires RunDeadLetter(d, w, path, i, envs, text, writes).Some?
    ensures var w' := RunDeadLetter(d, w, path, i, envs, text, writes).value;
            var k := DlqKey(d, path, i, envs);
            WorldOk(d, w') && WGrows(w, w') && KeyOk(k) && Get(w', k) == Some(JDeadLetter)
  {
    hide PathsOk, SubsJournaled, CommitsOk, DoneOk, CallsOk, DbOk, RowTells;
    var k := DlqKey(d, path, i, envs);
    BatchKeys(d, w, path, i, envs);
    if Get(w, k).None? {
      var w' := RunDeadLetter(d, w, path, i, envs, text, writes).value;
      PutOnlyAdds(w, k, JDeadLetter);
      PathsKept(d, w, w', k);
      SubsKept(d, w, w', k);
      NewRowOk(w, w', k, RowFor(d, path, i, envs, text));
      HistoryKept(d, w, w');
      NewRowTells(d, w, w', path, i, envs, text);
    }
  }

  lemma NewRowTells<S, C, E>(d: Dispatch<S, C, E>, w: World<S, E>, w': World<S, E>, path: Path, i: nat, envs: seq<Envelope>, text: string)
    requires PathOk(path) && EnvsAt(w, path) == Some(envs) && i in Matching(d, envs) && WGrows(w, w')
    requires KeyOk(SubKey(d, path, i, envs)) && Get(w, SubKey(d, path, i, envs)) == Some(JSubscriber(text)) && text != ""
    ensures RowTells(d, w', RowFor(d, path, i, envs, text))
  {
    ReadsGrow(d, w, w', path);
    assert RowOf(d, w', RowFor(d, path, i, envs, text), i);
  }

  lemma NewRowOk<S, E>(w: World<S, E>, w': World<S, E>, k: Key, row: DlqRow)
    requires RowsOk(w) && KeyOk(k) && k.KDeadLetter? && row.key == k && Get(w, k).None?
    requires WGrows(w, w') && OnlyAdds(w, w', k) && Get(w', k) == Some(JDeadLetter) && w'.rows == w.rows + [row]
    requires ErrorBehind(w, k)
    ensures RowsOk(w')
  {
    hide KeyOk, Get, ErrorBehind, HasRow;
    forall x: Key | KeyOk(x) && x.KDeadLetter? && Get(w', x).Some?
      ensures ErrorBehind(w', x) && Get(w', x).value.JDeadLetter? && HasRow(w'.rows, x)
    {
      if x != k {
        assert Get(w', x) == Get(w, x);
      }
      ErrorStays(w, w', x);
      RowThere(w.rows, row, x);
    }
    forall i | 0 <= i < |w'.rows| ensures KeyOk(w'.rows[i].key) && w'.rows[i].key.KDeadLetter? && Get(w', w'.rows[i].key).Some? {
      if i < |w.rows| {
        assert w'.rows[i] == w.rows[i];
      }
    }
  }

  lemma RowThere(rows: seq<DlqRow>, row: DlqRow, x: Key)
    requires x == row.key || HasRow(rows, x)
    ensures HasRow(rows + [row], x)
  {
    if x == row.key {
      assert (rows + [row])[|rows|].key == x;
    } else {
      var j :| 0 <= j < |rows| && rows[j].key == x;
      assert (rows + [row])[j].key == x;
    }
  }

  // ---------------------------------------------------------------- other writers and finishing

  /** Same journal and history on a grown log, with more calls finished or recorded. */
  lemma SameJournal<S, C, E>(d: Dispatch<S, C, E>, w: World<S, E>, w': World<S, E>)
    requires PathsOk(d, w) && SubsJournaled(d, w) && RowsOk(w)
    requires w' == w.(db := w'.db, done := w'.done, calls := w'.calls) && Grows(w.db, w'.db) && w.done <= w'.done
    ensures WGrows(w, w') && PathsOk(d, w') && SubsJournaled(d, w') && RowsOk(w')
  {
    assert forall k: Key :: Get(w', k) == Get(w, k);
    SamePaths(d, w, w');
    SameSubs(d, w, w');
    assert RowsOk(w') by {
      hide PathsOk, SubsJournaled;
      forall k: Key | KeyOk(k) && k.KDeadLetter? && Get(w', k).Some? ensures ErrorBehind(w', k) {
        assert ErrorBehind(w, k);
      }
    }
  }

  lemma SamePaths<S, C, E>(d: Dispatch<S, C, E>, w: World<S, E>, w': World<S, E>)
    requires PathsOk(d, w) && WGrows(w, w') && forall k: Key :: Get(w', k) == Get(w, k)
    ensures PathsOk(d, w')
  {
    hide PathJournal;
    forall path | PathOk(path) ensures PathJournal(d, w', path) {
      PathJournalKept(d, w, w', path);
    }
  }

  lemma SameSubs<S, C, E>(d: Dispatch<S, C, E>, w: World<S, E>, w': World<S, E>)
    requires SubsJournaled(d, w) && w'.attempts == w.attempts && forall k: Key :: Get(w', k) == Get(w, k)
    ensures SubsJournaled(d, w')
  {
    forall k: Key | KeyOk(k) && k.KSubscriber? && Get(w', k).Some? ensures SubEntry(d, w', k) {
      assert SubEntry(d, w, k);
    }
  }

  lemma OthersOk<S, C, E>(d: Dispatch<S, C, E>, w: World<S, E>, db': Db)
    requires SubsOk(d) && WorldOk(d, w) && Grows(w.db, db') && DbOk(d.rt, db')
    ensures WorldOk(d, w.(db := db')) && WGrows(w, w.(db := db'))
  {
    hide PathsOk, SubsJournaled, RowsOk, RowsTell, CommitsOk, CallsOk, DoneOk, DbOk, Grows;
    var w' := w.(db := db');
    SameJournal(d, w, w');
    HistoryKept(d, w, w');
  }

  lemma DoneMore<S, C, E>(d: Dispatch<S, C, E>, w: World<S, E>, path: Path)
    requires SubsOk(d) && WorldOk(d, w) && PathOk(path) && Complete(d, w, path) && TextBehind(w, path)
    ensures var w' := w.(done := w.done + {path}); WorldOk(d, w') && WGrows(w, w')
  {
    hide PathsOk, SubsJournaled, RowsOk, RowsTell, CommitsOk, CallsOk, DbOk, Complete, TextBehind;
    var w' := w.(done := w.done + {path});
    SameJournal(d, w, w');
    HistoryKept(d, w, w');
    forall p | p in w'.done ensures PathOk(p) && Complete(d, w', p) && TextBehind(w', p) {
      CompleteGrows(d, w, w', p);
      TextGrows(w, w', p);
    }
  }
}
