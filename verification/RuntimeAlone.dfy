/** The steps of the interleaved machine, run with nothing in between, are the calls of the runtime: a handler's steps
    are Handle and a rebuild's are RebuildStateCache (aggregate/runtime.go, aggregate/rebuild.go). */
module RuntimeAlone {
  import opened Basics
  import opened StreamIds
  import opened Store
  import opened StoreLaws
  import opened Aggregate
  import opened Interleaving
  import opened Serializability
  import opened RebuildFolds
  import opened AggregateMethods

  ghost function After<S, C, E>(rt: Runtime<S, C, E>, ch: ChainFns, s: Sys<S, C>, steps: seq<Step<C>>): Sys<S, C>
    decreases |steps|
  {
    if steps == [] then s else After(rt, ch, Next(rt, ch, s, steps[0]), steps[1..])
  }

  lemma {:induction false} AfterConcat<S, C, E>(rt: Runtime<S, C, E>, ch: ChainFns, s: Sys<S, C>, a: seq<Step<C>>, b: seq<Step<C>>)
    ensures After(rt, ch, s, a + b) == After(rt, ch, After(rt, ch, s, a), b)
    decreases |a|
  {
    hide Next;
    if a == [] {
      assert a + b == b;
    } else {
      assert (a + b)[0] == a[0] && (a + b)[1..] == a[1..] + b;
      AfterConcat(rt, ch, Next(rt, ch, s, a[0]), a[1..], b);
    }
  }

  // ---------------------------------------------------------------- Handle

  lemma AfterFour<S, C, E>(rt: Runtime<S, C, E>, ch: ChainFns, s: Sys<S, C>, a: Step<C>, b: Step<C>, c: Step<C>, d: Step<C>)
    ensures After(rt, ch, s, [a, b, c, d]) == Next(rt, ch, Next(rt, ch, Next(rt, ch, Next(rt, ch, s, a), b), c), d)
  {
    hide Next;
    var s1 := Next(rt, ch, s, a);
    var s2 := Next(rt, ch, s1, b);
    assert [a, b, c, d][1..] == [b, c, d] && [b, c, d][1..] == [c, d] && [c, d][1..] == [d] && [d][1..] == [];
    assert After(rt, ch, s1, [b, c, d]) == After(rt, ch, s2, [c, d]);
    assert After(rt, ch, s2, [c, d]) == After(rt, ch, Next(rt, ch, s2, c), [d]);
  }

  /** A handler that begins, reads the cache and the tail and submits with no other step in between does what Handle
      does, and touches nothing else. */
  lemma HandlesAlone<S, C, E>(rt: Runtime<S, C, E>, ch: ChainFns, s: Sys<S, C>, h: nat, sid: StreamId, cmd: C, meta: Meta)
    requires h !in s.handlers
    ensures var s' := After(rt, ch, s, [Begin(h, sid, cmd, meta), ReadCache(h, true), ReadTail(h), Step.Submit(h)]);
            var (db', o) := Handle(rt, ch, s.db, sid, cmd, meta);
            && s'.db == db' && s'.handlers == s.handlers[h := Finished(o)] && s'.rebuilds == s.rebuilds
            && s'.commits == s.commits + if o.Committed? then [Commit(sid, cmd, meta)] else []
  {
    hide CacheBase, ReplayTail, HandleFrom, ReadStream, After;
    AfterFour(rt, ch, s, Begin(h, sid, cmd, meta), ReadCache(h, true), ReadTail(h), Step.Submit(h));
    var base := CacheBase(rt, s.db.cache, sid, true);
    var s1 := Next(rt, ch, s, Begin(h, sid, cmd, meta));
    var s2 := Next(rt, ch, s1, ReadCache(h, true));
    assert s2 == s.(handlers := s.handlers[h := Based(sid, cmd, meta, base)]);
    var s3 := Next(rt, ch, s2, ReadTail(h));
    match ReplayTail(rt, base, ReadStream(s.db.events, sid, base.version))
    case None =>
      assert s3 == s.(handlers := s.handlers[h := Finished(LoadFailed)]);
    case Some(l) =>
      assert s3 == s.(handlers := s.handlers[h := Ready(sid, cmd, meta, l)]);
  }

  // ---------------------------------------------------------------- RebuildStateCache

  function Reads<C>(r: nat, limit: nat, n: nat): seq<Step<C>> { seq(n, _ => RebuildRead(r, limit)) }

  /** A page that is not empty moves the cursor; an empty one means that everything covered was read. */
  lemma ReadStep<S, C, E>(rt: Runtime<S, C, E>, ch: ChainFns, s: Sys<S, C>, r: nat, limit: nat)
    requires Positioned(s.db.events) && r in s.rebuilds && Folding(rt, s.db.events, s.rebuilds[r]) && limit > 0
    ensures var s' := Next(rt, ch, s, RebuildRead(r, limit));
            && s'.db == s.db && s'.rebuilds.Keys == s.rebuilds.Keys && s'.rebuilds[r].tenant == s.rebuilds[r].tenant
            && Folding(rt, s.db.events, s'.rebuilds[r])
            && ((s' == s && Folded(rt, s.db.events, s.rebuilds[r])) || s'.rebuilds[r].cursor > s.rebuilds[r].cursor)
  {
    hide Folding, Folded, ReadAll, RebuildEvent;
    var rb := s.rebuilds[r];
    var page := ReadAll(s.db.events, rb.tenant, rb.cursor, limit);
    CursorInside(rt, s.db.events, rb);
    ReadAllSkips(s.db.events, rb.tenant, rb.cursor, limit, 0);
    assert s.db.events[0..] == s.db.events;
    FoldingPage(rt, s.db.events, rb, rb.cursor, rb.cursor, limit);
    PageStartsAfter(s.db.events, rb.tenant, rb.cursor, limit);
    PageMoves(rt, rb, page);
    if page == [] {
      FoldingEnds(rt, s.db.events, rb);
      assert s.rebuilds[r := rb] == s.rebuilds;
    }
  }

  lemma CursorInside<S, C, E>(rt: Runtime<S, C, E>, events: seq<Envelope>, r: Rebuild<S>)
    requires Folding(rt, events, r)
    ensures r.cursor <= |events|
  {
  }

  lemma {:induction false} ReadsIdle<S, C, E>(rt: Runtime<S, C, E>, ch: ChainFns, s: Sys<S, C>, r: nat, limit: nat, n: nat)
    requires Next(rt, ch, s, RebuildRead(r, limit)) == s
    ensures After(rt, ch, s, Reads(r, limit, n)) == s
    decreases n
  {
    hide Next;
    if n > 0 {
      assert Reads<C>(r, limit, n)[1..] == Reads(r, limit, n - 1);
      ReadsIdle(rt, ch, s, r, limit, n - 1);
    }
  }

  /** More reads than there are rows left read everything. */
  lemma {:induction false} ReadsFold<S, C, E>(rt: Runtime<S, C, E>, ch: ChainFns, s: Sys<S, C>, r: nat, limit: nat, n: nat)
    requires Positioned(s.db.events) && r in s.rebuilds && Folding(rt, s.db.events, s.rebuilds[r]) && limit > 0
    requires n + s.rebuilds[r].cursor > |s.db.events|
    ensures var s' := After(rt, ch, s, Reads(r, limit, n));
            && s'.db == s.db && r in s'.rebuilds && s'.rebuilds[r].tenant == s.rebuilds[r].tenant
            && Folded(rt, s.db.events, s'.rebuilds[r])
    decreases n
  {
    hide Next, Folding, Folded;
    CursorInside(rt, s.db.events, s.rebuilds[r]);
    ReadStep(rt, ch, s, r, limit);
    var s1 := Next(rt, ch, s, RebuildRead(r, limit));
    assert Reads<C>(r, limit, n)[0] == RebuildRead(r, limit) && Reads<C>(r, limit, n)[1..] == Reads(r, limit, n - 1);
    if s1 == s {
      ReadsIdle(rt, ch, s, r, limit, n - 1);
    } else {
      ReadsFold(rt, ch, s1, r, limit, n - 1);
    }
  }

  function Writes<C>(r: nat, sids: seq<StreamId>): seq<Step<C>> {
    if sids == [] then [] else [RebuildWrite(r, sids[0])] + Writes(r, sids[1..])
  }

  lemma {:induction false} WritesAlone<S, C, E>(rt: Runtime<S, C, E>, ch: ChainFns, s: Sys<S, C>, r: nat, sids: seq<StreamId>,
                                                done: set<StreamId>, wiped: map<StreamId, CacheRow>)
    requires rt.stateCodec.Some? && r in s.rebuilds && done <= s.rebuilds[r].streams.Keys
    requires forall sid | sid in sids :: sid in s.rebuilds[r].streams && RebuiltRow(rt, s.rebuilds[r].streams[sid]).Some?
    requires RowsWritten(rt, s.rebuilds[r], done, wiped, s.db.cache)
    ensures var s' := After(rt, ch, s, Writes(r, sids));
            && s'.db == s.db.(cache := s'.db.cache)
            && RowsWritten(rt, s.rebuilds[r], done + (set sid | sid in sids), wiped, s'.db.cache)
    decreases |sids|
  {
    hide RowsWritten, RebuiltRow;
    if sids == [] {
      assert done + (set sid | sid in sids) == done;
    } else {
      var sid, rest := sids[0], sids[1..];
      assert sid in sids && forall x | x in rest :: x in sids;
      var s1 := Next(rt, ch, s, RebuildWrite(r, sid));
      OneRowMore(rt, s.rebuilds[r], done, wiped, s.db.cache, sid, RebuiltRow(rt, s.rebuilds[r].streams[sid]).value);
      WritesAlone(rt, ch, s1, r, rest, done + {sid}, wiped);
      assert Writes<C>(r, sids)[0] == RebuildWrite(r, sid) && Writes<C>(r, sids)[1..] == Writes(r, rest);
      assert done + {sid} + (set x | x in rest) == done + (set x | x in sids);
    }
  }

  /** A rebuild that starts, reads until nothing is left and writes each stream it found, in any order and with nothing
      in between, does what RebuildStateCache does: every row of the type in scope is gone and the fold of every
      covered stream is written. */
  lemma RebuildsAlone<S, C, E>(rt: Runtime<S, C, E>, ch: ChainFns, s: Sys<S, C>, r: nat, tenant: string, limit: nat, n: nat,
                               sids: seq<StreamId>)
    returns (rb: Rebuild<S>)
    requires Positioned(s.db.events) && r !in s.rebuilds && limit > 0 && n > |s.db.events|
    requires rt.stateCodec.Some? && rt.stateCodec.value.encode(rt.initial).Some?
    requires forall sid: StreamId :: !FoldDoesNotEncode(rt, s.db.events, tenant, sid)
    requires forall sid: StreamId :: sid in sids <==> EntryFor(rt, tenant, StreamLog(s.db.events, sid), sid).Some?
    ensures var s' := After(rt, ch, s, [RebuildStart(r, tenant)] + Reads(r, limit, n) + Writes(r, sids));
            var wiped := WipeType(s.db.cache, tenant, rt.stateCodec.value.encode(rt.initial).value.typeUrl);
            && rb.tenant == tenant && Folded(rt, s.db.events, rb)
            && s'.db == s.db.(cache := s'.db.cache) && RowsWritten(rt, rb, rb.streams.Keys, wiped, s'.db.cache)
  {
    hide FoldDoesNotEncode, EntryFor, StreamLog, Folding, Folded, RowsWritten, RebuiltRow, WipeType, Positioned;
    var s1 := Next(rt, ch, s, RebuildStart(r, tenant));
    StartsFolding(rt, s.db.events, tenant);
    ReadsFold(rt, ch, s1, r, limit, n);
    var s2 := After(rt, ch, s1, Reads(r, limit, n));
    rb := s2.rebuilds[r];
    EntriesEncode(rt, s.db.events, rb);
    NoRowsWritten(rt, rb, s2.db.cache);
    assert rb.streams.Keys - rb.streams.Keys == {};
    WritesAlone(rt, ch, s2, r, sids, {}, s2.db.cache);
    assert {} + (set sid | sid in sids) == rb.streams.Keys;
    Phases(rt, ch, s, r, tenant, limit, n, sids);
  }

  lemma StartsFolding<S, C, E>(rt: Runtime<S, C, E>, events: seq<Envelope>, tenant: string)
    ensures Folding(rt, events, Rebuild(tenant, 0, map[]))
  {
    assert events[..0] == [];
  }

  lemma Phases<S, C, E>(rt: Runtime<S, C, E>, ch: ChainFns, s: Sys<S, C>, r: nat, tenant: string, limit: nat, n: nat,
                        sids: seq<StreamId>)
    ensures After(rt, ch, s, [RebuildStart(r, tenant)] + Reads(r, limit, n) + Writes(r, sids))
         == After(rt, ch, After(rt, ch, Next(rt, ch, s, RebuildStart(r, tenant)), Reads(r, limit, n)), Writes(r, sids))
  {
    hide Next;
    AfterConcat(rt, ch, s, [RebuildStart(r, tenant)] + Reads(r, limit, n), Writes(r, sids));
    AfterConcat(rt, ch, s, [RebuildStart(r, tenant)], Reads(r, limit, n));
  }
}
