/** A drain across tenants and a receiver that keys its rows by the stream id alone: when a recorded position means
    that the receiver held that tenant's row (state_stream/drain.go, examples/statestream/index.go). */
module MirrorTenants {
  import opened Basics
  import opened Mirror

  /** No stream id is mirrored under two tenants. */
  ghost predicate StreamsApart(M: iset<Slot>) {
    forall x, y | x in M && y in M && x.stream == y.stream :: x == y
  }

  /** The receiver has this tenant's row for the stream, at the version or later. */
  predicate Holds(s: MirrorSys, x: Slot, version: nat) {
    HasAtLeast(s.tables, x.stream, version) && x.stream in s.owner && s.owner[x.stream] == x.tenant
  }

  /** Every recorded position of a mirrored slot is backed by that tenant's own row. */
  ghost predicate OwnRowsBehind(s: MirrorSys, M: iset<Slot>) {
    forall x | x in s.positions && x in M :: Holds(s, x, s.positions[x])
  }

  /** The mirrored slots are exactly M: they cache the mirrored type only, and no other slot does. */
  ghost predicate Mirrored(steps: seq<MirrorStep>, M: iset<Slot>) {
    forall i | 0 <= i < |steps| && steps[i].Cached? :: IsMirrored(steps[i].e, M)
  }

  ghost predicate IsMirrored(e: StateEnv, M: iset<Slot>) { SlotOf(e) in M <==> e.typeUrl == MIRRORED }

  // ---------------------------------------------------------------- ids apart

  ghost predicate OwnDrainer(s: MirrorSys, d: Drainer, M: iset<Slot>) {
    && (forall e | e in d.page :: IsMirrored(e, M))
    && (d.delivered.Some? && SlotOf(d.delivered.value) in M ==> Holds(s, SlotOf(d.delivered.value), d.delivered.value.version))
  }

  ghost predicate OwnInv(s: MirrorSys, M: iset<Slot>) {
    && MirrorInv(s, M) && OwnRowsBehind(s, M)
    && (forall x | x in s.tables.byId :: x in s.owner && Slot(s.owner[x], x) in M)
    && (forall x | x in s.cache :: IsMirrored(s.cache[x], M))
    && (forall k | k in s.drainers :: OwnDrainer(s, s.drainers[k], M))
  }

  /** A delivery that returns nil for a mirrored slot leaves that tenant's row, and takes no other tenant's away. */
  lemma DeliveryOwns(decode: Decoder, s: MirrorSys, e: StateEnv, M: iset<Slot>)
    requires StreamsApart(M) && CustExact(s.tables) && IsMirrored(e, M)
    requires forall x | x in s.tables.byId :: x in s.owner && Slot(s.owner[x], x) in M
    ensures var (t', ok) := Published(decode, s.tables, e);
            var s' := s.(tables := t', owner := if t' == s.tables then s.owner else s.owner[e.stream := e.tenant]);
            && (forall x | x in s'.tables.byId :: x in s'.owner && Slot(s'.owner[x], x) in M)
            && (ok && SlotOf(e) in M ==> Holds(s', SlotOf(e), e.version))
            && (forall x: Slot, v: nat | x in M && Holds(s, x, v) :: Holds(s', x, v))
  {
    hide CustExact;
    PublishedLaws(decode, s.tables, e);
    var (t', ok) := Published(decode, s.tables, e);
    if t' == s.tables {
      if ok && SlotOf(e) in M {
        assert Slot(s.owner[e.stream], e.stream) in M;
      }
    } else {
      assert SlotOf(e) in M;
    }
  }

  lemma DeliverKeepsOwn(decode: Decoder, s: MirrorSys, k: nat, reaches: bool, acked: bool, M: iset<Slot>)
    requires StreamsApart(M) && OwnInv(s, M)
    ensures OwnInv(Next(decode, s, Deliver(k, reaches, acked)), M)
  {
    hide CustExact, Published, Holds, IsMirrored, MirrorInv, StreamsApart, HasAtLeast;
    var step := Deliver(k, reaches, acked);
    StepKeepsInv(decode, s, step, M);
    if k in s.drainers && s.drainers[k].page != [] && s.drainers[k].delivered.None? {
      var s' := Next(decode, s, step);
      var e := s.drainers[k].page[0];
      assert e in s.drainers[k].page && OwnDrainer(s, s.drainers[k], M);
      if reaches {
        IndexExact(s, M);
        DeliveryOwns(decode, s, e, M);
        HoldsSame(s', s.(tables := s'.tables, owner := s'.owner));
      } else {
        HoldsSame(s', s);
      }
      forall j | j in s'.drainers ensures OwnDrainer(s', s'.drainers[j], M) {
        assert j != k ==> OwnDrainer(s, s.drainers[j], M);
      }
    }
  }

  lemma IndexExact(s: MirrorSys, M: iset<Slot>)
    requires MirrorInv(s, M)
    ensures CustExact(s.tables)
  {
  }

  lemma HoldsSame(s: MirrorSys, t: MirrorSys)
    requires s.tables == t.tables && s.owner == t.owner
    ensures forall x: Slot, v: nat :: Holds(s, x, v) == Holds(t, x, v)
  {
  }

  lemma RecordKeepsOwn(decode: Decoder, s: MirrorSys, k: nat, applied: bool, M: iset<Slot>)
    requires OwnInv(s, M)
    ensures OwnInv(Next(decode, s, Record(k, applied)), M)
  {
    hide CustExact, IsMirrored, MirrorInv;
    StepKeepsInv(decode, s, Record(k, applied), M);
    if k in s.drainers {
      assert OwnDrainer(s, s.drainers[k], M);
    }
  }

  lemma StepKeepsOwn(decode: Decoder, s: MirrorSys, step: MirrorStep, M: iset<Slot>)
    requires StreamsApart(M) && OwnInv(s, M) && (step.Cached? ==> IsMirrored(step.e, M))
    ensures OwnInv(Next(decode, s, step), M)
  {
    hide CustExact, Published, MirrorInv;
    match step
    case Deliver(k, reaches, acked) => DeliverKeepsOwn(decode, s, k, reaches, acked, M);
    case Record(k, applied) => RecordKeepsOwn(decode, s, k, applied, M);
    case Listed(k, page) =>
      StepKeepsInv(decode, s, step, M);
      if PageOk(s, page) {
        assert forall e | e in page :: IsBehind(s, e);
      }
    case _ => StepKeepsInv(decode, s, step, M);
  }

  lemma {:induction false} ReachedOwns(decode: Decoder, steps: seq<MirrorStep>, M: iset<Slot>)
    requires StreamsApart(M) && Mirrored(steps, M)
    ensures OwnInv(Reached(decode, steps), M)
    decreases |steps|
  {
    if steps != [] {
      var n := |steps| - 1;
      assert forall i | 0 <= i < n :: steps[..n][i] == steps[i];
      ReachedOwns(decode, steps[..n], M);
      StepKeepsOwn(decode, Reached(decode, steps[..n]), steps[n], M);
    }
  }

  // ---------------------------------------------------------------- one id under two tenants

  /** The row of a slot is cached, listed, delivered and recorded. */
  function Mirroring(x: Slot, state: Bytes): seq<MirrorStep> {
    var e := StateEnv(x.tenant, x.stream, MIRRORED, 1, state);
    [Cached(e), Listed(0, [e]), Deliver(0, true, true), Record(0, true)]
  }

  lemma {:induction false} ReachedConcat(decode: Decoder, steps: seq<MirrorStep>, more: seq<MirrorStep>)
    ensures Reached(decode, steps + more) == After(decode, Reached(decode, steps), more)
    decreases |more|
  {
    if more == [] {
      assert steps + more == steps;
    } else {
      var n := |more| - 1;
      assert (steps + more)[..|steps + more| - 1] == steps + more[..n];
      ReachedConcat(decode, steps, more[..n]);
    }
  }

  function After(decode: Decoder, s: MirrorSys, steps: seq<MirrorStep>): MirrorSys {
    if steps == [] then s else Next(decode, After(decode, s, steps[..|steps| - 1]), steps[|steps| - 1])
  }

  lemma AfterFour(decode: Decoder, s: MirrorSys, a: MirrorStep, b: MirrorStep, c: MirrorStep, d: MirrorStep)
    ensures After(decode, s, [a, b, c, d]) == Next(decode, Next(decode, Next(decode, Next(decode, s, a), b), c), d)
  {
    hide Next;
    assert [a, b, c, d][..3] == [a, b, c] && [a, b, c][..2] == [a, b] && [a, b][..1] == [a] && [a][..0] == [];
    assert After(decode, s, [a]) == Next(decode, s, a);
    assert After(decode, s, [a, b]) == Next(decode, Next(decode, s, a), b);
    assert After(decode, s, [a, b, c]) == Next(decode, Next(decode, Next(decode, s, a), b), c);
  }

  lemma ListingEffect(decode: Decoder, s: MirrorSys, e: StateEnv)
    requires SlotOf(e) !in s.positions && e.version > 0
    ensures var s' := Next(decode, Next(decode, s, Cached(e)), Listed(0, [e]));
            && s'.positions == s.positions && s'.tables == s.tables && s'.owner == s.owner
            && 0 in s'.drainers && s'.drainers[0] == Drainer([e], None)
  {
    hide Published;
    var s1 := Next(decode, s, Cached(e));
    assert IsBehind(s1, e);
    assert PageOk(s1, [e]);
  }

  lemma DeliveryEffect(decode: Decoder, s: MirrorSys, e: StateEnv)
    requires 0 in s.drainers && s.drainers[0] == Drainer([e], None) && e.typeUrl == MIRRORED && decode(e.state).Some?
    requires e.stream in s.tables.byId ==> s.tables.byId[e.stream].version >= e.version
    ensures var s' := Next(decode, s, Deliver(0, true, true));
            && s'.positions == s.positions && 0 in s'.drainers && s'.drainers[0] == Drainer([], Some(e))
            && HasAtLeast(s'.tables, e.stream, e.version)
            && s'.owner == if e.stream in s.tables.byId then s.owner else s.owner[e.stream := e.tenant]
  {
    hide With, Without;
    assert [e][1..] == [];
    var t' := Published(decode, s.tables, e).0;
    assert e.stream in t'.byId;
  }

  /** After mirroring a slot that had no position: its position is 1, and its row is written unless the receiver
      already has the stream. */
  lemma MirroringEffect(decode: Decoder, s: MirrorSys, x: Slot, state: Bytes)
    requires decode(state).Some? && x !in s.positions
    requires x.stream in s.tables.byId ==> s.tables.byId[x.stream].version >= 1
    ensures var s' := After(decode, s, Mirroring(x, state));
            && s'.positions == s.positions[x := 1] && HasAtLeast(s'.tables, x.stream, 1)
            && s'.owner == if x.stream in s.tables.byId then s.owner else s.owner[x.stream := x.tenant]
  {
    hide After, Published, HasAtLeast;
    var e := StateEnv(x.tenant, x.stream, MIRRORED, 1, state);
    AfterFour(decode, s, Cached(e), Listed(0, [e]), Deliver(0, true, true), Record(0, true));
    assert SlotOf(e) == x;
    ListingEffect(decode, s, e);
    DeliveryEffect(decode, Next(decode, Next(decode, s, Cached(e)), Listed(0, [e])), e);
  }

  /** One stream id under two tenants: both rows are cached, listed, delivered and recorded, and the position of
      one of them stands for a row that the receiver does not have. */
  lemma SharedIdLosesRow(decode: Decoder, x: Slot, y: Slot, state: Bytes)
    requires x != y && x.stream == y.stream && decode(state).Some?
    ensures var s := Reached(decode, Mirroring(x, state) + Mirroring(y, state));
            y in s.positions && s.positions[y] == 1 && !Holds(s, y, 1)
  {
    hide Next, Mirroring;
    ReachedConcat(decode, [], Mirroring(x, state));
    assert [] + Mirroring(x, state) == Mirroring(x, state);
    ReachedConcat(decode, Mirroring(x, state), Mirroring(y, state));
    MirroringEffect(decode, INITIAL, x, state);
    MirroringEffect(decode, Reached(decode, Mirroring(x, state)), y, state);
  }

  /** Over every run of concurrent drains on the mirrored slots M, recorded positions mean that the receiver has that
      tenant's row, exactly when no stream id is in M under two tenants. */
  lemma OwnRowsIffStreamsApart(decode: Decoder, M: iset<Slot>, state: Bytes)
    requires decode(state).Some?
    ensures StreamsApart(M) <==> forall steps | Mirrored(steps, M) :: OwnRowsBehind(Reached(decode, steps), M)
  {
    hide Holds, Next;
    if StreamsApart(M) {
      forall steps | Mirrored(steps, M) ensures OwnRowsBehind(Reached(decode, steps), M) {
        ReachedOwns(decode, steps, M);
      }
    } else {
      var x, y :| x in M && y in M && x.stream == y.stream && x != y;
      SharedIdLosesRow(decode, x, y, state);
      assert Mirrored(Mirroring(x, state) + Mirroring(y, state), M);
    }
  }
}
