/** The state mirror: the coalescing drain over the state cache and the versioned example receiver with its
    by-customer index (state_stream/drain.go, examples/statestream/index.go). */
module Mirror {
  import opened Basics
  import opened Shards

  const MIRRORED := "myapp.invoice.v1.Invoice"
  const STATUS_PAID := 2
  const STATUS_VOIDED := 3
  const DEFAULT_BATCH := 100

  /** One state-cache row as it is delivered. */
  datatype StateEnv = StateEnv(tenant: string, stream: string, typeUrl: string, version: nat, state: Bytes)

  datatype Invoice = Invoice(invoiceId: string, customerId: string, currency: string, totalCents: int, status: int)

  datatype Row = Row(invoiceId: string, customerId: string, currency: string, totalCents: int, status: int,
                     version: nat, terminal: bool)

  type Decoder = Bytes -> Option<Invoice>

  // ---------------------------------------------------------------- the receiver

  datatype Tables = Tables(byId: map<string, Row>, byCust: map<string, set<string>>)

  const EMPTY_TABLES := Tables(map[], map[])

  function RowOf(i: Invoice, version: nat): Row {
    Row(i.invoiceId, i.customerId, i.currency, i.totalCents, i.status, version,
        i.status == STATUS_PAID || i.status == STATUS_VOIDED)
  }

  function Without(byCust: map<string, set<string>>, customer: string, stream: string): map<string, set<string>> {
    if customer !in byCust then byCust
    else if byCust[customer] - {stream} == {} then byCust - {customer}
    else byCust[customer := byCust[customer] - {stream}]
  }

  function With(byCust: map<string, set<string>>, customer: string, stream: string): map<string, set<string>> {
    byCust[customer := (if customer in byCust then byCust[customer] else {}) + {stream}]
  }

  /** PublishState: the tables afterwards and whether it returned nil. */
  function Published(decode: Decoder, t: Tables, e: StateEnv): (Tables, bool) {
    if e.typeUrl != MIRRORED then (t, true)
    else
      match decode(e.state)
      case None => (t, false)
      case Some(i) =>
        if e.stream in t.byId && t.byId[e.stream].version >= e.version then (t, true)
        else
          var row := RowOf(i, e.version);
          var cleaned := if e.stream in t.byId && t.byId[e.stream].customerId != row.customerId
                         then Without(t.byCust, t.byId[e.stream].customerId, e.stream) else t.byCust;
          (Tables(t.byId[e.stream := row], With(cleaned, row.customerId, e.stream)), true)
  }

  /** The index entry of a customer holds exactly the streams whose row names that customer. */
  ghost predicate CustExact(t: Tables) {
    && (forall c, s :: (c in t.byCust && s in t.byCust[c]) <==> (s in t.byId && t.byId[s].customerId == c))
    && (forall c | c in t.byCust :: t.byCust[c] != {})
  }

  predicate HasAtLeast(t: Tables, stream: string, version: nat) {
    stream in t.byId && t.byId[stream].version >= version
  }

  /** Rows are never dropped and versions never go down. */
  ghost predicate Forward(t: Tables, t': Tables) {
    forall s | s in t.byId :: s in t'.byId && t'.byId[s].version >= t.byId[s].version
  }

  /** The row is this invoice at this version: terminal once it is paid or voided. */
  predicate RowShows(row: Row, i: Invoice, version: nat) {
    && row.invoiceId == i.invoiceId && row.customerId == i.customerId && row.currency == i.currency
    && row.totalCents == i.totalCents && row.status == i.status && row.version == version
    && (row.terminal <==> i.status in {2, 3})
  }

  /** A delivery that returns nil leaves a mirrored stream at that version or a later one, and a row that is written
      shows the delivered invoice. */
  lemma PublishedLaws(decode: Decoder, t: Tables, e: StateEnv)
    requires CustExact(t)
    ensures var (t', ok) := Published(decode, t, e);
            && CustExact(t') && Forward(t, t')
            && (ok <==> (e.typeUrl == "myapp.invoice.v1.Invoice" ==> decode(e.state).Some?))
            && (if e.typeUrl == "myapp.invoice.v1.Invoice" && decode(e.state).Some? && !HasAtLeast(t, e.stream, e.version)
                then e.stream in t'.byId && RowShows(t'.byId[e.stream], decode(e.state).value, e.version)
                else t' == t)
            && (ok && e.typeUrl == MIRRORED ==> HasAtLeast(t', e.stream, e.version))
            && (forall s | s != e.stream :: (s in t'.byId <==> s in t.byId) && (s in t.byId ==> t'.byId[s] == t.byId[s]))
  {
    if e.typeUrl == MIRRORED && decode(e.state).Some? && !HasAtLeast(t, e.stream, e.version) {
      var row := RowOf(decode(e.state).value, e.version);
      if e.stream in t.byId && t.byId[e.stream].customerId != row.customerId {
        WithoutExact(t, e.stream);
        WithExact(t.byId, Without(t.byCust, t.byId[e.stream].customerId, e.stream), e.stream, row);
      } else {
        WithExact(t.byId, t.byCust, e.stream, row);
      }
    }
  }

  /** The index is exact for every stream but one, which is at most under the customer given. */
  ghost predicate ExactButFor(byId: map<string, Row>, byCust: map<string, set<string>>, stream: string, customer: string) {
    && (forall c, s | s != stream :: (c in byCust && s in byCust[c]) <==> (s in byId && byId[s].customerId == c))
    && (forall c | c in byCust && stream in byCust[c] :: c == customer)
    && (forall c | c in byCust :: byCust[c] != {})
  }

  lemma WithoutExact(t: Tables, stream: string)
    requires CustExact(t) && stream in t.byId
    ensures forall customer :: ExactButFor(t.byId, Without(t.byCust, t.byId[stream].customerId, stream), stream, customer)
  {
    var was := t.byId[stream].customerId;
    var byCust := Without(t.byCust, was, stream);
    forall c | c in byCust ensures byCust[c] != {} && stream !in byCust[c] {
      assert c != was ==> byCust[c] == t.byCust[c];
    }
    forall c, s | s != stream ensures (c in byCust && s in byCust[c]) <==> (s in t.byId && t.byId[s].customerId == c) {
      assert (c in t.byCust && s in t.byCust[c]) <==> (s in t.byId && t.byId[s].customerId == c);
      assert c != was ==> (c in byCust <==> c in t.byCust);
      if c == was && c in t.byCust && s in t.byCust[c] {
        assert s in t.byCust[c] - {stream};
      }
    }
  }

  lemma WithExact(byId: map<string, Row>, byCust: map<string, set<string>>, stream: string, row: Row)
    requires ExactButFor(byId, byCust, stream, row.customerId)
    ensures CustExact(Tables(byId[stream := row], With(byCust, row.customerId, stream)))
  {
    var byId', byCust' := byId[stream := row], With(byCust, row.customerId, stream);
    forall c, s ensures (c in byCust' && s in byCust'[c]) <==> (s in byId' && byId'[s].customerId == c) {
      if s != stream {
        assert (c in byCust && s in byCust[c]) <==> (s in byId && byId[s].customerId == c);
      }
    }
  }

  /** The example receiver. */
  class Index {
    const decode: Decoder
    var byId: map<string, Row>
    var byCust: map<string, set<string>>

    ghost function State(): Tables
      reads this
    {
      Tables(byId, byCust)
    }

    constructor (decode: Decoder)
      ensures this.decode == decode && State() == EMPTY_TABLES
    {
      this.decode := decode;
      byId, byCust := map[], map[];
    }

    method RemoveFromCustomer(customer: string, stream: string)
      modifies this`byCust
      ensures byCust == Without(old(byCust), customer, stream)
    {
      if customer in byCust {
        byCust := byCust[customer := byCust[customer] - {stream}];
        if byCust[customer] == {} {
          byCust := byCust - {customer};
          assert byCust == old(byCust) - {customer};
        }
      }
    }

    method PublishState(e: StateEnv) returns (ok: bool)
      modifies this
      ensures (State(), ok) == Published(decode, old(State()), e)
    {
      if e.typeUrl != MIRRORED {
        return true;
      }
      var state := decode(e.state);
      if state.None? {
        return false;
      }
      if e.stream in byId && byId[e.stream].version >= e.version {
        return true;
      }
      var i := state.value;
      var terminal := i.status == STATUS_PAID || i.status == STATUS_VOIDED;
      var row := Row(i.invoiceId, i.customerId, i.currency, i.totalCents, i.status, e.version, terminal);
      if e.stream in byId && byId[e.stream].customerId != row.customerId {
        RemoveFromCustomer(byId[e.stream].customerId, e.stream);
      }
      byId := byId[e.stream := row];
      ghost var cleaned := byCust;
      if row.customerId !in byCust {
        byCust := byCust[row.customerId := {}];
      }
      byCust := byCust[row.customerId := byCust[row.customerId] + {e.stream}];
      assert byCust == With(cleaned, row.customerId, e.stream);
      ok := true;
    }

    /** Exactly the rows of the customer, each stream once. */
    method FindByCustomer(customer: string) returns (rows: seq<Row>, ghost streams: seq<string>)
      requires CustExact(State())
      ensures forall r :: r in rows <==> exists s :: s in byId && byId[s] == r && r.customerId == customer
      ensures |rows| == |set s | s in byId && byId[s].customerId == customer|
      ensures |rows| == |streams| && forall i, j | 0 <= i < j < |streams| :: streams[i] != streams[j]
      ensures forall s :: s in streams <==> s in byId && byId[s].customerId == customer
      ensures forall i | 0 <= i < |rows| :: streams[i] in byId && rows[i] == byId[streams[i]]
    {
      rows, streams := [], [];
      var left := if customer in byCust then byCust[customer] else {};
      ghost var all := left;
      while left != {}
        invariant |rows| == |streams| && left <= all
        invariant forall s :: s in all <==> s in left || s in streams
        invariant forall i, j | 0 <= i < j < |streams| :: streams[i] != streams[j]
        invariant forall s | s in streams :: s !in left
        invariant forall i | 0 <= i < |rows| :: streams[i] in byId && rows[i] == byId[streams[i]]
        decreases left
      {
        var s :| s in left;
        left := left - {s};
        if s in byId {
          rows := rows + [byId[s]];
          streams := streams + [s];
        }
      }
      ghost var wanted := set s | s in byId && byId[s].customerId == customer;
      DistinctSize(streams, wanted);
      forall s | s in byId && byId[s].customerId == customer ensures byId[s] in rows {
        var i :| 0 <= i < |streams| && streams[i] == s;
        assert rows[i] == byId[s];
      }
    }
  }

  lemma {:induction false} DistinctSize(s: seq<string>, all: set<string>)
    requires (forall i, j | 0 <= i < j < |s| :: s[i] != s[j]) && forall x :: x in s <==> x in all
    ensures |s| == |all|
    decreases |s|
  {
    if s == [] {
      assert all == {};
    } else {
      var n := |s| - 1;
      assert s[n] in s && s == s[..n] + [s[n]];
      DistinctSize(s[..n], all - {s[n]});
    }
  }

  // ---------------------------------------------------------------- concurrent drains

  /** The key of a cached row and of a recorded position. The receiver keys its rows by the stream alone. */
  datatype Slot = Slot(tenant: string, stream: string)

  function SlotOf(e: StateEnv): Slot { Slot(e.tenant, e.stream) }

  function PositionOf<K(==)>(positions: map<K, nat>, key: K): nat {
    if key in positions then positions[key] else 0
  }

  /** The upsert never lowers a position. */
  function Advance<K(==)>(positions: map<K, nat>, key: K, version: nat): map<K, nat> {
    positions[key := Max(PositionOf(positions, key), version)]
  }

  /** One drain: the rest of its page, and the delivery whose position is still to be recorded. */
  datatype Drainer = Drainer(page: seq<StateEnv>, delivered: Option<StateEnv>)

  /** The last two fields record, for the statements only, whose row the receiver holds for a stream and which
      deliveries reached the receiver. */
  datatype MirrorSys = MirrorSys(cache: map<Slot, StateEnv>, positions: map<Slot, nat>, tables: Tables,
                                 drainers: map<nat, Drainer>, owner: map<string, string>, reached: seq<StateEnv>)

  const INITIAL := MirrorSys(map[], map[], EMPTY_TABLES, map[], map[], [])

  /** Deliver: reaches says whether the call got to the receiver, acked whether its nil came back.
      Record: applied says whether the position write took effect; its error, if any, is only counted. */
  datatype MirrorStep =
    | Cached(e: StateEnv)
    | Wiped(slot: Slot)
    | Listed(k: nat, page: seq<StateEnv>)
    | Deliver(k: nat, reaches: bool, acked: bool)
    | Record(k: nat, applied: bool)
    | Quits(k: nat)
    | Resets(slot: Slot)

  predicate IsBehind(s: MirrorSys, e: StateEnv) {
    SlotOf(e) in s.cache && s.cache[SlotOf(e)] == e && e.version > PositionOf(s.positions, SlotOf(e))
  }

  predicate PageOk(s: MirrorSys, page: seq<StateEnv>) { forall e | e in page :: IsBehind(s, e) }

  function Next(decode: Decoder, s: MirrorSys, step: MirrorStep): MirrorSys {
    match step
    case Cached(e) => s.(cache := s.cache[SlotOf(e) := e])
    case Wiped(slot) => s.(cache := s.cache - {slot})
    case Listed(k, page) =>
      if PageOk(s, page) then s.(drainers := s.drainers[k := Drainer(page, None)]) else s
    case Deliver(k, reaches, acked) =>
      if k !in s.drainers || s.drainers[k].page == [] || s.drainers[k].delivered.Some? then s
      else
        var e := s.drainers[k].page[0];
        var (t', ok) := if reaches then Published(decode, s.tables, e) else (s.tables, false);
        s.(tables := t', owner := if t' == s.tables then s.owner else s.owner[e.stream := e.tenant],
           reached := if reaches then s.reached + [e] else s.reached,
           drainers := s.drainers[k := Drainer(s.drainers[k].page[1..], if ok && acked then Some(e) else None)])
    case Record(k, applied) =>
      if k !in s.drainers || s.drainers[k].delivered.None? then s
      else
        var e := s.drainers[k].delivered.value;
        s.(positions := if applied then Advance(s.positions, SlotOf(e), e.version) else s.positions,
           drainers := s.drainers[k := Drainer(s.drainers[k].page, None)])
    case Quits(k) => s.(drainers := s.drainers - {k})
    case Resets(slot) => s.(positions := s.positions - {slot})
  }

  function Reached(decode: Decoder, steps: seq<MirrorStep>): MirrorSys {
    if steps == [] then INITIAL else Next(decode, Reached(decode, steps[..|steps| - 1]), steps[|steps| - 1])
  }

  /** The slots of M only ever cache the mirrored type. */
  ghost predicate StepsOk(steps: seq<MirrorStep>, M: iset<Slot>) {
    forall i | 0 <= i < |steps| && steps[i].Cached? && SlotOf(steps[i].e) in M :: steps[i].e.typeUrl == MIRRORED
  }

  ghost predicate DrainerOk(d: Drainer, t: Tables, M: iset<Slot>) {
    && (forall e | e in d.page && SlotOf(e) in M :: e.typeUrl == MIRRORED)
    && (d.delivered.Some? && SlotOf(d.delivered.value) in M ==>
          HasAtLeast(t, d.delivered.value.stream, d.delivered.value.version))
  }

  /** A recorded position is never ahead of the version the receiver has for the stream. */
  ghost predicate PositionsOk(s: MirrorSys, M: iset<Slot>) {
    forall x | x in s.positions && x in M :: HasAtLeast(s.tables, x.stream, s.positions[x])
  }

  ghost predicate MirrorInv(s: MirrorSys, M: iset<Slot>) {
    && CustExact(s.tables) && PositionsOk(s, M)
    && (forall x | x in s.cache :: SlotOf(s.cache[x]) == x && (x in M ==> s.cache[x].typeUrl == MIRRORED))
    && (forall k | k in s.drainers :: DrainerOk(s.drainers[k], s.tables, M))
  }

  lemma ForwardKeepsDrainer(d: Drainer, t: Tables, t': Tables, M: iset<Slot>)
    requires DrainerOk(d, t, M) && Forward(t, t')
    ensures DrainerOk(d, t', M)
  {
  }

  lemma DeliverKeepsInv(decode: Decoder, s: MirrorSys, k: nat, reaches: bool, acked: bool, M: iset<Slot>)
    requires MirrorInv(s, M)
    ensures MirrorInv(Next(decode, s, Deliver(k, reaches, acked)), M)
    ensures Forward(s.tables, Next(decode, s, Deliver(k, reaches, acked)).tables)
  {
    hide CustExact, Published;
    if k in s.drainers && s.drainers[k].page != [] && s.drainers[k].delivered.None? {
      var s' := Next(decode, s, Deliver(k, reaches, acked));
      var e := s.drainers[k].page[0];
      PublishedLaws(decode, s.tables, e);
      assert e in s.drainers[k].page;
      forall j | j in s'.drainers ensures DrainerOk(s'.drainers[j], s'.tables, M) {
        ForwardKeepsDrainer(s.drainers[j], s.tables, s'.tables, M);
      }
    }
  }

  lemma StepKeepsInv(decode: Decoder, s: MirrorSys, step: MirrorStep, M: iset<Slot>)
    requires MirrorInv(s, M) && (step.Cached? && SlotOf(step.e) in M ==> step.e.typeUrl == MIRRORED)
    ensures MirrorInv(Next(decode, s, step), M) && Forward(s.tables, Next(decode, s, step).tables)
  {
    match step
    case Deliver(k, reaches, acked) => DeliverKeepsInv(decode, s, k, reaches, acked, M);
    case Listed(k, page) =>
      if PageOk(s, page) {
        assert DrainerOk(Drainer(page, None), s.tables, M) by {
          forall e | e in page && SlotOf(e) in M ensures e.typeUrl == MIRRORED {
            assert IsBehind(s, e);
          }
        }
      }
    case Record(k, applied) =>
      if k in s.drainers {
        assert DrainerOk(s.drainers[k], s.tables, M);
      }
    case _ =>
  }

  /** Over every run with any number of concurrent drains of any tenants, publish and position failures, wipes and
      resets: positions never exceed the versions the receiver has under their stream ids, and the customer index
      is exact. */
  lemma {:induction false} ReachedIsSafe(decode: Decoder, steps: seq<MirrorStep>, M: iset<Slot>)
    requires StepsOk(steps, M)
    ensures MirrorInv(Reached(decode, steps), M)
    decreases |steps|
  {
    hide Next, MirrorInv;
    if steps == [] {
      InitialSafe(M);
    } else {
      var n := |steps| - 1;
      assert forall i | 0 <= i < n :: steps[..n][i] == steps[i];
      ReachedIsSafe(decode, steps[..n], M);
      StepKeepsInv(decode, Reached(decode, steps[..n]), steps[n], M);
    }
  }

  lemma InitialSafe(M: iset<Slot>)
    ensures MirrorInv(INITIAL, M)
  {
  }

  // ---------------------------------------------------------------- what the rows show

  /** The row is the invoice of this delivery. */
  predicate ShownBy(decode: Decoder, stream: string, row: Row, e: StateEnv) {
    e.stream == stream && e.typeUrl == MIRRORED && decode(e.state).Some? && RowShows(row, decode(e.state).value, e.version)
  }

  /** Every row shows a delivery of its stream that reached the receiver, the one of the highest version. */
  ghost predicate RowsShown(decode: Decoder, s: MirrorSys) {
    && (forall x | x in s.tables.byId :: exists e :: e in s.reached && ShownBy(decode, x, s.tables.byId[x], e))
    && (forall e | e in s.reached && e.typeUrl == MIRRORED && decode(e.state).Some? :: HasAtLeast(s.tables, e.stream, e.version))
  }

  lemma DeliveryShown(decode: Decoder, s: MirrorSys, s': MirrorSys, e: StateEnv)
    requires CustExact(s.tables) && RowsShown(decode, s)
    requires s'.tables == Published(decode, s.tables, e).0 && s'.reached == s.reached + [e]
    ensures RowsShown(decode, s')
  {
    hide Published, CustExact, RowShows;
    PublishedLaws(decode, s.tables, e);
    forall x | x in s'.tables.byId ensures exists d :: d in s'.reached && ShownBy(decode, x, s'.tables.byId[x], d) {
      if s'.tables != s.tables && x == e.stream {
        assert e in s'.reached && ShownBy(decode, x, s'.tables.byId[x], e);
      } else {
        var d :| d in s.reached && ShownBy(decode, x, s.tables.byId[x], d);
        assert d in s'.reached;
      }
    }
  }

  /** Over every run each row of the receiver shows, field by field, the invoice of a delivery of its stream, and of
      all deliveries of the stream that reached the receiver and decode it is one of the highest version. */
  lemma {:induction false} ReachedRowsShown(decode: Decoder, steps: seq<MirrorStep>)
    ensures RowsShown(decode, Reached(decode, steps))
    decreases |steps|
  {
    hide Published, RowShows, CustExact;
    if steps != [] {
      var n := |steps| - 1;
      ReachedRowsShown(decode, steps[..n]);
      ReachedIsSafe(decode, steps[..n], iset{});
      var s, s' := Reached(decode, steps[..n]), Reached(decode, steps);
      var step := steps[n];
      if step.Deliver? && step.reaches && step.k in s.drainers && s.drainers[step.k].page != [] && s.drainers[step.k].delivered.None? {
        DeliveryShown(decode, s, s', s.drainers[step.k].page[0]);
      } else {
        assert s'.tables == s.tables && s'.reached == s.reached;
      }
    }
  }

  lemma StepKeepsPositions(decode: Decoder, s: MirrorSys, step: MirrorStep)
    ensures forall slot | step != Resets(slot) :: PositionOf(s.positions, slot) <= PositionOf(Next(decode, s, step).positions, slot)
  {
    hide Published, PageOk;
  }

  /** The receiver never goes back, and neither does a recorded position unless it is reset. */
  lemma {:induction false} ReceiverMovesForward(decode: Decoder, steps: seq<MirrorStep>, n: nat)
    requires n <= |steps|
    ensures Forward(Reached(decode, steps[..n]).tables, Reached(decode, steps).tables)
    ensures forall slot | Resets(slot) !in steps[n..] ::
              PositionOf(Reached(decode, steps[..n]).positions, slot) <= PositionOf(Reached(decode, steps).positions, slot)
    decreases |steps| - n
  {
    hide Forward, Next, MirrorInv, PositionOf;
    if n == |steps| {
      assert steps[..n] == steps;
      ForwardRefl(Reached(decode, steps).tables);
    } else {
      ReceiverMovesForward(decode, steps, n + 1);
      assert steps[..n + 1][..n] == steps[..n];
      ReachedIsSafe(decode, steps[..n], iset{});
      StepKeepsInv(decode, Reached(decode, steps[..n]), steps[n], iset{});
      ForwardTrans(Reached(decode, steps[..n]).tables, Reached(decode, steps[..n + 1]).tables, Reached(decode, steps).tables);
      StepKeepsPositions(decode, Reached(decode, steps[..n]), steps[n]);
      assert steps[n..] == [steps[n]] + steps[n + 1..];
    }
  }

  lemma ForwardRefl(t: Tables)
    ensures Forward(t, t)
  {
  }

  lemma ForwardTrans(a: Tables, b: Tables, c: Tables)
    requires Forward(a, b) && Forward(b, c)
    ensures Forward(a, c)
  {
  }

  // ---------------------------------------------------------------- Run on a quiet cache

  // From here on a drain serves one tenant, and streams stand for their slots.

  datatype DrainConfig = DrainConfig(tenant: string, batchSize: int, shard: nat, totalShards: ShardCount)

  function Limit(cfg: DrainConfig): (n: nat)
    ensures n > 0
  {
    if cfg.batchSize <= 0 then DEFAULT_BATCH else cfg.batchSize
  }

  predicate MyShard(cfg: DrainConfig, stream: string) {
    cfg.totalShards == 0 || SplitShard(cfg.tenant, stream, cfg.totalShards) == cfg.shard
  }

  /** Streams whose recorded position is below the cached version. */
  function Behind(cache: map<string, StateEnv>, positions: map<string, nat>): set<string> {
    set x | x in cache && cache[x].version > PositionOf(positions, x)
  }

  /** Every mirrored row of the cache is in the receiver at its version or later. */
  ghost predicate Mirrors(t: Tables, cache: map<string, StateEnv>) {
    forall x | x in cache && cache[x].typeUrl == MIRRORED :: HasAtLeast(t, x, cache[x].version)
  }

  ghost predicate CacheOk(decode: Decoder, cache: map<string, StateEnv>) {
    forall x | x in cache :: cache[x].stream == x && (cache[x].typeUrl == MIRRORED ==> decode(cache[x].state).Some?)
  }

  /** Recorded mirrored positions are backed by the receiver. */
  ghost predicate Backed(t: Tables, cache: map<string, StateEnv>, positions: map<string, nat>) {
    forall x | x in cache && x in positions && cache[x].typeUrl == MIRRORED && positions[x] > 0 :: HasAtLeast(t, x, positions[x])
  }

  lemma CaughtUpMirrors(t: Tables, cache: map<string, StateEnv>, positions: map<string, nat>)
    requires Backed(t, cache, positions) && Behind(cache, positions) == {}
    requires forall x | x in cache :: cache[x].version > 0
    ensures Mirrors(t, cache)
  {
    forall x | x in cache && cache[x].typeUrl == MIRRORED ensures HasAtLeast(t, x, cache[x].version) {
      assert x !in Behind(cache, positions);
    }
  }

  /** How one delivery goes: whether the call reaches the receiver, whether its nil comes back, whether the
      position write reports success, and whether a failed write was applied all the same. */
  datatype Attempt = Attempt(reaches: bool, acked: bool, recorded: bool, applied: bool)

  predicate Clean(o: Attempt) { o.reaches && o.acked && o.recorded }

  datatype BatchState = BatchState(positions: map<string, nat>, tables: Tables, delivered: nat, failed: nat)

  function DeliverOne(decode: Decoder, e: StateEnv, b: BatchState, o: Attempt): BatchState {
    var (t', ok) := if o.reaches then Published(decode, b.tables, e) else (b.tables, false);
    if !ok || !o.acked then b.(tables := t', failed := b.failed + 1)
    else
      var p' := if o.recorded || o.applied then Advance(b.positions, e.stream, e.version) else b.positions;
      if o.recorded then BatchState(p', t', b.delivered + 1, b.failed) else BatchState(p', t', b.delivered, b.failed + 1)
  }

  /** runBatch over the rest of a page; script(n) is how the n-th delivery goes. */
  function Batch(decode: Decoder, cfg: DrainConfig, cache: map<string, StateEnv>, page: seq<string>,
                 script: nat -> Attempt, n: nat, b: BatchState): BatchState
    requires forall x | x in page :: x in cache
    decreases |page|
  {
    if page == [] then b
    else if !MyShard(cfg, page[0]) then Batch(decode, cfg, cache, page[1..], script, n, b)
    else Batch(decode, cfg, cache, page[1..], script, n + 1, DeliverOne(decode, cache[page[0]], b, script(n)))
  }

  ghost predicate Distinct(page: seq<string>) { forall i, j | 0 <= i < j < |page| :: page[i] != page[j] }

  /** A page ListStreamsBehind may return: streams behind, each once, and all of them unless the limit is met. */
  ghost predicate PageChoice(cfg: DrainConfig, cache: map<string, StateEnv>, positions: map<string, nat>, page: seq<string>) {
    && Distinct(page) && (forall x | x in page :: x in Behind(cache, positions)) && |page| <= Limit(cfg)
    && (|page| < Limit(cfg) ==> forall x | x in Behind(cache, positions) :: x in page)
  }

  ghost predicate Good(decode: Decoder, cache: map<string, StateEnv>, positions: map<string, nat>, t: Tables) {
    CacheOk(decode, cache) && CustExact(t) && Backed(t, cache, positions)
  }

  lemma CleanDelivery(decode: Decoder, cache: map<string, StateEnv>, x: string, b: BatchState, o: Attempt)
    requires x in cache && Clean(o) && Good(decode, cache, b.positions, b.tables)
    ensures var b' := DeliverOne(decode, cache[x], b, o);
            && Good(decode, cache, b'.positions, b'.tables) && Forward(b.tables, b'.tables)
            && b'.delivered == b.delivered + 1 && b'.failed == b.failed
            && Behind(cache, b'.positions) == Behind(cache, b.positions) - {x}
  {
    PublishedLaws(decode, b.tables, cache[x]);
  }

  /** A drain whose delivery and record follow each other does what the batch loop does with one stream: the receiver,
      the stream's position and what is left of the page, and no other position. */
  lemma DeliversAlone(decode: Decoder, s: MirrorSys, k: nat, o: Attempt, b: BatchState)
    requires k in s.drainers && s.drainers[k].page != [] && s.drainers[k].delivered.None? && b.tables == s.tables
    requires var e := s.drainers[k].page[0]; PositionOf(b.positions, e.stream) == PositionOf(s.positions, SlotOf(e))
    ensures var e := s.drainers[k].page[0];
            var s' := Next(decode, Next(decode, s, Deliver(k, o.reaches, o.acked)), Record(k, o.recorded || o.applied));
            var b' := DeliverOne(decode, e, b, o);
            && s'.tables == b'.tables && s'.cache == s.cache && s'.drainers == s.drainers[k := Drainer(s.drainers[k].page[1..], None)]
            && PositionOf(s'.positions, SlotOf(e)) == PositionOf(b'.positions, e.stream)
            && (forall slot | slot != SlotOf(e) :: PositionOf(s'.positions, slot) == PositionOf(s.positions, slot))
  {
    hide Published;
    var e := s.drainers[k].page[0];
    var s1 := Next(decode, s, Deliver(k, o.reaches, o.acked));
    assert s1.drainers[k].page == s.drainers[k].page[1..];
  }

  /** A batch without failures delivers everything of its shard on the page. */
  lemma {:induction false} CleanBatch(decode: Decoder, cfg: DrainConfig, cache: map<string, StateEnv>, page: seq<string>,
                                      script: nat -> Attempt, n: nat, b: BatchState)
    requires (forall m :: Clean(script(m))) && Good(decode, cache, b.positions, b.tables)
    requires Distinct(page) && forall x | x in page :: x in cache && x in Behind(cache, b.positions)
    ensures var b' := Batch(decode, cfg, cache, page, script, n, b);
            && Good(decode, cache, b'.positions, b'.tables) && Forward(b.tables, b'.tables) && b'.failed == b.failed
            && b'.delivered >= b.delivered
            && |Behind(cache, b'.positions)| + b'.delivered == |Behind(cache, b.positions)| + b.delivered
            && (b'.delivered == b.delivered ==> b'.positions == b.positions && forall x | x in page :: !MyShard(cfg, x))
    decreases |page|
  {
    hide Good, DeliverOne, MyShard;
    if page != [] {
      var x, rest := page[0], page[1..];
      assert page == [x] + rest && x in page && x !in rest;
      if MyShard(cfg, x) {
        CleanDelivery(decode, cache, x, b, script(n));
        var b1 := DeliverOne(decode, cache[x], b, script(n));
        CleanBatch(decode, cfg, cache, rest, script, n + 1, b1);
      } else {
        CleanBatch(decode, cfg, cache, rest, script, n, b);
      }
    }
  }

  /** The delivery counts as one: it reached a receiver that took it, and both the nil and the position came through. */
  predicate Through(decode: Decoder, e: StateEnv, o: Attempt) {
    o.reaches && o.acked && o.recorded && (e.typeUrl == MIRRORED ==> decode(e.state).Some?)
  }

  function ThroughCount(decode: Decoder, cfg: DrainConfig, cache: map<string, StateEnv>, page: seq<string>,
                        script: nat -> Attempt, n: nat): nat
    requires forall x | x in page :: x in cache
    decreases |page|
  {
    if page == [] then 0
    else if !MyShard(cfg, page[0]) then ThroughCount(decode, cfg, cache, page[1..], script, n)
    else (if Through(decode, cache[page[0]], script(n)) then 1 else 0) + ThroughCount(decode, cfg, cache, page[1..], script, n + 1)
  }

  /** A batch counts each of its streams once: as delivered if the delivery came through, else as failed. */
  lemma {:induction false} BatchCounts(decode: Decoder, cfg: DrainConfig, cache: map<string, StateEnv>, page: seq<string>,
                                       script: nat -> Attempt, n: nat, b: BatchState)
    requires forall x | x in page :: x in cache
    ensures var b' := Batch(decode, cfg, cache, page, script, n, b);
            && b'.delivered == b.delivered + ThroughCount(decode, cfg, cache, page, script, n)
            && b'.delivered + b'.failed == b.delivered + b.failed + OwnCount(cfg, page)
    decreases |page|
  {
    hide MyShard;
    if page != [] {
      var rest := page[1..];
      assert page == [page[0]] + rest;
      if MyShard(cfg, page[0]) {
        BatchCounts(decode, cfg, cache, rest, script, n + 1, DeliverOne(decode, cache[page[0]], b, script(n)));
      } else {
        BatchCounts(decode, cfg, cache, rest, script, n, b);
      }
    }
  }

  /** Streams of this shard on a page. */
  function OwnCount(cfg: DrainConfig, page: seq<string>): nat {
    if page == [] then 0 else (if MyShard(cfg, page[0]) then 1 else 0) + OwnCount(cfg, page[1..])
  }

  /** While the publisher is down, a batch changes nothing and counts each of its streams as failed. */
  lemma {:induction false} DownPublisherRepeats(decode: Decoder, cfg: DrainConfig, cache: map<string, StateEnv>,
                                                page: seq<string>, script: nat -> Attempt, n: nat, b: BatchState)
    requires (forall m :: !script(m).reaches) && forall x | x in page :: x in cache
    ensures Batch(decode, cfg, cache, page, script, n, b) == b.(failed := b.failed + OwnCount(cfg, page))
    ensures OwnCount(cfg, page) > 0 <==> exists x :: x in page && MyShard(cfg, x)
    decreases |page|
  {
    if page != [] {
      var x, rest := page[0], page[1..];
      assert page == [x] + rest;
      if MyShard(cfg, x) {
        DownPublisherRepeats(decode, cfg, cache, rest, script, n + 1, DeliverOne(decode, cache[x], b, script(n)));
        assert x in page;
      } else {
        DownPublisherRepeats(decode, cfg, cache, rest, script, n, b);
      }
    }
  }

  class StateDrain {
    const cfg: DrainConfig
    const index: Index
    const cache: map<string, StateEnv>
    var positions: map<string, nat>

    constructor (cfg: DrainConfig, index: Index, cache: map<string, StateEnv>, positions: map<string, nat>)
      ensures this.cfg == cfg && this.index == index && this.cache == cache && this.positions == positions
    {
      this.cfg, this.index, this.cache, this.positions := cfg, index, cache, positions;
    }

    /** ListStreamsBehind: up to limit of them, each once, in some order. */
    method ListBehind() returns (page: seq<string>)
      ensures PageChoice(cfg, cache, positions, page)
      ensures page == [] <==> Behind(cache, positions) == {}
    {
      var limit := Limit(cfg);
      page := [];
      var left := Behind(cache, positions);
      ghost var all := left;
      while |page| < limit && left != {}
        invariant |page| <= limit && left <= all && (page == [] ==> left == all)
        invariant forall x :: x in all <==> x in left || x in page
        invariant forall x | x in page :: x !in left
        invariant Distinct(page)
        decreases left
      {
        var x :| x in left;
        left := left - {x};
        page := page + [x];
      }
      if page != [] {
        assert page[0] in all;
      }
    }

    /** One stream of the loop, with the counters so far. */
    method DeliverStream(e: StateEnv, o: Attempt, delivered0: nat, failed0: nat) returns (delivered: nat, failed: nat)
      modifies this`positions, index
      ensures BatchState(positions, index.State(), delivered, failed)
           == DeliverOne(index.decode, e, BatchState(old(positions), old(index.State()), delivered0, failed0), o)
    {
      delivered, failed := delivered0, failed0;
      var ok := false;
      if o.reaches {
        ok := index.PublishState(e);
      }
      if !ok || !o.acked {
        failed := failed + 1;
        return;
      }
      if o.recorded || o.applied {
        positions := Advance(positions, e.stream, e.version);
      }
      if o.recorded {
        delivered := delivered + 1;
      } else {
        failed := failed + 1;
      }
    }

    method RunPage(page: seq<string>, script: nat -> Attempt) returns (delivered: nat, failed: nat)
      requires forall x | x in page :: x in cache
      modifies this`positions, index
      ensures BatchState(positions, index.State(), delivered, failed)
           == Batch(index.decode, cfg, cache, page, script, 0, BatchState(old(positions), old(index.State()), 0, 0))
    {
      delivered, failed := 0, 0;
      ghost var whole := Batch(index.decode, cfg, cache, page, script, 0, BatchState(positions, index.State(), 0, 0));
      ghost var b := BatchState(positions, index.State(), 0, 0);
      assert page[0..] == page;
      var i, n := 0, 0;
      while i < |page|
        invariant 0 <= i <= |page| && b == BatchState(positions, index.State(), delivered, failed)
        invariant whole == Batch(index.decode, cfg, cache, page[i..], script, n, b)
      {
        BatchStep(index.decode, cfg, cache, page, i, script, n, b);
        if MyShard(cfg, page[i]) {
          b := DeliverOne(index.decode, cache[page[i]], b, script(n));
          delivered, failed := DeliverStream(cache[page[i]], script(n), delivered, failed);
          n := n + 1;
        }
        i := i + 1;
      }
    }

    /** runBatch: one page of streams behind. */
    method RunBatch(script: nat -> Attempt) returns (delivered: nat, failed: nat, page: seq<string>)
      modifies this`positions, index
      ensures PageChoice(cfg, cache, old(positions), page) && forall x | x in page :: x in cache
      ensures page == [] <==> Behind(cache, old(positions)) == {}
      ensures BatchState(positions, index.State(), delivered, failed)
           == Batch(index.decode, cfg, cache, page, script, 0, BatchState(old(positions), old(index.State()), 0, 0))
    {
      page := ListBehind();
      delivered, failed := RunPage(page, script);
    }

    /** Run without failures stops. Unsharded, it stops with every mirrored stream in the receiver at its
        cached version or later. Sharded, a full page of other shards' streams ends it early: its own streams
        are surely done only if fewer than a page are left behind. */
    method Run(script: nat -> Attempt) returns (total: nat)
      requires (forall m :: Clean(script(m))) && (forall x | x in cache :: cache[x].version > 0)
      requires Good(index.decode, cache, positions, index.State())
      modifies this`positions, index
      ensures Good(index.decode, cache, positions, index.State()) && Forward(old(index.State()), index.State())
      ensures total + |Behind(cache, positions)| == |Behind(cache, old(positions))|
      ensures cfg.totalShards == 0 ==> Behind(cache, positions) == {} && Mirrors(index.State(), cache)
      ensures |Behind(cache, positions)| < Limit(cfg) ==> forall x | x in Behind(cache, positions) :: !MyShard(cfg, x)
    {
      total := 0;
      while true
        invariant Good(index.decode, cache, positions, index.State()) && Forward(old(index.State()), index.State())
        invariant total + |Behind(cache, positions)| == |Behind(cache, old(positions))|
        decreases |Behind(cache, positions)|
      {
        ghost var before := BatchState(positions, index.State(), 0, 0);
        var delivered, failed, page := RunBatch(script);
        CleanBatch(index.decode, cfg, cache, page, script, 0, before);
        total := total + delivered;
        if delivered + failed == 0 {
          assert positions == before.positions;
          PageSize(page, Behind(cache, positions));
          if cfg.totalShards == 0 {
            if page != [] {
              OwnOnPage(cfg, page);
            }
            CaughtUpMirrors(index.State(), cache, positions);
          }
          return;
        }
      }
    }
  }

  lemma BatchStep(decode: Decoder, cfg: DrainConfig, cache: map<string, StateEnv>, page: seq<string>, i: nat,
                  script: nat -> Attempt, n: nat, b: BatchState)
    requires i < |page| && forall x | x in page :: x in cache
    ensures Batch(decode, cfg, cache, page[i..], script, n, b)
         == if MyShard(cfg, page[i])
            then Batch(decode, cfg, cache, page[i + 1..], script, n + 1, DeliverOne(decode, cache[page[i]], b, script(n)))
            else Batch(decode, cfg, cache, page[i + 1..], script, n, b)
  {
    assert page[i..][0] == page[i] && page[i..][1..] == page[i + 1..];
  }

  lemma OwnOnPage(cfg: DrainConfig, page: seq<string>)
    requires cfg.totalShards == 0 && page != []
    ensures exists x :: x in page && MyShard(cfg, x)
  {
    assert page[0] in page;
  }

  lemma {:induction false} PageSize(page: seq<string>, all: set<string>)
    requires Distinct(page) && forall x | x in page :: x in all
    ensures |page| <= |all|
    decreases |page|
  {
    if page != [] {
      var n := |page| - 1;
      assert page[n] in page && page[n] !in page[..n];
      PageSize(page[..n], all - {page[n]});
    }
  }
}
