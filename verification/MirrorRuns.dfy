/** Which Runs of the state drain stop. The cache is quiet and every stream has a fate, the way each of its
    deliveries goes, that stays the same; a run is the endless sequence of batches that Run would make if it
    never found a batch of count zero, so Run stops exactly when some batch of the run counts zero
    (state_stream/drain.go). */
module MirrorRuns {
  import opened Basics
  import opened Mirror

  type Cache = map<string, StateEnv>
  type Fates = string -> Attempt

  datatype Setup = Setup(decode: Decoder, cfg: DrainConfig, cache: Cache, fate: Fates)

  ghost predicate SetupOk(u: Setup) { forall x | x in u.cache :: u.cache[x].stream == x }

  /** The delivery moves the position: the call gets through, the receiver accepts the row, and the write is applied. */
  predicate Lands(u: Setup, x: string)
    requires x in u.cache
  {
    var e, o := u.cache[x], u.fate(x);
    o.reaches && o.acked && (e.typeUrl == MIRRORED ==> u.decode(e.state).Some?) && (o.recorded || o.applied)
  }

  /** Streams of this shard that are behind and whose delivery always fails. */
  function Stuck(u: Setup, positions: map<string, nat>): set<string> {
    set x | x in Behind(u.cache, positions) && MyShard(u.cfg, x) && !Lands(u, x)
  }

  /** Streams of other shards that are behind. */
  function Foreign(u: Setup, positions: map<string, nat>): set<string> {
    set x | x in Behind(u.cache, positions) && !MyShard(u.cfg, x)
  }

  /** runBatch over the rest of a page, each stream with its own fate. */
  function FateBatch(u: Setup, page: seq<string>, b: BatchState): BatchState
    requires forall x | x in page :: x in u.cache
    decreases |page|
  {
    if page == [] then b
    else if !MyShard(u.cfg, page[0]) then FateBatch(u, page[1..], b)
    else FateBatch(u, page[1..], DeliverOne(u.decode, u.cache[page[0]], b, u.fate(page[0])))
  }

  function OwnOf(cfg: DrainConfig, page: seq<string>): seq<string> {
    if page == [] then [] else (if MyShard(cfg, page[0]) then [page[0]] else []) + OwnOf(cfg, page[1..])
  }

  /** It is the batch of StateDrain.RunBatch under any script that gives each own stream of the page its fate. */
  lemma {:induction false} FateBatchIsBatch(u: Setup, page: seq<string>, script: nat -> Attempt, n: nat, b: BatchState)
    requires forall x | x in page :: x in u.cache
    requires forall k: nat | k < |OwnOf(u.cfg, page)| :: script(n + k) == u.fate(OwnOf(u.cfg, page)[k])
    ensures Batch(u.decode, u.cfg, u.cache, page, script, n, b) == FateBatch(u, page, b)
    decreases |page|
  {
    hide DeliverOne, MyShard;
    if page != [] {
      var own, rest := OwnOf(u.cfg, page), page[1..];
      if MyShard(u.cfg, page[0]) {
        assert own == [page[0]] + OwnOf(u.cfg, rest) && own[0] == page[0] && script(n + 0) == u.fate(own[0]);
        forall k: nat | k < |OwnOf(u.cfg, rest)| ensures script(n + 1 + k) == u.fate(OwnOf(u.cfg, rest)[k]) {
          assert script(n + (k + 1)) == u.fate(own[k + 1]);
        }
        FateBatchIsBatch(u, rest, script, n + 1, DeliverOne(u.decode, u.cache[page[0]], b, script(n)));
      } else {
        assert own == OwnOf(u.cfg, rest);
        FateBatchIsBatch(u, rest, script, n, b);
      }
    }
  }

  // ---------------------------------------------------------------- one batch

  lemma DeliveryEffect(u: Setup, x: string, b: BatchState)
    requires SetupOk(u) && x in Behind(u.cache, b.positions)
    ensures var b' := DeliverOne(u.decode, u.cache[x], b, u.fate(x));
            && b'.delivered + b'.failed == b.delivered + b.failed + 1
            && Behind(u.cache, b'.positions) == Behind(u.cache, b.positions) - (if Lands(u, x) then {x} else {})
  {
    var b' := DeliverOne(u.decode, u.cache[x], b, u.fate(x));
    var e := u.cache[x];
    assert Published(u.decode, b.tables, e).1 <==> (e.typeUrl == MIRRORED ==> u.decode(e.state).Some?);
    assert b'.positions == if Lands(u, x) then Advance(b.positions, e.stream, e.version) else b.positions;
  }

  /** The streams that a batch over this page moves. */
  function Moved(u: Setup, page: seq<string>): set<string>
    requires forall x | x in page :: x in u.cache
  {
    set x | x in page && MyShard(u.cfg, x) && Lands(u, x)
  }

  lemma {:induction false} BatchEffect(u: Setup, page: seq<string>, b: BatchState)
    requires SetupOk(u) && Distinct(page) && forall x | x in page :: x in u.cache && x in Behind(u.cache, b.positions)
    ensures var b' := FateBatch(u, page, b);
            && b'.delivered + b'.failed == b.delivered + b.failed + OwnCount(u.cfg, page)
            && Behind(u.cache, b'.positions) == Behind(u.cache, b.positions) - Moved(u, page)
    decreases |page|
  {
    hide DeliverOne, MyShard, Lands, Behind;
    if page != [] {
      var x, rest := page[0], page[1..];
      assert page == [x] + rest && x in page && x !in rest;
      if MyShard(u.cfg, x) {
        DeliveryEffect(u, x, b);
        BatchEffect(u, rest, DeliverOne(u.decode, u.cache[x], b, u.fate(x)));
        assert Moved(u, page) == Moved(u, rest) + (if Lands(u, x) then {x} else {});
      } else {
        BatchEffect(u, rest, b);
        assert Moved(u, page) == Moved(u, rest);
      }
    }
  }

  lemma {:induction false} OwnCountPositive(cfg: DrainConfig, page: seq<string>)
    ensures OwnCount(cfg, page) > 0 <==> exists x :: x in page && MyShard(cfg, x)
    decreases |page|
  {
    hide MyShard;
    if page != [] {
      assert page == [page[0]] + page[1..] && page[0] in page;
      OwnCountPositive(cfg, page[1..]);
    }
  }

  // ---------------------------------------------------------------- runs

  /** The pages and the states of a run; states(n + 1) holds the counts of batch n. */
  datatype MirrorRun = MirrorRun(pages: nat -> seq<string>, states: nat -> BatchState)

  ghost predicate BatchOk(u: Setup, b: BatchState, page: seq<string>, b': BatchState) {
    && PageChoice(u.cfg, u.cache, b.positions, page)
    && b' == FateBatch(u, page, b.(delivered := 0, failed := 0))
  }

  ghost predicate IsRun(u: Setup, b: BatchState, r: MirrorRun) {
    r.states(0) == b && forall n: nat :: BatchOk(u, r.states(n), r.pages(n), r.states(n + 1))
  }

  function Counted(b: BatchState): nat { b.delivered + b.failed }

  ghost predicate Stops(r: MirrorRun) { exists n: nat :: n > 0 && Counted(r.states(n)) == 0 }

  /** What one batch counts and what it leaves behind. */
  lemma RunStep(u: Setup, b: BatchState, r: MirrorRun, n: nat)
    requires SetupOk(u) && IsRun(u, b, r)
    ensures forall x | x in r.pages(n) :: x in Behind(u.cache, r.states(n).positions)
    ensures Behind(u.cache, r.states(n + 1).positions) == Behind(u.cache, r.states(n).positions) - Moved(u, r.pages(n))
    ensures Counted(r.states(n + 1)) > 0 <==> exists x :: x in r.pages(n) && MyShard(u.cfg, x)
  {
    hide FateBatch, MyShard, Lands;
    assert BatchOk(u, r.states(n), r.pages(n), r.states(n + 1));
    BatchEffect(u, r.pages(n), r.states(n).(delivered := 0, failed := 0));
    OwnCountPositive(u.cfg, r.pages(n));
  }

  /** Foreign and stuck streams stay behind for the whole run, and nothing falls behind. */
  lemma {:induction false} RunKeeps(u: Setup, b: BatchState, r: MirrorRun, n: nat)
    requires SetupOk(u) && IsRun(u, b, r)
    ensures Behind(u.cache, r.states(n).positions) <= Behind(u.cache, b.positions)
    ensures Foreign(u, r.states(n).positions) == Foreign(u, b.positions)
    ensures Stuck(u, r.states(n).positions) == Stuck(u, b.positions)
  {
    hide MyShard, Lands, BatchOk;
    if n > 0 {
      RunKeeps(u, b, r, n - 1);
      RunStep(u, b, r, n - 1);
    }
  }

  /** As long as every batch counts something and what it counts lands, the number of streams behind falls. */
  lemma {:induction false} RunShrinks(u: Setup, b: BatchState, r: MirrorRun, n: nat)
    requires SetupOk(u) && IsRun(u, b, r)
    requires forall k: nat, x | x in r.pages(k) :: MyShard(u.cfg, x) ==> x in u.cache && Lands(u, x)
    requires forall k: nat | 0 < k <= n :: Counted(r.states(k)) > 0
    ensures |Behind(u.cache, r.states(n).positions)| + n <= |Behind(u.cache, b.positions)|
  {
    hide MyShard, Lands, BatchOk, Behind;
    if n > 0 {
      RunShrinks(u, b, r, n - 1);
      RunStep(u, b, r, n - 1);
      var before, after := Behind(u.cache, r.states(n - 1).positions), Behind(u.cache, r.states(n).positions);
      var x :| x in r.pages(n - 1) && MyShard(u.cfg, x);
      assert x in before && x !in after;
      SmallerSet(after, before - {x});
    }
  }

  lemma {:induction false} SmallerSet(a: set<string>, b: set<string>)
    requires a <= b
    ensures |a| <= |b|
  {
    if a != {} {
      var x :| x in a;
      SmallerSet(a - {x}, b - {x});
    }
  }

  lemma LandingRunStops(u: Setup, b: BatchState, r: MirrorRun)
    requires SetupOk(u) && IsRun(u, b, r)
    requires forall k: nat, x | x in r.pages(k) :: MyShard(u.cfg, x) ==> x in u.cache && Lands(u, x)
    ensures Stops(r)
  {
    if !Stops(r) {
      RunShrinks(u, b, r, |Behind(u.cache, b.positions)| + 1);
    }
  }

  lemma BusyRunGoesOn(u: Setup, b: BatchState, r: MirrorRun)
    requires SetupOk(u) && IsRun(u, b, r)
    requires forall k: nat :: exists x :: x in r.pages(k) && MyShard(u.cfg, x)
    ensures !Stops(r)
  {
    forall n: nat | n > 0 ensures Counted(r.states(n)) > 0 {
      RunStep(u, b, r, n - 1);
      assert exists x :: x in r.pages(n - 1) && MyShard(u.cfg, x);
    }
  }

  // ---------------------------------------------------------------- page choices

  lemma {:induction false} SeqOf(s: set<string>) returns (page: seq<string>)
    ensures Distinct(page) && |page| == |s| && forall x :: x in page <==> x in s
    decreases |s|
  {
    if s == {} {
      page := [];
    } else {
      var x :| x in s;
      var rest := SeqOf(s - {x});
      page := rest + [x];
    }
  }

  lemma {:induction false} Between(want: set<string>, all: set<string>, n: nat) returns (s: set<string>)
    requires want <= all && |want| <= n <= |all|
    ensures want <= s <= all && |s| == n
    decreases n - |want|
  {
    if |want| == n {
      s := want;
    } else {
      assert want != all;
      var x :| x in all && x !in want;
      s := Between(want + {x}, all, n);
    }
  }

  ghost predicate Around(u: Setup, positions: map<string, nat>, want: set<string>, page: seq<string>) {
    PageChoice(u.cfg, u.cache, positions, page) && forall x | x in want :: x in page
  }

  lemma PageAround(u: Setup, positions: map<string, nat>, want: set<string>)
    requires want <= Behind(u.cache, positions) && |want| <= Limit(u.cfg)
    ensures exists page :: Around(u, positions, want, page)
  {
    hide Limit, Behind;
    var all := Behind(u.cache, positions);
    SmallerSet(want, all);
    var page;
    if |all| <= Limit(u.cfg) {
      page := SeqOf(all);
    } else {
      var s := Between(want, all, Limit(u.cfg));
      page := SeqOf(s);
    }
    assert Around(u, positions, want, page);
  }

  ghost function Pick(u: Setup, positions: map<string, nat>, want: set<string>): seq<string>
    requires exists page :: Around(u, positions, want, page)
  {
    var page :| Around(u, positions, want, page);
    page
  }

  ghost predicate Lasting(u: Setup, positions: map<string, nat>, want: set<string>) {
    SetupOk(u) && want <= Stuck(u, positions) + Foreign(u, positions) && |want| <= Limit(u.cfg)
  }

  lemma LastingStays(u: Setup, b: BatchState, want: set<string>, page: seq<string>)
    requires Lasting(u, b.positions, want) && PageChoice(u.cfg, u.cache, b.positions, page)
    ensures Lasting(u, FateBatch(u, page, b.(delivered := 0, failed := 0)).positions, want)
  {
    hide FateBatch, MyShard, Lands;
    BatchEffect(u, page, b.(delivered := 0, failed := 0));
  }

  /** One batch of the run whose every page has the streams `want` on it. */
  ghost function StepTo(u: Setup, b: BatchState, want: set<string>): BatchState {
    if !Lasting(u, b.positions, want) then b
    else FateBatch(u, PageWith(u, b, want), b.(delivered := 0, failed := 0))
  }

  ghost function PageWith(u: Setup, b: BatchState, want: set<string>): seq<string> {
    if !Lasting(u, b.positions, want) then []
    else
      PageAround(u, b.positions, want);
      Pick(u, b.positions, want)
  }

  ghost function StateWith(u: Setup, b: BatchState, want: set<string>, n: nat): BatchState {
    if n == 0 then b else StepTo(u, StateWith(u, b, want, n - 1), want)
  }

  lemma {:induction false} StateLasts(u: Setup, b: BatchState, want: set<string>, n: nat)
    requires Lasting(u, b.positions, want)
    ensures Lasting(u, StateWith(u, b, want, n).positions, want)
  {
    hide FateBatch, Lasting, Pick;
    if n > 0 {
      StateLasts(u, b, want, n - 1);
      var before := StateWith(u, b, want, n - 1);
      PageIsAround(u, before, want);
      LastingStays(u, before, want, PageWith(u, before, want));
    }
  }

  lemma PageIsAround(u: Setup, b: BatchState, want: set<string>)
    requires Lasting(u, b.positions, want)
    ensures Around(u, b.positions, want, PageWith(u, b, want))
    ensures forall x | x in PageWith(u, b, want) :: x in u.cache
  {
    hide MyShard, Lands;
    PageAround(u, b.positions, want);
  }

  lemma RunWith(u: Setup, b: BatchState, want: set<string>) returns (r: MirrorRun)
    requires Lasting(u, b.positions, want)
    ensures IsRun(u, b, r) && forall n: nat, x | x in want :: x in r.pages(n)
  {
    hide FateBatch, PageWith, MyShard, Lands, Lasting, PageChoice;
    r := MirrorRun((n: nat) => PageWith(u, StateWith(u, b, want, n), want), (n: nat) => StateWith(u, b, want, n));
    forall n: nat ensures BatchOk(u, r.states(n), r.pages(n), r.states(n + 1)) && forall x | x in want :: x in r.pages(n) {
      StepWith(u, b, want, n);
    }
  }

  lemma StepWith(u: Setup, b: BatchState, want: set<string>, n: nat)
    requires Lasting(u, b.positions, want)
    ensures var before := StateWith(u, b, want, n);
            && BatchOk(u, before, PageWith(u, before, want), StateWith(u, b, want, n + 1))
            && forall x | x in want :: x in PageWith(u, before, want)
  {
    hide FateBatch, MyShard, Lands, PageWith, Lasting;
    StateLasts(u, b, want, n);
    PageIsAround(u, StateWith(u, b, want, n), want);
  }

  // ---------------------------------------------------------------- which runs stop

  /** Batch after batch, every run stops exactly when no stream of the shard that is behind is stuck. */
  lemma EveryRunStopsIff(u: Setup, b: BatchState)
    requires SetupOk(u)
    ensures (forall r: MirrorRun | IsRun(u, b, r) :: Stops(r)) <==> Stuck(u, b.positions) == {}
  {
    hide IsRun, Stops, MyShard, Lands, Behind;
    if x :| x in Stuck(u, b.positions) {
      StuckRunGoesOn(u, b, x);
    } else {
      forall r: MirrorRun | IsRun(u, b, r) ensures Stops(r) {
        UnstuckRunStops(u, b, r);
      }
    }
  }

  /** No run stops exactly when a stream of the shard is stuck and the other shards' streams do not fill a page. */
  lemma NoRunStopsIff(u: Setup, b: BatchState)
    requires SetupOk(u)
    ensures (forall r: MirrorRun | IsRun(u, b, r) :: !Stops(r))
       <==> Stuck(u, b.positions) != {} && |Foreign(u, b.positions)| < Limit(u.cfg)
  {
    hide IsRun, Stops, MyShard, Lands, Behind, Limit;
    if |Foreign(u, b.positions)| >= Limit(u.cfg) {
      ForeignRunStops(u, b);
    } else if Stuck(u, b.positions) == {} {
      var r := RunWith(u, b, {});
      UnstuckRunStops(u, b, r);
    } else {
      forall r: MirrorRun | IsRun(u, b, r) ensures !Stops(r) {
        CrampedRunGoesOn(u, b, r);
      }
    }
  }

  lemma UnstuckRunStops(u: Setup, b: BatchState, r: MirrorRun)
    requires SetupOk(u) && IsRun(u, b, r) && Stuck(u, b.positions) == {}
    ensures Stops(r)
  {
    hide Stops, MyShard, Lands;
    forall k: nat, x | x in r.pages(k) && MyShard(u.cfg, x) ensures x in u.cache && Lands(u, x) {
      RunStep(u, b, r, k);
      RunKeeps(u, b, r, k);
      assert x !in Stuck(u, r.states(k).positions);
    }
    LandingRunStops(u, b, r);
  }

  lemma StuckRunGoesOn(u: Setup, b: BatchState, x: string)
    requires SetupOk(u) && x in Stuck(u, b.positions)
    ensures exists r: MirrorRun :: IsRun(u, b, r) && !Stops(r)
  {
    hide IsRun, Stops, MyShard, Lands, Behind;
    var r := RunWith(u, b, {x});
    forall k: nat ensures exists y :: y in r.pages(k) && MyShard(u.cfg, y) {
      assert x in {x} && x in r.pages(k) && MyShard(u.cfg, x);
    }
    BusyRunGoesOn(u, b, r);
  }

  lemma CrampedRunGoesOn(u: Setup, b: BatchState, r: MirrorRun)
    requires SetupOk(u) && IsRun(u, b, r)
    requires Stuck(u, b.positions) != {} && |Foreign(u, b.positions)| < Limit(u.cfg)
    ensures !Stops(r)
  {
    hide Stops, MyShard, Lands, Limit;
    var x :| x in Stuck(u, b.positions);
    forall k: nat ensures exists y :: y in r.pages(k) && MyShard(u.cfg, y) {
      RunKeeps(u, b, r, k);
      assert BatchOk(u, r.states(k), r.pages(k), r.states(k + 1));
      assert x in Stuck(u, r.states(k).positions);
      if |r.pages(k)| < Limit(u.cfg) {
        assert x in r.pages(k) && MyShard(u.cfg, x);
      } else if forall y | y in r.pages(k) :: !MyShard(u.cfg, y) {
        PageSize(r.pages(k), Foreign(u, r.states(k).positions));
      }
    }
    BusyRunGoesOn(u, b, r);
  }

  lemma ForeignRunStops(u: Setup, b: BatchState)
    requires SetupOk(u) && |Foreign(u, b.positions)| >= Limit(u.cfg)
    ensures exists r: MirrorRun :: IsRun(u, b, r) && Stops(r)
  {
    hide MyShard, Lands, Behind, Limit, BatchOk;
    var want := Between({}, Foreign(u, b.positions), Limit(u.cfg));
    var r := RunWith(u, b, want);
    RunStep(u, b, r, 0);
    FirstPageIs(u, b, r, want);
    assert Counted(r.states(1)) == 0;
  }

  lemma FirstPageIs(u: Setup, b: BatchState, r: MirrorRun, want: set<string>)
    requires IsRun(u, b, r) && |want| == Limit(u.cfg) && forall x | x in want :: x in r.pages(0)
    ensures forall x | x in r.pages(0) :: x in want
  {
    hide MyShard, FateBatch, Limit, Behind;
    var page := r.pages(0);
    assert BatchOk(u, r.states(0), page, r.states(1));
    forall x | x in page ensures x in want {
      if x !in want {
        CoverSize(page, want + {x});
      }
    }
  }

  lemma {:induction false} CoverSize(page: seq<string>, want: set<string>)
    requires forall x | x in want :: x in page
    ensures |want| <= |page|
    decreases |page|
  {
    if page != [] {
      var n := |page| - 1;
      assert page == page[..n] + [page[n]];
      CoverSize(page[..n], want - {page[n]});
      SmallerSet(want, (want - {page[n]}) + {page[n]});
    }
  }

  /** Unsharded, Run stops exactly when no stream behind is stuck, and then with nothing behind. */
  lemma UnshardedStopsIff(u: Setup, b: BatchState, r: MirrorRun)
    requires SetupOk(u) && u.cfg.totalShards == 0 && IsRun(u, b, r)
    ensures Stops(r) <==> forall x | x in Behind(u.cache, b.positions) :: Lands(u, x)
    ensures forall n: nat | n > 0 && Counted(r.states(n)) == 0 :: Behind(u.cache, r.states(n).positions) == {}
  {
    hide Stops, Lands, Behind, FateBatch;
    assert Foreign(u, b.positions) == {};
    if Stuck(u, b.positions) == {} {
      UnstuckRunStops(u, b, r);
      assert forall x | x in Behind(u.cache, b.positions) :: x !in Stuck(u, b.positions);
    } else {
      CrampedRunGoesOn(u, b, r);
    }
    forall n: nat | n > 0 && Counted(r.states(n)) == 0 ensures Behind(u.cache, r.states(n).positions) == {} {
      RunStep(u, b, r, n - 1);
      assert BatchOk(u, r.states(n - 1), r.pages(n - 1), r.states(n));
      if r.pages(n - 1) != [] {
        OwnOnPage(u.cfg, r.pages(n - 1));
      }
    }
  }

  // ---------------------------------------------------------------- pages in update order

  /** Pages hold the streams behind that were updated first; `rank` is the update time with ties broken. */
  ghost predicate InRankOrder(u: Setup, rank: string -> int, r: MirrorRun) {
    forall n: nat, x, y | x in r.pages(n) && y in Behind(u.cache, r.states(n).positions) && y !in r.pages(n) :: rank(x) < rank(y)
  }

  function OlderForeign(u: Setup, rank: string -> int, positions: map<string, nat>, x: string): set<string> {
    set y | y in Foreign(u, positions) && rank(y) < rank(x)
  }

  /** With pages in update order, Run stops exactly when before every stuck stream of the shard there is a full
      page of older streams of other shards. */
  lemma OrderedRunStopsIff(u: Setup, b: BatchState, rank: string -> int, r: MirrorRun)
    requires SetupOk(u) && IsRun(u, b, r) && InRankOrder(u, rank, r)
    ensures Stops(r)
       <==> forall x | x in Stuck(u, b.positions) :: |OlderForeign(u, rank, b.positions, x)| >= Limit(u.cfg)
  {
    hide Stops, Lands, Limit, MyShard, OlderForeign, Stuck;
    if x :| x in Stuck(u, b.positions) && |OlderForeign(u, rank, b.positions, x)| < Limit(u.cfg) {
      ReachedRunGoesOn(u, b, rank, r, x);
    } else {
      ShadowedRunStops(u, b, rank, r);
    }
  }

  /** A stuck stream is not shut out for good by too few streams of other shards. */
  lemma OpenStuckGoesOn(u: Setup, b: BatchState, r: MirrorRun, x: string, before: set<string>)
    requires SetupOk(u) && IsRun(u, b, r) && x in Stuck(u, b.positions) && |before| < Limit(u.cfg)
    requires forall k: nat, y | x !in r.pages(k) && y in r.pages(k) && y in Foreign(u, b.positions) :: y in before
    ensures !Stops(r)
  {
    hide Stops, MyShard, Lands, Limit, FateBatch;
    forall k: nat ensures exists y :: y in r.pages(k) && MyShard(u.cfg, y) {
      RunKeeps(u, b, r, k);
      assert BatchOk(u, r.states(k), r.pages(k), r.states(k + 1));
      assert x in Stuck(u, r.states(k).positions);
      if x in r.pages(k) {
        assert MyShard(u.cfg, x);
      } else if forall y | y in r.pages(k) :: !MyShard(u.cfg, y) {
        assert forall y | y in r.pages(k) :: y in Foreign(u, r.states(k).positions);
        PageSize(r.pages(k), before);
      }
    }
    BusyRunGoesOn(u, b, r);
  }

  lemma ReachedRunGoesOn(u: Setup, b: BatchState, rank: string -> int, r: MirrorRun, x: string)
    requires SetupOk(u) && IsRun(u, b, r) && InRankOrder(u, rank, r)
    requires x in Stuck(u, b.positions) && |OlderForeign(u, rank, b.positions, x)| < Limit(u.cfg)
    ensures !Stops(r)
  {
    hide Stops, MyShard, Lands, Limit, BatchOk;
    forall k: nat, y | x !in r.pages(k) && y in r.pages(k) && y in Foreign(u, b.positions)
      ensures y in OlderForeign(u, rank, b.positions, x)
    {
      RunKeeps(u, b, r, k);
      assert x in Stuck(u, r.states(k).positions);
    }
    OpenStuckGoesOn(u, b, r, x, OlderForeign(u, rank, b.positions, x));
  }

  /** Pages in update order, where streams updated at the same time may come in any order. */
  ghost predicate ByTime(u: Setup, at: string -> int, r: MirrorRun) {
    forall n: nat, x, y | x in r.pages(n) && y in Behind(u.cache, r.states(n).positions) && y !in r.pages(n) :: at(x) <= at(y)
  }

  lemma ShadowedRunStops(u: Setup, b: BatchState, at: string -> int, r: MirrorRun)
    requires SetupOk(u) && IsRun(u, b, r) && ByTime(u, at, r)
    requires forall x | x in Stuck(u, b.positions) :: |OlderForeign(u, at, b.positions, x)| >= Limit(u.cfg)
    ensures Stops(r)
  {
    hide Stops, MyShard, Lands, Limit, FateBatch;
    forall k: nat, x | x in r.pages(k) && MyShard(u.cfg, x) ensures x in u.cache && Lands(u, x) {
      RunStep(u, b, r, k);
      RunKeeps(u, b, r, k);
      if x in Stuck(u, r.states(k).positions) {
        ShadowedOffPage(u, b, at, r, k, x);
      }
    }
    LandingRunStops(u, b, r);
  }

  lemma ShadowedOffPage(u: Setup, b: BatchState, at: string -> int, r: MirrorRun, k: nat, x: string)
    requires SetupOk(u) && IsRun(u, b, r) && ByTime(u, at, r)
    requires |OlderForeign(u, at, b.positions, x)| >= Limit(u.cfg)
    ensures x !in r.pages(k)
  {
    hide Stops, MyShard, Lands, Limit, FateBatch;
    RunKeeps(u, b, r, k);
    assert BatchOk(u, r.states(k), r.pages(k), r.states(k + 1));
    if x in r.pages(k) {
      var older := OlderForeign(u, at, b.positions, x);
      forall y | y in older ensures y in r.pages(k) {
        assert y in Foreign(u, r.states(k).positions);
      }
      CoverSize(r.pages(k), older + {x});
    }
  }

  // ---------------------------------------------------------------- two runs that do not stop

  const CLEAN := Attempt(true, true, true, true)
  const DOWN := Attempt(false, false, false, false)

  function OneRow(state: Bytes): Cache { map["s" := StateEnv("t", "s", MIRRORED, 1, state)] }

  /** One mirrored row that does not decode keeps an unsharded Run going with nothing down. */
  lemma UndecodableRowGoesOn(cfg: DrainConfig, state: Bytes)
    requires cfg.totalShards == 0
    ensures var u := Setup((s: Bytes) => None, cfg, OneRow(state), (x: string) => CLEAN);
            var b := BatchState(map[], EMPTY_TABLES, 0, 0);
            && (exists r: MirrorRun :: IsRun(u, b, r)) && (forall r: MirrorRun | IsRun(u, b, r) :: !Stops(r))
  {
    hide IsRun, Stops, FateBatch;
    var u := Setup((s: Bytes) => None, cfg, OneRow(state), (x: string) => CLEAN);
    var b := BatchState(map[], EMPTY_TABLES, 0, 0);
    assert "s" in Behind(u.cache, b.positions) && !Lands(u, "s");
    var r := RunWith(u, b, {});
    forall r: MirrorRun | IsRun(u, b, r) ensures !Stops(r) {
      UnshardedStopsIff(u, b, r);
    }
  }

  /** A publisher that stays down keeps an unsharded Run going over any cache with a stream behind. */
  lemma DownPublisherGoesOn(u: Setup, b: BatchState, r: MirrorRun)
    requires SetupOk(u) && u.cfg.totalShards == 0 && IsRun(u, b, r) && forall x :: u.fate(x) == DOWN
    ensures Stops(r) <==> Behind(u.cache, b.positions) == {}
  {
    hide IsRun, Stops;
    UnshardedStopsIff(u, b, r);
    if x :| x in Behind(u.cache, b.positions) {
      assert u.fate(x) == DOWN && !Lands(u, x);
    }
  }
}
