/** Runs of the state drain with pages in update order: they exist, and which of them stop when several streams
    were updated at the same time and the query breaks such ties as it likes
    (adapters/storage/sqlite/queries/state_stream.sql). */
module MirrorOrder {
  import opened Basics
  import opened Mirror
  import opened MirrorRuns

  // ---------------------------------------------------------------- a run for every strict order

  ghost predicate Injective(rank: string -> int, all: set<string>) {
    forall x, y | x in all && y in all && rank(x) == rank(y) :: x == y
  }

  lemma {:induction false} LeastOf(all: set<string>, rank: string -> int) returns (m: string)
    requires all != {} && Injective(rank, all)
    ensures m in all && forall y | y in all && y != m :: rank(m) < rank(y)
    decreases |all|
  {
    var x :| x in all;
    if all == {x} {
      m := x;
    } else {
      assert all == (all - {x}) + {x};
      var least := LeastOf(all - {x}, rank);
      m := if rank(x) < rank(least) then x else least;
    }
  }

  /** The n lowest elements. */
  lemma {:induction false} LowestOf(all: set<string>, rank: string -> int, n: nat) returns (s: set<string>)
    requires n <= |all| && Injective(rank, all)
    ensures s <= all && |s| == n && forall x, y | x in s && y in all && y !in s :: rank(x) < rank(y)
  {
    if n == 0 {
      s := {};
    } else {
      var lower := LowestOf(all, rank, n - 1);
      assert lower != all;
      var left :| left in all && left !in lower;
      assert left in all - lower;
      var m := LeastOf(all - lower, rank);
      s := lower + {m};
    }
  }

  ghost predicate RankPage(u: Setup, rank: string -> int, positions: map<string, nat>, page: seq<string>) {
    && PageChoice(u.cfg, u.cache, positions, page)
    && forall x, y | x in page && y in Behind(u.cache, positions) && y !in page :: rank(x) < rank(y)
  }

  lemma RankPageExists(u: Setup, rank: string -> int, positions: map<string, nat>)
    requires Injective(rank, u.cache.Keys)
    ensures exists page :: RankPage(u, rank, positions, page)
  {
    hide Limit;
    var all := Behind(u.cache, positions);
    assert Injective(rank, all);
    var s := LowestOf(all, rank, Min(Limit(u.cfg), |all|));
    var page := SeqOf(s);
    if |page| < Limit(u.cfg) {
      assert s == all by {
        if s != all {
          var x :| x in all && x !in s;
          SmallerSet(s + {x}, all);
        }
      }
    }
    assert RankPage(u, rank, positions, page);
  }

  ghost function RankPageOf(u: Setup, rank: string -> int, positions: map<string, nat>): seq<string> {
    if exists page :: RankPage(u, rank, positions, page) then
      var page :| RankPage(u, rank, positions, page);
      page
    else []
  }

  ghost function RankState(u: Setup, rank: string -> int, b: BatchState, n: nat): BatchState {
    if n == 0 then b
    else
      var before := RankState(u, rank, b, n - 1);
      FateBatch(u, RankPageOf(u, rank, before.positions), before.(delivered := 0, failed := 0))
  }

  /** Whatever strict order the streams have, there is a run with its pages in that order. */
  lemma OrderedRunExists(u: Setup, b: BatchState, rank: string -> int) returns (r: MirrorRun)
    requires Injective(rank, u.cache.Keys)
    ensures IsRun(u, b, r) && InRankOrder(u, rank, r)
  {
    hide FateBatch, RankPageOf, PageChoice, Behind;
    r := MirrorRun((n: nat) => RankPageOf(u, rank, RankState(u, rank, b, n).positions), (n: nat) => RankState(u, rank, b, n));
    forall n: nat
      ensures RankPage(u, rank, r.states(n).positions, r.pages(n)) && BatchOk(u, r.states(n), r.pages(n), r.states(n + 1))
    {
      RankStep(u, rank, b, n);
    }
  }

  lemma RankStep(u: Setup, rank: string -> int, b: BatchState, n: nat)
    requires Injective(rank, u.cache.Keys)
    ensures var before := RankState(u, rank, b, n);
            && RankPage(u, rank, before.positions, RankPageOf(u, rank, before.positions))
            && BatchOk(u, before, RankPageOf(u, rank, before.positions), RankState(u, rank, b, n + 1))
  {
    hide FateBatch, PageChoice;
    RankPageExists(u, rank, RankState(u, rank, b, n).positions);
  }

  // ---------------------------------------------------------------- breaking ties

  function IndexIn(ids: seq<string>, x: string): (i: nat)
    ensures i <= |ids| && (x in ids ==> i < |ids| && ids[i] == x)
  {
    if ids == [] then 0 else if ids[0] == x then 0 else 1 + IndexIn(ids[1..], x)
  }

  /** The update times, then the favoured streams first, then any fixed order. */
  function Favouring(at: string -> int, favoured: set<string>, ids: seq<string>, x: string): int {
    (2 * at(x) + if x in favoured then 0 else 1) * (|ids| + 1) + IndexIn(ids, x)
  }

  lemma Lexicographic(a: int, c: int, i: nat, j: nat, n: nat)
    requires i < n && j < n
    ensures a < c ==> a * n + i < c * n + j
    ensures a == c && i != j ==> a * n + i != c * n + j
  {
    if a < c {
      assert (a + 1) * n <= c * n by {
        MulMonotone(a + 1, c, n);
      }
      assert (a + 1) * n == a * n + n;
    }
  }

  lemma {:induction false} MulMonotone(a: int, c: int, n: nat)
    requires a <= c
    ensures a * n <= c * n
    decreases n
  {
    if n > 0 {
      MulMonotone(a, c, n - 1);
      assert a * n == a * (n - 1) + a && c * n == c * (n - 1) + c;
    }
  }

  lemma FavouringOrders(at: string -> int, favoured: set<string>, ids: seq<string>, x: string, y: string)
    requires x in ids && y in ids && x != y
    ensures Favouring(at, favoured, ids, x) != Favouring(at, favoured, ids, y)
    ensures at(x) < at(y) ==> Favouring(at, favoured, ids, x) < Favouring(at, favoured, ids, y)
    ensures at(x) == at(y) && x in favoured && y !in favoured ==> Favouring(at, favoured, ids, x) < Favouring(at, favoured, ids, y)
  {
    hide IndexIn;
    var a := 2 * at(x) + if x in favoured then 0 else 1;
    var c := 2 * at(y) + if y in favoured then 0 else 1;
    Lexicographic(a, c, IndexIn(ids, x), IndexIn(ids, y), |ids| + 1);
    Lexicographic(c, a, IndexIn(ids, y), IndexIn(ids, x), |ids| + 1);
  }

  /** A run in update order that breaks every tie for the favoured streams. */
  lemma FavouringRun(u: Setup, b: BatchState, at: string -> int, favoured: set<string>)
    returns (rank: string -> int, r: MirrorRun)
    ensures IsRun(u, b, r) && InRankOrder(u, rank, r) && ByTime(u, at, r)
    ensures forall x, y | x in u.cache && y in u.cache && at(x) < at(y) :: rank(x) < rank(y)
    ensures forall x, y | x in u.cache && y in u.cache && at(x) == at(y) && x in favoured && y !in favoured :: rank(x) < rank(y)
  {
    hide IsRun, Favouring;
    var ids := SeqOf(u.cache.Keys);
    rank := x => Favouring(at, favoured, ids, x);
    forall x, y | x in u.cache && y in u.cache && x != y
      ensures rank(x) != rank(y) && (at(x) < at(y) ==> rank(x) < rank(y))
      ensures at(x) == at(y) && x in favoured && y !in favoured ==> rank(x) < rank(y)
    {
      FavouringOrders(at, favoured, ids, x, y);
    }
    r := OrderedRunExists(u, b, rank);
    PagesInCache(u, b, r);
    forall n: nat, x, y | x in r.pages(n) && y in Behind(u.cache, r.states(n).positions) && y !in r.pages(n)
      ensures at(x) <= at(y)
    {
      assert rank(x) < rank(y);
    }
  }

  lemma PagesInCache(u: Setup, b: BatchState, r: MirrorRun)
    requires IsRun(u, b, r)
    ensures forall n: nat, x | x in r.pages(n) :: x in u.cache
  {
    hide FateBatch;
    forall n: nat, x | x in r.pages(n) ensures x in u.cache {
      assert BatchOk(u, r.states(n), r.pages(n), r.states(n + 1));
    }
  }

  // ---------------------------------------------------------------- which of them stop

  function NotNewerForeign(u: Setup, at: string -> int, positions: map<string, nat>, x: string): set<string> {
    set y | y in Foreign(u, positions) && at(y) <= at(x)
  }

  /** With pages in update order and ties broken in any way, every Run stops exactly when before every stuck stream
      there is a full page of streams of other shards that are older. */
  lemma EveryTimedRunStopsIff(u: Setup, b: BatchState, at: string -> int)
    requires SetupOk(u)
    ensures (forall r: MirrorRun | IsRun(u, b, r) && ByTime(u, at, r) :: Stops(r))
       <==> forall x | x in Stuck(u, b.positions) :: |OlderForeign(u, at, b.positions, x)| >= Limit(u.cfg)
  {
    hide Stops, IsRun, ByTime, MyShard, Lands, Limit, Behind;
    if x :| x in Stuck(u, b.positions) && |OlderForeign(u, at, b.positions, x)| < Limit(u.cfg) {
      var rank, r := FavouringRun(u, b, at, {x});
      FavouredOlder(u, b, at, rank, x);
      ReachedRunGoesOn(u, b, rank, r, x);
    } else {
      forall r: MirrorRun | IsRun(u, b, r) && ByTime(u, at, r) ensures Stops(r) {
        ShadowedRunStops(u, b, at, r);
      }
    }
  }

  lemma FavouredOlder(u: Setup, b: BatchState, at: string -> int, rank: string -> int, x: string)
    requires x in Stuck(u, b.positions)
    requires forall y, z | y in u.cache && z in u.cache && at(y) < at(z) :: rank(y) < rank(z)
    requires forall y, z | y in u.cache && z in u.cache && at(y) == at(z) && y in {x} && z !in {x} :: rank(y) < rank(z)
    ensures |OlderForeign(u, rank, b.positions, x)| <= |OlderForeign(u, at, b.positions, x)|
  {
    hide MyShard, Lands;
    forall y | y in OlderForeign(u, rank, b.positions, x) ensures y in OlderForeign(u, at, b.positions, x) {
      assert y != x && x in {x} && y !in {x};
    }
    SmallerSet(OlderForeign(u, rank, b.positions, x), OlderForeign(u, at, b.positions, x));
  }

  /** No Run stops exactly when some stuck stream has fewer than a page of streams of other shards that are not
      newer. */
  lemma NoTimedRunStopsIff(u: Setup, b: BatchState, at: string -> int)
    requires SetupOk(u)
    ensures (forall r: MirrorRun | IsRun(u, b, r) && ByTime(u, at, r) :: !Stops(r))
       <==> exists x :: x in Stuck(u, b.positions) && |NotNewerForeign(u, at, b.positions, x)| < Limit(u.cfg)
  {
    hide Stops, IsRun, ByTime, MyShard, Lands, Limit, Behind;
    if x :| x in Stuck(u, b.positions) && |NotNewerForeign(u, at, b.positions, x)| < Limit(u.cfg) {
      forall r: MirrorRun | IsRun(u, b, r) && ByTime(u, at, r) ensures !Stops(r) {
        TimedRunGoesOn(u, b, at, r, x);
      }
    } else {
      var rank, r := FavouringRun(u, b, at, Foreign(u, b.positions));
      forall x | x in Stuck(u, b.positions) ensures |OlderForeign(u, rank, b.positions, x)| >= Limit(u.cfg) {
        ForeignFirst(u, b, at, rank, x);
      }
      OrderedRunStopsIff(u, b, rank, r);
    }
  }

  lemma TimedRunGoesOn(u: Setup, b: BatchState, at: string -> int, r: MirrorRun, x: string)
    requires SetupOk(u) && IsRun(u, b, r) && ByTime(u, at, r)
    requires x in Stuck(u, b.positions) && |NotNewerForeign(u, at, b.positions, x)| < Limit(u.cfg)
    ensures !Stops(r)
  {
    hide Stops, MyShard, Lands, Limit, BatchOk;
    forall k: nat, y | x !in r.pages(k) && y in r.pages(k) && y in Foreign(u, b.positions)
      ensures y in NotNewerForeign(u, at, b.positions, x)
    {
      RunKeeps(u, b, r, k);
      assert x in Stuck(u, r.states(k).positions);
    }
    OpenStuckGoesOn(u, b, r, x, NotNewerForeign(u, at, b.positions, x));
  }

  lemma ForeignFirst(u: Setup, b: BatchState, at: string -> int, rank: string -> int, x: string)
    requires x in Stuck(u, b.positions)
    requires forall y, z | y in u.cache && z in u.cache && at(y) < at(z) :: rank(y) < rank(z)
    requires forall y, z | y in u.cache && z in u.cache && at(y) == at(z)
                           && y in Foreign(u, b.positions) && z !in Foreign(u, b.positions) :: rank(y) < rank(z)
    ensures |OlderForeign(u, rank, b.positions, x)| >= |NotNewerForeign(u, at, b.positions, x)|
  {
    hide MyShard, Lands;
    SmallerSet(NotNewerForeign(u, at, b.positions, x), OlderForeign(u, rank, b.positions, x));
  }
}
