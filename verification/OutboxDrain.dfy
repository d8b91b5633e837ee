/** The batch and Run loops of the drain: they stop, and offer each row at most once (outbox/drain.go). */
module OutboxDrain {
  import opened Basics
  import opened StreamIds
  import opened Store
  import opened Shards
  import opened Outbox
  import opened OutboxOrder

  // ---------------------------------------------------------------- remaining work

  /** A row this Run may still offer. */
  predicate Owed(cfg: DrainConfig, halted: set<string>, r: OutboxRow) {
    Live(cfg, r) && KeyOf(r.sid) !in halted
  }

  function Work(cfg: DrainConfig, halted: set<string>, rows: seq<OutboxRow>): nat {
    if rows == [] then 0
    else Work(cfg, halted, rows[..|rows| - 1]) + (if Owed(cfg, halted, rows[|rows| - 1]) then 1 else 0)
  }

  ghost predicate OwesLess(cfg: DrainConfig, h: set<string>, rows: seq<OutboxRow>, h': set<string>, rows': seq<OutboxRow>) {
    |rows| == |rows'| && forall i | 0 <= i < |rows| && Owed(cfg, h', rows'[i]) :: Owed(cfg, h, rows[i])
  }

  lemma {:induction false} WorkFalls(cfg: DrainConfig, h: set<string>, rows: seq<OutboxRow>, h': set<string>, rows': seq<OutboxRow>)
    requires OwesLess(cfg, h, rows, h', rows')
    ensures Work(cfg, h', rows') <= Work(cfg, h, rows)
    ensures forall i | 0 <= i < |rows| && Owed(cfg, h, rows[i]) && !Owed(cfg, h', rows'[i]) ::
              Work(cfg, h', rows') < Work(cfg, h, rows)
    decreases |rows|
  {
    if rows != [] {
      var n := |rows| - 1;
      WorkFalls(cfg, h, rows[..n], h', rows'[..n]);
      forall i | 0 <= i < |rows| && Owed(cfg, h, rows[i]) && !Owed(cfg, h', rows'[i])
        ensures Work(cfg, h', rows') < Work(cfg, h, rows)
      {
        if i < n {
          assert rows[..n][i] == rows[i] && rows'[..n][i] == rows'[i];
        }
      }
    }
  }

  // ---------------------------------------------------------------- one batch as a function

  /** run is None when the batch ended with an error. */
  datatype BatchEnd = BatchEnd(rows: seq<OutboxRow>, run: Option<Runner>, offers: seq<nat>, published: nat)

  /** The batch over the rest of the page; script(n) is how the n-th publish of the Run goes. */
  function Batch(cfg: DrainConfig, k: nat, rows: seq<OutboxRow>, run: Runner, offers: seq<nat>, script: nat -> Outcome)
    : BatchEnd
    decreases |run.page|
  {
    if run.page == [] then BatchEnd(rows, Some(run), offers, 0)
    else
      var o := script(|offers|);
      var (rows', run') := Process(cfg, k, rows, run, o);
      var offers' := if Offers(cfg, k, run) then offers + [run.page[0].position] else offers;
      if run'.None? then BatchEnd(rows', None, offers', 0)
      else
        var rest := Batch(cfg, k, rows', run'.value, offers', script);
        rest.(published := rest.published + if Offers(cfg, k, run) && o.published then 1 else 0)
  }

  // ---------------------------------------------------------------- a Run alone on its table

  ghost predicate Distinct(s: seq<nat>) { forall i, j | 0 <= i < j < |s| :: s[i] != s[j] }

  /** The page is what the table holds now, in order, and all of it is live. */
  ghost predicate PageCurrent(cfg: DrainConfig, rows: seq<OutboxRow>, page: seq<OutboxRow>) {
    && (forall a | 0 <= a < |page| :: page[a] in rows && Live(cfg, page[a]))
    && (forall a, b | 0 <= a < b < |page| :: page[a].position < page[b].position)
  }

  predicate DoneWith(cfg: DrainConfig, halted: set<string>, rows: seq<OutboxRow>, p: nat) {
    forall q | q in rows && q.position == p :: !Owed(cfg, halted, q)
  }

  ghost predicate Alone(cfg: DrainConfig, rows: seq<OutboxRow>, run: Runner, offers: seq<nat>) {
    && Ordered(rows) && PageCurrent(cfg, rows, run.page)
    && Distinct(offers) && (forall p | p in offers :: DoneWith(cfg, run.halted, rows, p))
  }

  /** Handling an offered row changes that row only, and this Run owes it no more. */
  lemma OfferSettles(cfg: DrainConfig, k: nat, rows: seq<OutboxRow>, run: Runner, o: Outcome, i: nat)
    requires Ordered(rows) && PageCurrent(cfg, rows, run.page) && run.page != [] && Offers(cfg, k, run)
    requires Process(cfg, k, rows, run, o).1.Some? && i < |rows|
    ensures var (rows', run') := Process(cfg, k, rows, run, o);
            && |rows'| == |rows| && SameRow(rows[i], rows'[i])
            && (rows[i].position != run.page[0].position ==> rows'[i] == rows[i])
            && (rows[i].position == run.page[0].position ==> !Owed(cfg, run'.value.halted, rows'[i]))
            && run.halted <= run'.value.halted && run'.value.page == run.page[1..]
  {
    assert run.page[0] in rows;
    assert rows[i].position == run.page[0].position ==> rows[i] == run.page[0];
  }

  lemma OfferOrdered(cfg: DrainConfig, k: nat, rows: seq<OutboxRow>, run: Runner, o: Outcome)
    requires run.page != [] && Ordered(rows)
    ensures Ordered(Process(cfg, k, rows, run, o).0) && |Process(cfg, k, rows, run, o).0| == |rows|
  {
  }

  lemma OfferLowersWork(cfg: DrainConfig, k: nat, rows: seq<OutboxRow>, run: Runner, o: Outcome)
    requires Ordered(rows) && PageCurrent(cfg, rows, run.page) && run.page != [] && Offers(cfg, k, run)
    requires Process(cfg, k, rows, run, o).1.Some?
    ensures var (rows', run') := Process(cfg, k, rows, run, o);
            Work(cfg, run'.value.halted, rows') < Work(cfg, run.halted, rows)
  {
    var (rows', run') := Process(cfg, k, rows, run, o);
    forall i | 0 <= i < |rows|
      ensures |rows'| == |rows| && (Owed(cfg, run'.value.halted, rows'[i]) ==> Owed(cfg, run.halted, rows[i]))
      ensures rows[i] == run.page[0] ==> !Owed(cfg, run'.value.halted, rows'[i])
    {
      OfferSettles(cfg, k, rows, run, o, i);
    }
    assert run.page[0] in rows;
    var i :| 0 <= i < |rows| && rows[i] == run.page[0];
    WorkFalls(cfg, run.halted, rows, run'.value.halted, rows');
    assert Owed(cfg, run.halted, rows[i]);
  }

  lemma OfferKeepsPage(cfg: DrainConfig, k: nat, rows: seq<OutboxRow>, run: Runner, o: Outcome)
    requires Ordered(rows) && PageCurrent(cfg, rows, run.page) && run.page != [] && Offers(cfg, k, run)
    requires Process(cfg, k, rows, run, o).1.Some?
    ensures PageCurrent(cfg, Process(cfg, k, rows, run, o).0, run.page[1..])
  {
    var rows' := Process(cfg, k, rows, run, o).0;
    var page := run.page[1..];
    forall a | 0 <= a < |page| ensures page[a] in rows' && Live(cfg, page[a]) {
      assert page[a] == run.page[a + 1] && page[a] in rows;
      var i :| 0 <= i < |rows| && rows[i] == page[a];
      OfferSettles(cfg, k, rows, run, o, i);
    }
  }

  lemma OfferKeepsDone(cfg: DrainConfig, k: nat, rows: seq<OutboxRow>, run: Runner, o: Outcome, p: nat)
    requires Ordered(rows) && PageCurrent(cfg, rows, run.page) && run.page != [] && Offers(cfg, k, run)
    requires Process(cfg, k, rows, run, o).1.Some?
    requires p == run.page[0].position || DoneWith(cfg, run.halted, rows, p)
    ensures var (rows', run') := Process(cfg, k, rows, run, o); DoneWith(cfg, run'.value.halted, rows', p)
  {
    var (rows', run') := Process(cfg, k, rows, run, o);
    OfferOrdered(cfg, k, rows, run, o);
    forall q | q in rows' && q.position == p ensures !Owed(cfg, run'.value.halted, q) {
      var i :| 0 <= i < |rows'| && rows'[i] == q;
      OfferSettles(cfg, k, rows, run, o, i);
      assert rows[i] in rows;
    }
  }

  /** An offered row was not offered before. */
  lemma OfferIsNew(cfg: DrainConfig, k: nat, rows: seq<OutboxRow>, run: Runner, offers: seq<nat>)
    requires Alone(cfg, rows, run, offers) && run.page != [] && Offers(cfg, k, run)
    ensures run.page[0].position !in offers && Distinct(offers + [run.page[0].position])
  {
    var r := run.page[0];
    assert r in rows && Owed(cfg, run.halted, r);
    assert !DoneWith(cfg, run.halted, rows, r.position);
  }

  lemma StepAlone(cfg: DrainConfig, k: nat, rows: seq<OutboxRow>, run: Runner, offers: seq<nat>, o: Outcome)
    requires Alone(cfg, rows, run, offers) && run.page != []
    requires Process(cfg, k, rows, run, o).1.Some?
    ensures var (rows', run') := Process(cfg, k, rows, run, o);
            Alone(cfg, rows', run'.value, if Offers(cfg, k, run) then offers + [run.page[0].position] else offers)
  {
    var (rows', run') := Process(cfg, k, rows, run, o);
    if Offers(cfg, k, run) {
      OfferIsNew(cfg, k, rows, run, offers);
      OfferKeepsPage(cfg, k, rows, run, o);
      OfferOrdered(cfg, k, rows, run, o);
      assert run'.value.page == run.page[1..];
      forall p | p in offers + [run.page[0].position] ensures DoneWith(cfg, run'.value.halted, rows', p) {
        OfferKeepsDone(cfg, k, rows, run, o, p);
      }
    }
  }

  /** Rows that were not offered are as they were. */
  ghost predicate OnlyOffered(rows: seq<OutboxRow>, rows': seq<OutboxRow>, offers: seq<nat>) {
    |rows| == |rows'| && forall i | 0 <= i < |rows| :: SameRow(rows[i], rows'[i]) && (rows[i].position in offers || rows'[i] == rows[i])
  }

  lemma OfferTouchesOne(cfg: DrainConfig, k: nat, rows: seq<OutboxRow>, run: Runner, o: Outcome, offers: seq<nat>)
    requires run.page != [] && (Offers(cfg, k, run) ==> run.page[0].position in offers)
    ensures OnlyOffered(rows, Process(cfg, k, rows, run, o).0, offers)
  {
  }

  lemma OnlyOfferedRefl(rows: seq<OutboxRow>, offers: seq<nat>)
    ensures OnlyOffered(rows, rows, offers)
  {
  }

  lemma OnlyOfferedTrans(a: seq<OutboxRow>, b: seq<OutboxRow>, c: seq<OutboxRow>, offers: seq<nat>, more: seq<nat>)
    requires OnlyOffered(a, b, offers) && OnlyOffered(b, c, more) && offers <= more
    ensures OnlyOffered(a, c, more)
  {
    forall i | 0 <= i < |a| ensures SameRow(a[i], c[i]) && (a[i].position in more || c[i] == a[i]) {
      assert SameRow(a[i], b[i]) && SameRow(b[i], c[i]);
    }
  }

  /** A batch offers no row twice, counting earlier batches of the Run, and every offer lowers the work. */
  lemma {:induction false} BatchLaws(cfg: DrainConfig, k: nat, rows: seq<OutboxRow>, run: Runner, offers: seq<nat>, script: nat -> Outcome)
    requires Alone(cfg, rows, run, offers)
    ensures var e := Batch(cfg, k, rows, run, offers, script);
            && offers <= e.offers && Distinct(e.offers) && Ordered(e.rows) && OnlyOffered(rows, e.rows, e.offers)
            && (e.run.Some? ==>
                  && e.run.value.page == [] && Alone(cfg, e.rows, e.run.value, e.offers)
                  && Work(cfg, e.run.value.halted, e.rows) + |e.offers| <= Work(cfg, run.halted, rows) + |offers|)
    decreases |run.page|
  {
    hide OnlyOffered, Ordered, PageCurrent, DoneWith;
    OnlyOfferedRefl(rows, offers);
    if run.page != [] {
      var o := script(|offers|);
      var (rows', run') := Process(cfg, k, rows, run, o);
      var offers' := if Offers(cfg, k, run) then offers + [run.page[0].position] else offers;
      if Offers(cfg, k, run) {
        OfferIsNew(cfg, k, rows, run, offers);
      }
      OfferOrdered(cfg, k, rows, run, o);
      OfferTouchesOne(cfg, k, rows, run, o, offers');
      if run'.Some? {
        StepAlone(cfg, k, rows, run, offers, o);
        if Offers(cfg, k, run) {
          OfferLowersWork(cfg, k, rows, run, o);
        }
        BatchLaws(cfg, k, rows', run'.value, offers', script);
        var e := Batch(cfg, k, rows', run'.value, offers', script);
        OnlyOfferedTrans(rows, rows', e.rows, offers', e.offers);
      }
    }
  }

  /** A batch that offered nothing left the table alone, and had only rows of other shards or of halted streams. */
  lemma {:induction false} IdleBatch(cfg: DrainConfig, k: nat, rows: seq<OutboxRow>, run: Runner, offers: seq<nat>, script: nat -> Outcome)
    requires Alone(cfg, rows, run, offers)
    requires Batch(cfg, k, rows, run, offers, script).offers == offers
    ensures var e := Batch(cfg, k, rows, run, offers, script);
            e.rows == rows && e.run == Some(run.(page := []))
    ensures forall r | r in run.page :: !Open(cfg, k, run, r)
    decreases |run.page|
  {
    if run.page != [] {
      if Offers(cfg, k, run) {
        OfferGrows(cfg, k, rows, run, offers, script);
      } else {
        StepAlone(cfg, k, rows, run, offers, script(|offers|));
        IdleBatch(cfg, k, rows, run.(page := run.page[1..]), offers, script);
        assert run.page == [run.page[0]] + run.page[1..];
      }
    }
  }

  lemma OfferGrows(cfg: DrainConfig, k: nat, rows: seq<OutboxRow>, run: Runner, offers: seq<nat>, script: nat -> Outcome)
    requires Alone(cfg, rows, run, offers) && run.page != [] && Offers(cfg, k, run)
    ensures |Batch(cfg, k, rows, run, offers, script).offers| > |offers|
  {
    var o := script(|offers|);
    var (rows', run') := Process(cfg, k, rows, run, o);
    if run'.Some? {
      StepAlone(cfg, k, rows, run, offers, o);
      BatchLaws(cfg, k, rows', run'.value, offers + [run.page[0].position], script);
    }
  }

  lemma {:induction false} PageIsCurrent(cfg: DrainConfig, all: seq<OutboxRow>, rows: seq<OutboxRow>, now: nat, limit: nat)
    requires Ordered(rows)
    ensures PageCurrent(cfg, rows, PageFrom(cfg, all, rows, now, limit))
    decreases |rows|
  {
    hide Head, Due, TenantOk;
    if rows != [] && limit > 0 {
      var rest := PageFrom(cfg, all, rows[1..], now, if Selected(cfg, all, rows[0], now) then limit - 1 else limit);
      PageIsCurrent(cfg, all, rows[1..], now, if Selected(cfg, all, rows[0], now) then limit - 1 else limit);
      forall a | 0 <= a < |rest| ensures rest[a] in rows && rows[0].position < rest[a].position {
        assert rest[a] in rows[1..];
      }
    }
  }

  // ---------------------------------------------------------------- what a page leaves out

  function SelectedCount(cfg: DrainConfig, all: seq<OutboxRow>, rows: seq<OutboxRow>, now: nat): nat
    decreases |rows|
  {
    if rows == [] then 0
    else (if Selected(cfg, all, rows[0], now) then 1 else 0) + SelectedCount(cfg, all, rows[1..], now)
  }

  /** The limit is applied before the tenant filter: a selected row of the tenant is on the page exactly when
      fewer than `limit` selected rows of any tenant stand before it. */
  lemma {:induction false} PageHolds(cfg: DrainConfig, all: seq<OutboxRow>, rows: seq<OutboxRow>, now: nat, limit: nat, i: nat)
    requires Ordered(rows) && i < |rows| && Selected(cfg, all, rows[i], now) && TenantOk(cfg, rows[i])
    ensures rows[i] in PageFrom(cfg, all, rows, now, limit) <==> SelectedCount(cfg, all, rows[..i], now) < limit
    decreases |rows|
  {
    hide Selected, TenantOk;
    if limit > 0 {
      var first := Selected(cfg, all, rows[0], now);
      var left := if first then limit - 1 else limit;
      var rest := PageFrom(cfg, all, rows[1..], now, left);
      var page := PageFrom(cfg, all, rows, now, limit);
      assert page == (if first && TenantOk(cfg, rows[0]) then [rows[0]] else []) + rest;
      if i == 0 {
        assert page[0] == rows[0] && rows[..0] == [];
      } else {
        PageHolds(cfg, all, rows[1..], now, left, i - 1);
        assert rows[..i][0] == rows[0] && rows[..i][1..] == rows[1..][..i - 1];
        assert rows[1..][i - 1] == rows[i] && rows[0] != rows[i];
      }
    }
  }

  /** A row of this tenant that the next page would have to hold if the limit left room for it. */
  predicate Roomed(cfg: DrainConfig, rows: seq<OutboxRow>, now: nat, i: nat)
    requires i < |rows|
  {
    && Selected(cfg, rows, rows[i], now) && TenantOk(cfg, rows[i])
    && SelectedCount(cfg, rows, rows[..i], now) < Limit(cfg)
  }

  lemma RoomedOnPage(cfg: DrainConfig, rows: seq<OutboxRow>, now: nat)
    requires Ordered(rows)
    ensures forall i: nat | i < |rows| && Roomed(cfg, rows, now, i) :: rows[i] in PendingPage(cfg, rows, now)
  {
    forall i: nat | i < |rows| && Roomed(cfg, rows, now, i) ensures rows[i] in PendingPage(cfg, rows, now) {
      PageHolds(cfg, rows, rows, now, Limit(cfg), i);
    }
  }

  function Xs(n: nat): string { if n == 0 then "" else "x" + Xs(n - 1) }

  lemma {:induction false} XsLength(n: nat)
    ensures |Xs(n)| == n
  {
    if n > 0 {
      XsLength(n - 1);
    }
  }

  function FreshRow(tenant: string, position: nat): OutboxRow {
    OutboxRow(StreamId(tenant, "a", "b"), 1, position, "e", 0, None, Pending)
  }

  /** One page of other tenants' rows, then a row of this tenant. */
  function CrowdedTable(cfg: DrainConfig): seq<OutboxRow> {
    seq(Limit(cfg), i requires 0 <= i => FreshRow(cfg.tenant + Xs(i + 1), i + 1)) + [FreshRow(cfg.tenant, Limit(cfg) + 1)]
  }

  lemma CrowdedSize(cfg: DrainConfig)
    ensures |CrowdedTable(cfg)| == Limit(cfg) + 1
  {
  }

  lemma CrowdedFacts(cfg: DrainConfig, i: nat, j: nat)
    requires i < j <= Limit(cfg)
    ensures |CrowdedTable(cfg)| == Limit(cfg) + 1
    ensures var rows := CrowdedTable(cfg);
            && rows[i].sid != rows[j].sid && rows[i].position < rows[j].position
            && rows[i].sid.tenant != cfg.tenant && Fresh(rows[i]) && Fresh(rows[j])
  {
    var rows := CrowdedTable(cfg);
    XsLength(i + 1);
    XsLength(j + 1);
    assert |rows[i].sid.tenant| == |cfg.tenant| + i + 1;
    assert j < Limit(cfg) ==> |rows[j].sid.tenant| == |cfg.tenant| + j + 1;
  }

  lemma {:induction false} AllSelectedCount(cfg: DrainConfig, all: seq<OutboxRow>, rows: seq<OutboxRow>, now: nat)
    requires forall r | r in rows :: Selected(cfg, all, r, now)
    ensures SelectedCount(cfg, all, rows, now) == |rows|
    decreases |rows|
  {
    if rows != [] {
      assert rows[0] in rows;
      AllSelectedCount(cfg, all, rows[1..], now);
    }
  }

  /** A drain that is scoped to a tenant can read an empty page, and so end its Run normally, while a fresh row
      of that tenant is due. */
  lemma OtherTenantsCrowdOut(cfg: DrainConfig, now: nat)
    requires cfg.tenant != ""
    ensures var rows, n := CrowdedTable(cfg), Limit(cfg);
            && EnqueueOk([], rows) && Selected(cfg, rows, rows[n], now) && TenantOk(cfg, rows[n])
            && PendingPage(cfg, rows, now) == []
  {
    var rows, n := CrowdedTable(cfg), Limit(cfg);
    CrowdedOrdered(cfg);
    forall r | r in rows ensures Selected(cfg, rows, r, now) {
      CrowdedSelected(cfg, r, now);
    }
    AllSelectedCount(cfg, rows, rows[..n], now);
    PageHolds(cfg, rows, rows, now, n, n);
    var page := PendingPage(cfg, rows, now);
    if page != [] {
      var j := PageShape(cfg, rows, rows, now, n, 0);
      if j < n {
        CrowdedFacts(cfg, j, n);
      }
    }
  }

  lemma CrowdedFresh(cfg: DrainConfig, r: OutboxRow)
    requires r in CrowdedTable(cfg)
    ensures Fresh(r) && r.version == 1
  {
  }

  lemma CrowdedApart(cfg: DrainConfig)
    ensures Ordered(CrowdedTable(cfg))
  {
    hide CrowdedTable, Limit;
    var rows := CrowdedTable(cfg);
    CrowdedSize(cfg);
    forall i, j | 0 <= i < j < |rows| ensures rows[i].position < rows[j].position && rows[i].sid != rows[j].sid {
      CrowdedFacts(cfg, i, j);
    }
  }

  lemma CrowdedOrdered(cfg: DrainConfig)
    ensures var rows := CrowdedTable(cfg); Ordered(rows) && EnqueueOk([], rows) && forall r | r in rows :: Fresh(r)
  {
    hide CrowdedTable, Fresh, Limit, Ordered;
    var rows := CrowdedTable(cfg);
    CrowdedApart(cfg);
    forall r | r in rows ensures Fresh(r) {
      CrowdedFresh(cfg, r);
    }
    assert [] + rows == rows;
  }

  lemma CrowdedSelected(cfg: DrainConfig, r: OutboxRow, now: nat)
    requires r in CrowdedTable(cfg)
    ensures Selected(cfg, CrowdedTable(cfg), r, now)
  {
    hide CrowdedTable;
    var rows := CrowdedTable(cfg);
    CrowdedFresh(cfg, r);
    forall q | q in rows ensures q.version == r.version {
      CrowdedFresh(cfg, q);
    }
  }

  // ---------------------------------------------------------------- the loops

  datatype RunEnd = Drained | Failed

  /** What the last batch of a Run started from: the table, the halted streams and the time its page was read. */
  datatype LastBatch = LastBatch(rows: seq<OutboxRow>, halted: set<string>, now: nat)

  /** Nothing on the page at this time is for this Run; nor is any selected row of the tenant that the page limit
      leaves room for. */
  ghost predicate NothingOpen(cfg: DrainConfig, shard: nat, rows: seq<OutboxRow>, run: Runner, now: nat) {
    && (forall r | r in PendingPage(cfg, rows, now) :: !Open(cfg, shard, run, r))
    && (forall i: nat | i < |rows| && Roomed(cfg, rows, now, i) :: !Open(cfg, shard, run, rows[i]))
  }

  /** How many of the first n offers were published and marked so. */
  function PublishedCount(script: nat -> Outcome, n: nat): nat {
    if n == 0 then 0 else PublishedCount(script, n - 1) + if script(n - 1).published && script(n - 1).marked then 1 else 0
  }

  /** A batch counts the offers that were published and marked, and ends early exactly at an offer whose mark
      reported an error. */
  lemma {:induction false} BatchCounts(cfg: DrainConfig, k: nat, rows: seq<OutboxRow>, run: Runner,
                                       offers: seq<nat>, script: nat -> Outcome)
    ensures var e := Batch(cfg, k, rows, run, offers, script);
            && |offers| <= |e.offers| && PublishedCount(script, |offers|) + e.published == PublishedCount(script, |e.offers|)
            && (e.run.Some? ==> forall i | |offers| <= i < |e.offers| :: script(i).marked)
            && (e.run.None? ==> |offers| < |e.offers| && !script(|e.offers| - 1).marked)
            && (e.run.None? ==> forall i | |offers| <= i < |e.offers| - 1 :: script(i).marked)
    decreases |run.page|
  {
    hide Offers, RowsAfter, AfterFailure;
    if run.page != [] {
      var o := script(|offers|);
      var (rows', run') := Process(cfg, k, rows, run, o);
      var offers' := if Offers(cfg, k, run) then offers + [run.page[0].position] else offers;
      if run'.Some? {
        NextPage(cfg, run, run'.value, rows, k, o);
        BatchCounts(cfg, k, rows', run'.value, offers', script);
      }
    }
  }

  lemma NextPage(cfg: DrainConfig, run: Runner, run': Runner, rows: seq<OutboxRow>, k: nat, o: Outcome)
    requires run.page != [] && Process(cfg, k, rows, run, o).1 == Some(run')
    ensures run'.page == run.page[1..]
  {
  }

  /** A batch that publishes one row and cannot mark the next: the count it returns is dropped with the error. */
  lemma FailingBatchPublishes(cfg: DrainConfig, a: OutboxRow, b: OutboxRow, script: nat -> Outcome)
    requires cfg.totalShards == 0 && KeyOf(a.sid) != KeyOf(b.sid)
    requires script(0).published && script(0).marked && !script(1).marked
    ensures var e := Batch(cfg, 0, [a, b], Runner([a, b], {}, {}, {}), [], script); e.run.None? && e.published == 1
  {
    var run := Runner([a, b], {}, {}, {});
    assert run.page[1..] == [b];
    var rows' := Process(cfg, 0, [a, b], run, script(0)).0;
    var run' := run.(page := [b]);
    assert Process(cfg, 0, [a, b], run, script(0)).1 == Some(run');
    assert [] + [a.position] == [a.position];
    assert Batch(cfg, 0, rows', run', [a.position], script).run.None? && Batch(cfg, 0, rows', run', [a.position], script).published == 0;
  }

  lemma RunBegins(cfg: DrainConfig, rows: seq<OutboxRow>, halted: set<string>)
    requires Ordered(rows)
    ensures Alone(cfg, rows, Runner([], halted, {}, {}), []) && OnlyOffered(rows, rows, [])
  {
    OnlyOfferedRefl(rows, []);
  }

  /** One batch of a Run, on the page read at this time: the laws of a batch, from the rows at the start on. */
  lemma RunsBatch(cfg: DrainConfig, k: nat, first: seq<OutboxRow>, rows: seq<OutboxRow>, halted: set<string>,
                  offers: seq<nat>, script: nat -> Outcome, now: nat)
    requires Alone(cfg, rows, Runner([], halted, {}, {}), offers) && OnlyOffered(first, rows, offers)
    ensures var run := Runner(PendingPage(cfg, rows, now), halted, {}, {});
            var e := Batch(cfg, k, rows, run, offers, script);
            && offers <= e.offers && Distinct(e.offers) && Ordered(e.rows) && OnlyOffered(first, e.rows, e.offers)
            && (e.run.Some? ==>
                  && Alone(cfg, e.rows, Runner([], e.run.value.halted, {}, {}), e.offers)
                  && Work(cfg, e.run.value.halted, e.rows) + |e.offers| <= Work(cfg, halted, rows) + |offers|
                  && (e.offers == offers ==> NothingOpen(cfg, k, e.rows, Runner([], e.run.value.halted, {}, {}), now)))
  {
    hide OnlyOffered, DoneWith, Work, Ordered, Roomed, Process;
    var run := Runner(PendingPage(cfg, rows, now), halted, {}, {});
    PageIsCurrent(cfg, rows, rows, now, Limit(cfg));
    BatchLaws(cfg, k, rows, run, offers, script);
    var e := Batch(cfg, k, rows, run, offers, script);
    OnlyOfferedTrans(first, rows, e.rows, offers, e.offers);
    if e.run.Some? && e.offers == offers {
      IdleBatch(cfg, k, rows, run, offers, script);
      RoomedOnPage(cfg, rows, now);
    }
  }

  /** The drain with the table it updates. offers lists the positions handed to the publisher. */
  class Drain {
    const cfg: DrainConfig
    const shard: nat
    var rows: seq<OutboxRow>
    var halted: set<string>
    var offers: seq<nat>

    constructor (cfg: DrainConfig, shard: nat, rows: seq<OutboxRow>)
      ensures this.cfg == cfg && this.shard == shard && this.rows == rows
      ensures halted == (if Quarantines(cfg) then QuarantinedKeys(cfg, rows) else {}) && offers == []
    {
      this.cfg := cfg;
      this.shard := shard;
      this.rows := rows;
      halted := if Quarantines(cfg) then QuarantinedKeys(cfg, rows) else {};
      offers := [];
    }

    ghost function Running(page: seq<OutboxRow>): Runner
      reads this
    {
      Runner(page, halted, {}, {})
    }

    ghost predicate IdleAt(now: nat)
      reads this
    {
      NothingOpen(cfg, shard, rows, Running([]), now)
    }

    /** The last batch started after this many offers, from there, and left the table and the offers as they are. */
    ghost predicate EndsWith(last: LastBatch, script: nat -> Outcome, counted: nat)
      reads this
    {
      && counted <= |offers|
      && var e := Batch(cfg, shard, last.rows, Runner(PendingPage(cfg, last.rows, last.now), last.halted, {}, {}),
                        offers[..counted], script);
         e.rows == rows && e.offers == offers
    }

    /** One row handed to the publisher, which answers as o says. */
    method HandleRow(row: OutboxRow, o: Outcome) returns (failed: bool)
      modifies this
      ensures rows == RowsAfter(cfg, old(rows), row, o) && failed == !o.marked
      ensures halted == if o.marked && !o.published then AfterFailure(cfg, old(Running([])), row).halted else old(halted)
      ensures offers == old(offers) + [row.position]
    {
      offers := offers + [row.position];
      failed := !o.marked;
      if o.published {
        if o.marked || o.applied {
          rows := MarkPublished(rows, row.position);
        }
      } else {
        if o.marked || o.applied {
          rows := MarkFailed(rows, row.position, NextAttemptAt(cfg, row.attempts + 1, o.at));
        }
        if o.marked {
          var crossed := cfg.maxAttempts > 0 && row.attempts + 1 >= cfg.maxAttempts;
          if !crossed || !cfg.autoResume {
            halted := halted + {KeyOf(row.sid)};
          }
        }
      }
    }

    /** runBatch: one page, row by row. */
    method RunBatch(now: nat, script: nat -> Outcome) returns (published: nat, processed: bool, failed: bool)
      modifies this
      ensures var e := Batch(cfg, shard, old(rows), old(Running(PendingPage(cfg, rows, now))), old(offers), script);
              && rows == e.rows && offers == e.offers && published == e.published && failed == e.run.None?
              && (failed || halted == e.run.value.halted)
      ensures failed || (processed <==> offers != old(offers))
    {
      var page := PendingPage(cfg, rows, now);
      published, processed, failed := 0, false, false;
      ghost var run := Running(page);
      ghost var whole := Batch(cfg, shard, rows, run, offers, script);
      var i := 0;
      while i < |page|
        invariant 0 <= i <= |page| && !failed
        invariant run.page == page[i..] && run.halted == halted
        invariant |offers| >= |old(offers)| && (|offers| == |old(offers)| ==> offers == old(offers))
        invariant processed <==> |offers| > |old(offers)|
        invariant var rest := Batch(cfg, shard, rows, run, offers, script);
                  whole == rest.(published := rest.published + published)
      {
        var row := page[i];
        var o := script(|offers|);
        ghost var run' := Process(cfg, shard, rows, run, o).1;
        assert page[i..][1..] == page[i + 1..];
        i := i + 1;
        if InShard(row.sid, shard, cfg.totalShards) && KeyOf(row.sid) !in halted {
          failed := HandleRow(row, o);
          if failed {
            return;
          }
          if o.published {
            published := published + 1;
          }
          processed := true;
        }
        run := run'.value;
      }
    }

    /** Run: batches until one makes no progress. It stops, offers each row at most once and no more rows
        than were owed at the start, and when it ends normally the last page it read held nothing for it. It ends
        with an error exactly at the first offer whose mark reported one. It returns how many of the first `counted`
        offers were published and marked, which are the offers of the batches before the last one; when it ends normally
        the last one offered nothing. */
    method Run(clock: nat -> nat, script: nat -> Outcome)
      returns (published: nat, end: RunEnd, ghost counted: nat, ghost last: LastBatch)
      requires Ordered(rows) && offers == []
      modifies this
      ensures Distinct(offers) && Ordered(rows) && OnlyOffered(old(rows), rows, offers)
      ensures end == Drained ==> |offers| + Work(cfg, halted, rows) <= Work(cfg, old(halted), old(rows))
      ensures end == Drained ==> exists n :: IdleAt(clock(n))
      ensures end == Failed <==> offers != [] && !script(|offers| - 1).marked
      ensures forall i: nat | i + 1 < |offers| :: script(i).marked
      ensures (forall n :: script(n).marked) ==> end == Drained
      ensures published == PublishedCount(script, counted) && counted <= |offers| && (end == Drained <==> counted == |offers|)
      ensures EndsWith(last, script, counted) && OnlyOffered(old(rows), last.rows, offers[..counted])
    {
      hide Batch, Alone, OnlyOffered, Work, NothingOpen, Ordered, PendingPage;
      RunBegins(cfg, rows, halted);
      published, counted := 0, 0;
      var batches := 0;
      while true
        invariant Alone(cfg, rows, Running([]), offers) && OnlyOffered(old(rows), rows, offers)
        invariant |offers| + Work(cfg, halted, rows) <= Work(cfg, old(halted), old(rows))
        invariant published == PublishedCount(script, |offers|) && forall i: nat | i < |offers| :: script(i).marked
        decreases Work(cfg, halted, rows)
      {
        counted := |offers|;
        var now := clock(batches);
        last := LastBatch(rows, halted, now);
        RunsBatch(cfg, shard, old(rows), rows, halted, offers, script, now);
        BatchCounts(cfg, shard, rows, Running(PendingPage(cfg, rows, now)), offers, script);
        ghost var before := offers;
        var n, processed, failed := RunBatch(now, script);
        assert offers[..counted] == before;
        assert EndsWith(last, script, counted);
        if failed {
          end := Failed;
          return;
        }
        published := published + n;
        batches := batches + 1;
        if !processed {
          assert IdleAt(clock(batches - 1));
          end := Drained;
          return;
        }
      }
    }
  }
}
