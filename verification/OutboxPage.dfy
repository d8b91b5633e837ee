/** Which rows the pending query hands out, said on their columns, and what an operator's replay or abandon opens
    again (outbox/drain.go, adapters/storage/sqlite/queries/outbox.sql). */
module OutboxPage {
  import opened Basics
  import opened StreamIds
  import opened Store
  import opened Outbox
  import OutboxOrder
  import OutboxDrain

  predicate Spent(cfg: DrainConfig, r: OutboxRow) {
    if cfg.maxAttempts > 0 then r.attempts >= cfg.maxAttempts else r.attempts >= 0x7FFF_FFFF
  }

  /** Row i waits to be published, has attempts left, is due, and no earlier version of its stream is in the way. */
  predicate Ready(cfg: DrainConfig, rows: seq<OutboxRow>, now: nat, i: nat)
    requires i < |rows|
  {
    && rows[i].status == Pending && !Spent(cfg, rows[i])
    && (rows[i].nextAttemptAt.Some? ==> rows[i].nextAttemptAt.value <= now)
    && (cfg.headRule ==>
          forall j | 0 <= j < |rows| && rows[j].sid == rows[i].sid && rows[j].version < rows[i].version ::
            rows[j].status != Pending || Spent(cfg, rows[j]))
  }

  /** How many of the first n rows are ready. */
  function ReadyCount(cfg: DrainConfig, rows: seq<OutboxRow>, now: nat, n: nat): nat
    requires n <= |rows|
  {
    if n == 0 then 0 else ReadyCount(cfg, rows, now, n - 1) + if Ready(cfg, rows, now, n - 1) then 1 else 0
  }

  lemma SelectedIffReady(cfg: DrainConfig, rows: seq<OutboxRow>, now: nat, i: nat)
    requires i < |rows|
    ensures Selected(cfg, rows, rows[i], now) <==> Ready(cfg, rows, now, i)
  {
    assert forall q :: Spent(cfg, q) <==> q.attempts >= Cap(cfg);
    if cfg.headRule && Ready(cfg, rows, now, i) {
      forall q | q in rows && q.sid == rows[i].sid && Live(cfg, q) ensures rows[i].version <= q.version {
        var j :| 0 <= j < |rows| && rows[j] == q;
      }
    }
  }

  lemma {:induction false} SelectedSnoc(cfg: DrainConfig, all: seq<OutboxRow>, rows: seq<OutboxRow>, r: OutboxRow, now: nat)
    ensures OutboxDrain.SelectedCount(cfg, all, rows + [r], now)
         == OutboxDrain.SelectedCount(cfg, all, rows, now) + if Selected(cfg, all, r, now) then 1 else 0
    decreases |rows|
  {
    hide Selected;
    if rows == [] {
      assert [r][1..] == [];
    } else {
      SelectedSnoc(cfg, all, rows[1..], r, now);
      assert (rows + [r])[1..] == rows[1..] + [r];
    }
  }

  lemma {:induction false} CountsReady(cfg: DrainConfig, rows: seq<OutboxRow>, now: nat, n: nat)
    requires n <= |rows|
    ensures OutboxDrain.SelectedCount(cfg, rows, rows[..n], now) == ReadyCount(cfg, rows, now, n)
    decreases n
  {
    hide Selected, Ready;
    if n > 0 {
      CountsReady(cfg, rows, now, n - 1);
      assert rows[..n] == rows[..n - 1] + [rows[n - 1]];
      SelectedSnoc(cfg, rows, rows[..n - 1], rows[n - 1], now);
      SelectedIffReady(cfg, rows, now, n - 1);
    }
  }

  /** A row is on the page exactly when it is ready, belongs to the tenant, and fewer ready rows of any tenant than
      the page is long stand before it. */
  lemma OnPageIff(cfg: DrainConfig, rows: seq<OutboxRow>, now: nat, i: nat)
    requires Ordered(rows) && i < |rows|
    ensures rows[i] in PendingPage(cfg, rows, now) <==>
              && Ready(cfg, rows, now, i) && (cfg.tenant == "" || cfg.tenant == rows[i].sid.tenant)
              && ReadyCount(cfg, rows, now, i) < if cfg.batchSize > 0 then cfg.batchSize else 100
  {
    hide Selected, Ready;
    SelectedIffReady(cfg, rows, now, i);
    CountsReady(cfg, rows, now, i);
    if Selected(cfg, rows, rows[i], now) && TenantOk(cfg, rows[i]) {
      OutboxDrain.PageHolds(cfg, rows, rows, now, Limit(cfg), i);
    } else if rows[i] in PendingPage(cfg, rows, now) {
      var page := PendingPage(cfg, rows, now);
      var a :| 0 <= a < |page| && page[a] == rows[i];
      var j := OutboxOrder.PageShape(cfg, rows, rows, now, Limit(cfg), a);
      assert false;
    }
  }

  // ---------------------------------------------------------------- quarantine and the operator

  /** A dead-lettered row of this stream key, not at position p. */
  predicate DeadElsewhere(cfg: DrainConfig, rows: seq<OutboxRow>, key: string, p: nat) {
    exists i: nat :: i < |rows| && rows[i].position != p && rows[i].status == Pending && Spent(cfg, rows[i])
                 && (cfg.tenant == "" || cfg.tenant == rows[i].sid.tenant) && KeyOf(rows[i].sid) == key
  }

  lemma DeadIsSpent(cfg: DrainConfig, r: OutboxRow)
    ensures Dead(cfg, r) <==> r.status == Pending && Spent(cfg, r)
  {
  }

  /** A replay gives the row at position p all its attempts back at once, an abandon settles it if it was waiting, and
      neither touches another row or column. */
  ghost predicate OnlyRow(rows: seq<OutboxRow>, p: nat, played: seq<OutboxRow>, dropped: seq<OutboxRow>) {
    |played| == |dropped| == |rows| && forall i | 0 <= i < |rows| ::
      if rows[i].position != p then played[i] == rows[i] && dropped[i] == rows[i]
      else
        && played[i] == rows[i].(attempts := 0, nextAttemptAt := None)
        && dropped[i] == (if rows[i].status == Pending then rows[i].(status := Abandoned) else rows[i])
  }

  /** Replaying a row at position p, or abandoning it, releases its stream exactly when no other row of the stream is
      dead-lettered; the quarantine of every other stream stays as it was. */
  lemma OperatorReleases(cfg: DrainConfig, rows: seq<OutboxRow>, p: nat, key: string)
    ensures OnlyRow(rows, p, ReplayRow(rows, p), AbandonRow(rows, p))
    ensures key in QuarantinedKeys(cfg, ReplayRow(rows, p)) <==> DeadElsewhere(cfg, rows, key, p)
    ensures key in QuarantinedKeys(cfg, AbandonRow(rows, p)) <==> DeadElsewhere(cfg, rows, key, p)
  {
    hide KeyOf;
    UpdatedQuarantine(cfg, rows, p, (r: OutboxRow) => r.(attempts := 0, nextAttemptAt := None), key);
    UpdatedQuarantine(cfg, rows, p, (r: OutboxRow) => if r.status == Pending then r.(status := Abandoned) else r, key);
  }

  lemma UpdatedQuarantine(cfg: DrainConfig, rows: seq<OutboxRow>, p: nat, f: OutboxRow -> OutboxRow, key: string)
    requires forall r :: !Dead(cfg, f(r))
    ensures key in QuarantinedKeys(cfg, UpdateAt(rows, p, f)) <==> DeadElsewhere(cfg, rows, key, p)
  {
    hide KeyOf;
    var rows' := UpdateAt(rows, p, f);
    if key in QuarantinedKeys(cfg, rows') {
      var r :| r in rows' && Dead(cfg, r) && TenantOk(cfg, r) && KeyOf(r.sid) == key;
      var i: nat :| i < |rows'| && rows'[i] == r;
      assert rows[i].position != p && rows[i] == r;
    }
    if DeadElsewhere(cfg, rows, key, p) {
      var i: nat :| i < |rows| && rows[i].position != p && rows[i].status == Pending && Spent(cfg, rows[i])
                 && (cfg.tenant == "" || cfg.tenant == rows[i].sid.tenant) && KeyOf(rows[i].sid) == key;
      assert rows'[i] == rows[i] && rows'[i] in rows' && Dead(cfg, rows'[i]);
    }
  }
}
