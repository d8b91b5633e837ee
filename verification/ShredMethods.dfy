/** The shredder, its key store and the paging loops as they update their state
    (shred/shred.go, shred/cache.go, shred/retention.go, adapters/kms/inproc/inproc.go). */
module ShredMethods {
  import opened Basics
  import opened Shred
  import opened ShredLaws

  const DEFAULT_PAGE := 100

  function PageSize(n: int): (m: nat)
    ensures m > 0
  {
    if n <= 0 then DEFAULT_PAGE else n
  }

  lemma NoneStale(v: Vault, tenant: string, current: nat)
    requires Stale(v, tenant, current) == {}
    ensures forall p | p in v.rows && p.tenant == tenant && !v.rows[p].shredded :: v.rows[p].kekVersion >= current
  {
    forall p | p in v.rows && p.tenant == tenant && !v.rows[p].shredded ensures v.rows[p].kekVersion >= current {
      assert p !in Stale(v, tenant, current);
    }
  }

  /** Up to limit elements of a set, each once, in some order. */
  method TakeSome(s: set<Pair>, limit: nat) returns (page: seq<Pair>)
    ensures |page| == Min(limit, |s|)
    ensures (forall p | p in page :: p in s) && NoRepeats(page)
    ensures PageSet(page) <= s && |PageSet(page)| == |page| && (|page| < limit ==> PageSet(page) == s)
  {
    page := [];
    var rest := s;
    while |page| < limit && rest != {}
      invariant |page| <= limit && |page| + |rest| == |s| && NoRepeats(page)
      invariant forall p | p in s :: p in page || p in rest
      invariant forall p | p in page :: p in s && p !in rest
      invariant rest <= s
      decreases rest
    {
      var p :| p in rest;
      page := page + [p];
      rest := rest - {p};
    }
    PageSetSize(page);
  }

  ghost predicate NoRepeats(s: seq<Pair>) { forall i, j | 0 <= i < j < |s| :: s[i] != s[j] }

  /** Live rows of a tenant created before the cutoff. */
  function Expired(rows: map<Pair, KeyRow>, tenant: string, cutoff: int): set<Pair> {
    set p | p in rows && p.tenant == tenant && !rows[p].shredded && rows[p].createdAt < cutoff
  }

  /** The table after shredding the rows of some pairs. */
  function Tombstoned(rows: map<Pair, KeyRow>, gone: set<Pair>): map<Pair, KeyRow> {
    map p | p in rows :: if p in gone then rows[p].(wrapped := [], shredded := true) else rows[p]
  }

  /** Same data keys, same rows apart from their wrapping. */
  ghost predicate OnlyRewrapped(a: Aead, v: Vault, v': Vault) {
    && DeksKept(a, v, v') && v'.keks == v.keks && v'.cache == v.cache && v'.rows.Keys == v.rows.Keys
    && forall p | p in v.rows :: v'.rows[p].shredded == v.rows[p].shredded && v'.rows[p].createdAt == v.rows[p].createdAt
  }

  lemma StaleFalls(a: Aead, v: Vault, p: Pair, r: Random, P: iset<Pair>, current: nat)
    requires AeadOk(a) && RandomOk(r) && VaultInv(a, v, P) && p in Stale(v, p.tenant, current)
    requires current == |VersionsOf(v.keks, p.tenant)|
    ensures RewrapRow(a, v, p, r).1 && VaultInv(a, RewrapRow(a, v, p, r).0, P) && OnlyRewrapped(a, v, RewrapRow(a, v, p, r).0)
    ensures Stale(RewrapRow(a, v, p, r).0, p.tenant, current) == Stale(v, p.tenant, current) - {p}
  {
    RewrapGood(a, v, p, r, P);
  }

  lemma RewrappedRefl(a: Aead, v: Vault)
    ensures OnlyRewrapped(a, v, v)
  {
  }

  lemma RewrappedTrans(a: Aead, v: Vault, u: Vault, w: Vault)
    requires OnlyRewrapped(a, v, u) && OnlyRewrapped(a, u, w)
    ensures OnlyRewrapped(a, v, w)
  {
  }

  class Shredder {
    const aead: Aead
    var keks: Keks
    var rows: map<Pair, KeyRow>
    var cache: map<string, Bytes>

    ghost function State(): Vault
      reads this
    {
      Vault(keks, rows, cache)
    }

    constructor (aead: Aead)
      ensures this.aead == aead && State() == EMPTY_VAULT
    {
      this.aead := aead;
      keks, rows, cache := map[], map[], map[];
    }

    /** The new version is the next number and the latest; every older version of every tenant is kept, so
        whatever unwrapped before unwraps to the same data key. */
    method RotateKEK(tenant: string, kek: Bytes) returns (version: nat)
      modifies this`keks
      ensures version == |VersionsOf(old(keks), tenant)| + 1 == |VersionsOf(keks, tenant)|
      ensures VersionsOf(keks, tenant)[version - 1] == kek
      ensures keks.Keys == old(keks).Keys + {tenant} && KeksGrow(old(keks), keks)
      ensures forall t | t != tenant :: VersionsOf(keks, t) == VersionsOf(old(keks), t)
      ensures forall t, wrapped, v: nat | Unwrap(aead, old(keks), t, wrapped, v).Some? ::
                Unwrap(aead, keks, t, wrapped, v) == Unwrap(aead, old(keks), t, wrapped, v)
      ensures |kek| == KEY_SIZE && KeksOk(old(keks)) ==> KeksOk(keks)
    {
      var versions := if tenant in keks then keks[tenant] else [];
      keks := keks[tenant := versions + [kek]];
      version := |keks[tenant]|;
      forall t, wrapped, v: nat | Unwrap(aead, old(keks), t, wrapped, v).Some?
        ensures Unwrap(aead, keks, t, wrapped, v) == Unwrap(aead, old(keks), t, wrapped, v)
      {
        UnwrapGrows(aead, old(keks), keks, t, wrapped, v);
      }
    }

    /** An injected key must have the full size. Then it is the tenant's latest version, every older version of
        every tenant is kept, and whatever unwrapped before unwraps to the same data key. */
    method SetKEK(tenant: string, kek: Bytes) returns (ok: bool)
      modifies this`keks
      ensures ok <==> |kek| == KEY_SIZE
      ensures !ok ==> keks == old(keks)
      ensures ok ==> |VersionsOf(keks, tenant)| == |VersionsOf(old(keks), tenant)| + 1
      ensures ok ==> VersionsOf(keks, tenant)[|VersionsOf(old(keks), tenant)|] == kek
      ensures ok ==> keks.Keys == old(keks).Keys + {tenant}
      ensures KeksGrow(old(keks), keks) && (KeksOk(old(keks)) ==> KeksOk(keks))
      ensures forall t | t != tenant :: VersionsOf(keks, t) == VersionsOf(old(keks), t)
      ensures forall t, wrapped, v: nat | Unwrap(aead, old(keks), t, wrapped, v).Some? ::
                Unwrap(aead, keks, t, wrapped, v) == Unwrap(aead, old(keks), t, wrapped, v)
    {
      ok := |kek| == KEY_SIZE;
      if ok {
        var _ := RotateKEK(tenant, kek);
      }
    }

    method WrapDEK(tenant: string, dek: Bytes, r: Random) returns (w: Option<Wrapping>)
      modifies this`keks
      ensures w == Wrap(aead, old(keks), tenant, dek, r.kek, r.nonce)
      ensures keks == WithActive(old(keks), tenant, r.kek)
    {
      if VersionsOf(keks, tenant) == [] {
        keks := keks[tenant := [r.kek]];
      }
      var versions := keks[tenant];
      var kek := versions[|versions| - 1];
      if !ValidKey(kek) {
        return None;
      }
      w := Some(Wrapping(keks, r.nonce + aead.seal(kek, r.nonce, dek), |versions|));
    }

    method EnsureSubjectKey(p: Pair, r: Random) returns (key: Reply)
      modifies this
      ensures (State(), key) == EnsureKey(aead, old(State()), p, r)
    {
      if CacheKey(p) in cache {
        return Done(cache[CacheKey(p)]);
      }
      if p in rows {
        if rows[p].shredded {
          return Fails(Gone);
        }
        var dek := Unwrap(aead, keks, p.tenant, rows[p].wrapped, rows[p].kekVersion);
        if dek.None? {
          return Fails(KmsUnavailable);
        }
        cache := cache[CacheKey(p) := dek.value];
        return Done(dek.value);
      }
      var w := WrapDEK(p.tenant, r.dek, r);
      if w.None? {
        return Fails(KmsUnavailable);
      }
      rows := Upsert(rows, p, w.value.bytes, w.value.version, r.now);
      cache := cache[CacheKey(p) := r.dek];
      key := Done(r.dek);
    }

    method EncryptField(p: Pair, plain: Bytes, r: Random) returns (reply: Reply)
      modifies this
      ensures (State(), reply) == Encrypt(aead, old(State()), p, plain, r)
    {
      reply := EnsureSubjectKey(p, r);
      if reply.Done? {
        reply := SealField(aead, reply.bytes, r.iv, plain);
      }
    }

    method DecryptField(p: Pair, sealed: Bytes) returns (reply: Reply)
      modifies this`cache
      ensures (State(), reply) == Decrypt(aead, old(State()), p, sealed)
    {
      if CacheKey(p) in cache {
        return OpenField(aead, cache[CacheKey(p)], sealed);
      }
      if p !in rows {
        return Fails(NoKey);
      }
      if rows[p].shredded {
        return Fails(Gone);
      }
      var dek := Unwrap(aead, keks, p.tenant, rows[p].wrapped, rows[p].kekVersion);
      if dek.None? {
        return Fails(KmsUnavailable);
      }
      cache := cache[CacheKey(p) := dek.value];
      reply := OpenField(aead, dek.value, sealed);
    }

    method ForgetSubject(p: Pair)
      modifies this`rows, this`cache
      ensures State() == Forget(old(State()), p)
    {
      if p in rows {
        rows := rows[p := rows[p].(wrapped := [], shredded := true)];
      }
      cache := cache - {CacheKey(p)};
    }

    method ClearCache()
      modifies this`cache
      ensures State() == old(State()).(cache := map[])
    {
      cache := map[];
    }

    /** RewrapDEKs: pages of stale rows until none is left. It stops, counts the rows that were stale at the
        start, leaves none behind and keeps every data key. */
    method RewrapDEKs(tenant: string, pageSize: int, random: nat -> Random, ghost P: iset<Pair>)
      returns (total: nat, ok: bool)
      requires AeadOk(aead) && VaultInv(aead, State(), P) && forall n :: RandomOk(random(n))
      modifies this
      ensures VaultInv(aead, State(), P) && OnlyRewrapped(aead, old(State()), State())
      ensures ok && total == |Stale(old(State()), tenant, |VersionsOf(keks, tenant)|)|
      ensures forall p | p in rows && p.tenant == tenant && !rows[p].shredded :: rows[p].kekVersion >= |VersionsOf(keks, tenant)|
      ensures forall p | p in rows && p.tenant != tenant :: rows[p] == old(rows)[p]
    {
      hide VaultInv, OnlyRewrapped, AeadOk, RandomOk;
      var current := |VersionsOf(keks, tenant)|;
      total, ok := 0, true;
      RewrappedRefl(aead, State());
      if current == 0 {
        return;
      }
      ghost var before := State();
      while true
        invariant ok && VaultInv(aead, State(), P) && OnlyRewrapped(aead, before, State())
        invariant total + |Stale(State(), tenant, current)| == |Stale(before, tenant, current)|
        invariant keks == before.keks && rows.Keys == before.rows.Keys
        invariant forall p | p in rows && p.tenant != tenant :: rows[p] == before.rows[p]
        decreases |Stale(State(), tenant, current)|
      {
        var page := TakeSome(Stale(Vault(keks, rows, cache), tenant, current), PageSize(pageSize));
        if |page| == 0 {
          NoneStale(State(), tenant, current);
          return;
        }
        ghost var start := State();
        var i := 0;
        while i < |page|
          invariant 0 <= i <= |page|
          invariant ok && VaultInv(aead, State(), P) && OnlyRewrapped(aead, before, State())
          invariant |Stale(State(), tenant, current)| + i == |Stale(start, tenant, current)|
          invariant total + |Stale(State(), tenant, current)| == |Stale(before, tenant, current)|
          invariant keks == before.keks && rows.Keys == before.rows.Keys
          invariant forall p | p in rows && p.tenant != tenant :: rows[p] == before.rows[p]
          invariant forall j | i <= j < |page| :: page[j] in Stale(State(), tenant, current)
        {
          ghost var mid := State();
          ok := RewrapOne(page[i], current, random(total), P);
          RewrappedTrans(aead, before, mid, State());
          total := total + 1;
          i := i + 1;
        }
      }
    }

    method RewrapOne(p: Pair, current: nat, r: Random, ghost P: iset<Pair>) returns (ok: bool)
      requires AeadOk(aead) && VaultInv(aead, State(), P) && RandomOk(r)
      requires p in Stale(State(), p.tenant, current) && current == |VersionsOf(keks, p.tenant)|
      modifies this
      ensures ok && (State(), ok) == RewrapRow(aead, old(State()), p, r)
      ensures VaultInv(aead, State(), P) && OnlyRewrapped(aead, old(State()), State())
      ensures Stale(State(), p.tenant, current) == Stale(old(State()), p.tenant, current) - {p}
      ensures keks == old(keks) && rows.Keys == old(rows).Keys && forall q | q in rows && q != p :: rows[q] == old(rows)[q]
    {
      StaleFalls(aead, State(), p, r, P, current);
      var dek := Unwrap(aead, keks, p.tenant, rows[p].wrapped, rows[p].kekVersion);
      if dek.None? {
        return false;
      }
      var w := WrapDEK(p.tenant, dek.value, r);
      if w.None? {
        return false;
      }
      rows := Upsert(rows, p, w.value.bytes, w.value.version, r.now);
      ok := true;
    }

    method ForgetPage(page: seq<Pair>)
      modifies this`rows, this`cache
      ensures rows == Tombstoned(old(rows), PageSet(page)) && cache == old(cache) - KeysOf(PageSet(page))
    {
      assert PageSet([]) == {} && page[..0] == [];
      for i := 0 to |page|
        invariant rows == Tombstoned(old(rows), PageSet(page[..i])) && cache == old(cache) - KeysOf(PageSet(page[..i]))
      {
        PageSetSnoc(page, i);
        ForgetSubject(page[i]);
        TombstonedMore(old(rows), PageSet(page[..i]), {page[i]});
        assert rows == Tombstoned(Tombstoned(old(rows), PageSet(page[..i])), {page[i]});
      }
      assert page[..|page|] == page;
    }

    /** sweepTenant: shreds exactly the expired live rows of the tenant, whatever the page size, and counts them. */
    method SweepTenant(tenant: string, cutoff: int, batchSize: int) returns (total: nat)
      modifies this`rows, this`cache
      ensures rows == Tombstoned(old(rows), Expired(old(rows), tenant, cutoff))
      ensures total == |Expired(old(rows), tenant, cutoff)|
      ensures cache == old(cache) - KeysOf(Expired(old(rows), tenant, cutoff))
    {
      hide Tombstoned, Expired, KeysOf, PageSet, NoRepeats;
      var size := PageSize(batchSize);
      total := 0;
      ghost var all := Expired(rows, tenant, cutoff);
      ghost var done: set<Pair> := {};
      NothingSwept(rows, cache);
      while true
        invariant done <= all && rows == Tombstoned(old(rows), done) && total == |done|
        invariant cache == old(cache) - KeysOf(done)
        decreases |all - done|
      {
        ExpiredLeft(old(rows), tenant, cutoff, done);
        var page := TakeSome(Expired(rows, tenant, cutoff), size);
        if |page| == 0 {
          assert all == done;
          return;
        }
        ForgetPage(page);
        TombstonedMore(old(rows), done, PageSet(page));
        DisjointSizes(done, PageSet(page), all);
        KeysOfMore(old(cache), done, PageSet(page));
        done := done + PageSet(page);
        total := total + |page|;
        if |page| < size {
          assert all == done;
          return;
        }
      }
    }

    /** RunOnce: one sweep over the tenants, errors aside. */
    method SweepTenants(tenants: seq<string>, cutoff: int, batchSize: int) returns (total: nat)
      modifies this`rows, this`cache
      ensures rows == Tombstoned(old(rows), ExpiredIn(old(rows), tenants, cutoff))
      ensures total == |ExpiredIn(old(rows), tenants, cutoff)|
    {
      total := 0;
      assert rows == Tombstoned(rows, ExpiredIn(rows, [], cutoff));
      for i := 0 to |tenants|
        invariant rows == Tombstoned(old(rows), ExpiredIn(old(rows), tenants[..i], cutoff))
        invariant total == |ExpiredIn(old(rows), tenants[..i], cutoff)|
      {
        ghost var done := ExpiredIn(old(rows), tenants[..i], cutoff);
        ghost var more := Expired(rows, tenants[i], cutoff);
        NextTenant(old(rows), tenants, i, cutoff);
        var n := SweepTenant(tenants[i], cutoff, batchSize);
        TombstonedMore(old(rows), done, more);
        DisjointSizes(done, more, done + more);
        total := total + n;
      }
      assert tenants[..|tenants|] == tenants;
    }
  }

  function ExpiredIn(rows: map<Pair, KeyRow>, tenants: seq<string>, cutoff: int): set<Pair> {
    set p | p in rows && p.tenant in tenants && !rows[p].shredded && rows[p].createdAt < cutoff
  }

  function PageSet(page: seq<Pair>): set<Pair> { set p | p in page }

  function KeysOf(s: set<Pair>): set<string> { set p | p in s :: CacheKey(p) }

  lemma NothingSwept(rows: map<Pair, KeyRow>, cache: map<string, Bytes>)
    ensures Tombstoned(rows, {}) == rows && cache - KeysOf({}) == cache
  {
  }

  lemma KeysOfMore(cache: map<string, Bytes>, a: set<Pair>, b: set<Pair>)
    ensures cache - KeysOf(a) - KeysOf(b) == cache - KeysOf(a + b)
  {
    assert KeysOf(a + b) == KeysOf(a) + KeysOf(b);
  }

  lemma PageSetSnoc(page: seq<Pair>, i: nat)
    requires i < |page|
    ensures PageSet(page[..i + 1]) == PageSet(page[..i]) + {page[i]}
  {
    assert page[..i + 1] == page[..i] + [page[i]];
  }

  lemma {:induction false} PageSetSize(page: seq<Pair>)
    requires NoRepeats(page)
    ensures |PageSet(page)| == |page|
    decreases |page|
  {
    if page == [] {
      assert PageSet(page) == {};
    } else {
      var n := |page| - 1;
      PageSetSize(page[..n]);
      PageSetSnoc(page, n);
      assert page[..n + 1] == page;
      assert page[n] !in page[..n];
    }
  }

  lemma DisjointSizes(a: set<Pair>, b: set<Pair>, all: set<Pair>)
    requires a !! b && a + b <= all
    ensures |a + b| == |a| + |b| && |all - (a + b)| == |all - a| - |b|
  {
    assert all - a == (all - (a + b)) + b;
  }

  lemma TombstonedMore(rows: map<Pair, KeyRow>, d: set<Pair>, e: set<Pair>)
    ensures Tombstoned(Tombstoned(rows, d), e) == Tombstoned(rows, d + e)
  {
  }

  lemma ExpiredLeft(rows: map<Pair, KeyRow>, tenant: string, cutoff: int, done: set<Pair>)
    requires done <= Expired(rows, tenant, cutoff)
    ensures Expired(Tombstoned(rows, done), tenant, cutoff) == Expired(rows, tenant, cutoff) - done
  {
  }

  lemma NextTenant(rows: map<Pair, KeyRow>, tenants: seq<string>, i: nat, cutoff: int)
    requires i < |tenants|
    ensures var done := ExpiredIn(rows, tenants[..i], cutoff);
            var more := Expired(Tombstoned(rows, done), tenants[i], cutoff);
            done !! more && ExpiredIn(rows, tenants[..i + 1], cutoff) == done + more
  {
    assert tenants[..i + 1] == tenants[..i] + [tenants[i]];
  }
}
