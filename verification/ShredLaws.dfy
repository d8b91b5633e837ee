/** The key life cycle over every run of the shredder (shred/shred.go, shred/cache.go). */
module ShredLaws {
  import opened Basics
  import opened Shred

  // ---------------------------------------------------------------- single operations

  lemma CachePut(a: Aead, v: Vault, p: Pair, dek: Bytes, P: iset<Pair>)
    requires KeysApart(P) && p in P && VaultInv(a, v, P) && StoredDek(a, v, p) == Some(dek)
    ensures VaultInv(a, v.(cache := v.cache[CacheKey(p) := dek]), P)
  {
    var v' := v.(cache := v.cache[CacheKey(p) := dek]);
    forall q | q in v'.rows ensures RowOk(a, v', q) {
      assert RowOk(a, v, q);
    }
  }

  /** A row written with a fresh wrapping of dek. */
  lemma RowPut(a: Aead, v: Vault, p: Pair, w: Wrapping, dek: Bytes, now: int, P: iset<Pair>)
    requires VaultInv(a, v, P) && KeksOk(w.keks) && KeksGrow(v.keks, w.keks) && |dek| == KEY_SIZE
    requires Unwrap(a, w.keks, p.tenant, w.bytes, w.version) == Some(dek)
    requires p in v.rows ==> StoredDek(a, v, p) == Some(dek)
    requires p !in v.rows ==> p !in P || CacheKey(p) !in v.cache
    ensures var v' := v.(keks := w.keks, rows := Upsert(v.rows, p, w.bytes, w.version, now));
            VaultInv(a, v', P) && DeksKept(a, v, v') && StoredDek(a, v', p) == Some(dek)
  {
    var g := v.(keks := w.keks);
    var v' := v.(keks := w.keks, rows := Upsert(v.rows, p, w.bytes, w.version, now));
    GrowthKeepsRows(a, v, w.keks, P);
    GrowthKeepsDeks(a, v, w.keks);
    forall q | q != p ensures StoredDek(a, v', q) == StoredDek(a, g, q) {
    }
    forall q | q in v'.rows ensures RowOk(a, v', q) {
      assert q != p ==> RowOk(a, g, q);
    }
    forall q | q in P && CacheKey(q) in v'.cache ensures StoredDek(a, v', q) == Some(v'.cache[CacheKey(q)]) {
      assert StoredDek(a, g, q) == Some(g.cache[CacheKey(q)]);
    }
  }

  /** A subject's key is found or made unless the subject was forgotten, and it is the stored one. */
  lemma EnsureKeyGood(a: Aead, v: Vault, p: Pair, r: Random, P: iset<Pair>)
    requires AeadOk(a) && KeysApart(P) && p in P && RandomOk(r) && VaultInv(a, v, P)
    ensures var (v', key) := EnsureKey(a, v, p, r);
            && VaultInv(a, v', P) && DeksKept(a, v, v')
            && (key.Done? <==> !(p in v.rows && v.rows[p].shredded))
            && (key.Done? ==> StoredDek(a, v', p) == Some(key.bytes) && |key.bytes| == KEY_SIZE)
  {
    if CacheKey(p) in v.cache {
      assert StoredDek(a, v, p).Some? && RowOk(a, v, p);
    } else if p in v.rows {
      assert RowOk(a, v, p);
      if !v.rows[p].shredded {
        CachePut(a, v, p, StoredDek(a, v, p).value, P);
      }
    } else {
      WrapUnwrap(a, v.keks, p.tenant, r.dek, r.kek, r.nonce);
      var w := Wrap(a, v.keks, p.tenant, r.dek, r.kek, r.nonce).value;
      RowPut(a, v, p, w, r.dek, r.now, P);
      var u := v.(keks := w.keks, rows := Upsert(v.rows, p, w.bytes, w.version, r.now));
      CachePut(a, u, p, r.dek, P);
      assert EnsureKey(a, v, p, r).0 == u.(cache := u.cache[CacheKey(p) := r.dek]);
    }
  }

  /** Decrypting opens under the stored key, or fails as the state says. */
  lemma DecryptGood(a: Aead, v: Vault, p: Pair, sealed: Bytes, P: iset<Pair>)
    requires KeysApart(P) && p in P && VaultInv(a, v, P)
    ensures var (v', reply) := Decrypt(a, v, p, sealed);
            && VaultInv(a, v', P) && v' == v.(cache := v'.cache)
            && reply == (if p !in v.rows then Fails(NoKey)
                         else if v.rows[p].shredded then Fails(Gone)
                         else OpenField(a, StoredDek(a, v, p).value, sealed))
  {
    if CacheKey(p) in v.cache {
      assert StoredDek(a, v, p) == Some(v.cache[CacheKey(p)]);
    } else if p in v.rows && !v.rows[p].shredded {
      assert RowOk(a, v, p);
      CachePut(a, v, p, StoredDek(a, v, p).value, P);
    }
  }

  lemma ForgetGood(a: Aead, v: Vault, p: Pair, P: iset<Pair>)
    requires KeysApart(P) && p in P && VaultInv(a, v, P)
    ensures VaultInv(a, Forget(v, p), P)
    ensures forall q | q != p :: StoredDek(a, Forget(v, p), q) == StoredDek(a, v, q)
  {
    var v' := Forget(v, p);
    forall q | q in v'.rows ensures RowOk(a, v', q) {
      assert RowOk(a, v, q);
    }
  }

  lemma RewrapGood(a: Aead, v: Vault, p: Pair, r: Random, P: iset<Pair>)
    requires AeadOk(a) && RandomOk(r) && VaultInv(a, v, P) && p in v.rows && !v.rows[p].shredded
    ensures var (v', ok) := RewrapRow(a, v, p, r);
            && ok && VaultInv(a, v', P) && DeksKept(a, v, v')
            && v'.keks == v.keks && v'.cache == v.cache && v'.rows.Keys == v.rows.Keys
            && v'.rows[p].kekVersion == |VersionsOf(v.keks, p.tenant)| && !v'.rows[p].shredded
            && v'.rows[p].createdAt == v.rows[p].createdAt
            && forall q | q in v.rows && q != p :: v'.rows[q] == v.rows[q]
  {
    assert RowOk(a, v, p);
    var dek := StoredDek(a, v, p).value;
    WrapUnwrap(a, v.keks, p.tenant, dek, r.kek, r.nonce);
    RowPut(a, v, p, Wrap(a, v.keks, p.tenant, dek, r.kek, r.nonce).value, dek, r.now, P);
  }

  // ---------------------------------------------------------------- runs

  lemma StepGood(a: Aead, v: Vault, step: ShredStep, P: iset<Pair>)
    requires AeadOk(a) && KeysApart(P) && StepOk(step, P) && VaultInv(a, v, P)
    ensures VaultInv(a, Next(a, v, step), P)
    ensures forall p | StoredDek(a, v, p).Some? && step != ForgetFor(p) ::
              StoredDek(a, Next(a, v, step), p) == StoredDek(a, v, p)
  {
    match step
    case EncryptFor(p, plain, r) => EnsureKeyGood(a, v, p, r, P);
    case DecryptFor(p, sealed) => DecryptGood(a, v, p, sealed, P);
    case ForgetFor(p) => ForgetGood(a, v, p, P);
    case ClearCache =>
      var v' := v.(cache := map[]);
      forall q | q in v'.rows ensures RowOk(a, v', q) {
        assert RowOk(a, v, q);
      }
    case RotateKek(tenant, kek) =>
      if |kek| == KEY_SIZE {
        AddKekGrows(v.keks, tenant, kek);
        GrowthKeepsRows(a, v, AddKek(v.keks, tenant, kek), P);
        GrowthKeepsDeks(a, v, AddKek(v.keks, tenant, kek));
      }
    case RewrapFor(p, r) =>
      if p in Stale(v, p.tenant, |VersionsOf(v.keks, p.tenant)|) {
        RewrapGood(a, v, p, r, P);
      }
  }

  /** Every reachable state: live rows unwrap to a full-size key, and cached keys are the stored ones. */
  lemma {:induction false} RunGood(a: Aead, v: Vault, steps: seq<ShredStep>, P: iset<Pair>)
    requires AeadOk(a) && KeysApart(P) && StepsOk(steps, P) && VaultInv(a, v, P)
    ensures VaultInv(a, Run(a, v, steps), P)
    ensures forall p | StoredDek(a, v, p).Some? && ForgetFor(p) !in steps ::
              StoredDek(a, Run(a, v, steps), p) == StoredDek(a, v, p)
    decreases |steps|
  {
    if steps != [] {
      var n := |steps| - 1;
      assert forall i | 0 <= i < n :: steps[..n][i] == steps[i];
      RunGood(a, v, steps[..n], P);
      StepGood(a, Run(a, v, steps[..n]), steps[n], P);
      assert steps[n] in steps && steps == steps[..n] + [steps[n]];
    }
  }

  /** A field encrypted in any reachable state decrypts to its plaintext after any further run that does
      not forget its subject. */
  lemma EncryptedStaysReadable(a: Aead, before: seq<ShredStep>, p: Pair, plain: Bytes, r: Random,
                               after: seq<ShredStep>, P: iset<Pair>)
    requires AeadOk(a) && KeysApart(P) && StepsOk(before, P) && StepsOk(after, P) && p in P && RandomOk(r)
    requires ForgetFor(p) !in after
    requires Encrypt(a, Run(a, EMPTY_VAULT, before), p, plain, r).1.Done?
    ensures var (v, sealed) := Encrypt(a, Run(a, EMPTY_VAULT, before), p, plain, r);
            Decrypt(a, Run(a, v, after), p, sealed.bytes).1 == Done(plain)
  {
    RunGood(a, EMPTY_VAULT, before, P);
    var v0 := Run(a, EMPTY_VAULT, before);
    EnsureKeyGood(a, v0, p, r, P);
    var (v, key) := EnsureKey(a, v0, p, r);
    FieldRoundTrip(a, key.bytes, r.iv, plain);
    RunGood(a, v, after, P);
    DecryptGood(a, Run(a, v, after), p, SealField(a, key.bytes, r.iv, plain).bytes, P);
  }

  /** The key is gone from the row and from the cache, and the tombstone stands. */
  predicate Forgotten(v: Vault, p: Pair) {
    p in v.rows && v.rows[p].shredded && v.rows[p].wrapped == [] && CacheKey(p) !in v.cache
  }

  lemma StepKeepsForgotten(a: Aead, v: Vault, step: ShredStep, p: Pair, P: iset<Pair>)
    requires KeysApart(P) && StepOk(step, P) && p in P && Forgotten(v, p)
    ensures Forgotten(Next(a, v, step), p)
  {
  }

  lemma {:induction false} RunKeepsForgotten(a: Aead, v: Vault, steps: seq<ShredStep>, p: Pair, P: iset<Pair>)
    requires KeysApart(P) && StepsOk(steps, P) && p in P && Forgotten(v, p)
    ensures Forgotten(Run(a, v, steps), p)
    decreases |steps|
  {
    if steps != [] {
      var n := |steps| - 1;
      assert forall i | 0 <= i < n :: steps[..n][i] == steps[i];
      RunKeepsForgotten(a, v, steps[..n], p, P);
      StepKeepsForgotten(a, Run(a, v, steps[..n]), steps[n], p, P);
    }
  }

  /** Once a subject that had a key is forgotten, its key is nowhere, wrapped or in the clear, and every encrypt and
      decrypt for it fails, forever. */
  lemma ForgottenForever(a: Aead, v: Vault, p: Pair, steps: seq<ShredStep>, P: iset<Pair>)
    requires KeysApart(P) && StepsOk(steps, P) && p in P && p in v.rows
    ensures var v' := Run(a, Forget(v, p), steps);
            && p in v'.rows && v'.rows[p].wrapped == [] && CacheKey(p) !in v'.cache
            && (forall plain, r :: Encrypt(a, v', p, plain, r) == (v', Fails(Gone)))
            && (forall sealed :: Decrypt(a, v', p, sealed) == (v', Fails(Gone)))
  {
    RunKeepsForgotten(a, Forget(v, p), steps, p, P);
  }

  /** Forgetting is final exactly when there was a key row: without one it leaves no tombstone, and the next
      encrypt succeeds. */
  lemma ForgetIsFinalIffKnown(a: Aead, v: Vault, p: Pair, plain: Bytes, r: Random, P: iset<Pair>)
    requires AeadOk(a) && KeysApart(P) && p in P && RandomOk(r) && VaultInv(a, v, P)
    ensures Encrypt(a, Forget(v, p), p, plain, r).1.Fails? <==> p in v.rows
  {
    ForgetGood(a, v, p, P);
    EnsureKeyGood(a, Forget(v, p), p, r, P);
    var key := EnsureKey(a, Forget(v, p), p, r).1;
    if key.Done? {
      FieldRoundTrip(a, key.bytes, r.iv, plain);
    }
  }

  // ---------------------------------------------------------------- cache keys

  /** Tenants without a bar keep all cache keys apart. */
  lemma BarFreeTenantsApart(p: Pair, q: Pair)
    requires '|' !in p.tenant && '|' !in q.tenant && CacheKey(p) == CacheKey(q)
    ensures p == q
  {
    var s := CacheKey(p);
    assert s[|p.tenant|] == '|' && s[|q.tenant|] == '|';
    assert |p.tenant| == |q.tenant|;
    assert p.tenant == s[..|p.tenant|] && q.tenant == s[..|q.tenant|];
    assert p.subject == s[|p.tenant| + 1..] && q.subject == s[|q.tenant| + 1..];
  }

  /** Two pairs that share a cache key break the life cycle: the second is sealed under the first one's key
      and has no row of its own, so clearing the cache loses it. */
  lemma SharedCacheKeyLosesData(a: Aead, p: Pair, q: Pair, plain: Bytes, r: Random)
    requires AeadOk(a) && RandomOk(r) && p != q && CacheKey(p) == CacheKey(q)
    ensures var v1 := Run(a, EMPTY_VAULT, [EncryptFor(p, plain, r)]);
            var (v2, sealed) := Encrypt(a, v1, q, plain, r);
            sealed.Done? && Decrypt(a, Run(a, v2, [ClearCache]), q, sealed.bytes).1 == Fails(NoKey)
  {
    WrapUnwrap(a, map[], p.tenant, r.dek, r.kek, r.nonce);
    var v1 := Encrypt(a, EMPTY_VAULT, p, plain, r).0;
    assert Run(a, EMPTY_VAULT, [EncryptFor(p, plain, r)]) == v1 by {
      assert [EncryptFor(p, plain, r)][..0] == [];
    }
    assert v1.cache == map[CacheKey(p) := r.dek] && v1.rows.Keys == {p};
    FieldRoundTrip(a, r.dek, r.iv, plain);
    var v2 := Encrypt(a, v1, q, plain, r).0;
    assert v2 == v1;
    assert Run(a, v2, [ClearCache]) == v2.(cache := map[]) by {
      assert [ClearCache][..0] == [];
    }
  }

  /** Such pairs exist. */
  lemma SharedCacheKeyExample()
    ensures var p, q := Pair("a|b", "c"), Pair("a", "b|c"); p != q && CacheKey(p) == CacheKey(q)
  {
    var p, q := Pair("a|b", "c"), Pair("a", "b|c");
    assert p.tenant != q.tenant;
    assert CacheKey(p) == "a|b|c" == CacheKey(q);
  }

  lemma FirstEncrypt(a: Aead, p: Pair, plain: Bytes, r: Random)
    requires AeadOk(a) && RandomOk(r)
    ensures var (v, sealed) := Encrypt(a, EMPTY_VAULT, p, plain, r);
            && sealed == SealField(a, r.dek, r.iv, plain) && sealed.Done?
            && v.cache == map[CacheKey(p) := r.dek] && v.rows.Keys == {p} && !v.rows[p].shredded && KeksOk(v.keks)
  {
    WrapUnwrap(a, map[], p.tenant, r.dek, r.kek, r.nonce);
    FieldRoundTrip(a, r.dek, r.iv, plain);
  }

  /** A shared cache key breaks isolation: the second pair opens the first one's field. */
  lemma SharedCacheKeyOpensOther(a: Aead, p: Pair, q: Pair, plain: Bytes, r: Random)
    requires AeadOk(a) && RandomOk(r) && p != q && CacheKey(p) == CacheKey(q)
    ensures var (v, sealed) := Encrypt(a, EMPTY_VAULT, p, plain, r);
            q !in v.rows && Decrypt(a, v, q, sealed.bytes).1 == Done(plain)
  {
    FirstEncrypt(a, p, plain, r);
    FieldRoundTrip(a, r.dek, r.iv, plain);
  }

  /** It breaks forgetting too: once the second pair is used, encrypts for the forgotten first one succeed. */
  lemma SharedCacheKeyRevivesForgotten(a: Aead, p: Pair, q: Pair, plain: Bytes, r: Random)
    requires AeadOk(a) && RandomOk(r) && p != q && CacheKey(p) == CacheKey(q)
    ensures var v1 := Encrypt(a, EMPTY_VAULT, p, plain, r).0;
            var v2 := Encrypt(a, Forget(v1, p), q, plain, r).0;
            v2.rows[p].shredded && Encrypt(a, v2, p, plain, r).1.Done?
  {
    FirstEncrypt(a, p, plain, r);
    var v1 := Encrypt(a, EMPTY_VAULT, p, plain, r).0;
    var v := Forget(v1, p);
    assert CacheKey(q) !in v.cache && q !in v.rows && KeksOk(v.keks);
    WrapUnwrap(a, v.keks, q.tenant, r.dek, r.kek, r.nonce);
    FieldRoundTrip(a, r.dek, r.iv, plain);
  }

  // ---------------------------------------------------------------- the exact condition

  ghost predicate ReadableAfter(a: Aead, before: seq<ShredStep>, p: Pair, plain: Bytes, r: Random, after: seq<ShredStep>) {
    var (v, sealed) := Encrypt(a, Run(a, EMPTY_VAULT, before), p, plain, r);
    sealed.Done? ==> Decrypt(a, Run(a, v, after), p, sealed.bytes).1 == Done(plain)
  }

  /** Encrypted fields of the pairs in P stay readable over every run on P that does not forget them, exactly
      when no two pairs of P share a cache key. */
  lemma ReadableIffKeysApart(a: Aead, P: iset<Pair>, r: Random)
    requires AeadOk(a) && RandomOk(r)
    ensures KeysApart(P) <==>
              forall before, p, plain, s, after |
                StepsOk(before, P) && StepsOk(after, P) && p in P && RandomOk(s) && ForgetFor(p) !in after ::
                ReadableAfter(a, before, p, plain, s, after)
  {
    if KeysApart(P) {
      forall before, p, plain, s, after |
        StepsOk(before, P) && StepsOk(after, P) && p in P && RandomOk(s) && ForgetFor(p) !in after
        ensures ReadableAfter(a, before, p, plain, s, after)
      {
        if Encrypt(a, Run(a, EMPTY_VAULT, before), p, plain, s).1.Done? {
          EncryptedStaysReadable(a, before, p, plain, s, after, P);
        }
      }
    } else {
      var p, q :| p in P && q in P && CacheKey(p) == CacheKey(q) && p != q;
      SharedCacheKeyLosesData(a, p, q, [], r);
      var before, after: seq<ShredStep> := [EncryptFor(p, [], r)], [ClearCache];
      assert StepsOk(before, P) && StepsOk(after, P) && ForgetFor(q) !in after;
      assert !ReadableAfter(a, before, q, [], r, after);
    }
  }

  /** After forgetting p in a state where it has a key row, and any further run: no encrypt and no decrypt for it. */
  ghost predicate GoneAfter(a: Aead, before: seq<ShredStep>, p: Pair, after: seq<ShredStep>) {
    var v := Run(a, EMPTY_VAULT, before);
    var v' := Run(a, Forget(v, p), after);
    p in v.rows ==> (forall plain, r :: Encrypt(a, v', p, plain, r).1 == Fails(Gone))
                    && (forall sealed :: Decrypt(a, v', p, sealed).1 == Fails(Gone))
  }

  /** Forgetting a subject with a key is final over every run on P, exactly when no two pairs of P share a cache
      key. */
  lemma ForgettingIffKeysApart(a: Aead, P: iset<Pair>, r: Random)
    requires AeadOk(a) && RandomOk(r)
    ensures KeysApart(P) <==>
              forall before, p, after | StepsOk(before, P) && StepsOk(after, P) && p in P :: GoneAfter(a, before, p, after)
  {
    if KeysApart(P) {
      forall before, p, after | StepsOk(before, P) && StepsOk(after, P) && p in P ensures GoneAfter(a, before, p, after) {
        var v := Run(a, EMPTY_VAULT, before);
        if p in v.rows {
          ForgottenForever(a, v, p, after, P);
        }
      }
    } else {
      var p, q :| p in P && q in P && CacheKey(p) == CacheKey(q) && p != q;
      var before, after: seq<ShredStep> := [EncryptFor(p, [], r)], [EncryptFor(q, [], r)];
      SharedCacheKeyRevivesForgotten(a, p, q, [], r);
      FirstEncrypt(a, p, [], r);
      OneStep(a, EMPTY_VAULT, before[0]);
      OneStep(a, Forget(Run(a, EMPTY_VAULT, before), p), after[0]);
      assert StepsOk(before, P) && StepsOk(after, P);
      assert !GoneAfter(a, before, p, after);
    }
  }

  lemma OneStep(a: Aead, v: Vault, step: ShredStep)
    ensures Run(a, v, [step]) == Next(a, v, step)
  {
    assert [step][..0] == [];
  }

  /** What a decrypt for q may give: what q's own row says, and nothing that another pair's key opens. */
  function OwnReply(a: Aead, v: Vault, q: Pair, sealed: Bytes): Reply {
    if q !in v.rows then Fails(NoKey)
    else if v.rows[q].shredded then Fails(Gone)
    else
      match StoredDek(a, v, q)
      case None => Fails(KmsUnavailable)
      case Some(dek) => OpenField(a, dek, sealed)
  }

  ghost predicate OpensOwnOnly(a: Aead, before: seq<ShredStep>, q: Pair, sealed: Bytes) {
    var v := Run(a, EMPTY_VAULT, before);
    Decrypt(a, v, q, sealed).1 == OwnReply(a, v, q, sealed)
  }

  /** After every run on P each pair opens fields under its own stored key only, exactly when no two pairs of P
      share a cache key. */
  lemma IsolationIffKeysApart(a: Aead, P: iset<Pair>, r: Random)
    requires AeadOk(a) && RandomOk(r)
    ensures KeysApart(P) <==> forall before, q, sealed | StepsOk(before, P) && q in P :: OpensOwnOnly(a, before, q, sealed)
  {
    if KeysApart(P) {
      forall before, q, sealed | StepsOk(before, P) && q in P ensures OpensOwnOnly(a, before, q, sealed) {
        RunGood(a, EMPTY_VAULT, before, P);
        var v := Run(a, EMPTY_VAULT, before);
        DecryptGood(a, v, q, sealed, P);
        if q in v.rows {
          assert RowOk(a, v, q);
        }
      }
    } else {
      var p, q :| p in P && q in P && CacheKey(p) == CacheKey(q) && p != q;
      var before: seq<ShredStep> := [EncryptFor(p, [], r)];
      SharedCacheKeyOpensOther(a, p, q, [], r);
      OneStep(a, EMPTY_VAULT, before[0]);
      assert StepsOk(before, P);
      assert !OpensOwnOnly(a, before, q, Encrypt(a, EMPTY_VAULT, p, [], r).1.bytes);
    }
  }

  /** A rotation and then a rewrap of a live row put its data key, unchanged, under the new key: it unwraps with that
      version alone, whatever becomes of the older ones. */
  lemma RotateThenRewrap(a: Aead, v: Vault, p: Pair, kek: Bytes, r: Random, P: iset<Pair>, keks: Keks)
    requires AeadOk(a) && KeysApart(P) && RandomOk(r) && VaultInv(a, v, P) && p in v.rows && !v.rows[p].shredded
    requires |kek| == KEY_SIZE
    requires var n := |VersionsOf(v.keks, p.tenant)|; |VersionsOf(keks, p.tenant)| > n && VersionsOf(keks, p.tenant)[n] == kek
    ensures var v' := Run(a, v, [RotateKek(p.tenant, kek), RewrapFor(p, r)]);
            && p in v'.rows && !v'.rows[p].shredded && v'.rows[p].kekVersion == |VersionsOf(v.keks, p.tenant)| + 1
            && StoredDek(a, v, p).Some? && Unwrap(a, keks, p.tenant, v'.rows[p].wrapped, v'.rows[p].kekVersion) == StoredDek(a, v, p)
  {
    var steps := [RotateKek(p.tenant, kek), RewrapFor(p, r)];
    assert steps[..1] == [steps[0]];
    OneStep(a, v, steps[0]);
    var v1 := Next(a, v, steps[0]);
    assert RowOk(a, v, p);
    StepGood(a, v, steps[0], P);
    assert v.rows[p].kekVersion <= |VersionsOf(v.keks, p.tenant)|;
    assert p in Stale(v1, p.tenant, |VersionsOf(v1.keks, p.tenant)|);
    RewrapGood(a, v1, p, r, P);
    var v' := Next(a, v1, steps[1]);
    assert Run(a, v, steps) == v';
    StepGood(a, v1, steps[1], P);
  }

  // ---------------------------------------------------------------- key rows over a run

  /** The row was there before, or an encrypt of the run made it at its time. */
  ghost predicate RowFrom(v: Vault, steps: seq<ShredStep>, p: Pair, row: KeyRow) {
    || (p in v.rows && row.createdAt == v.rows[p].createdAt)
    || exists i | 0 <= i < |steps| :: steps[i].EncryptFor? && steps[i].p == p && row.createdAt == steps[i].r.now
  }

  lemma StepDates(a: Aead, v: Vault, step: ShredStep)
    ensures var v' := Next(a, v, step);
            && v.rows.Keys <= v'.rows.Keys
            && (forall p | p in v.rows :: v'.rows[p].createdAt == v.rows[p].createdAt)
            && (forall p | p in v'.rows && p !in v.rows :: step.EncryptFor? && step.p == p && v'.rows[p].createdAt == step.r.now)
            && (forall p | p in v'.rows && v'.rows[p].shredded :: (p in v.rows && v.rows[p].shredded) || step == ForgetFor(p))
            && (forall p | p in v.rows && v.rows[p].shredded :: v'.rows[p].shredded)
  {
    hide Unwrap, Wrap;
  }

  /** Over every run a key row keeps the time of the call that made it, which is the time the retention sweep goes by;
      it is never dropped; and it is shredded only if it was before or its subject was forgotten meanwhile. */
  lemma {:induction false} RowsAreDated(a: Aead, v: Vault, steps: seq<ShredStep>)
    ensures var v' := Run(a, v, steps);
            && v.rows.Keys <= v'.rows.Keys
            && (forall p | p in v.rows :: v'.rows[p].createdAt == v.rows[p].createdAt)
            && (forall p | p in v'.rows :: RowFrom(v, steps, p, v'.rows[p]))
            && (forall p | p in v'.rows && v'.rows[p].shredded :: (p in v.rows && v.rows[p].shredded) || ForgetFor(p) in steps)
    decreases |steps|
  {
    hide Next;
    if steps != [] {
      var n := |steps| - 1;
      RowsAreDated(a, v, steps[..n]);
      var u := Run(a, v, steps[..n]);
      StepDates(a, u, steps[n]);
      var v' := Run(a, v, steps);
      assert steps == steps[..n] + [steps[n]];
      forall p | p in v'.rows ensures RowFrom(v, steps, p, v'.rows[p]) {
        if p in u.rows {
          assert RowFrom(v, steps[..n], p, u.rows[p]);
        }
      }
    }
  }
}
