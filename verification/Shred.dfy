/** Crypto-shredding: key-encryption keys, wrapped data keys, the key cache and the field framing
    (shred/shred.go, shred/cache.go, adapters/kms/inproc/inproc.go). */
module Shred {
  import opened Basics

  /** AES-GCM: seal and open under a key and a nonce. */
  datatype Aead = Aead(seal: (Bytes, Bytes, Bytes) -> Bytes, open: (Bytes, Bytes, Bytes) -> Option<Bytes>)

  const NONCE_SIZE := 12
  const TAG_SIZE := 16
  const KEY_SIZE := 32
  const WIRE_V1: bv8 := 0x01

  ghost predicate AeadOk(a: Aead) {
    && (forall k, iv, p :: a.open(k, iv, a.seal(k, iv, p)) == Some(p))
    && (forall k, iv, p :: |a.seal(k, iv, p)| == |p| + TAG_SIZE)
  }

  /** The sizes the block cipher accepts. */
  predicate ValidKey(k: Bytes) { |k| == 16 || |k| == 24 || |k| == 32 }

  datatype ShredError = Gone | NoKey | KmsUnavailable | Integrity | BadKeySize

  datatype Reply = Done(bytes: Bytes) | Fails(error: ShredError)

  // ---------------------------------------------------------------- field framing

  /** version byte, nonce, then ciphertext and tag. */
  function SealField(a: Aead, dek: Bytes, iv: Bytes, plain: Bytes): Reply {
    if !ValidKey(dek) then Fails(BadKeySize) else Done([WIRE_V1] + iv + a.seal(dek, iv, plain))
  }

  function OpenField(a: Aead, dek: Bytes, sealed: Bytes): Reply {
    if |sealed| < 1 || sealed[0] != WIRE_V1 then Fails(Integrity)
    else if !ValidKey(dek) then Fails(BadKeySize)
    else
      var body := sealed[1..];
      if |body| < NONCE_SIZE + TAG_SIZE then Fails(Integrity)
      else
        match a.open(dek, body[..NONCE_SIZE], body[NONCE_SIZE..])
        case None => Fails(Integrity)
        case Some(plain) => Done(plain)
  }

  /** The field is a version byte, a nonce and a ciphertext with its tag, and the key opens it. */
  ghost predicate Opens(a: Aead, dek: Bytes, sealed: Bytes, plain: Bytes) {
    exists iv, c :: |iv| == 12 && |c| >= 16 && sealed == [1] + iv + c && a.open(dek, iv, c) == Some(plain)
  }

  /** Only such fields open, and only under a key of a size the cipher accepts. */
  lemma OpensIff(a: Aead, dek: Bytes, sealed: Bytes, plain: Bytes)
    ensures OpenField(a, dek, sealed) == Done(plain) <==> |dek| in {16, 24, 32} && Opens(a, dek, sealed, plain)
  {
    if OpenField(a, dek, sealed) == Done(plain) {
      var iv, c := sealed[1..][..NONCE_SIZE], sealed[1..][NONCE_SIZE..];
      assert sealed == [1] + iv + c && a.open(dek, iv, c) == Some(plain);
    }
    if |dek| in {16, 24, 32} && Opens(a, dek, sealed, plain) {
      var iv, c :| |iv| == 12 && |c| >= 16 && sealed == [1] + iv + c && a.open(dek, iv, c) == Some(plain);
      assert sealed[1..][..NONCE_SIZE] == iv && sealed[1..][NONCE_SIZE..] == c;
    }
  }

  lemma FieldRoundTrip(a: Aead, dek: Bytes, iv: Bytes, plain: Bytes)
    requires AeadOk(a) && ValidKey(dek) && |iv| == NONCE_SIZE
    ensures SealField(a, dek, iv, plain).Done?
    ensures OpenField(a, dek, SealField(a, dek, iv, plain).bytes) == Done(plain)
  {
    var ct := a.seal(dek, iv, plain);
    var sealed := [WIRE_V1] + iv + ct;
    assert sealed[1..] == iv + ct;
    assert (iv + ct)[..NONCE_SIZE] == iv && (iv + ct)[NONCE_SIZE..] == ct;
  }

  // ---------------------------------------------------------------- the key store

  type Keks = map<string, seq<Bytes>>

  function VersionsOf(keks: Keks, tenant: string): seq<Bytes> { if tenant in keks then keks[tenant] else [] }

  function AddKek(keks: Keks, tenant: string, kek: Bytes): Keks { keks[tenant := VersionsOf(keks, tenant) + [kek]] }

  /** The latest key of a tenant, made on first use. */
  function WithActive(keks: Keks, tenant: string, newKek: Bytes): (keks': Keks)
    ensures VersionsOf(keks', tenant) != []
  {
    if VersionsOf(keks, tenant) != [] then keks else keks[tenant := [newKek]]
  }

  datatype Wrapping = Wrapping(keks: Keks, bytes: Bytes, version: nat)

  function Wrap(a: Aead, keks: Keks, tenant: string, dek: Bytes, newKek: Bytes, nonce: Bytes): Option<Wrapping> {
    var keks' := WithActive(keks, tenant, newKek);
    var versions := VersionsOf(keks', tenant);
    var kek := versions[|versions| - 1];
    if !ValidKey(kek) then None else Some(Wrapping(keks', nonce + a.seal(kek, nonce, dek), |versions|))
  }

  function Unwrap(a: Aead, keks: Keks, tenant: string, wrapped: Bytes, version: nat): Option<Bytes> {
    var versions := VersionsOf(keks, tenant);
    if version == 0 || version > |versions| then None
    else if !ValidKey(versions[version - 1]) || |wrapped| < NONCE_SIZE then None
    else a.open(versions[version - 1], wrapped[..NONCE_SIZE], wrapped[NONCE_SIZE..])
  }

  // ---------------------------------------------------------------- the shredder's state

  datatype Pair = Pair(tenant: string, subject: string)

  datatype KeyRow = KeyRow(wrapped: Bytes, kekVersion: nat, createdAt: int, shredded: bool)

  datatype Vault = Vault(keks: Keks, rows: map<Pair, KeyRow>, cache: map<string, Bytes>)

  const EMPTY_VAULT := Vault(map[], map[], map[])

  function CacheKey(p: Pair): string { p.tenant + "|" + p.subject }

  /** What one call draws from outside: random keys and nonces, and the time. */
  datatype Random = Random(dek: Bytes, kek: Bytes, nonce: Bytes, iv: Bytes, now: int)

  predicate RandomOk(r: Random) {
    |r.dek| == KEY_SIZE && |r.kek| == KEY_SIZE && |r.nonce| == NONCE_SIZE && |r.iv| == NONCE_SIZE
  }

  /** The upsert keeps created_at and the tombstone of an existing row. */
  function Upsert(rows: map<Pair, KeyRow>, p: Pair, wrapped: Bytes, version: nat, now: int): map<Pair, KeyRow> {
    rows[p := if p in rows then rows[p].(wrapped := wrapped, kekVersion := version)
              else KeyRow(wrapped, version, now, false)]
  }

  function EnsureKey(a: Aead, v: Vault, p: Pair, r: Random): (Vault, Reply) {
    if CacheKey(p) in v.cache then (v, Done(v.cache[CacheKey(p)]))
    else if p in v.rows then
      if v.rows[p].shredded then (v, Fails(Gone))
      else
        match Unwrap(a, v.keks, p.tenant, v.rows[p].wrapped, v.rows[p].kekVersion)
        case None => (v, Fails(KmsUnavailable))
        case Some(dek) => (v.(cache := v.cache[CacheKey(p) := dek]), Done(dek))
    else
      match Wrap(a, v.keks, p.tenant, r.dek, r.kek, r.nonce)
      case None => (v.(keks := WithActive(v.keks, p.tenant, r.kek)), Fails(KmsUnavailable))
      case Some(w) =>
        (Vault(w.keks, Upsert(v.rows, p, w.bytes, w.version, r.now), v.cache[CacheKey(p) := r.dek]), Done(r.dek))
  }

  function Encrypt(a: Aead, v: Vault, p: Pair, plain: Bytes, r: Random): (Vault, Reply) {
    var (v', key) := EnsureKey(a, v, p, r);
    (v', if key.Done? then SealField(a, key.bytes, r.iv, plain) else key)
  }

  function Decrypt(a: Aead, v: Vault, p: Pair, sealed: Bytes): (Vault, Reply) {
    if CacheKey(p) in v.cache then (v, OpenField(a, v.cache[CacheKey(p)], sealed))
    else if p !in v.rows then (v, Fails(NoKey))
    else if v.rows[p].shredded then (v, Fails(Gone))
    else
      match Unwrap(a, v.keks, p.tenant, v.rows[p].wrapped, v.rows[p].kekVersion)
      case None => (v, Fails(KmsUnavailable))
      case Some(dek) => (v.(cache := v.cache[CacheKey(p) := dek]), OpenField(a, dek, sealed))
  }

  /** Forgetting updates the row if there is one and drops the cached key. */
  function Forget(v: Vault, p: Pair): Vault {
    v.(rows := if p in v.rows then v.rows[p := v.rows[p].(wrapped := [], shredded := true)] else v.rows,
       cache := v.cache - {CacheKey(p)})
  }

  /** One row of a rewrap: unwrap under its version, wrap under the current one. */
  function RewrapRow(a: Aead, v: Vault, p: Pair, r: Random): (Vault, bool)
    requires p in v.rows
  {
    match Unwrap(a, v.keks, p.tenant, v.rows[p].wrapped, v.rows[p].kekVersion)
    case None => (v, false)
    case Some(dek) =>
      match Wrap(a, v.keks, p.tenant, dek, r.kek, r.nonce)
      case None => (v.(keks := WithActive(v.keks, p.tenant, r.kek)), false)
      case Some(w) => (v.(keks := w.keks, rows := Upsert(v.rows, p, w.bytes, w.version, r.now)), true)
  }

  /** Rows a rewrap still has to move. */
  function Stale(v: Vault, tenant: string, current: nat): set<Pair> {
    set p | p in v.rows && p.tenant == tenant && v.rows[p].kekVersion < current && !v.rows[p].shredded
  }

  // ---------------------------------------------------------------- runs

  datatype ShredStep =
    | EncryptFor(p: Pair, plain: Bytes, r: Random)
    | DecryptFor(p: Pair, sealed: Bytes)
    | ForgetFor(p: Pair)
    | ClearCache
    | RotateKek(tenant: string, kek: Bytes)
    | RewrapFor(p: Pair, r: Random)

  /** One step. A rotation that is not given a full-size key is refused; a rewrap handles one stale row. */
  function Next(a: Aead, v: Vault, step: ShredStep): Vault {
    match step
    case EncryptFor(p, plain, r) => Encrypt(a, v, p, plain, r).0
    case DecryptFor(p, sealed) => Decrypt(a, v, p, sealed).0
    case ForgetFor(p) => Forget(v, p)
    case ClearCache => v.(cache := map[])
    case RotateKek(tenant, kek) => if |kek| != KEY_SIZE then v else v.(keks := AddKek(v.keks, tenant, kek))
    case RewrapFor(p, r) =>
      if p in Stale(v, p.tenant, |VersionsOf(v.keks, p.tenant)|) then RewrapRow(a, v, p, r).0 else v
  }

  function Run(a: Aead, v: Vault, steps: seq<ShredStep>): Vault {
    if steps == [] then v else Next(a, Run(a, v, steps[..|steps| - 1]), steps[|steps| - 1])
  }

  /** The step works on pairs of P only and draws keys and nonces of the right size. */
  ghost predicate StepOk(step: ShredStep, P: iset<Pair>) {
    match step
    case EncryptFor(p, _, r) => p in P && RandomOk(r)
    case DecryptFor(p, _) => p in P
    case ForgetFor(p) => p in P
    case RewrapFor(p, r) => RandomOk(r)
    case _ => true
  }

  ghost predicate StepsOk(steps: seq<ShredStep>, P: iset<Pair>) { forall i | 0 <= i < |steps| :: StepOk(steps[i], P) }

  /** No two pairs of P share a cache key. */
  ghost predicate KeysApart(P: iset<Pair>) { forall p, q | p in P && q in P && CacheKey(p) == CacheKey(q) :: p == q }

  // ---------------------------------------------------------------- the invariant

  /** The data key of a pair as stored. */
  function StoredDek(a: Aead, v: Vault, p: Pair): Option<Bytes> {
    if p in v.rows && !v.rows[p].shredded
    then Unwrap(a, v.keks, p.tenant, v.rows[p].wrapped, v.rows[p].kekVersion) else None
  }

  predicate KeksOk(keks: Keks) { forall t | t in keks :: forall i | 0 <= i < |keks[t]| :: |keks[t][i]| == KEY_SIZE }

  predicate RowOk(a: Aead, v: Vault, p: Pair)
    requires p in v.rows
  {
    v.rows[p].shredded || (StoredDek(a, v, p).Some? && |StoredDek(a, v, p).value| == KEY_SIZE)
  }

  /** A cached key equals the unwrapped stored one. */
  ghost predicate CacheOk(a: Aead, v: Vault, P: iset<Pair>) {
    forall p | p in P && CacheKey(p) in v.cache :: StoredDek(a, v, p) == Some(v.cache[CacheKey(p)])
  }

  ghost predicate VaultInv(a: Aead, v: Vault, P: iset<Pair>) {
    KeksOk(v.keks) && (forall p | p in v.rows :: RowOk(a, v, p)) && CacheOk(a, v, P)
  }

  // ---------------------------------------------------------------- key store lemmas

  /** What is wrapped unwraps, and adding key versions does not disturb older wrappings. */
  lemma WrapUnwrap(a: Aead, keks: Keks, tenant: string, dek: Bytes, newKek: Bytes, nonce: Bytes)
    requires AeadOk(a) && KeksOk(keks) && |newKek| == KEY_SIZE && |nonce| == NONCE_SIZE
    ensures var w := Wrap(a, keks, tenant, dek, newKek, nonce);
            && w.Some? && KeksOk(w.value.keks) && KeksGrow(keks, w.value.keks)
            && w.value.version == |VersionsOf(w.value.keks, tenant)|
            && Unwrap(a, w.value.keks, tenant, w.value.bytes, w.value.version) == Some(dek)
  {
    var keks' := WithActive(keks, tenant, newKek);
    var versions := VersionsOf(keks', tenant);
    var kek := versions[|versions| - 1];
    assert |kek| == KEY_SIZE;
    var ct := a.seal(kek, nonce, dek);
    assert (nonce + ct)[..NONCE_SIZE] == nonce && (nonce + ct)[NONCE_SIZE..] == ct;
  }

  ghost predicate KeksGrow(keks: Keks, keks': Keks) {
    forall t: string :: VersionsOf(keks, t) <= VersionsOf(keks', t)
  }

  lemma UnwrapGrows(a: Aead, keks: Keks, keks': Keks, tenant: string, wrapped: Bytes, version: nat)
    requires KeksGrow(keks, keks') && Unwrap(a, keks, tenant, wrapped, version).Some?
    ensures Unwrap(a, keks', tenant, wrapped, version) == Unwrap(a, keks, tenant, wrapped, version)
  {
    assert VersionsOf(keks, tenant) <= VersionsOf(keks', tenant);
  }

  lemma AddKekGrows(keks: Keks, tenant: string, kek: Bytes)
    requires KeksOk(keks) && |kek| == KEY_SIZE
    ensures KeksOk(AddKek(keks, tenant, kek)) && KeksGrow(keks, AddKek(keks, tenant, kek))
  {
  }

  /** The keys grew and at most one row changed, keeping its data key. */
  ghost predicate DeksKept(a: Aead, v: Vault, v': Vault) {
    forall p | StoredDek(a, v, p).Some? :: StoredDek(a, v', p) == StoredDek(a, v, p)
  }

  lemma GrowthKeepsDeks(a: Aead, v: Vault, keks': Keks)
    requires KeksGrow(v.keks, keks')
    ensures DeksKept(a, v, v.(keks := keks'))
  {
    forall p | StoredDek(a, v, p).Some? ensures StoredDek(a, v.(keks := keks'), p) == StoredDek(a, v, p) {
      UnwrapGrows(a, v.keks, keks', p.tenant, v.rows[p].wrapped, v.rows[p].kekVersion);
    }
  }

  /** Same keys and rows carry the invariant over to any cache that is right. */
  lemma GrowthKeepsRows(a: Aead, v: Vault, keks': Keks, P: iset<Pair>)
    requires VaultInv(a, v, P) && KeksOk(keks') && KeksGrow(v.keks, keks')
    ensures VaultInv(a, v.(keks := keks'), P)
  {
    var v' := v.(keks := keks');
    GrowthKeepsDeks(a, v, keks');
    forall p | p in v'.rows ensures RowOk(a, v', p) {
      assert RowOk(a, v, p);
    }
  }
}
