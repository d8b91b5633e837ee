/** The tamper-evident hash chain: verification and rebuild (es/chain.go). */
module Chain {
  import opened Basics
  import opened StreamIds
  import opened Store

  // ---------------------------------------------------------------- verification

  datatype ChainOutcome = Intact | Broken(version: nat) | HashFailed(version: nat)

  /** Verify the rows of a stream in version order, starting from prev. */
  function VerifyFrom(ch: ChainFns, prev: Bytes, envs: seq<Envelope>): ChainOutcome
    decreases |envs|
  {
    if envs == [] then Intact
    else
      match ComputeChainHash(ch, prev, envs[0].hashed)
      case None => HashFailed(envs[0].hashed.version)
      case Some(h) =>
        if h != envs[0].hash then Broken(envs[0].hashed.version)
        else VerifyFrom(ch, envs[0].hash, envs[1..])
  }

  function Verify(ch: ChainFns, envs: seq<Envelope>): ChainOutcome { VerifyFrom(ch, ZERO_HASH, envs) }

  method VerifyStreamChain(ch: ChainFns, envs: seq<Envelope>) returns (r: ChainOutcome)
    ensures r == Verify(ch, envs)
  {
    var prev := ZERO_HASH;
    for i := 0 to |envs|
      invariant Verify(ch, envs) == VerifyFrom(ch, prev, envs[i..])
    {
      var got := ComputeChainHash(ch, prev, envs[i].hashed);
      if got.None? {
        return HashFailed(envs[i].hashed.version);
      }
      if got.value != envs[i].hash {
        return Broken(envs[i].hashed.version);
      }
      assert envs[i..][1..] == envs[i + 1..];
      prev := envs[i].hash;
    }
    return Intact;
  }

  // ---------------------------------------------------------------- intact streams, row by row

  /** The hash that row i of a list chains to, when the rows before it are right. */
  function PrevOf(envs: seq<Envelope>, prev: Bytes, i: nat): Bytes
    requires i <= |envs|
  {
    if i == 0 then prev else envs[i - 1].hash
  }

  /** Row i carries the hash of its own fields and its predecessor's hash. */
  ghost predicate LinkOk(ch: ChainFns, prev: Bytes, envs: seq<Envelope>, i: nat)
    requires i < |envs|
  {
    ComputeChainHash(ch, PrevOf(envs, prev, i), envs[i].hashed) == Some(envs[i].hash)
  }

  /** A stream verifies exactly when every row is linked to the one before it. */
  lemma {:induction false} IntactIffLinked(ch: ChainFns, prev: Bytes, envs: seq<Envelope>)
    ensures VerifyFrom(ch, prev, envs) == Intact <==> forall i | 0 <= i < |envs| :: LinkOk(ch, prev, envs, i)
    decreases |envs|
  {
    if envs != [] {
      IntactIffLinked(ch, envs[0].hash, envs[1..]);
      var rest := envs[1..];
      if forall i | 0 <= i < |envs| :: LinkOk(ch, prev, envs, i) {
        assert LinkOk(ch, prev, envs, 0);
        forall j | 0 <= j < |rest| ensures LinkOk(ch, envs[0].hash, rest, j) {
          assert LinkOk(ch, prev, envs, j + 1);
        }
      }
      if VerifyFrom(ch, prev, envs) == Intact {
        forall i | 1 <= i < |envs| ensures LinkOk(ch, prev, envs, i) {
          assert LinkOk(ch, envs[0].hash, rest, i - 1);
        }
        assert LinkOk(ch, prev, envs, 0);
      }
    }
  }

  /** Verification reports the first row whose link is wrong, by its version. */
  lemma {:induction false} FirstBadLink(ch: ChainFns, prev: Bytes, envs: seq<Envelope>, k: nat)
    requires k < |envs|
    requires forall i | 0 <= i < k :: LinkOk(ch, prev, envs, i)
    requires !LinkOk(ch, prev, envs, k)
    ensures VerifyFrom(ch, prev, envs)
         == if ComputeChainHash(ch, PrevOf(envs, prev, k), envs[k].hashed).None? then HashFailed(envs[k].hashed.version)
            else Broken(envs[k].hashed.version)
    decreases |envs|
  {
    if k > 0 {
      assert LinkOk(ch, prev, envs, 0);
      var rest := envs[1..];
      forall i | 0 <= i < k - 1 ensures LinkOk(ch, envs[0].hash, rest, i) {
        assert LinkOk(ch, prev, envs, i + 1);
      }
      FirstBadLink(ch, envs[0].hash, rest, k - 1);
    }
  }

  // ---------------------------------------------------------------- the head hash commits to history

  ghost predicate MarshalInjective(ch: ChainFns) {
    forall a: Wire, b: Wire :: ch.marshal(a).Some? && ch.marshal(a) == ch.marshal(b) ==> a == b
  }

  /** Two different inputs with one digest. */
  ghost predicate Collision(ch: ChainFns, x: Bytes, y: Bytes) { x != y && ch.sha(x) == ch.sha(y) }

  /** Equal chain hashes come from equal predecessors and equal fields, or exhibit a collision. */
  lemma EqualHashes(ch: ChainFns, p: Bytes, h: Hashed, q: Bytes, g: Hashed) returns (x: Bytes, y: Bytes)
    requires MarshalInjective(ch)
    requires ComputeChainHash(ch, p, h).Some? && ComputeChainHash(ch, p, h) == ComputeChainHash(ch, q, g)
    ensures Collision(ch, x, y) || (p == q && WireOf(h) == WireOf(g))
  {
    var ca, cb := ch.marshal(WireOf(h)).value, ch.marshal(WireOf(g)).value;
    x, y := p + ca, q + cb;
    if x == y {
      assert x[..HASH_SIZE] == p && y[..HASH_SIZE] == q;
      assert x[HASH_SIZE..] == ca && y[HASH_SIZE..] == cb;
    }
  }

  ghost predicate SameFields(a: seq<Envelope>, b: seq<Envelope>) {
    |a| == |b| && forall i | 0 <= i < |a| :: WireOf(a[i].hashed) == WireOf(b[i].hashed) && a[i].hash == b[i].hash
  }

  /** Two verifying streams of equal length with the same last hash agree on every hashed field of
      every event, or two inputs with one digest can be read off them. */
  lemma {:induction false} HeadCommitsSameLength(ch: ChainFns, a: seq<Envelope>, b: seq<Envelope>) returns (x: Bytes, y: Bytes)
    requires MarshalInjective(ch)
    requires |a| == |b|
    requires Verify(ch, a) == Intact && Verify(ch, b) == Intact
    requires a != [] ==> a[|a| - 1].hash == b[|b| - 1].hash
    ensures Collision(ch, x, y) || SameFields(a, b)
  {
    hide ComputeChainHash, VerifyFrom;
    if a == [] {
      x, y := [], [];
    } else {
      var n := |a| - 1;
      IntactIffLinked(ch, ZERO_HASH, a);
      IntactIffLinked(ch, ZERO_HASH, b);
      assert LinkOk(ch, ZERO_HASH, a, n) && LinkOk(ch, ZERO_HASH, b, n);
      x, y := EqualHashes(ch, PrevOf(a, ZERO_HASH, n), a[n].hashed, PrevOf(b, ZERO_HASH, n), b[n].hashed);
      if !Collision(ch, x, y) {
        IntactPrefix(ch, a, n);
        IntactPrefix(ch, b, n);
        x, y := HeadCommitsSameLength(ch, a[..n], b[..n]);
      }
    }
  }

  lemma IntactPrefix(ch: ChainFns, a: seq<Envelope>, n: nat)
    requires Verify(ch, a) == Intact && n <= |a|
    ensures Verify(ch, a[..n]) == Intact
  {
    IntactIffLinked(ch, ZERO_HASH, a);
    IntactIffLinked(ch, ZERO_HASH, a[..n]);
    forall i | 0 <= i < n ensures LinkOk(ch, ZERO_HASH, a[..n], i) {
      assert LinkOk(ch, ZERO_HASH, a, i);
    }
  }

  ghost predicate Numbered(a: seq<Envelope>) { forall i | 0 <= i < |a| :: a[i].hashed.version == i + 1 }

  /** The head hash commits to the whole history: two non-empty verifying streams with contiguous
      versions and one last hash have the same length and agree on every hashed field of every event,
      down to the stream identity when the identities are valid. */
  lemma HeadHashCommitsToHistory(ch: ChainFns, a: seq<Envelope>, b: seq<Envelope>) returns (x: Bytes, y: Bytes)
    requires MarshalInjective(ch)
    requires a != [] && b != [] && Numbered(a) && Numbered(b)
    requires Verify(ch, a) == Intact && Verify(ch, b) == Intact
    requires a[|a| - 1].hash == b[|b| - 1].hash
    ensures Collision(ch, x, y) || SameFields(a, b)
    ensures Collision(ch, x, y)
         || forall i | 0 <= i < |a| && IsValid(a[i].hashed.sid) && IsValid(b[i].hashed.sid) :: a[i].hashed == b[i].hashed
  {
    IntactIffLinked(ch, ZERO_HASH, a);
    IntactIffLinked(ch, ZERO_HASH, b);
    assert LinkOk(ch, ZERO_HASH, a, |a| - 1) && LinkOk(ch, ZERO_HASH, b, |b| - 1);
    x, y := EqualHashes(ch, PrevOf(a, ZERO_HASH, |a| - 1), a[|a| - 1].hashed,
                        PrevOf(b, ZERO_HASH, |b| - 1), b[|b| - 1].hashed);
    if !Collision(ch, x, y) {
      assert a[|a| - 1].hashed.version == |a| && b[|b| - 1].hashed.version == |b|;
      x, y := HeadCommitsSameLength(ch, a, b);
      if SameFields(a, b) {
        forall i | 0 <= i < |a| && IsValid(a[i].hashed.sid) && IsValid(b[i].hashed.sid) ensures a[i].hashed == b[i].hashed {
          var s, t := a[i].hashed.sid, b[i].hashed.sid;
          ParseCanonicalRoundTrip(s.tenant, Canonical(s), s);
          ParseCanonicalRoundTrip(t.tenant, Canonical(t), t);
        }
      }
    }
  }

  /** Replace the fields of row k and nothing else: verification still passes exactly when no hashed
      field changed, and otherwise fails at that row, or a collision can be read off. */
  lemma TamperDetected(ch: ChainFns, a: seq<Envelope>, k: nat, h: Hashed) returns (x: Bytes, y: Bytes)
    requires MarshalInjective(ch)
    requires k < |a| && Verify(ch, a) == Intact
    ensures var t := a[k := a[k].(hashed := h)];
            || Collision(ch, x, y)
            || (if WireOf(h) == WireOf(a[k].hashed) then Verify(ch, t) == Intact
                else Verify(ch, t) == (if ch.marshal(WireOf(h)).None? then HashFailed(h.version) else Broken(h.version)))
  {
    var t := a[k := a[k].(hashed := h)];
    x, y := [], [];
    IntactIffLinked(ch, ZERO_HASH, a);
    IntactIffLinked(ch, ZERO_HASH, t);
    forall i | 0 <= i < |a| && i != k ensures LinkOk(ch, ZERO_HASH, t, i) {
      assert LinkOk(ch, ZERO_HASH, a, i);
    }
    assert LinkOk(ch, ZERO_HASH, a, k);
    assert PrevOf(t, ZERO_HASH, k) == PrevOf(a, ZERO_HASH, k);
    if WireOf(h) == WireOf(a[k].hashed) {
      assert LinkOk(ch, ZERO_HASH, t, k);
    } else if LinkOk(ch, ZERO_HASH, t, k) {
      x, y := EqualHashes(ch, PrevOf(a, ZERO_HASH, k), a[k].hashed, PrevOf(a, ZERO_HASH, k), h);
    } else {
      FirstBadLink(ch, ZERO_HASH, t, k);
    }
  }

  // ---------------------------------------------------------------- rebuild

  datatype RebuildOutcome = Rebuilt | ChainBroken(version: nat) | RecomputeFailed(version: nat)

  datatype ChainRebuild = ChainRebuild(envs: seq<Envelope>, backfilled: nat, verified: nat, outcome: RebuildOutcome)

  /** Fill empty hashes and check the others, in version order, starting from prev. */
  function RebuildFrom(ch: ChainFns, prev: Bytes, envs: seq<Envelope>): ChainRebuild
    decreases |envs|
  {
    if envs == [] then ChainRebuild([], 0, 0, Rebuilt)
    else
      match ComputeChainHash(ch, prev, envs[0].hashed)
      case None => ChainRebuild(envs, 0, 0, RecomputeFailed(envs[0].hashed.version))
      case Some(h) =>
        if envs[0].hash == [] then
          var r := RebuildFrom(ch, h, envs[1..]);
          r.(envs := [envs[0].(hash := h, prevHash := prev)] + r.envs, backfilled := r.backfilled + 1)
        else if envs[0].hash != h then ChainRebuild(envs, 0, 0, ChainBroken(envs[0].hashed.version))
        else
          var r := RebuildFrom(ch, h, envs[1..]);
          r.(envs := [envs[0]] + r.envs, verified := r.verified + 1)
  }

  function RebuildLog(ch: ChainFns, envs: seq<Envelope>): ChainRebuild { RebuildFrom(ch, ZERO_HASH, envs) }

  /** Every hash that is there agrees with recomputation from the start. */
  ghost predicate Agrees(ch: ChainFns, prev: Bytes, envs: seq<Envelope>)
    decreases |envs|
  {
    envs != [] ==>
      match ComputeChainHash(ch, prev, envs[0].hashed)
      case None => false
      case Some(h) => (envs[0].hash == [] || envs[0].hash == h) && Agrees(ch, h, envs[1..])
  }

  /** A rebuild only ever fills empty hash columns. */
  ghost predicate FilledIn(before: seq<Envelope>, after: seq<Envelope>) {
    && |before| == |after|
    && forall i | 0 <= i < |before| ::
         && after[i].hashed == before[i].hashed && after[i].position == before[i].position
         && (before[i].hash != [] ==> after[i] == before[i])
  }

  lemma VerifyCons(ch: ChainFns, prev: Bytes, e: Envelope, rest: seq<Envelope>)
    requires ComputeChainHash(ch, prev, e.hashed) == Some(e.hash)
    ensures VerifyFrom(ch, prev, [e] + rest) == Intact <==> VerifyFrom(ch, e.hash, rest) == Intact
  {
    hide ComputeChainHash;
    assert ([e] + rest)[1..] == rest;
  }

  lemma FilledInCons(e: Envelope, e': Envelope, before: seq<Envelope>, after: seq<Envelope>)
    requires FilledIn(before, after) && e'.hashed == e.hashed && e'.position == e.position && (e.hash != [] ==> e' == e)
    ensures FilledIn([e] + before, [e'] + after)
  {
  }

  lemma RefusedAtOnce(ch: ChainFns, prev: Bytes, envs: seq<Envelope>)
    ensures FilledIn(envs, envs) && VerifyFrom(ch, prev, envs[..0]) == Intact
  {
  }

  /** One row passed: what holds of the rest holds of the whole. */
  lemma RowPassed(ch: ChainFns, prev: Bytes, e: Envelope, e': Envelope, envs: seq<Envelope>, after: seq<Envelope>, n: nat)
    requires ComputeChainHash(ch, prev, e'.hashed) == Some(e'.hash)
    requires e'.hashed == e.hashed && e'.position == e.position && (e.hash != [] ==> e' == e)
    requires FilledIn(envs, after) && n <= |after| && VerifyFrom(ch, e'.hash, after[..n]) == Intact
    ensures FilledIn([e] + envs, [e'] + after) && VerifyFrom(ch, prev, ([e'] + after)[..n + 1]) == Intact
    ensures VerifyFrom(ch, e'.hash, after) == Intact ==> VerifyFrom(ch, prev, [e'] + after) == Intact
  {
    hide VerifyFrom, ComputeChainHash, FilledIn;
    FilledInCons(e, e', envs, after);
    VerifyCons(ch, prev, e', after[..n]);
    VerifyCons(ch, prev, e', after);
    assert ([e'] + after)[..n + 1] == [e'] + after[..n];
  }

  /** Whatever it finds, a rebuild overwrites no hash, and the rows it passed are right: the stream up
      to the first row it refused verifies. It succeeds exactly on streams whose hashes agree with
      recomputation; then the whole stream verifies and the two counts add up to its length. */
  lemma {:induction false} RebuildLaws(ch: ChainFns, prev: Bytes, envs: seq<Envelope>)
    requires Sha256Sized(ch)
    ensures var r := RebuildFrom(ch, prev, envs);
            && FilledIn(envs, r.envs) && |r.envs| == |envs|
            && r.backfilled + r.verified <= |envs|
            && VerifyFrom(ch, prev, r.envs[..r.backfilled + r.verified]) == Intact
            && (r.outcome == Rebuilt <==> Agrees(ch, prev, envs))
            && (r.outcome == Rebuilt ==> r.backfilled + r.verified == |envs| && VerifyFrom(ch, prev, r.envs) == Intact)
            && (r.outcome != Rebuilt ==>
                  && r.backfilled + r.verified < |envs|
                  && r.outcome.version == envs[r.backfilled + r.verified].hashed.version)
    decreases |envs|
  {
    hide VerifyFrom, ComputeChainHash, FilledIn, Sha256Sized;
    RefusedAtOnce(ch, prev, envs);
    var r := RebuildFrom(ch, prev, envs);
    if envs == [] {
      assert envs[..0] == envs;
    } else if ComputeChainHash(ch, prev, envs[0].hashed).Some? {
      var h := ComputeChainHash(ch, prev, envs[0].hashed).value;
      if envs[0].hash == [] || envs[0].hash == h {
        RebuildLaws(ch, h, envs[1..]);
        var rest := RebuildFrom(ch, h, envs[1..]);
        var e' := r.envs[0];
        assert e'.hash == h && r.envs == [e'] + rest.envs && envs == [envs[0]] + envs[1..];
        RowPassed(ch, prev, envs[0], e', envs[1..], rest.envs, rest.backfilled + rest.verified);
      }
    }
  }

  /** On a verifying stream a pass writes nothing and counts every row as verified. */
  lemma {:induction false} RebuildIdempotent(ch: ChainFns, prev: Bytes, envs: seq<Envelope>)
    requires Sha256Sized(ch)
    requires VerifyFrom(ch, prev, envs) == Intact
    ensures RebuildFrom(ch, prev, envs) == ChainRebuild(envs, 0, |envs|, Rebuilt)
    decreases |envs|
  {
    if envs != [] {
      RebuildIdempotent(ch, envs[0].hash, envs[1..]);
    }
  }

  /** So a second pass over a rebuilt stream returns (0, n). */
  lemma SecondPass(ch: ChainFns, envs: seq<Envelope>)
    requires Sha256Sized(ch)
    requires RebuildLog(ch, envs).outcome == Rebuilt
    ensures RebuildLog(ch, RebuildLog(ch, envs).envs) == ChainRebuild(RebuildLog(ch, envs).envs, 0, |envs|, Rebuilt)
  {
    RebuildLaws(ch, ZERO_HASH, envs);
    RebuildIdempotent(ch, ZERO_HASH, RebuildLog(ch, envs).envs);
  }
}
