/** Stream-sticky sharding by FNV-1a (outbox/drain.go, projection/runtime.go, state_stream/drain.go). */
module Shards {
  import opened StreamIds

  /** A shard count fits the 32-bit hash; 0 is no sharding. */
  type ShardCount = n: nat | n < 0x1_0000_0000

  const FNV_OFFSET: bv32 := 2166136261
  const FNV_PRIME: bv32 := 16777619

  type Octet = n: nat | n < 256

  /** The UTF-8 form of a character (section 3 of RFC 3629). */
  function Utf8Char(c: char): (bytes: seq<Octet>)
    ensures 1 <= |bytes| <= 4
  {
    var n := c as int;
    if n < 0x80 then [n]
    else if n < 0x800 then [0xC0 + n / 0x40, 0x80 + n % 0x40]
    else if n < 0x1_0000 then [0xE0 + n / 0x1000, 0x80 + n / 0x40 % 0x40, 0x80 + n % 0x40]
    else [0xF0 + n / 0x4_0000, 0x80 + n / 0x1000 % 0x40, 0x80 + n / 0x40 % 0x40, 0x80 + n % 0x40]
  }

  function Bits(b: Octet, marker: int): int { (b as int) - marker }

  /** The code point that a UTF-8 sequence stands for, read from its lead byte's class and six bits of each
      continuation byte. */
  function CodePoint(bytes: seq<Octet>): int
    requires 1 <= |bytes| <= 4
  {
    if |bytes| == 1 then bytes[0]
    else if |bytes| == 2 then Bits(bytes[0], 0xC0) * 0x40 + Bits(bytes[1], 0x80)
    else if |bytes| == 3 then (Bits(bytes[0], 0xE0) * 0x40 + Bits(bytes[1], 0x80)) * 0x40 + Bits(bytes[2], 0x80)
    else ((Bits(bytes[0], 0xF0) * 0x40 + Bits(bytes[1], 0x80)) * 0x40 + Bits(bytes[2], 0x80)) * 0x40 + Bits(bytes[3], 0x80)
  }

  lemma Utf8RoundTrip(c: char)
    ensures CodePoint(Utf8Char(c)) == c as int
    ensures forall i | 1 <= i < |Utf8Char(c)| :: 0x80 <= Utf8Char(c)[i] < 0xC0
    ensures var lead := Utf8Char(c)[0];
            |Utf8Char(c)| == if lead < 0x80 then 1 else if lead < 0xE0 then 2 else if lead < 0xF0 then 3 else 4
  {
    var n := c as int;
    assert n / 0x1000 == n / 0x40 / 0x40 && n / 0x4_0000 == n / 0x1000 / 0x40;
  }

  function Utf8(s: string): seq<Octet> {
    if s == [] then [] else Utf8Char(s[0]) + Utf8(s[1..])
  }

  lemma {:induction false} Utf8Concat(a: string, b: string)
    ensures Utf8(a + b) == Utf8(a) + Utf8(b)
    decreases |a|
  {
    hide Utf8Char;
    if a == [] {
      assert a + b == b;
    } else {
      Utf8Concat(a[1..], b);
      assert (a + b)[0] == a[0] && (a + b)[1..] == a[1..] + b;
    }
  }

  /** One byte: exclusive-or into the state, then multiply modulo 2^32. */
  function FnvByte(h: bv32, b: Octet): bv32 {
    (h ^ (b as bv32)) * FNV_PRIME
  }

  /** A byte-at-a-time hash: the state h after writing s. */
  function Written(step: (bv32, Octet) -> bv32, h: bv32, s: seq<Octet>): bv32
    decreases |s|
  {
    if s == [] then h else Written(step, step(h, s[0]), s[1..])
  }

  lemma {:induction false} WrittenConcat(step: (bv32, Octet) -> bv32, h: bv32, a: seq<Octet>, b: seq<Octet>)
    ensures Written(step, h, a + b) == Written(step, Written(step, h, a), b)
    decreases |a|
  {
    if a == [] {
      assert a + b == b;
    } else {
      WrittenConcat(step, step(h, a[0]), a[1..], b);
      assert (a + b)[1..] == a[1..] + b;
    }
  }

  /** The byte loop of one Write. */
  method Write(step: (bv32, Octet) -> bv32, h: bv32, s: seq<Octet>) returns (sum: bv32)
    ensures sum == Written(step, h, s)
  {
    sum := h;
    for i := 0 to |s|
      invariant Written(step, h, s) == Written(step, sum, s[i..])
    {
      assert s[i..][0] == s[i] && s[i..][1..] == s[i + 1..];
      sum := step(sum, s[i]);
    }
  }

  /** A string is hashed as its bytes. */
  function FnvWrite(h: bv32, s: string): bv32 {
    Written(FnvByte, h, Utf8(s))
  }

  /** The outbox drain hashes the whole key at once. */
  function StreamShard(key: string, total: ShardCount): (shard: nat)
    requires 0 < total
    ensures shard < total
  {
    (FnvWrite(FNV_OFFSET, key) as nat) % total
  }

  /** Projections and the state stream write tenant, bar and stream id one after the other. */
  function SplitShard(tenant: string, stream: string, total: ShardCount): nat
    requires 0 < total
  {
    (FnvWrite(FnvWrite(FnvWrite(FNV_OFFSET, tenant), "|"), stream) as nat) % total
  }

  lemma ShardFormsAgree(tenant: string, stream: string, total: ShardCount)
    requires 0 < total
    ensures SplitShard(tenant, stream, total) == StreamShard(StreamKey(tenant, stream), total)
  {
    hide Utf8Char, Utf8, FnvByte;
    assert StreamKey(tenant, stream) == tenant + "|" + stream;
    Utf8Concat(tenant + "|", stream);
    Utf8Concat(tenant, "|");
    WrittenConcat(FnvByte, FNV_OFFSET, Utf8(tenant + "|"), Utf8(stream));
    WrittenConcat(FnvByte, FNV_OFFSET, Utf8(tenant), Utf8("|"));
  }

  /** Whether a runner of shard `shard` out of `total` handles a stream; total 0 is no sharding. */
  predicate InShard(sid: StreamId, shard: nat, total: ShardCount)
  {
    total == 0 || StreamShard(KeyOf(sid), total) == shard
  }

  /** N shards partition the streams: each is in exactly one. */
  lemma ShardsPartition(sid: StreamId, total: ShardCount)
    requires 0 < total
    ensures exists k: nat | k < total :: InShard(sid, k, total)
    ensures forall k: nat, j: nat | InShard(sid, k, total) && InShard(sid, j, total) :: k == j
  {
    assert InShard(sid, StreamShard(KeyOf(sid), total), total);
  }
}
