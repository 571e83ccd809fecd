/** The egress normaliser: TTL or hop limit forced to the policy value, IPv4 header checksum recomputed. */
module PacketProcessor {
  import opened Bytes
  import opened Checksum

  const IPV4_HEADER_MIN := 20
  const IPV6_HEADER_LEN := 40
  const TTL_OFFSET := 8
  const HOP_LIMIT_OFFSET := 7
  const CHECKSUM_OFFSET := 10

  /** The policy values are plain integers; nothing keeps them within a byte. */
  datatype Policy = Policy(ipv4Ttl: int, ipv6HopLimit: int)

  datatype Outcome = Unchanged | Rewritten | Dropped

  /** `toByte`: the low eight bits. */
  function Low8(v: int): byte {
    v % 256
  }

  /** How much of an IPv4 packet the checksum is computed over: the stated header, cut at the packet's end. */
  function HeaderEnd(p: seq<byte>, length: nat): (e: nat)
    requires 1 <= |p|
    ensures e <= length
  {
    Min(p[0] as int % 16 * 4, length)
  }

  /** The header with the checksum computed over its first `end` bytes, the field counting as zero. */
  function WithChecksum(p: seq<byte>, end: nat): (r: seq<byte>)
    requires CHECKSUM_OFFSET + 2 <= |p| && end <= |p|
    ensures |r| == |p|
  {
    WithWord(p, CHECKSUM_OFFSET, ONES - OnesSum(WithWord(p, CHECKSUM_OFFSET, 0)[..end]))
  }

  function ProcessIpv4(p: seq<byte>, length: nat, ttl: int): (r: (Outcome, seq<byte>))
    requires 1 <= length <= |p|
    ensures |r.1| == |p|
  {
    if length < IPV4_HEADER_MIN then (Dropped, p)
    else if p[TTL_OFFSET] == ttl then (Unchanged, p)
    else (Rewritten, WithChecksum(p[TTL_OFFSET := Low8(ttl)], HeaderEnd(p, length)))
  }

  function ProcessIpv6(p: seq<byte>, length: nat, hopLimit: int): (r: (Outcome, seq<byte>))
    requires 1 <= length <= |p|
    ensures |r.1| == |p|
  {
    if length < IPV6_HEADER_LEN then (Dropped, p)
    else if p[HOP_LIMIT_OFFSET] == hopLimit then (Unchanged, p)
    else (Rewritten, p[HOP_LIMIT_OFFSET := Low8(hopLimit)])
  }

  function Process(p: seq<byte>, length: nat, policy: Policy): (r: (Outcome, seq<byte>))
    requires length <= |p|
    ensures |r.1| == |p|
  {
    if length < 1 then (Dropped, p)
    else if p[0] / 16 == 4 then ProcessIpv4(p, length, policy.ipv4Ttl)
    else if p[0] / 16 == 6 then ProcessIpv6(p, length, policy.ipv6HopLimit)
    else (Dropped, p)
  }

  /** The rewrite in place. */
  method ProcessInPlace(packet: array<byte>, length: nat, policy: Policy) returns (r: Outcome)
    requires length <= packet.Length
    modifies packet
    ensures (r, packet[..]) == Process(old(packet[..]), length, policy)
  {
    hide OnesSum;
    if length < 1 {
      return Dropped;
    }
    var version := packet[0] / 16;
    if version == 4 {
      if length < IPV4_HEADER_MIN {
        return Dropped;
      }
      if packet[TTL_OFFSET] == policy.ipv4Ttl {
        return Unchanged;
      }
      packet[TTL_OFFSET] := Low8(policy.ipv4Ttl);
      ghost var p := packet[..];
      packet[CHECKSUM_OFFSET] := 0;
      packet[CHECKSUM_OFFSET + 1] := 0;
      var headerEnd := HeaderEnd(packet[..], length);
      assert packet[..] == WithWord(p, CHECKSUM_OFFSET, 0);
      assert packet[..][0..0 + headerEnd] == WithWord(p, CHECKSUM_OFFSET, 0)[..headerEnd];
      var sum := InternetChecksum(packet, 0, headerEnd);
      packet[CHECKSUM_OFFSET] := sum / 256;
      packet[CHECKSUM_OFFSET + 1] := sum % 256;
      assert packet[..] == WithWord(p, CHECKSUM_OFFSET, sum);
      return Rewritten;
    }
    if version == 6 {
      if length < IPV6_HEADER_LEN {
        return Dropped;
      }
      if packet[HOP_LIMIT_OFFSET] == policy.ipv6HopLimit {
        return Unchanged;
      }
      packet[HOP_LIMIT_OFFSET] := Low8(policy.ipv6HopLimit);
      return Rewritten;
    }
    return Dropped;
  }

  // ----- What the rewrite changes -----

  predicate MayChange(p: seq<byte>, i: nat)
    requires i < |p|
  {
    if p[0] / 16 == 4 then i == TTL_OFFSET || i == CHECKSUM_OFFSET || i == CHECKSUM_OFFSET + 1 else i == HOP_LIMIT_OFFSET
  }

  /**
   * Only the TTL and the two checksum bytes of an IPv4 packet, or the hop limit of an IPv6 packet, can
   * change; a packet that is dropped, or has the value already, is left as it is.
   */
  lemma OnlyTtlAndChecksumChange(p: seq<byte>, length: nat, policy: Policy)
    requires length <= |p|
    ensures var (r, q) := Process(p, length, policy);
            && (forall i :: 0 <= i < |p| && q[i] != p[i] ==> MayChange(p, i))
            && (r != Rewritten ==> q == p)
  {
    hide OnesSum;
  }

  /** Too short for its version, or of no version the rewrite knows. */
  predicate Unusable(p: seq<byte>, length: nat)
    requires length <= |p|
  {
    || length == 0
    || (p[0] / 16 != 4 && p[0] / 16 != 6)
    || (p[0] / 16 == 4 && length < 20)
    || (p[0] / 16 == 6 && length < 40)
  }

  /**
   * A packet is dropped exactly when it is empty, of another version than 4 and 6, or shorter than the
   * shortest header of its version. Any other one leaves with the low byte of the policy value in byte 8
   * or byte 7, and counts as unchanged exactly when that byte was the policy value before.
   */
  lemma OutcomeExact(p: seq<byte>, length: nat, policy: Policy)
    requires length <= |p|
    ensures var (r, q) := Process(p, length, policy);
            && (r == Dropped <==> Unusable(p, length))
            && (r != Dropped && p[0] / 16 == 4 ==>
                  q[8] == policy.ipv4Ttl % 256 && (r == Unchanged <==> p[8] == policy.ipv4Ttl)
                  && forall i :: 0 <= i < |p| && i != 8 && i != 10 && i != 11 ==> q[i] == p[i])
            && (r != Dropped && p[0] / 16 == 6 ==>
                  q[7] == policy.ipv6HopLimit % 256 && (r == Unchanged <==> p[7] == policy.ipv6HopLimit)
                  && forall i :: 0 <= i < |p| && i != 7 ==> q[i] == p[i])
  {
    hide OnesSum;
    if !Unusable(p, length) && p[0] / 16 == 4 && p[8] != policy.ipv4Ttl {
      assert Process(p, length, policy).1 == WithChecksum(p[8 := Low8(policy.ipv4Ttl)], HeaderEnd(p, length));
    }
  }

  /** A rewritten IPv4 header sums to all ones over what the checksum covers, if that includes the field. */
  lemma RewrittenHeaderSums(p: seq<byte>, length: nat, policy: Policy)
    requires length <= |p| && Process(p, length, policy).0 == Rewritten && p[0] / 16 == 4
    requires CHECKSUM_OFFSET + 2 <= HeaderEnd(p, length)
    ensures OnesSum(Process(p, length, policy).1[..HeaderEnd(p, length)]) == ONES
  {
    var end, t := HeaderEnd(p, length), p[TTL_OFFSET := Low8(policy.ipv4Ttl)];
    hide OnesSum;
    assert WithWord(t, CHECKSUM_OFFSET, 0)[..end] == WithWord(t[..end], CHECKSUM_OFFSET, 0);
    var c := FieldChecksum(t[..end], CHECKSUM_OFFSET);
    assert WithWord(t, CHECKSUM_OFFSET, c)[..end] == WithWord(t[..end], CHECKSUM_OFFSET, c);
    StoredChecksumSums(t[..end], CHECKSUM_OFFSET);
  }

  /** For a header of at least five words that is wholly present, that is the whole header. */
  lemma WholeHeaderSums(p: seq<byte>, length: nat, policy: Policy)
    requires length <= |p| && Process(p, length, policy).0 == Rewritten && p[0] / 16 == 4
    requires 5 <= p[0] as int % 16 && p[0] as int % 16 * 4 <= length
    ensures OnesSum(Process(p, length, policy).1[..p[0] as int % 16 * 4]) == ONES
  {
    hide OnesSum;
    RewrittenHeaderSums(p, length, policy);
  }

  // ----- A second run -----

  /** The value the policy has for the packet's version. */
  function PolicyValue(p: seq<byte>, policy: Policy): int
    requires |p| > 0
  {
    if p[0] / 16 == 4 then policy.ipv4Ttl else policy.ipv6HopLimit
  }

  lemma WithChecksumTwice(p: seq<byte>, end: nat)
    requires CHECKSUM_OFFSET + 2 <= |p| && end <= |p|
    ensures WithChecksum(WithChecksum(p, end), end) == WithChecksum(p, end)
  {
    hide OnesSum;
    var c := ONES - OnesSum(WithWord(p, CHECKSUM_OFFSET, 0)[..end]);
    assert WithWord(WithWord(p, CHECKSUM_OFFSET, c), CHECKSUM_OFFSET, 0) == WithWord(p, CHECKSUM_OFFSET, 0);
    assert WithWord(WithWord(p, CHECKSUM_OFFSET, c), CHECKSUM_OFFSET, c) == WithWord(p, CHECKSUM_OFFSET, c);
  }

  /**
   * A second run never changes a byte; and it reports the packet unchanged exactly when the policy value
   * is a byte. With any other value every run reports a rewrite.
   */
  lemma SecondRun(p: seq<byte>, length: nat, policy: Policy)
    requires length <= |p| && Process(p, length, policy).0 != Dropped
    ensures var (r, q) := Process(p, length, policy); var (r2, q2) := Process(q, length, policy);
            && q2 == q
            && (r2 == Unchanged <==> 0 <= PolicyValue(p, policy) <= 255)
            && r2 != Dropped
  {
    hide OnesSum;
    var (r, q) := Process(p, length, policy);
    if p[0] / 16 == 4 {
      if r == Rewritten {
        var t, end := p[TTL_OFFSET := Low8(policy.ipv4Ttl)], HeaderEnd(p, length);
        assert q == WithChecksum(t, end) && q[TTL_OFFSET] == Low8(policy.ipv4Ttl);
        WithChecksumTwice(t, end);
        assert q[TTL_OFFSET := Low8(policy.ipv4Ttl)] == q;
      }
    } else if r == Rewritten {
      assert q[HOP_LIMIT_OFFSET := Low8(policy.ipv6HopLimit)] == q;
    }
  }
}
