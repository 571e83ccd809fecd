/** The reply packet to a captured IPv4/UDP request: endpoints swapped, lengths and header checksum fresh. */
module UdpDnsReply {
  import opened Bytes
  import opened Checksum

  /** The length of the IPv4 header, from its low four bits. */
  function Ihl(p: seq<byte>): nat
    requires |p| > 0
  {
    p[0] as int % 16 * 4
  }

  /** A request the reply builder accepts: a whole header of at least five words, protocol 17, and a UDP header. */
  predicate Answerable(p: seq<byte>, length: nat)
    requires length <= |p|
  {
    length >= 28 && Ihl(p) >= 20 && length >= Ihl(p) + 8 && p[9] == 17
  }

  /** The first `h` bytes of a reply of `total` bytes: addresses swapped, TTL 64, length, checksum. */
  predicate IsReplyHeader(out: seq<byte>, p: seq<byte>, h: nat, total: nat) {
    && |out| == h && 20 <= h <= |p|
    && out[12..16] == p[16..20] && out[16..20] == p[12..16]
    && out[8] == 64 && WordAt(out, 2) == total % U16
    && (forall i :: 0 <= i < h && !(i in {2, 3, 8, 10, 11}) && !(12 <= i < 20) ==> out[i] == p[i])
    && OnesSum(out) == ONES
  }

  /** The rest of the reply: ports swapped, length, no checksum, the answer. */
  predicate IsReplyUdp(out: seq<byte>, p: seq<byte>, h: nat, dns: seq<byte>) {
    && |out| == h + 8 + |dns| && h + 8 <= |p|
    && out[h..h + 2] == p[h + 2..h + 4] && out[h + 2..h + 4] == p[h..h + 2]
    && WordAt(out, h + 4) == (8 + |dns|) % U16 && WordAt(out, h + 6) == 0
    && out[h + 8..] == dns
  }

  /** What a reply to `p` carrying `dns` is, field by field. */
  predicate IsReply(out: seq<byte>, p: seq<byte>, dns: seq<byte>)
    requires |p| >= 28 && Ihl(p) >= 20 && |p| >= Ihl(p) + 8
  {
    var h := Ihl(p);
    && |out| == h + 8 + |dns|
    && IsReplyHeader(out[..h], p, h, |out|)
    && IsReplyUdp(out, p, h, dns)
  }

  method Build(request: array<byte>, length: nat, dns: seq<byte>) returns (r: Option<array<byte>>)
    requires length <= request.Length
    ensures r.Some? <==> Answerable(request[..], length)
    ensures r.Some? ==> fresh(r.value) && IsReply(r.value[..], request[..], dns)
  {
    hide IsReplyHeader, IsReplyUdp;
    if length < 28 {
      return None;
    }
    var ihl := request[0] as int % 16 * 4;
    if ihl < 20 || length < ihl + 8 {
      return None;
    }
    if request[9] != 17 {
      return None;
    }
    var total := ihl + 8 + |dns|;
    var out := new byte[total](_ => 0);
    FillIp(out, ihl, request);
    FillUdp(out, ihl, request, dns);
    assert out[..][..ihl] == out[..ihl];
    r := Some(out);
  }

  /** The header of the request with the addresses swapped. */
  method CopySwapped(out: array<byte>, h: nat, request: array<byte>)
    requires out != request && 20 <= h <= out.Length && h <= request.Length
    modifies out
    ensures forall k :: 0 <= k < h ==> out[k] == request[Swap(k)]
  {
    forall i | 0 <= i < h {
      out[i] := request[i];
    }
    for i := 0 to 4
      invariant forall k :: 0 <= k < h ==>
        out[k] == request[if 12 <= k < 12 + i then k + 4 else if 16 <= k < 16 + i then k - 4 else k]
    {
      out[12 + i] := request[16 + i];
      out[16 + i] := request[12 + i];
    }
  }

  method FillIp(out: array<byte>, h: nat, request: array<byte>)
    requires out != request && 20 <= h <= out.Length && h <= request.Length
    modifies out
    ensures IsReplyHeader(out[..h], request[..], h, out.Length)
  {
    hide OnesSum;
    CopySwapped(out, h, request);
    var total := out.Length;
    out[2], out[3] := total / 256 % 256, total % 256;
    out[8] := 64;
    out[10], out[11] := 0, 0;
    ghost var z := out[..h];
    assert out[..][0..0 + h] == z && WithWord(z, 10, 0) == z;
    assert forall k :: 0 <= k < h && !Fresh(k) ==> z[k] == request[..][Swap(k)];
    var sum := InternetChecksum(out, 0, h);
    out[10], out[11] := sum / 256, sum % 256;
    assert out[..h] == WithWord(z, 10, sum);
    Assembled(z, request[..], h, total, sum);
  }

  /** Where a header byte of the reply comes from. */
  function Swap(k: nat): nat {
    if 12 <= k < 16 then k + 4 else if 16 <= k < 20 then k - 4 else k
  }

  /** Header bytes that do not come from the request. */
  predicate Fresh(k: nat) {
    k in {2, 3, 8, 10, 11}
  }

  lemma Assembled(z: seq<byte>, p: seq<byte>, h: nat, total: nat, sum: nat)
    requires |z| == h && 20 <= h <= |p| && WithWord(z, 10, 0) == z && sum == FieldChecksum(z, 10)
    requires forall k :: 0 <= k < h && !Fresh(k) ==> z[k] == p[Swap(k)]
    requires z[8] == 64 && z[2] == total / 256 % 256 && z[3] == total % 256
    ensures IsReplyHeader(WithWord(z, 10, sum), p, h, total)
  {
    var w := WithWord(z, 10, sum);
    StoredChecksumSums(z, 10);
    Be16RoundTrip(total);
    assert WordAt(w, 2) == FromBe16(Be16(total));
    hide OnesSum;
    assert forall k :: 0 <= k < h && !Fresh(k) ==> w[k] == p[Swap(k)];
    assert w[12..16] == p[16..20] by {
      assert w[12] == p[16] && w[13] == p[17] && w[14] == p[18] && w[15] == p[19];
    }
    assert w[16..20] == p[12..16] by {
      assert w[16] == p[12] && w[17] == p[13] && w[18] == p[14] && w[19] == p[15];
    }
  }

  lemma UdpAssembled(o: seq<byte>, p: seq<byte>, h: nat, dns: seq<byte>)
    requires |o| == h + 8 + |dns| && h + 8 <= |p|
    requires o[h] == p[h + 2] && o[h + 1] == p[h + 3] && o[h + 2] == p[h] && o[h + 3] == p[h + 1]
    requires o[h + 4] == (8 + |dns|) / 256 % 256 && o[h + 5] == (8 + |dns|) % 256 && o[h + 6] == 0 && o[h + 7] == 0
    requires forall i :: 0 <= i < |dns| ==> o[h + 8 + i] == dns[i]
    ensures IsReplyUdp(o, p, h, dns)
  {
    Be16RoundTrip(8 + |dns|);
    assert WordAt(o, h + 4) == FromBe16(Be16(8 + |dns|));
  }

  method FillUdp(out: array<byte>, h: nat, request: array<byte>, dns: seq<byte>)
    requires out != request && out.Length == h + 8 + |dns| && h + 8 <= request.Length
    modifies out
    ensures out[..h] == old(out[..h])
    ensures IsReplyUdp(out[..], request[..], h, dns)
  {
    out[h], out[h + 1], out[h + 2], out[h + 3] := request[h + 2], request[h + 3], request[h], request[h + 1];
    out[h + 4], out[h + 5] := (8 + |dns|) / 256 % 256, (8 + |dns|) % 256;
    out[h + 6], out[h + 7] := 0, 0;
    forall i | 0 <= i < |dns| {
      out[h + 8 + i] := dns[i];
    }
    hide IsReplyUdp;
    UdpAssembled(out[..], request[..], h, dns);
  }

  /** The addresses of a reply to a reply are those of the request. */
  lemma AddressesTwice(p: seq<byte>, out: seq<byte>, back: seq<byte>, h: nat, total: nat, total2: nat)
    requires 20 <= h <= |p| && h <= |out| && h <= |back|
    requires IsReplyHeader(out[..h], p, h, total) && IsReplyHeader(back[..h], out, h, total2)
    ensures back[12..16] == p[12..16] && back[16..20] == p[16..20]
  {
    SliceOfTake(out, h, 12, 16);
    SliceOfTake(out, h, 16, 20);
    SliceOfTake(back, h, 12, 16);
    SliceOfTake(back, h, 16, 20);
    hide OnesSum, WordAt;
  }

  /** A reply is itself a request that can be answered, with a header of the same length. */
  lemma ReplyIsAnswerable(p: seq<byte>, out: seq<byte>, dns: seq<byte>)
    requires Answerable(p, |p|) && IsReply(out, p, dns)
    ensures Answerable(out, |out|) && Ihl(out) == Ihl(p)
  {
    hide OnesSum, WordAt;
    var o := out[..Ihl(p)];
    assert o[0] == p[0];
    assert o[9] == p[9];
  }

  /** A reply can itself be answered, and the answer goes back to where the request came from. */
  lemma {:induction false} ReplyToReply(p: seq<byte>, out: seq<byte>, back: seq<byte>, dns: seq<byte>, dns2: seq<byte>)
    requires Answerable(p, |p|) && IsReply(out, p, dns)
    ensures Answerable(out, |out|)
    ensures IsReply(back, out, dns2) ==>
              && back[12..16] == p[12..16] && back[16..20] == p[16..20]
              && back[Ihl(p)..Ihl(p) + 2] == p[Ihl(p)..Ihl(p) + 2] && back[Ihl(p) + 2..Ihl(p) + 4] == p[Ihl(p) + 2..Ihl(p) + 4]
  {
    ReplyIsAnswerable(p, out, dns);
    hide IsReplyHeader, WordAt;
    if IsReply(back, out, dns2) {
      AddressesTwice(p, out, back, Ihl(p), |out|, |back|);
    }
  }
}
