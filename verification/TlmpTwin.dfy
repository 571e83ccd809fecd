/** The Kotlin frame codec: signed 32-bit fields, a stream that delivers bytes in pieces. */
module TlmpTwin {
  import opened Bytes
  import opened FrameCodec

  type i32 = x: int | -U31 <= x < U31

  /** A 32-bit pattern as Kotlin's Int sees it. */
  function Signed(v: u32): i32 {
    if v < U31 then v else v - U32
  }

  function Unsigned(v: i32): u32 {
    if v >= 0 then v else v + U32
  }

  datatype KtFrame = KtFrame(flags: byte, streamId: i32, payload: seq<byte>)

  datatype KtDecoded = KtIncomplete | KtBad(error: FrameError) | KtParsed(frame: KtFrame, rest: seq<byte>)

  /** What `Tlmp.readFrame` makes of `b`: a length with the top bit set is negative and reads as an empty payload. */
  function DecodeKt(b: seq<byte>, maxPayload: i32): KtDecoded {
    if |b| < HEADER_SIZE then KtIncomplete
    else if b[0] != PROTOCOL_VERSION then KtBad(Version)
    else
      var length := Signed(SizeOf(b));
      if length > maxPayload then KtBad(TooLarge)
      else
        var end := HEADER_SIZE + (if length > 0 then length else 0);
        if |b| < end then KtIncomplete
        else if !ValidParts(b[1], Signed(IdOf(b)), end - HEADER_SIZE) then KtBad(Protocol)
        else KtParsed(KtFrame(b[1], Signed(IdOf(b)), b[HEADER_SIZE..end]), b[end..])
  }

  /** Both decoders wait, both refuse, or both deliver the same frame and leave the same bytes. */
  predicate Agree(g: Decoded, k: KtDecoded) {
    match g
    case Incomplete => k.KtIncomplete?
    case Bad(_) => k.KtBad?
    case Parsed(f, rest) =>
      k.KtParsed? && k.rest == rest
      && k.frame.flags == f.flags && Unsigned(k.frame.streamId) == f.id && k.frame.payload == f.payload
  }

  /** The length field read as a signed number is negative although the header is otherwise acceptable. */
  predicate NegativeLength(b: seq<byte>) {
    && |b| >= HEADER_SIZE && b[0] == PROTOCOL_VERSION
    && SizeOf(b) >= U31
    && ValidParts(b[1], IdOf(b), 0)
  }

  /** Go and Kotlin give the same answer on every input except those with a negative length. */
  lemma TwinsAgreeExactly(b: seq<byte>, maxPayload: u32)
    requires maxPayload < U31
    ensures Agree(Decode(b, maxPayload), DecodeKt(b, maxPayload)) <==> !NegativeLength(b)
  {
  }

  /** The divergence is real: these ten bytes are refused by Go and taken as an empty DATA frame by Kotlin. */
  lemma TwinsDivergeSomewhere()
    ensures var b: seq<byte> := [1, 16, 0, 0, 0, 7, 128, 0, 0, 0];
            Decode(b, 65536) == Bad(TooLarge) && DecodeKt(b, 65536) == KtParsed(KtFrame(16, 7, []), [])
  {
    var b: seq<byte> := [1, 16, 0, 0, 0, 7, 128, 0, 0, 0];
    assert b[2..6] == [0, 0, 0, 7] && b[6..10] == [128, 0, 0, 0];
    assert b[10..10] == [] && b[10..] == [];
  }

  /** What Kotlin writes, Go reads back. */
  lemma KotlinToGo(f: KtFrame, rest: seq<byte>, maxPayload: u32)
    requires maxPayload < U31 && |f.payload| <= maxPayload && ValidParts(f.flags, f.streamId, |f.payload|)
    ensures Decode(EncodeKt(f) + rest, maxPayload)
            == Parsed(Frame(PROTOCOL_VERSION, f.flags, Unsigned(f.streamId), f.payload), rest)
  {
    DecodeEncode(Frame(PROTOCOL_VERSION, f.flags, Unsigned(f.streamId), f.payload), rest, maxPayload);
  }

  function EncodeKt(f: KtFrame): seq<byte>
    requires |f.payload| < U31
  {
    Header(f.flags, Unsigned(f.streamId), |f.payload|) + f.payload
  }

  /** An input stream: `data` is everything that arrives before end of file, in pieces of unknown size. */
  class InputStream {
    var data: seq<byte>

    constructor (data: seq<byte>)
      ensures this.data == data
    {
      this.data := data;
    }

    /** Delivers between 1 and `limit` bytes, or nothing at end of file. */
    method Read(limit: nat) returns (chunk: seq<byte>)
      requires limit > 0
      modifies this
      ensures |chunk| <= limit && old(data) == chunk + data
      ensures chunk == [] <==> old(data) == []
    {
      var most := Min(limit, |data|);
      var n :| 0 <= n <= most && (n == 0 ==> most == 0);
      chunk := data[..n];
      data := data[n..];
    }

    /** Kotlin's `readFully`: exactly `n` bytes however they are cut, or the end-of-file error. */
    method ReadFully(n: nat) returns (r: Option<seq<byte>>)
      modifies this
      ensures r.Some? <==> n <= |old(data)|
      ensures r.Some? ==> r.value == old(data)[..n] && data == old(data)[n..]
    {
      var out: seq<byte> := [];
      while |out| < n
        invariant |out| <= n && old(data) == out + data
        decreases n - |out|
      {
        var chunk := Read(n - |out|);
        if chunk == [] {
          return None;
        }
        out := out + chunk;
      }
      r := Some(out);
    }

    /** `Tlmp.readFrame`: decodes what the whole stream holds, regardless of how it is cut. */
    method ReadFrame(maxPayload: i32) returns (r: KtDecoded)
      modifies this
      ensures r == DecodeKt(old(data), maxPayload)
      ensures r.KtParsed? ==> data == r.rest
    {
      ghost var b := data;
      var h := ReadFully(HEADER_SIZE);
      if h.None? {
        return KtIncomplete;
      }
      var header := h.value;
      if header[0] != PROTOCOL_VERSION {
        return KtBad(Version);
      }
      assert header[2..6] == b[2..6] && header[6..10] == b[6..10];
      var flags, streamId, length := header[1], Signed(IdOf(header)), Signed(SizeOf(header));
      if length > maxPayload {
        return KtBad(TooLarge);
      }
      var payload: seq<byte> := [];
      if length > 0 {
        var p := ReadFully(length);
        if p.None? {
          return KtIncomplete;
        }
        payload := p.value;
      }
      assert payload == b[HEADER_SIZE..HEADER_SIZE + |payload|];
      if !ValidParts(flags, streamId, |payload|) {
        return KtBad(Protocol);
      }
      r := KtParsed(KtFrame(flags, streamId, payload), data);
    }
  }
}
