/** TLMP frames as bytes: header, structural rules, the Go decoder and its Kotlin twin. */
module FrameCodec {
  import opened Bytes

  const PROTOCOL_VERSION: byte := 1
  const HEADER_SIZE := 10

  const SYN := 1
  const FIN := 2
  const RST := 4
  const WIN := 8
  const DATA := 16
  const PING := 32
  const PONG := 64
  const GOAWAY := 128

  type u32 = x: int | 0 <= x < U32

  datatype Frame = Frame(version: byte, flags: byte, id: u32, payload: seq<byte>)

  datatype FrameError = Version | TooLarge | Protocol

  /** The structural rules of `validateFrame`; all eight flag bits are defined, so none is unknown. */
  predicate ValidParts(flags: byte, id: int, size: nat) {
    && !(Has(flags, SYN) && Has(flags, DATA))
    && ((Has(flags, PING) || Has(flags, PONG) || Has(flags, GOAWAY)) ==> id == 0)
    && (Has(flags, WIN) ==> size == 4)
    && (Has(flags, RST) ==> size == 1)
    && (Has(flags, GOAWAY) ==> size == 1)
  }

  predicate Valid(f: Frame) {
    ValidParts(f.flags, f.id, |f.payload|)
  }

  function Header(flags: byte, id: u32, size: nat): (h: seq<byte>)
    ensures |h| == HEADER_SIZE
  {
    [PROTOCOL_VERSION, flags] + Be32(id) + Be32(size)
  }

  function Encode(f: Frame): (e: seq<byte>)
    ensures |e| == HEADER_SIZE + |f.payload|
  {
    Header(f.flags, f.id, |f.payload|) + f.payload
  }

  /** The bytes `WriteFrame` puts on the wire. It checks version and size (cut to 32 bits), not the flags. */
  function Write(f: Frame, maxPayload: u32): Result<seq<byte>, FrameError> {
    if f.version != PROTOCOL_VERSION then Err(Version)
    else if |f.payload| % U32 > maxPayload then Err(TooLarge)
    else Ok(Encode(f))
  }

  datatype Decoded = Incomplete | Bad(error: FrameError) | Parsed(frame: Frame, rest: seq<byte>)

  function IdOf(b: seq<byte>): u32
    requires |b| >= HEADER_SIZE
  {
    Be32Range(b[2..6]);
    FromBe32(b[2..6])
  }

  function SizeOf(b: seq<byte>): u32
    requires |b| >= HEADER_SIZE
  {
    Be32Range(b[6..10]);
    FromBe32(b[6..10])
  }

  /** What `ReadFrame` makes of the bytes that have arrived. */
  function Decode(b: seq<byte>, maxPayload: u32): Decoded {
    if |b| < HEADER_SIZE then Incomplete
    else if b[0] != PROTOCOL_VERSION then Bad(Version)
    else if SizeOf(b) > maxPayload then Bad(TooLarge)
    else
      var end := HEADER_SIZE + SizeOf(b);
      if |b| < end then Incomplete
      else
        var f := Frame(b[0], b[1], IdOf(b), b[HEADER_SIZE..end]);
        if !Valid(f) then Bad(Protocol) else Parsed(f, b[end..])
  }

  /** A frame both ends accept under the cap `maxPayload`. */
  predicate Accepted(f: Frame, maxPayload: u32) {
    f.version == PROTOCOL_VERSION && |f.payload| <= maxPayload && Valid(f)
  }

  lemma HeaderFields(f: Frame, rest: seq<byte>)
    requires |f.payload| < U32
    ensures var b := Encode(f) + rest;
            && b[0] == PROTOCOL_VERSION && b[1] == f.flags
            && IdOf(b) == f.id && SizeOf(b) == |f.payload|
            && b[HEADER_SIZE..HEADER_SIZE + |f.payload|] == f.payload
            && b[HEADER_SIZE + |f.payload|..] == rest
  {
    hide Be32, FromBe32;
    var b := Encode(f) + rest;
    assert b[2..6] == Be32(f.id);
    assert b[6..10] == Be32(|f.payload|);
    Be32RoundTrip(f.id);
    Be32RoundTrip(|f.payload|);
  }

  /** The rules by bits of the flag byte: 1 SYN, 4 RST, 8 WIN, 16 DATA, 32 PING, 64 PONG, 128 GOAWAY. */
  predicate ObeysRules(flags: byte, id: nat, size: nat) {
    && !(flags % 2 == 1 && flags / 16 % 2 == 1)
    && (flags >= 32 ==> id == 0)
    && (flags / 8 % 2 == 1 ==> size == 4)
    && (flags / 4 % 2 == 1 || flags >= 128 ==> size == 1)
  }

  /**
   * The bytes of a frame: version 1, flags, id and size with the high byte first, payload. A frame can be
   * read off a stream exactly when ten bytes are there, the first is 1, the size is within the cap, the
   * whole payload is there, and flags, id and size obey the rules.
   */
  lemma FrameLayout(b: seq<byte>, maxPayload: u32)
    requires |b| >= 10
    ensures var id := ((b[2] as int * 256 + b[3]) * 256 + b[4]) * 256 + b[5];
            var size := ((b[6] as int * 256 + b[7]) * 256 + b[8]) * 256 + b[9];
            var d := Decode(b, maxPayload);
            && (d.Parsed? <==> b[0] == 1 && size <= maxPayload && 10 + size <= |b| && ObeysRules(b[1], id, size))
            && (d.Parsed? ==> d == Parsed(Frame(1, b[1], id, b[10..10 + size]), b[10 + size..]))
            && (d.Incomplete? <==> b[0] == 1 && size <= maxPayload && |b| < 10 + size)
            && (d == Bad(Version) <==> b[0] != 1)
            && (d == Bad(TooLarge) <==> b[0] == 1 && size > maxPayload)
  {
    FlagBits(b[1]);
  }

  lemma FlagBits(flags: byte)
    ensures flags >= 32 <==> flags / 32 % 2 == 1 || flags / 64 % 2 == 1 || flags / 128 % 2 == 1
    ensures flags >= 128 <==> flags / 128 % 2 == 1
    ensures flags / 1 == flags
  {
  }

  /** Encode then decode is the identity, whatever follows on the stream. */
  lemma DecodeEncode(f: Frame, rest: seq<byte>, maxPayload: u32)
    requires Accepted(f, maxPayload)
    ensures Decode(Encode(f) + rest, maxPayload) == Parsed(f, rest)
  {
    hide Be32, FromBe32;
    HeaderFields(f, rest);
  }

  /** Decode accepts nothing but encodings, so no two frames share bytes. */
  lemma {:induction false} DecodeIsCanonical(b: seq<byte>, maxPayload: u32)
    requires Decode(b, maxPayload).Parsed?
    ensures var d := Decode(b, maxPayload);
            Accepted(d.frame, maxPayload) && b == Encode(d.frame) + d.rest
  {
    hide Be32, FromBe32;
    var end := HEADER_SIZE + SizeOf(b);
    Be32Inverse(b[2..6]);
    Be32Inverse(b[6..10]);
    assert b[..10] == [b[0], b[1]] + b[2..6] + b[6..10];
    assert b == b[..10] + b[10..end] + b[end..];
  }

  /**
   * `WriteFrame` does not look at the flags, and at the size only after cutting it to 32 bits: what it
   * emits is read back exactly when the frame is valid and its size is not cut.
   */
  lemma WriteReadExact(f: Frame, maxPayload: u32)
    requires Write(f, maxPayload).Ok?
    ensures Decode(Write(f, maxPayload).value, maxPayload) == Parsed(f, []) <==> Valid(f) && |f.payload| < U32
  {
    hide Be32, FromBe32;
    if |f.payload| < U32 {
      HeaderFields(f, []);
      assert Encode(f) + [] == Encode(f);
    } else if Decode(Encode(f), maxPayload) == Parsed(f, []) {
      DecodeIsCanonical(Encode(f), maxPayload);
    }
  }

  // ----- Whole streams of frames -----

  datatype End = Clean | Truncated | Broken(error: FrameError)

  function EncodeAll(fs: seq<Frame>): seq<byte> {
    if fs == [] then [] else Encode(fs[0]) + EncodeAll(fs[1..])
  }

  /** Reads frames until the bytes run out or a violation ends the session. */
  function DecodeAll(b: seq<byte>, maxPayload: u32): (seq<Frame>, End)
    decreases |b|
  {
    if b == [] then ([], Clean)
    else
      match Decode(b, maxPayload)
      case Incomplete => ([], Truncated)
      case Bad(e) => ([], Broken(e))
      case Parsed(f, rest) =>
        DecodeIsCanonical(b, maxPayload);
        var (fs, end) := DecodeAll(rest, maxPayload);
        ([f] + fs, end)
  }

  predicate AllAccepted(fs: seq<Frame>, maxPayload: u32) {
    forall i :: 0 <= i < |fs| ==> Accepted(fs[i], maxPayload)
  }

  /** How many leading frames fit completely into `n` bytes. */
  function WholeFrames(fs: seq<Frame>, n: nat): (k: nat)
    ensures k <= |fs|
  {
    if fs == [] || n < |Encode(fs[0])| then 0
    else 1 + WholeFrames(fs[1..], n - |Encode(fs[0])|)
  }

  lemma DecodeCutFrame(f: Frame, n: nat, maxPayload: u32)
    requires Accepted(f, maxPayload) && n < |Encode(f)|
    ensures Decode(Encode(f)[..n], maxPayload) == Incomplete
  {
    hide Be32, FromBe32;
    if n >= HEADER_SIZE {
      var b := Encode(f)[..n];
      HeaderFields(f, []);
      assert Encode(f) + [] == Encode(f);
      assert b[2..6] == Encode(f)[2..6];
      assert b[6..10] == Encode(f)[6..10];
    }
  }

  /** What a prefix of `n` bytes must decode to. */
  predicate DecodesToPrefix(fs: seq<Frame>, n: nat, maxPayload: u32)
    requires n <= |EncodeAll(fs)|
  {
    var k := WholeFrames(fs, n);
    var (got, end) := DecodeAll(EncodeAll(fs)[..n], maxPayload);
    && got == fs[..k]
    && end == (if n == |EncodeAll(fs[..k])| then Clean else Truncated)
    && (n == |EncodeAll(fs)| ==> k == |fs|)
  }

  lemma PrefixCut(fs: seq<Frame>, n: nat, maxPayload: u32)
    requires fs != [] && Accepted(fs[0], maxPayload) && n < |Encode(fs[0])|
    ensures n <= |EncodeAll(fs)| && DecodesToPrefix(fs, n, maxPayload)
  {
    hide Be32, FromBe32;
    assert EncodeAll(fs)[..n] == Encode(fs[0])[..n];
    DecodeCutFrame(fs[0], n, maxPayload);
    assert fs[..0] == [];
  }

  /** The first `n` bytes, cut behind the first frame. */
  lemma FirstFrameCut(fs: seq<Frame>, n: nat)
    requires fs != [] && |Encode(fs[0])| <= n <= |EncodeAll(fs)|
    ensures n - |Encode(fs[0])| <= |EncodeAll(fs[1..])|
    ensures EncodeAll(fs)[..n] == Encode(fs[0]) + EncodeAll(fs[1..])[..n - |Encode(fs[0])|]
  {
    hide Encode;
  }

  lemma PrefixPast(fs: seq<Frame>, n: nat, maxPayload: u32)
    requires fs != [] && Accepted(fs[0], maxPayload) && |Encode(fs[0])| <= n <= |EncodeAll(fs)|
    requires DecodesToPrefix(fs[1..], n - |Encode(fs[0])|, maxPayload)
    ensures DecodesToPrefix(fs, n, maxPayload)
  {
    hide Encode, Decode, Accepted;
    var f, tail, m := fs[0], fs[1..], n - |Encode(fs[0])|;
    FirstFrameCut(fs, n);
    DecodeEncode(f, EncodeAll(tail)[..m], maxPayload);
    var k := WholeFrames(tail, m);
    assert fs[..k + 1] == [f] + tail[..k];
    assert fs[..k + 1][1..] == tail[..k];
  }

  /**
   * Any prefix of a valid stream decodes to exactly the frames that lie wholly inside it: never to
   * another frame and never to an error. It ends clean exactly at a frame boundary.
   */
  lemma {:induction false} PrefixDecodes(fs: seq<Frame>, n: nat, maxPayload: u32)
    requires AllAccepted(fs, maxPayload) && n <= |EncodeAll(fs)|
    ensures DecodesToPrefix(fs, n, maxPayload)
    decreases |fs|
  {
    if fs == [] {
      assert EncodeAll(fs)[..n] == [] && fs[..0] == [];
    } else if n < |Encode(fs[0])| {
      PrefixCut(fs, n, maxPayload);
    } else {
      PrefixDecodes(fs[1..], n - |Encode(fs[0])|, maxPayload);
      PrefixPast(fs, n, maxPayload);
    }
  }

  /** Every list of accepted frames comes back as it was written. */
  lemma {:induction false} RoundTripAll(fs: seq<Frame>, maxPayload: u32)
    requires AllAccepted(fs, maxPayload)
    ensures DecodeAll(EncodeAll(fs), maxPayload) == (fs, Clean)
  {
    var n := |EncodeAll(fs)|;
    PrefixDecodes(fs, n, maxPayload);
    assert EncodeAll(fs)[..n] == EncodeAll(fs);
    assert fs[..|fs|] == fs;
  }

  lemma {:induction false} EncodeAllAppend(fs: seq<Frame>, gs: seq<Frame>)
    ensures EncodeAll(fs + gs) == EncodeAll(fs) + EncodeAll(gs)
  {
    if fs == [] {
      assert fs + gs == gs;
    } else {
      assert (fs + gs)[0] == fs[0] && (fs + gs)[1..] == fs[1..] + gs;
      EncodeAllAppend(fs[1..], gs);
    }
  }
}
