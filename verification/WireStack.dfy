/** Frames over records: the frame codec reading and writing through an encrypted connection. */
module WireStack {
  import opened Bytes
  import opened RecordLayer
  import F = FrameCodec

  type u32 = F.u32

  // ----- Writing frames -----

  /** `WriteFrame` makes one write of the header and, if there is a payload, one of the payload. */
  function FrameWrites(fs: seq<F.Frame>): (ws: seq<seq<byte>>)
    ensures Concat(ws) == F.EncodeAll(fs)
  {
    if fs == [] then []
    else
      var f := fs[0];
      var head := F.Header(f.flags, f.id, |f.payload|);
      var ws := FrameWrites(fs[1..]);
      if f.payload == [] then
        assert ([head] + ws)[1..] == ws && head + [] == head;
        [head] + ws
      else
        assert ([head, f.payload] + ws)[1..] == [f.payload] + ws && ([f.payload] + ws)[1..] == ws;
        assert head + (f.payload + Concat(ws)) == (head + f.payload) + Concat(ws);
        [head, f.payload] + ws
  }

  /** The writes of a history, in order. */
  function SendsOf(ops: seq<Op>): (ws: seq<seq<byte>>)
    ensures Concat(ws) == Sent(ops)
  {
    if ops == [] then []
    else
      var last := ops[|ops| - 1];
      var ws := SendsOf(ops[..|ops| - 1]);
      if last.Send? then
        ConcatAppend(ws, [last.b]);
        assert [last.b][1..] == [] && last.b + [] == last.b;
        ws + [last.b]
      else
        assert Concat(ws) + [] == Concat(ws);
        ws
  }

  /**
   * The whole stack. Frames are written through the record layer while the other end reads with buffers
   * of any size, in any mixture. At every moment the bytes read decode to exactly the frames that lie
   * wholly inside them, never to another frame and never to an error; and when all writes are done and
   * nothing is left, to all of them.
   */
  lemma {:induction false} FramesThroughRecords(a: Aead, max: nat, ops: seq<Op>, fs: seq<F.Frame>, maxPayload: u32)
    requires Lawful(a) && Usable(max, ops) && F.AllAccepted(fs, maxPayload)
    requires SendsOf(ops) <= FrameWrites(fs)
    ensures var d := RunOps(a, max, ops);
            && !d.failed && d.got <= F.EncodeAll(fs)
            && F.DecodesToPrefix(fs, |d.got|, maxPayload) && d.got == F.EncodeAll(fs)[..|d.got|]
            && (SendsOf(ops) == FrameWrites(fs) && d.reader.rbuf == [] && d.reader.rn == d.wn ==>
                  F.DecodeAll(d.got, maxPayload) == (fs, F.Clean))
  {
    var d := RunOps(a, max, ops);
    RecordLockstep(a, max, ops);
    var ws, vs := SendsOf(ops), FrameWrites(fs);
    assert vs == ws + vs[|ws|..];
    ConcatAppend(ws, vs[|ws|..]);
    hide FrameWrites, SendsOf, RunOps, Sent, Concat;
    assert d.got <= F.EncodeAll(fs);
    F.PrefixDecodes(fs, |d.got|, maxPayload);
    F.RoundTripAll(fs, maxPayload);
  }

  // ----- Reading frames: the code -----

  /** The plaintext of the records that have arrived whole. */
  function Coming(a: Aead, max: nat, n: nat, inn: seq<byte>): seq<byte>
    decreases |inn|
  {
    match Open(a, n, inn, max)
    case Opened(pt, rest) => pt + Coming(a, max, n + 1, rest)
    case Starved => []
    case BadSize => []
    case Forged => []
  }

  /** All plaintext a reader can still get from what has arrived. */
  function Plain(a: Aead, max: nat, r: Reader): seq<byte> {
    r.rbuf + Coming(a, max, r.rn, r.inn)
  }

  lemma OpenShrinks(a: Aead, n: nat, inn: seq<byte>, max: nat)
    requires Open(a, n, inn, max).Opened?
    ensures |Open(a, n, inn, max).rest| < |inn|
    ensures Coming(a, max, n, inn) == Open(a, n, inn, max).pt + Coming(a, max, n + 1, Open(a, n, inn, max).rest)
  {
  }

  /** A read takes bytes from the front of the plaintext, and comes nearer to its end. */
  lemma ReadTakesPlain(a: Aead, max: nat, r: Reader, cap: nat)
    requires ReadStep(a, max, r, cap).0.Took? && cap > 0
    ensures var (t, s) := ReadStep(a, max, r, cap);
            && Plain(a, max, r) == t.bytes + Plain(a, max, s) && |t.bytes| <= cap
            && (|s.inn| < |r.inn| || (s.inn == r.inn && |s.rbuf| < |r.rbuf|))
  {
    hide Open, Coming;
    var (t, s) := ReadStep(a, max, r, cap);
    if r.rbuf == [] {
      OpenShrinks(a, r.rn, r.inn, max);
    }
    assert (t.bytes + s.rbuf) + Coming(a, max, s.rn, s.inn) == t.bytes + (s.rbuf + Coming(a, max, s.rn, s.inn));
  }

  /** A read that gives nothing finds no plaintext: what has arrived is cut, oversized or forged. */
  lemma FailedReadIsDry(a: Aead, max: nat, r: Reader, cap: nat)
    requires !ReadStep(a, max, r, cap).0.Took?
    ensures Plain(a, max, r) == []
  {
  }

  /** Exactly `n` bytes of plaintext, however the records are cut; none exactly if fewer have arrived whole. */
  method ReadFull(c: SecureConn, n: nat) returns (r: Option<seq<byte>>)
    modifies c`readN, c`rbuf, c.conn`inn
    ensures r.None? <==> |Plain(c.readCS, c.maxPayload, old(c.AsReader()))| < n
    ensures r.Some? ==>
              && |r.value| == n
              && Plain(c.readCS, c.maxPayload, old(c.AsReader())) == r.value + Plain(c.readCS, c.maxPayload, c.AsReader())
  {
    hide Plain, ReadStep;
    var out: seq<byte> := [];
    while |out| < n
      invariant |out| <= n
      invariant Plain(c.readCS, c.maxPayload, old(c.AsReader())) == out + Plain(c.readCS, c.maxPayload, c.AsReader())
      decreases |c.conn.inn|, |c.rbuf|
    {
      ghost var was := c.AsReader();
      var t := c.Read(n - |out|);
      if !t.Took? {
        FailedReadIsDry(c.readCS, c.maxPayload, was, n - |out|);
        return None;
      }
      ReadTakesPlain(c.readCS, c.maxPayload, was, n - |out|);
      out := out + t.bytes;
    }
    return Some(out);
  }

  datatype FrameRead = GotFrame(f: F.Frame) | Fault(error: F.FrameError) | Short

  /** Reads one frame: what it returns is what the plaintext begins with, and the rest stays. */
  method ReadFrame(c: SecureConn, maxPayload: u32) returns (r: FrameRead)
    modifies c`readN, c`rbuf, c.conn`inn
    ensures r.GotFrame? ==>
              F.Decode(Plain(c.readCS, c.maxPayload, old(c.AsReader())), maxPayload)
              == F.Parsed(r.f, Plain(c.readCS, c.maxPayload, c.AsReader()))
    ensures r.Short? ==> F.Decode(Plain(c.readCS, c.maxPayload, old(c.AsReader())), maxPayload) == F.Incomplete
    ensures r.Fault? ==> F.Decode(Plain(c.readCS, c.maxPayload, old(c.AsReader())), maxPayload) == F.Bad(r.error)
  {
    hide Plain, FromBe32;
    ghost var p := Plain(c.readCS, c.maxPayload, c.AsReader());
    var h := ReadFull(c, F.HEADER_SIZE);
    if h.None? {
      return Short;
    }
    var hdr := h.value;
    assert hdr[2..6] == p[2..6] && hdr[6..10] == p[6..10];
    if hdr[0] != F.PROTOCOL_VERSION {
      return Fault(F.Version);
    }
    var size := F.SizeOf(hdr);
    if size > maxPayload {
      return Fault(F.TooLarge);
    }
    var payload: seq<byte> := [];
    if size > 0 {
      var b := ReadFull(c, size);
      if b.None? {
        return Short;
      }
      payload := b.value;
    }
    ghost var rest := Plain(c.readCS, c.maxPayload, c.AsReader());
    assert p == hdr + payload + rest;
    assert p[F.HEADER_SIZE..F.HEADER_SIZE + size] == payload && p[F.HEADER_SIZE + size..] == rest;
    var f := F.Frame(hdr[0], hdr[1], F.IdOf(hdr), payload);
    if !F.Valid(f) {
      return Fault(F.Protocol);
    }
    return GotFrame(f);
  }

  /** Writes one frame as `FrameWrites` says, if its version and size allow it. */
  method WriteFrame(c: SecureConn, f: F.Frame, maxPayload: u32) returns (ok: bool)
    requires 0 < c.maxPayload
    modifies c`writeN, c.conn`out
    ensures ok == F.Write(f, maxPayload).Ok?
    ensures !ok ==> c.writeN == old(c.writeN) && c.conn.out == old(c.conn.out)
    ensures ok ==> c.conn.out == old(c.conn.out) + Wire(c.writeCS, old(c.writeN), FrameChunks(f, c.maxPayload))
                   && c.writeN == old(c.writeN) + |FrameChunks(f, c.maxPayload)|
  {
    hide Wire, Chunks;
    if f.version != F.PROTOCOL_VERSION {
      return false;
    }
    if |f.payload| % U32 > maxPayload {
      return false;
    }
    var head := F.Header(f.flags, f.id, |f.payload|);
    var _ := c.Write(head);
    if |f.payload| > 0 {
      WireAppend(c.writeCS, old(c.writeN), Chunks(head, c.maxPayload), Chunks(f.payload, c.maxPayload));
      var _ := c.Write(f.payload);
    }
    return true;
  }

  /** The records of a frame: those of its header, then those of its payload. */
  function FrameChunks(f: F.Frame, max: nat): (cs: seq<seq<byte>>)
    requires 0 < max
    ensures Concat(cs) == F.Encode(f)
  {
    var head, body := Chunks(F.Header(f.flags, f.id, |f.payload|), max), Chunks(f.payload, max);
    ConcatAppend(head, body);
    if f.payload == [] then
      assert body == [];
      head
    else head + body
  }
}
