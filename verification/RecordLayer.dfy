/**
 * The encrypted record layer: a 24-bit length, then the sealed bytes; one counter per direction. The
 * cipher is a pair of functions of counter and text for one key, of which only its laws are used.
 */
module RecordLayer {
  import opened Bytes

  const TAG := 16
  const HEADER := 3

  /** Sealing and opening under one key. */
  datatype Aead = Aead(seal: (nat, seq<byte>) -> seq<byte>, open: (nat, seq<byte>) -> Option<seq<byte>>)

  /** Sealing adds a tag, and opening with the same counter undoes it. */
  ghost predicate Lawful(a: Aead) {
    forall n: nat, pt: seq<byte> :: |a.seal(n, pt)| == |pt| + TAG && a.open(n, a.seal(n, pt)) == Some(pt)
  }

  // ----- One record -----

  /** A record as it goes out; the length field keeps the low 24 bits. */
  function Record(a: Aead, n: nat, pt: seq<byte>): seq<byte> {
    var ct := a.seal(n, pt);
    Be24(|ct|) + ct
  }

  datatype Opened = Starved | BadSize | Forged | Opened(pt: seq<byte>, rest: seq<byte>)

  /** What a reader with counter `n` makes of the bytes that have arrived. */
  function Open(a: Aead, n: nat, wire: seq<byte>, max: nat): Opened {
    if |wire| < HEADER then Starved
    else
      var size := FromBe24(wire[..HEADER]);
      if size < TAG || size > max + TAG then BadSize
      else if |wire| < HEADER + size then Starved
      else
        match a.open(n, wire[HEADER..HEADER + size])
        case None => Forged
        case Some(pt) => Opened(pt, wire[HEADER + size..])
  }

  lemma RecordParts(a: Aead, n: nat, pt: seq<byte>, rest: seq<byte>)
    requires Lawful(a)
    ensures var w := Record(a, n, pt) + rest;
            && |w| == HEADER + |pt| + TAG + |rest| && FromBe24(w[..HEADER]) == (|pt| + TAG) % U24
            && w[HEADER..HEADER + |pt| + TAG] == a.seal(n, pt) && w[HEADER + |pt| + TAG..] == rest
  {
    hide Be24, FromBe24;
    Be24RoundTrip(|a.seal(n, pt)|);
    var w := Record(a, n, pt) + rest;
    assert w[..HEADER] == Be24(|a.seal(n, pt)|);
  }

  /**
   * A record as bytes: three of length, high byte first, then the sealed text with its 16 bytes of tag. It
   * can be opened exactly when the length is from 16 to the cap and 16, all of it is there, and the cipher
   * accepts it under the counter.
   */
  lemma RecordLayout(a: Aead, n: nat, wire: seq<byte>, max: nat)
    requires |wire| >= 3
    ensures var size := (wire[0] as int * 256 + wire[1]) * 256 + wire[2];
            var o := Open(a, n, wire, max);
            && (o.Opened? <==>
                  16 <= size <= max + 16 && 3 + size <= |wire| && a.open(n, wire[3..3 + size]).Some?)
            && (o.Opened? ==> o == Opened(a.open(n, wire[3..3 + size]).value, wire[3 + size..]))
            && (o.Starved? <==> 16 <= size <= max + 16 && |wire| < 3 + size)
            && (o.BadSize? <==> size < 16 || size > max + 16)
  {
    assert wire[..3][0] == wire[0] && wire[..3][1] == wire[1] && wire[..3][2] == wire[2];
  }

  /**
   * A record is read back as it was written exactly when its plaintext is within the cap and within what
   * a 24-bit length can say, which is 2^24 - 17 bytes. The handshake admits a cap of 2^24.
   */
  lemma RecordRoundTrip(a: Aead, n: nat, pt: seq<byte>, rest: seq<byte>, max: nat)
    requires Lawful(a)
    ensures Open(a, n, Record(a, n, pt) + rest, max) == Opened(pt, rest) <==> |pt| <= max && |pt| <= U24 - 17
  {
    RecordParts(a, n, pt, rest);
    hide Be24, FromBe24, Record;
    if |pt| + TAG < U24 {
      assert (|pt| + TAG) % U24 == |pt| + TAG;
    } else {
      assert (|pt| + TAG) % U24 < U24;
    }
  }

  // ----- Writing: chunks and counters -----

  /** The size of the next record; the comparison is made on 32 bits. */
  function ChunkSize(left: nat, max: nat): (n: nat)
    ensures left < U32 ==> n == Min(left, max)
  {
    if left % U32 > max then max else left
  }

  function Chunks(b: seq<byte>, max: nat): (cs: seq<seq<byte>>)
    requires 0 < max
    ensures Concat(cs) == b
    ensures |b| < U32 ==> forall i :: 0 <= i < |cs| ==> 0 < |cs[i]| <= max
    decreases |b|
  {
    if b == [] then []
    else
      var n := ChunkSize(|b|, max);
      var cs := [b[..n]] + Chunks(b[n..], max);
      assert cs[1..] == Chunks(b[n..], max);
      assert b[..n] + b[n..] == b;
      cs
  }

  function Concat(cs: seq<seq<byte>>): seq<byte> {
    if cs == [] then [] else cs[0] + Concat(cs[1..])
  }

  /** Records with counters from `n` on. */
  function Wire(a: Aead, n: nat, cs: seq<seq<byte>>): seq<byte>
    decreases |cs|
  {
    if cs == [] then [] else Record(a, n, cs[0]) + Wire(a, n + 1, cs[1..])
  }

  lemma {:induction false} ConcatAppend(cs: seq<seq<byte>>, ds: seq<seq<byte>>)
    ensures Concat(cs + ds) == Concat(cs) + Concat(ds)
  {
    if cs == [] {
      assert cs + ds == ds;
    } else {
      assert (cs + ds)[1..] == cs[1..] + ds;
      ConcatAppend(cs[1..], ds);
    }
  }

  lemma {:induction false} WireAppend(a: Aead, n: nat, cs: seq<seq<byte>>, ds: seq<seq<byte>>)
    ensures Wire(a, n, cs + ds) == Wire(a, n, cs) + Wire(a, n + |cs|, ds)
    decreases |cs|
  {
    hide Record;
    if cs == [] {
      assert cs + ds == ds;
    } else {
      assert (cs + ds)[1..] == cs[1..] + ds;
      WireAppend(a, n + 1, cs[1..], ds);
    }
  }

  lemma WireSnoc(a: Aead, n: nat, cs: seq<seq<byte>>, c: seq<byte>)
    ensures Wire(a, n, cs + [c]) == Wire(a, n, cs) + Record(a, n + |cs|, c)
  {
    hide Record;
    WireAppend(a, n, cs, [c]);
    assert [c][1..] == [];
    assert Wire(a, n + |cs|, [c]) == Record(a, n + |cs|, c) + [];
  }

  lemma FirstChunk(b: seq<byte>, max: nat)
    requires 0 < max && b != []
    ensures var n := ChunkSize(|b|, max); n <= |b| && Chunks(b, max) == [b[..n]] + Chunks(b[n..], max)
  {
    hide Concat;
  }

  lemma ChunkAt(b: seq<byte>, total: nat, max: nat)
    requires 0 < max && total < |b|
    ensures var n := ChunkSize(|b| - total, max);
            n <= |b| - total && Chunks(b[total..], max) == [b[total..total + n]] + Chunks(b[total + n..], max)
  {
    hide *;
    FirstChunk(b[total..], max);
    CutOfDrop(b, total, ChunkSize(|b| - total, max));
  }

  /** Chunks done so far and chunks to come. */
  lemma NextChunk(b: seq<byte>, total: nat, max: nat, done: seq<seq<byte>>)
    requires 0 < max && total < |b| && done + Chunks(b[total..], max) == Chunks(b, max)
    ensures var n := ChunkSize(|b| - total, max);
            n <= |b| - total && done + [b[total..total + n]] + Chunks(b[total + n..], max) == Chunks(b, max)
  {
    ChunkAt(b, total, max);
    hide Chunks, Concat, ChunkSize;
    var n := ChunkSize(|b| - total, max);
    ConcatAssoc(done, [b[total..total + n]], Chunks(b[total + n..], max));
  }

  // ----- Reading: leftover bytes and counters -----

  /** The reading side: next counter, decrypted bytes not yet taken, bytes that have arrived. */
  datatype Reader = Reader(rn: nat, rbuf: seq<byte>, inn: seq<byte>)

  datatype ReadResult = Took(bytes: seq<byte>) | Waiting | TooLarge | NotAuthentic

  /** One `Read` into a buffer of `cap` bytes. */
  function ReadStep(a: Aead, max: nat, r: Reader, cap: nat): (ReadResult, Reader) {
    if r.rbuf != [] then
      var n := Min(cap, |r.rbuf|);
      (Took(r.rbuf[..n]), r.(rbuf := r.rbuf[n..]))
    else if cap == 0 then (Took([]), r)
    else
      match Open(a, r.rn, r.inn, max)
      case Starved => (Waiting, r)
      case BadSize => (TooLarge, r)
      case Forged => (NotAuthentic, r)
      case Opened(pt, rest) =>
        var n := Min(cap, |pt|);
        (Took(pt[..n]), Reader(r.rn + 1, pt[n..], rest))
  }

  // ----- One direction, written and read in any mixture -----

  datatype Op = Send(b: seq<byte>) | Receive(cap: nat)

  datatype Dir = Dir(
    wn: nat,
    reader: Reader,
    sealed: seq<seq<byte>>,   // history: the plaintext of every record, in order
    got: seq<byte>,           // history: every byte read
    failed: bool)             // history: a read reported an error

  const FRESH := Dir(0, Reader(0, [], []), [], [], false)

  function OpStep(a: Aead, max: nat, d: Dir, op: Op): Dir
    requires 0 < max
  {
    match op
    case Send(b) =>
      var cs := Chunks(b, max);
      d.(wn := d.wn + |cs|, reader := d.reader.(inn := d.reader.inn + Wire(a, d.wn, cs)), sealed := d.sealed + cs)
    case Receive(cap) =>
      var (r, t) := ReadStep(a, max, d.reader, cap);
      match r
      case Took(p) => d.(reader := t, got := d.got + p)
      case Waiting => d
      case TooLarge => d.(failed := true)
      case NotAuthentic => d.(failed := true)
  }

  function RunOps(a: Aead, max: nat, ops: seq<Op>): Dir
    requires 0 < max
  {
    if ops == [] then FRESH else OpStep(a, max, RunOps(a, max, ops[..|ops| - 1]), ops[|ops| - 1])
  }

  /** Every byte written so far. */
  function Sent(ops: seq<Op>): seq<byte> {
    if ops == [] then []
    else Sent(ops[..|ops| - 1]) + (if ops[|ops| - 1].Send? then ops[|ops| - 1].b else [])
  }

  /** A cap that a 24-bit length can express, and writes below 4 GiB. */
  predicate Usable(max: nat, ops: seq<Op>) {
    0 < max <= U24 - 17 && forall i :: 0 <= i < |ops| && ops[i].Send? ==> |ops[i].b| < U32
  }

  /**
   * Writer and reader are in step: the k-th record was sealed with counter k and is or will be opened
   * with counter k, the bytes on the way are exactly the records not yet opened, and the bytes read and
   * left over are exactly the plaintext of those that were.
   */
  predicate InStep(a: Aead, max: nat, d: Dir) {
    && !d.failed && d.wn == |d.sealed| && d.reader.rn <= d.wn
    && d.reader.inn == Wire(a, d.reader.rn, d.sealed[d.reader.rn..])
    && d.got + d.reader.rbuf == Concat(d.sealed[..d.reader.rn])
    && (forall i :: 0 <= i < |d.sealed| ==> 0 < |d.sealed[i]| <= max)
  }

  lemma SendKeepsStep(a: Aead, max: nat, d: Dir, b: seq<byte>)
    requires 0 < max && InStep(a, max, d) && |b| < U32
    ensures InStep(a, max, OpStep(a, max, d, Send(b)))
    ensures Concat(OpStep(a, max, d, Send(b)).sealed) == Concat(d.sealed) + b
  {
    hide Wire, Concat, Chunks;
    var cs, rn := Chunks(b, max), d.reader.rn;
    WireAppend(a, rn, d.sealed[rn..], cs);
    ConcatAppend(d.sealed, cs);
    assert (d.sealed + cs)[rn..] == d.sealed[rn..] + cs;
    assert (d.sealed + cs)[..rn] == d.sealed[..rn];
  }

  /** The reader finds the record whose counter it has. */
  lemma NextRecord(a: Aead, max: nat, d: Dir)
    requires Lawful(a) && max <= U24 - 17 && InStep(a, max, d)
    ensures Open(a, d.reader.rn, d.reader.inn, max) ==
            if d.reader.rn == d.wn then Starved
            else Opened(d.sealed[d.reader.rn], Wire(a, d.reader.rn + 1, d.sealed[d.reader.rn + 1..]))
  {
    hide Record;
    var rn := d.reader.rn;
    if rn < d.wn {
      var rest := d.sealed[rn..];
      assert rest[1..] == d.sealed[rn + 1..];
      RecordRoundTrip(a, rn, rest[0], Wire(a, rn + 1, rest[1..]), max);
    } else {
      assert d.sealed[rn..] == [];
    }
  }

  lemma {:induction false} ConcatSnoc(cs: seq<seq<byte>>, k: nat)
    requires k < |cs|
    ensures Concat(cs[..k + 1]) == Concat(cs[..k]) + cs[k]
  {
    assert cs[..k + 1] == cs[..k] + [cs[k]];
    ConcatAppend(cs[..k], [cs[k]]);
    assert Concat([cs[k]]) == cs[k] + Concat([]);
  }

  lemma ReceiveKeepsStep(a: Aead, max: nat, d: Dir, cap: nat)
    requires Lawful(a) && 0 < max <= U24 - 17 && InStep(a, max, d)
    ensures InStep(a, max, OpStep(a, max, d, Receive(cap))) && OpStep(a, max, d, Receive(cap)).sealed == d.sealed
    ensures cap > 0 && (d.reader.rbuf != [] || d.reader.rn < d.wn) ==> |d.got| < |OpStep(a, max, d, Receive(cap)).got|
  {
    NextRecord(a, max, d);
    hide Open, Wire, Concat;
    var rn := d.reader.rn;
    if d.reader.rbuf != [] {
      var n := Min(cap, |d.reader.rbuf|);
      assert d.got + d.reader.rbuf[..n] + d.reader.rbuf[n..] == d.got + d.reader.rbuf;
    } else if cap > 0 && rn < d.wn {
      ConcatSnoc(d.sealed, rn);
      var pt := d.sealed[rn];
      var n := Min(cap, |pt|);
      assert d.got + pt[..n] + pt[n..] == d.got + pt;
      assert d.got + d.reader.rbuf == d.got;
    } else {
      assert d.got + [] == d.got;
    }
  }

  lemma {:induction false} RunsAreInStep(a: Aead, max: nat, ops: seq<Op>)
    requires Lawful(a) && Usable(max, ops)
    ensures InStep(a, max, RunOps(a, max, ops)) && Concat(RunOps(a, max, ops).sealed) == Sent(ops)
    decreases |ops|
  {
    hide InStep, OpStep;
    if ops == [] {
      FreshIsInStep(a, max);
    } else {
      var d, op := RunOps(a, max, ops[..|ops| - 1]), ops[|ops| - 1];
      RunsAreInStep(a, max, ops[..|ops| - 1]);
      if op.Send? {
        SendKeepsStep(a, max, d, op.b);
      } else {
        ReceiveKeepsStep(a, max, d, op.cap);
        assert Sent(ops[..|ops| - 1]) + [] == Sent(ops[..|ops| - 1]);
      }
    }
  }

  lemma FreshIsInStep(a: Aead, max: nat)
    ensures InStep(a, max, FRESH)
  {
  }

  lemma {:induction false} ConcatPrefix(cs: seq<seq<byte>>, k: nat)
    requires k <= |cs|
    ensures Concat(cs[..k]) <= Concat(cs)
  {
    assert cs == cs[..k] + cs[k..];
    ConcatAppend(cs[..k], cs[k..]);
  }

  /**
   * Over any mixture of writes and reads, with any buffer sizes: no read fails, the bytes read are a
   * prefix of the bytes written, all of them once nothing is left over or on the way, and the reader's
   * counter never runs ahead of the writer's, which is the number of records sealed.
   */
  lemma RecordLockstep(a: Aead, max: nat, ops: seq<Op>)
    requires Lawful(a) && Usable(max, ops)
    ensures var d := RunOps(a, max, ops);
            && !d.failed && d.got <= Sent(ops)
            && (d.got == Sent(ops) <==> d.reader.rbuf == [] && d.reader.rn == d.wn)
            && d.reader.rn <= d.wn == |d.sealed|
            && d.got + d.reader.rbuf == Concat(d.sealed[..d.reader.rn])
            && d.reader.inn == Wire(a, d.reader.rn, d.sealed[d.reader.rn..])
  {
    var d := RunOps(a, max, ops);
    RunsAreInStep(a, max, ops);
    hide RunOps, Sent, Wire;
    ConcatPrefix(d.sealed, d.reader.rn);
    if d.reader.rn < d.wn {
      ConcatSnoc(d.sealed, d.reader.rn);
      ConcatPrefix(d.sealed, d.reader.rn + 1);
    } else {
      assert d.sealed[..d.reader.rn] == d.sealed;
    }
    hide Concat;
  }

  lemma OneChunk(b: seq<byte>, max: nat)
    requires 0 < |b| <= max < U32
    ensures Chunks(b, max) == [b]
  {
    assert b[..|b|] == b && b[|b|..] == [];
    assert Chunks(b[|b|..], max) == [];
  }

  /** The length of a record that is too long for 24 bits comes out too small for a tag. */
  lemma LongRecordIsBad(a: Aead, n: nat, b: seq<byte>)
    requires Lawful(a) && U24 - 17 < |b| < U24
    ensures Open(a, n, Record(a, n, b), U24) == BadSize
  {
    var w := Record(a, n, b);
    assert w + [] == w;
    RecordParts(a, n, b, []);
    assert (|b| + TAG) % U24 < TAG;
    hide Record, Be24, FromBe24;
  }

  lemma OneRecord(a: Aead, b: seq<byte>)
    ensures [] + Wire(a, 0, [b]) == Record(a, 0, b)
  {
    hide Record;
    assert [b][1..] == [];
    assert Wire(a, 0, [b]) == Record(a, 0, b) + [];
  }

  /** The cap of 2^24 that the handshake admits is too large: the longest records make the reader fail. */
  lemma AdmittedCapFails(a: Aead, b: seq<byte>, cap: nat)
    requires Lawful(a) && U24 - 17 < |b| < U24 && cap > 0
    ensures RunOps(a, U24, [Send(b), Receive(cap)]).failed
  {
    var ops := [Send(b), Receive(cap)];
    assert ops[..1] == [Send(b)] && ops[..1][..0] == [];
    OneChunk(b, U24);
    OneRecord(a, b);
    LongRecordIsBad(a, 0, b);
    hide Record, Wire, Chunks, Open;
    assert RunOps(a, U24, []) == FRESH;
    assert RunOps(a, U24, ops[..1]).reader.inn == Record(a, 0, b);
  }

  // ----- The connection objects -----

  /** The transport under one end: what has arrived and what was sent. */
  class Transport {
    var inn: seq<byte>
    var out: seq<byte>

    constructor ()
      ensures inn == [] && out == []
    {
      inn, out := [], [];
    }

    method Write(b: seq<byte>)
      modifies this`out
      ensures out == old(out) + b
    {
      out := out + b;
    }

    /** Exactly `n` bytes, once they have all arrived. */
    method ReadFull(n: nat) returns (r: Option<seq<byte>>)
      modifies this`inn
      ensures r == if n <= |old(inn)| then Some(old(inn)[..n]) else None
      ensures inn == if n <= |old(inn)| then old(inn)[n..] else old(inn)
    {
      if n > |inn| {
        return None;
      }
      r := Some(inn[..n]);
      inn := inn[n..];
    }
  }

  /** The Go connection: counters inside the two cipher states. */
  class SecureConn {
    const conn: Transport
    const readCS: Aead
    const writeCS: Aead
    const maxPayload: nat
    var readN: nat
    var writeN: nat
    var rbuf: seq<byte>

    ghost function AsReader(): Reader
      reads this, conn
    {
      Reader(readN, rbuf, conn.inn)
    }

    constructor (conn: Transport, readCS: Aead, writeCS: Aead, maxPayload: nat)
      ensures this.conn == conn && this.readCS == readCS && this.writeCS == writeCS && this.maxPayload == maxPayload
      ensures readN == 0 && writeN == 0 && rbuf == []
    {
      this.conn, this.readCS, this.writeCS, this.maxPayload := conn, readCS, writeCS, maxPayload;
      readN, writeN, rbuf := 0, 0, [];
    }

    method WriteRecord(pt: seq<byte>)
      modifies this`writeN, conn`out
      ensures conn.out == old(conn.out) + Record(writeCS, old(writeN), pt) && writeN == old(writeN) + 1
    {
      var ct := writeCS.seal(writeN, pt);
      writeN := writeN + 1;
      conn.Write([|ct| / 256 / 256 % 256, |ct| / 256 % 256, |ct| % 256]);
      conn.Write(ct);
    }

    /** Cuts `b` into chunks and sends one record for each, with consecutive counters. */
    method Write(b: seq<byte>) returns (total: nat)
      requires 0 < maxPayload
      modifies this`writeN, conn`out
      ensures total == |b|
      ensures conn.out == old(conn.out) + Wire(writeCS, old(writeN), Chunks(b, maxPayload))
      ensures writeN == old(writeN) + |Chunks(b, maxPayload)|
    {
      hide Record, Wire, Chunks;
      total := 0;
      ghost var done: seq<seq<byte>> := [];
      assert b[0..] == b;
      EmptyWire(writeCS, writeN, maxPayload);
      while total < |b|
        invariant total <= |b| && done + Chunks(b[total..], maxPayload) == Chunks(b, maxPayload)
        invariant writeN == old(writeN) + |done| && conn.out == old(conn.out) + Wire(writeCS, old(writeN), done)
      {
        var n := |b| - total;
        if n % U32 > maxPayload {
          n := maxPayload;
        }
        NextChunk(b, total, maxPayload, done);
        var chunk := b[total..total + n];
        WireSnoc(writeCS, old(writeN), done, chunk);
        WriteRecord(chunk);
        done := done + [chunk];
        total := total + n;
      }
      assert done + [] == done && b[|b|..] == [];
    }

    /** Drains what is left of the last record, or opens the next one. */
    method Read(cap: nat) returns (r: ReadResult)
      modifies this`readN, this`rbuf, conn`inn
      ensures r == ReadStep(readCS, maxPayload, old(AsReader()), cap).0
      ensures r.Took? ==> AsReader() == ReadStep(readCS, maxPayload, old(AsReader()), cap).1
      ensures !r.Took? ==> readN == old(readN) && rbuf == old(rbuf)
    {
      if |rbuf| > 0 {
        var n := Min(cap, |rbuf|);
        var p := rbuf[..n];
        rbuf := rbuf[n..];
        return Took(p);
      }
      if cap == 0 {
        return Took([]);
      }
      ghost var wire := conn.inn;
      var h := conn.ReadFull(HEADER);
      if h.None? {
        return Waiting;
      }
      var size := FromBe24(h.value);
      if size < TAG || size > maxPayload + TAG {
        return TooLarge;
      }
      var c := conn.ReadFull(size);
      if c.None? {
        return Waiting;
      }
      assert c.value == wire[HEADER..HEADER + size] && conn.inn == wire[HEADER + size..];
      var d := readCS.open(readN, c.value);
      if d.None? {
        return NotAuthentic;
      }
      readN := readN + 1;
      var pt := d.value;
      var n := Min(cap, |pt|);
      rbuf := pt[n..];
      return Took(pt[..n]);
    }
  }

  lemma EmptyWire(a: Aead, n: nat, max: nat)
    requires 0 < max
    ensures Wire(a, n, []) == [] && Chunks([], max) == []
  {
  }

  /** The 12-byte nonce of a counter: four zero bytes, then 64 bits, little end first. */
  method Nonce12(counter: nat) returns (nonce: array<byte>)
    ensures fresh(nonce) && nonce[..] == Nonce(counter)
  {
    nonce := new byte[12](_ => 0);
    var v := counter;
    for i := 0 to 8
      invariant nonce.Length == 12 && v == Shifted(counter, i)
      invariant forall k :: 0 <= k < 12 ==> nonce[k] == if 4 <= k < 4 + i then Nonce(counter)[k] else 0
    {
      nonce[4 + i] := v % 256;
      v := v / 256;
    }
  }

  function Shifted(v: nat, bytes: nat): nat {
    if bytes == 0 then v else Shifted(v, bytes - 1) / 256
  }

  function Nonce(counter: nat): (n: seq<byte>)
    ensures |n| == 12
  {
    [0, 0, 0, 0] + seq(8, i requires 0 <= i => (Shifted(counter, i) % 256) as byte)
  }

  /** The number that the last `8 - k` bytes of a nonce spell, low byte first. */
  function Counted(n: seq<byte>, k: nat): nat
    requires |n| == 12 && k <= 8
    decreases 8 - k
  {
    if k == 8 then 0 else n[4 + k] + 256 * Counted(n, k + 1)
  }

  lemma {:induction false} CountedFrom(c: nat, k: nat)
    requires k <= 8 && Shifted(c, 8) == 0
    ensures Counted(Nonce(c), k) == Shifted(c, k)
    decreases 8 - k
  {
    if k < 8 {
      CountedFrom(c, k + 1);
      assert Nonce(c)[4 + k] == Shifted(c, k) % 256;
      assert Shifted(c, k + 1) == Shifted(c, k) / 256;
    }
  }

  lemma ShiftedOut(c: nat)
    requires c < U32 * U32
    ensures Shifted(c, 8) == 0
  {
    assert Shifted(c, 0) == c;
    assert Shifted(c, 1) < 0x100_0000_0000_0000;
    assert Shifted(c, 2) < 0x1_0000_0000_0000;
    assert Shifted(c, 3) < 0x100_0000_0000;
    assert Shifted(c, 4) < 0x1_0000_0000;
    assert Shifted(c, 5) < 0x100_0000;
    assert Shifted(c, 6) < 0x1_0000;
    assert Shifted(c, 7) < 0x100;
  }

  /** The nonce of a counter below 2^64: four zero bytes, and the counter with its low byte first. */
  lemma NonceHoldsCounter(c: nat)
    requires c < U32 * U32
    ensures Nonce(c)[..4] == [0, 0, 0, 0] && Counted(Nonce(c), 0) == c
  {
    ShiftedOut(c);
    CountedFrom(c, 0);
  }

  /** No two counters below 2^64 share a nonce. */
  lemma NonceIsInjective(c: nat, d: nat)
    requires c < U32 * U32 && d < U32 * U32 && Nonce(c) == Nonce(d)
    ensures c == d
  {
    NonceHoldsCounter(c);
    NonceHoldsCounter(d);
    hide Nonce;
  }

  /** The cipher as the Kotlin side calls it: with key and nonce spelled out. */
  datatype Cipher = Cipher(
    encrypt: (seq<byte>, seq<byte>, seq<byte>) -> seq<byte>,
    decrypt: (seq<byte>, seq<byte>, seq<byte>) -> Option<seq<byte>>)

  /** The cipher under one key, with the counter turned into a nonce. */
  function Under(c: Cipher, key: seq<byte>): Aead {
    Aead((n, pt) => c.encrypt(key, Nonce(n), pt), (n, ct) => c.decrypt(key, Nonce(n), ct))
  }

  const MAX_RECORD_PLAINTEXT := 262144

  /** The Kotlin channel: keys and counters are its own fields, and the cap is fixed. */
  class SecureChannel {
    const conn: Transport
    const cipher: Cipher
    const readKey: seq<byte>
    const writeKey: seq<byte>
    var readNonce: nat
    var writeNonce: nat
    var pending: seq<byte>

    ghost function AsReader(): Reader
      reads this, conn
    {
      Reader(readNonce, pending, conn.inn)
    }

    constructor (conn: Transport, cipher: Cipher, readKey: seq<byte>, writeKey: seq<byte>)
      requires |readKey| == 32 && |writeKey| == 32
      ensures this.conn == conn && this.cipher == cipher && this.readKey == readKey && this.writeKey == writeKey
      ensures readNonce == 0 && writeNonce == 0 && pending == []
    {
      this.conn, this.cipher, this.readKey, this.writeKey := conn, cipher, readKey, writeKey;
      readNonce, writeNonce, pending := 0, 0, [];
    }

    method WriteRecord(pt: seq<byte>)
      modifies this`writeNonce, conn`out
      ensures conn.out == old(conn.out) + Record(Under(cipher, writeKey), old(writeNonce), pt)
      ensures writeNonce == old(writeNonce) + 1
    {
      var nonce := Nonce12(writeNonce);
      var ct := cipher.encrypt(writeKey, nonce[..], pt);
      writeNonce := writeNonce + 1;
      conn.Write([|ct| / 256 / 256 % 256, |ct| / 256 % 256, |ct| % 256]);
      conn.Write(ct);
    }

    /** The same records as the Go connection would send with the same cipher, counter and cap. */
    method Write(b: seq<byte>)
      requires |b| < U31
      modifies this`writeNonce, conn`out
      ensures conn.out == old(conn.out) + Wire(Under(cipher, writeKey), old(writeNonce), Chunks(b, 262144))
      ensures writeNonce == old(writeNonce) + |Chunks(b, 262144)|
    {
      hide Record, Wire, Chunks, Under;
      var offset := 0;
      ghost var done: seq<seq<byte>> := [];
      assert b[0..] == b;
      EmptyWire(Under(cipher, writeKey), writeNonce, MAX_RECORD_PLAINTEXT);
      while offset < |b|
        invariant offset <= |b| && done + Chunks(b[offset..], MAX_RECORD_PLAINTEXT) == Chunks(b, MAX_RECORD_PLAINTEXT)
        invariant writeNonce == old(writeNonce) + |done|
        invariant conn.out == old(conn.out) + Wire(Under(cipher, writeKey), old(writeNonce), done)
      {
        var n := Min(|b| - offset, MAX_RECORD_PLAINTEXT);
        NextChunk(b, offset, MAX_RECORD_PLAINTEXT, done);
        var chunk := b[offset..offset + n];
        WireSnoc(Under(cipher, writeKey), old(writeNonce), done, chunk);
        WriteRecord(chunk);
        done := done + [chunk];
        offset := offset + n;
      }
      assert done + [] == done && b[|b|..] == [];
    }

    method Read(cap: nat) returns (r: ReadResult)
      modifies this`readNonce, this`pending, conn`inn
      ensures r == ReadStep(Under(cipher, readKey), 262144, old(AsReader()), cap).0
      ensures r.Took? ==> AsReader() == ReadStep(Under(cipher, readKey), 262144, old(AsReader()), cap).1
      ensures !r.Took? ==> readNonce == old(readNonce) && pending == old(pending)
    {
      if |pending| > 0 {
        var n := Min(cap, |pending|);
        var p := pending[..n];
        pending := pending[n..];
        return Took(p);
      }
      if cap == 0 {
        return Took([]);
      }
      ghost var wire := conn.inn;
      var h := conn.ReadFull(HEADER);
      if h.None? {
        return Waiting;
      }
      var size := FromBe24(h.value);
      if size < TAG || size > MAX_RECORD_PLAINTEXT + TAG {
        return TooLarge;
      }
      var c := conn.ReadFull(size);
      if c.None? {
        return Waiting;
      }
      assert c.value == wire[HEADER..HEADER + size] && conn.inn == wire[HEADER + size..];
      var nonce := Nonce12(readNonce);
      var d := cipher.decrypt(readKey, nonce[..], c.value);
      if d.None? {
        return NotAuthentic;
      }
      readNonce := readNonce + 1;
      var plaintext := d.value;
      var n := Min(cap, |plaintext|);
      pending := plaintext[n..];
      return Took(plaintext[..n]);
    }
  }
}
