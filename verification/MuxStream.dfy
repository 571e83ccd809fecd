/**
 * One multiplexed stream: its fields, and each section of code that runs under its lock as a
 * function from the fields before to the fields after.
 */
module MuxStream {
  import opened Bytes

  datatype Core = Core(
    buf: seq<byte>,
    sendWin: int,
    recvUnacked: nat,
    finRecv: bool,
    finSent: bool,
    reset: bool,
    sclosed: bool)

  function NewCore(window: nat): Core {
    Core([], window, 0, false, false, false, false)
  }

  // ----- Read -----

  datatype ReadResult =
    | Got(bytes: seq<byte>, credit: nat)
    | Eof
    | ReadReset
    | ReadSessionClosed
    | ReadWait

  /** The locked part of `Read`: buffered bytes first, whatever the flags say; then the flags in order. */
  function Drain(c: Core, cap: nat): (ReadResult, Core)
    requires cap > 0
  {
    if c.buf == [] then
      (if c.reset then ReadReset else if c.finRecv then Eof else if c.sclosed then ReadSessionClosed else ReadWait, c)
    else
      var n := Min(cap, |c.buf|);
      (Got(c.buf[..n], (c.recvUnacked + n % U32) % U32), c.(buf := c.buf[n..], recvUnacked := 0))
  }

  /** Nothing left to read, the far end has closed, and the stream was not reset. */
  predicate AtEof(c: Core) {
    c.buf == [] && c.finRecv && !c.reset
  }

  /**
   * `Read` reports end of file exactly then, whatever the size of the caller's buffer. It gives bytes exactly
   * if there are any; of the refusals a reset goes first, then end of file, then the session's end; and it
   * waits exactly if there is none.
   */
  lemma EofExact(c: Core, cap: nat)
    requires cap > 0
    ensures var r := Drain(c, cap).0;
            && (r.Eof? <==> AtEof(c))
            && (r.Got? <==> c.buf != [])
            && (r.ReadReset? <==> c.buf == [] && c.reset)
            && (r.ReadSessionClosed? <==> c.buf == [] && !c.reset && !c.finRecv && c.sclosed)
            && (r.ReadWait? <==> ReaderSleeps(c))
  {
  }

  // ----- Write -----

  datatype WriteResult =
    | Granted(n: nat)
    | WriteReset
    | WriteSessionClosed
    | WriteHalfClosed
    | WriteWait

  /**
   * The locked part of one turn of the `Write` loop, with `left` bytes still to send. The half-close
   * and the session close are looked at only while the window is empty.
   */
  function Reserve(c: Core, left: nat, maxPayload: nat): (WriteResult, Core)
    requires c.sendWin >= 0
  {
    if c.sendWin == 0 then
      (if c.reset then WriteReset else if c.sclosed then WriteSessionClosed else if c.finSent then WriteHalfClosed else WriteWait, c)
    else if c.reset then (WriteReset, c)
    else
      var n := Min(Min(left, c.sendWin), maxPayload);
      (Granted(n), c.(sendWin := c.sendWin - n))
  }

  // ----- The other sections -----

  function MarkFinSent(c: Core): Core {
    c.(finSent := true)
  }

  /** Inbound DATA; a full buffer is a protocol violation. */
  function Push(c: Core, b: seq<byte>, window: nat): Option<Core> {
    if |c.buf| + |b| > window then None else Some(c.(buf := c.buf + b))
  }

  function MarkFinRecv(c: Core): Core {
    c.(finRecv := true)
  }

  function AddWindow(c: Core, n: nat): Core {
    c.(sendWin := c.sendWin + n)
  }

  function MarkSessionClosed(c: Core): Core {
    c.(sclosed := true)
  }

  function MarkReset(c: Core): Core {
    c.(reset := true)
  }

  // ----- Who sleeps -----

  predicate ReaderSleeps(c: Core) {
    c.buf == [] && !c.reset && !c.finRecv && !c.sclosed
  }

  predicate WriterSleeps(c: Core) {
    c.sendWin == 0 && !c.reset && !c.sclosed && !c.finSent
  }

  /** Nobody whom the change from `c` to `d` lets go on is left asleep: there was a broadcast. */
  predicate Woken(c: Core, d: Core, before: nat, after: nat) {
    (ReaderSleeps(c) && !ReaderSleeps(d)) || (WriterSleeps(c) && !WriterSleeps(d)) ==> before < after
  }

  /** A stream on which no call can sleep any more. */
  predicate Released(c: Core) {
    c.reset || c.sclosed || (c.finRecv && c.finSent)
  }

  lemma ReleasedMeansAwake(c: Core, cap: nat, left: nat, maxPayload: nat)
    requires Released(c) && cap > 0 && c.sendWin >= 0
    ensures !Drain(c, cap).0.ReadWait? && !Reserve(c, left, maxPayload).0.WriteWait?
  {
  }

  /**
   * A write after `Close` is refused for that reason exactly when the window happens to be empty; with any
   * window left and no reset it still reserves bytes, so DATA can follow FIN.
   */
  lemma WriteAfterCloseExact(c: Core, left: nat, maxPayload: nat)
    requires c.finSent && c.sendWin >= 0 && left > 0 && maxPayload > 0
    ensures var r := Reserve(c, left, maxPayload).0;
            && (r.WriteHalfClosed? <==> c.sendWin == 0 && !c.reset && !c.sclosed)
            && ((r.Granted? && r.n > 0) <==> c.sendWin > 0 && !c.reset)
  {
  }

  /**
   * A reset stops every write; the session's end only one that finds the window empty. A write waits exactly
   * if there is no window and no reason to give up; otherwise it gets all that window, cap and need allow.
   */
  lemma ReserveExact(c: Core, left: nat, maxPayload: nat)
    requires c.sendWin >= 0
    ensures var r := Reserve(c, left, maxPayload).0;
            && (r.WriteReset? <==> c.reset)
            && (r.WriteSessionClosed? <==> c.sendWin == 0 && !c.reset && c.sclosed)
            && (r.WriteWait? <==> WriterSleeps(c))
            && (r.Granted? ==> r.n <= left && r.n <= c.sendWin && r.n <= maxPayload)
            && (r.Granted? ==> r.n == left || r.n == c.sendWin || r.n == maxPayload)
  {
  }

  /** Reading gives the buffer back piece by piece, in order, whatever the piece sizes. */
  lemma DrainSplitsBuffer(c: Core, cap: nat)
    requires cap > 0 && c.recvUnacked == 0 && 0 < |c.buf| < U32
    ensures var (r, d) := Drain(c, cap);
            && r.Got? && c.buf == r.bytes + d.buf
            && 1 <= |r.bytes| <= cap && r.credit == |r.bytes|
            && d == c.(buf := d.buf)
  {
  }
}
