/**
 * The Kotlin stream: the same locked sections as the Go stream, over a ring buffer instead of a byte
 * sequence. It behaves as the Go stream does except when a push fills the ring.
 */
module KotlinStream {
  import opened Bytes
  import R = RingBuffer
  import S = MuxStream

  /** How a read call comes back; `Asleep` stands for a call that has to wait. */
  datatype ReadEnd = Count(n: nat, credit: nat) | EndOfFile | Reset | SessionClosed | Asleep

  /** The same answer from the Go stream. */
  predicate SameRead(k: ReadEnd, g: S.ReadResult) {
    match g
    case Got(bytes, credit) => k == Count(|bytes|, credit)
    case Eof => k == EndOfFile
    case ReadReset => k == Reset
    case ReadSessionClosed => k == SessionClosed
    case ReadWait => k == Asleep
  }

  /** What the Go stream gives when there is something to read. */
  lemma DrainTakes(c: S.Core, len: nat)
    requires 0 < len < U31 && c.recvUnacked == 0 && c.buf != []
    ensures var n := Min(len, |c.buf|); S.Drain(c, len) == (S.Got(c.buf[..n], n), c.(buf := c.buf[n..]))
  {
  }

  class KtStream {
    const window: nat
    const maxPayload: nat
    const buffer: R.ByteBufferQueue
    var sendWindow: int
    var recvUnacked: nat
    var finReceived: bool
    var finSent: bool
    var reset: bool
    var sessionClosed: bool
    ghost var signals: nat

    ghost predicate Valid()
      reads this, buffer
    {
      buffer.Valid() && recvUnacked == 0
    }

    /** The fields of the Go stream that this one stands for. */
    ghost function View(): S.Core
      requires Valid()
      reads this, buffer, buffer.buf
    {
      S.Core(buffer.View().content, sendWindow, recvUnacked, finReceived, finSent, reset, sessionClosed)
    }

    constructor (window: nat, maxPayload: nat)
      ensures Valid() && View() == S.NewCore(window) && this.window == window && this.maxPayload == maxPayload
      ensures buffer.View().cap == 4096 && fresh(buffer) && fresh(buffer.buf)
    {
      var ring := new R.ByteBufferQueue(4096);
      this.window, this.maxPayload, buffer := window, maxPayload, ring;
      sendWindow, recvUnacked := window, 0;
      finReceived, finSent, reset, sessionClosed := false, false, false, false;
      signals := 0;
    }

    /** The locked part of a read into `p`: the bytes copied are those the Go stream would return. */
    method Read(p: array<byte>, off: nat, len: nat) returns (r: ReadEnd)
      requires Valid() && p != buffer.buf && off + len <= p.Length && 0 < len < U31
      modifies this`recvUnacked, buffer`head, p
      ensures Valid() && SameRead(r, S.Drain(old(View()), len).0) && View() == S.Drain(old(View()), len).1
      ensures r.Count? ==> p[..] == R.Splice(old(p[..]), off, S.Drain(old(View()), len).0.bytes)
      ensures !r.Count? ==> p[..] == old(p[..])
    {
      if buffer.Size() == 0 {
        if reset { return Reset; }
        if finReceived { return EndOfFile; }
        if sessionClosed { return SessionClosed; }
        return Asleep;
      }
      DrainTakes(View(), len);
      hide S.Drain, R.Splice;
      var n := buffer.Drain(p, off, len);
      var credit := recvUnacked + n;
      recvUnacked := 0;
      return Count(n, credit);
    }

    /** The locked part of one turn of the write loop. */
    method Reserve(left: nat) returns (r: S.WriteResult)
      requires Valid() && 0 <= sendWindow
      modifies this`sendWindow
      ensures Valid() && (r, View()) == S.Reserve(old(View()), left, maxPayload)
    {
      if sendWindow == 0 {
        if reset { return S.WriteReset; }
        if sessionClosed { return S.WriteSessionClosed; }
        if finSent { return S.WriteHalfClosed; }
        return S.WriteWait;
      }
      if reset {
        return S.WriteReset;
      }
      var chunk := Min(Min(left, sendWindow), maxPayload);
      sendWindow := sendWindow - chunk;
      return S.Granted(chunk);
    }

    /**
     * Inbound DATA: refused exactly when the Go stream would refuse it. An accepted payload is appended,
     * unless it brings the buffer to exactly the ring's capacity: then everything buffered is lost.
     */
    method PushData(payload: array<byte>) returns (ok: bool)
      requires Valid() && payload != buffer.buf
      modifies buffer, buffer.buf, this`signals
      ensures Valid() && ok == S.Push(old(View()), payload[..], window).Some?
      ensures !ok ==> View() == old(View())
      ensures ok && !R.Fills(old(buffer.View()), payload[..]) ==> View() == S.Push(old(View()), payload[..], window).value
      ensures ok && R.Fills(old(buffer.View()), payload[..]) ==> View() == old(View()).(buf := [])
      ensures buffer.buf == old(buffer.buf) || fresh(buffer.buf)
      ensures signals == old(signals) + (if ok then 1 else 0)
      ensures S.Woken(old(View()), View(), old(signals), signals)
    {
      if buffer.Size() + payload.Length > window {
        return false;
      }
      assert payload[0..0 + payload.Length] == payload[..];
      if payload.Length > 0 {
        buffer.Push(payload, 0, payload.Length);
      } else {
        assert payload[..] == [] && buffer.View().content + [] == buffer.View().content;
      }
      signals := signals + 1;
      return true;
    }

    method MarkClosed() returns (first: bool, remove: bool)
      requires Valid()
      modifies this`finSent, this`signals
      ensures Valid() && View() == S.MarkFinSent(old(View())) && first == !old(finSent) && remove == (first && finReceived)
      ensures S.Woken(old(View()), View(), old(signals), signals)
    {
      if finSent {
        return false, false;
      }
      finSent := true;
      signals := signals + 1;
      return true, finReceived;
    }

    method RemoteClosed() returns (both: bool)
      requires Valid()
      modifies this`finReceived, this`signals
      ensures Valid() && View() == S.MarkFinRecv(old(View())) && both == finSent
      ensures S.Woken(old(View()), View(), old(signals), signals)
    {
      finReceived := true;
      both := finSent;
      signals := signals + 1;
    }

    method AddSendWindow(credit: nat)
      requires Valid()
      modifies this`sendWindow, this`signals
      ensures Valid() && View() == S.AddWindow(old(View()), credit)
      ensures S.Woken(old(View()), View(), old(signals), signals)
    {
      sendWindow := sendWindow + credit;
      signals := signals + 1;
    }

    method SessionClosedNow()
      requires Valid()
      modifies this`sessionClosed, this`signals
      ensures Valid() && View() == S.MarkSessionClosed(old(View()))
      ensures S.Woken(old(View()), View(), old(signals), signals)
    {
      sessionClosed := true;
      signals := signals + 1;
    }

    method RemoteReset()
      requires Valid()
      modifies this`reset, this`signals
      ensures Valid() && View() == S.MarkReset(old(View()))
      ensures S.Woken(old(View()), View(), old(signals), signals)
    {
      reset := true;
      signals := signals + 1;
    }
  }
}
