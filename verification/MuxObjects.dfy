/**
 * The stream and session objects as they are changed in place. Each method is one or more of the
 * sections that `MuxStream` and `MuxSession` describe as functions, run without interruption.
 */
module MuxObjects {
  import opened Bytes
  import opened MuxSession
  import opened MuxChannel
  import S = MuxStream
  import T = TargetCodec

  type Core = S.Core

  /** The connection with its write lock and the session's `closed` flag; `out` is what was written. */
  class Wire {
    const cfg: Config
    var closed: bool
    var out: seq<Msg>

    constructor (cfg: Config)
      ensures this.cfg == cfg && !closed && out == []
    {
      this.cfg, closed, out := cfg, false, [];
    }

    method WriteFrame(m: Msg) returns (ok: bool)
      modifies this`out
      ensures ok == CanWrite(cfg, closed, m)
      ensures out == if ok then old(out) + [m] else old(out)
    {
      if closed {
        return false;
      }
      if Size(m) > cfg.maxPayload {
        return false;
      }
      out := out + [m];
      return true;
    }
  }

  /** How a `Write` call came back; `Asleep` stands for a call that would have to wait. */
  datatype WriteEnd = Finished | Denied(why: S.WriteResult) | Unwritten | Asleep

  /** How a write of an open session ends with `left` bytes not written. */
  function EndOfWrite(c: Core, left: nat, maxPayload: nat): WriteEnd
    requires 0 <= c.sendWin
  {
    var r := S.Reserve(c, left, maxPayload).0;
    if left == 0 then Finished else if r.WriteWait? then Asleep else Denied(r)
  }

  class Stream {
    const wire: Wire
    const id: u32
    const target: T.Target

    var buf: seq<byte>
    var sendWin: int
    var recvUnacked: nat
    var finRecv: bool
    var finSent: bool
    var reset: bool
    var sclosed: bool
    ghost var broadcasts: nat

    ghost function View(): Core
      reads this
    {
      S.Core(buf, sendWin, recvUnacked, finRecv, finSent, reset, sclosed)
    }

    constructor (wire: Wire, id: u32, target: T.Target, window: nat)
      ensures View() == S.NewCore(window) && this.wire == wire && this.id == id && this.target == target
    {
      this.wire, this.id, this.target := wire, id, target;
      buf, sendWin, recvUnacked := [], window, 0;
      finRecv, finSent, reset, sclosed := false, false, false, false;
      broadcasts := 0;
    }

    /** The frame that returns the credit of a read, if it can be written. */
    ghost function Credited(r: S.ReadResult): seq<Msg>
      reads wire
    {
      if r.Got? && CanWrite(wire.cfg, wire.closed, Win(id, r.credit % U32)) then [Win(id, r.credit % U32)] else []
    }

    /** What `Read` does under the lock. */
    method Drain(cap: nat) returns (r: S.ReadResult)
      requires cap > 0
      modifies this`buf, this`recvUnacked
      ensures (r, View()) == S.Drain(old(View()), cap)
    {
      if buf == [] {
        if reset { return S.ReadReset; }
        if finRecv { return S.Eof; }
        if sclosed { return S.ReadSessionClosed; }
        return S.ReadWait;
      }
      var n := Min(cap, |buf|);
      var p := buf[..n];
      buf := buf[n..];
      var unacked := (recvUnacked + n % U32) % U32;
      recvUnacked := 0;
      return S.Got(p, unacked);
    }

    /** A read: drain under the lock, then return the credit in a WIN frame. */
    method Read(cap: nat) returns (r: S.ReadResult)
      modifies this`buf, this`recvUnacked, wire`out
      ensures cap == 0 ==> r == S.Got([], 0) && View() == old(View()) && wire.out == old(wire.out)
      ensures cap > 0 ==> (r, View()) == S.Drain(old(View()), cap) && wire.out == old(wire.out) + Credited(r)
    {
      if cap == 0 {
        return S.Got([], 0);
      }
      r := Drain(cap);
      if r.Got? {
        var _ := wire.WriteFrame(Win(id, r.credit % U32));
      }
    }

    /** What `Write` does under the lock in one turn of its loop. */
    method Reserve(left: nat) returns (r: S.WriteResult)
      requires 0 <= sendWin
      modifies this`sendWin
      ensures (r, View()) == S.Reserve(old(View()), left, wire.cfg.maxPayload)
    {
      if sendWin == 0 {
        if reset { return S.WriteReset; }
        if sclosed { return S.WriteSessionClosed; }
        if finSent { return S.WriteHalfClosed; }
        return S.WriteWait;
      }
      if reset {
        return S.WriteReset;
      }
      var n := left;
      if n > sendWin {
        n := sendWin;
      }
      if n > wire.cfg.maxPayload {
        n := wire.cfg.maxPayload;
      }
      sendWin := sendWin - n;
      return S.Granted(n);
    }

    /** The frames since `before` are DATA frames of this stream within the payload cap, none of them empty. */
    ghost predicate OnlyData(before: seq<Msg>)
      reads wire
    {
      before <= wire.out
      && forall i :: |before| <= i < |wire.out| ==>
           wire.out[i].Data? && wire.out[i].id == id && 0 < |wire.out[i].payload| <= wire.cfg.maxPayload
    }

    method PutChunk(chunk: seq<byte>, ghost before: seq<Msg>) returns (ok: bool)
      requires 0 < |chunk| <= wire.cfg.maxPayload && OnlyData(before)
      modifies wire`out
      ensures ok == !wire.closed && OnlyData(before)
      ensures DataOf(wire.out, id) == DataOf(old(wire.out), id) + (if ok then chunk else [])
    {
      AppendData(wire.out, Data(id, chunk), id);
      ok := wire.WriteFrame(Data(id, chunk));
    }

    /**
     * A write, as far as it gets without waiting: all of `p`, or the whole window. The frames carry
     * exactly the bytes counted, in order, and nothing else is written. On a closed session the first
     * reservation is lost.
     */
    method Write(p: seq<byte>) returns (total: nat, end: WriteEnd)
      requires 0 <= sendWin && 0 < wire.cfg.maxPayload
      modifies this`sendWin, wire`out
      ensures OnlyData(old(wire.out)) && total <= |p|
      ensures DataOf(wire.out, id) == DataOf(old(wire.out), id) + p[..total]
      ensures !wire.closed ==> total == (if reset then 0 else Min(|p|, old(sendWin))) && sendWin == old(sendWin) - total
      ensures !wire.closed ==> end == EndOfWrite(View(), |p| - total, wire.cfg.maxPayload)
      ensures wire.closed && p != [] ==> total == 0 && View() == S.Reserve(old(View()), |p|, wire.cfg.maxPayload).1
      ensures wire.closed && p != [] ==> (end == Unwritten <==> S.Reserve(old(View()), |p|, wire.cfg.maxPayload).0.Granted?)
    {
      assert OnlyData(wire.out) && DataOf(wire.out, id) + p[..0] == DataOf(wire.out, id);
      hide OnlyData, DataOf;
      total := 0;
      while total < |p|
        invariant 0 <= total <= |p| && 0 <= sendWin == old(sendWin) - total
        invariant reset || wire.closed ==> total == 0
        invariant OnlyData(old(wire.out)) && DataOf(wire.out, id) == DataOf(old(wire.out), id) + p[..total]
      {
        var r := Reserve(|p| - total);
        if !r.Granted? {
          return total, if r.WriteWait? then Asleep else Denied(r);
        }
        var n := r.n;
        var chunk := p[total..total + n];
        assert p[..total] + chunk == p[..total + n];
        var ok := PutChunk(chunk, old(wire.out));
        if !ok {
          return total, Unwritten;
        }
        total := total + n;
      }
      return total, Finished;
    }

    /** The half-close: the flag, and the answer whether the stream can be retired. */
    method MarkClosed() returns (first: bool, both: bool)
      modifies this`finSent, this`broadcasts
      ensures first == !old(finSent) && both == (first && finRecv)
      ensures View() == S.MarkFinSent(old(View()))
      ensures S.Woken(old(View()), View(), old(broadcasts), broadcasts)
    {
      if finSent {
        return false, false;
      }
      finSent := true;
      both := finRecv;
      broadcasts := broadcasts + 1;
      return true, both;
    }

    method PushData(b: seq<byte>) returns (ok: bool)
      modifies this`buf, this`broadcasts
      ensures ok == S.Push(old(View()), b, wire.cfg.window).Some?
      ensures View() == if ok then S.Push(old(View()), b, wire.cfg.window).value else old(View())
      ensures S.Woken(old(View()), View(), old(broadcasts), broadcasts)
    {
      if |buf| + |b| > wire.cfg.window {
        return false;
      }
      if |b| > 0 {
        buf := buf + b;
      } else {
        assert buf + b == buf;
      }
      broadcasts := broadcasts + 1;
      return true;
    }

    method RemoteClosed() returns (both: bool)
      modifies this`finRecv, this`broadcasts
      ensures View() == S.MarkFinRecv(old(View())) && both == finSent
      ensures S.Woken(old(View()), View(), old(broadcasts), broadcasts)
    {
      finRecv := true;
      both := finSent;
      broadcasts := broadcasts + 1;
    }

    method AddSendWindow(n: nat)
      modifies this`sendWin, this`broadcasts
      ensures View() == S.AddWindow(old(View()), n)
      ensures S.Woken(old(View()), View(), old(broadcasts), broadcasts)
    {
      sendWin := sendWin + n;
      broadcasts := broadcasts + 1;
    }

    method SessionClosed()
      modifies this`sclosed, this`broadcasts
      ensures View() == S.MarkSessionClosed(old(View()))
      ensures S.Woken(old(View()), View(), old(broadcasts), broadcasts)
    {
      sclosed := true;
      broadcasts := broadcasts + 1;
    }

    method RemoteReset()
      modifies this`reset, this`broadcasts
      ensures View() == S.MarkReset(old(View()))
      ensures S.Woken(old(View()), View(), old(broadcasts), broadcasts)
    {
      reset := true;
      broadcasts := broadcasts + 1;
    }
  }

  // ----- What handling one frame amounts to -----

  /** `Go` keeps the receive loop running, `Leave` ends it in order, `Kill` is a protocol or write error. */
  datatype Verdict = Go | Leave | Kill

  datatype Handled = Handled(table: map<u32, Core>, queued: bool, out: seq<Msg>, verdict: Verdict)

  function Reply(cfg: Config, closed: bool, m: Msg): seq<Msg> {
    if CanWrite(cfg, closed, m) then [m] else []
  }

  /** The table, the answer and the verdict after one frame; `room` says whether the accept queue has room. */
  function Handle(cfg: Config, closed: bool, room: bool, table: map<u32, Core>, m: Msg): Handled {
    match m
    case Syn(id, block) =>
      if T.Parse(block).Err? then Handled(table, false, Reply(cfg, closed, Rst(id, REASON_PROTOCOL)), Go)
      else if id in table then Handled(table, false, Reply(cfg, closed, Rst(id, REASON_DUP)), Go)
      else if room then Handled(table[id := S.NewCore(cfg.window)], true, [], Go)
      else Handled(table, false, Reply(cfg, closed, Rst(id, REASON_BUSY)), Go)
    case Data(id, payload) =>
      if id !in table then Handled(table, false, Reply(cfg, closed, Rst(id, REASON_BUSY)), Go)
      else
        (match S.Push(table[id], payload, cfg.window)
         case None => Handled(table, false, [], Kill)
         case Some(c) => Handled(table[id := c], false, [], Go))
    case Fin(id) =>
      if id !in table then Handled(table, false, [], Go)
      else Handled(if table[id].finSent then table - {id} else table[id := S.MarkFinRecv(table[id])], false, [], Go)
    case Rst(id, _) => Handled(table - {id}, false, [], Go)
    case Win(id, credit) =>
      Handled(if id in table then table[id := S.AddWindow(table[id], credit)] else table, false, [], Go)
    case Ping(p) => Handled(table, false, Reply(cfg, closed, Pong(p)), if CanWrite(cfg, closed, Pong(p)) then Go else Kill)
    case Pong(_) => Handled(table, false, [], Go)
    case GoAway(_) => Handled(table, false, [], Leave)
    case NoFlag => Handled(table, false, [], Kill)
  }

  /**
   * On an open session an RST goes out with reason 1 exactly for a SYN whose address block is malformed, and
   * with reason 2 exactly for a SYN whose id is in use or that finds the queue full, and for DATA of an
   * unknown stream. Nothing else is answered but a PING, by a PONG with the same bytes. The receive loop
   * leaves exactly on GOAWAY, and it gives up exactly on a frame without a flag, on DATA that does not fit
   * the window, and when the PONG cannot be written.
   */
  lemma AnswersExactly(cfg: Config, room: bool, table: map<u32, Core>, m: Msg)
    requires 1 <= cfg.maxPayload
    ensures var h := Handle(cfg, false, room, table, m);
            && |h.out| <= 1 && (h.out != [] ==> h.out[0].Rst? || h.out[0].Pong?)
            && (forall id, reason: byte :: h.out == [Rst(id, reason)] <==>
                  || (m.Syn? && m.id == id && T.Parse(m.block).Err? && reason == 1)
                  || (m.Syn? && m.id == id && T.Parse(m.block).Ok? && (id in table || !room) && reason == 2)
                  || (m.Data? && m.id == id && id !in table && reason == 2))
            && (forall p :: h.out == [Pong(p)] <==> m == Ping(p) && |p| <= cfg.maxPayload)
            && (h.verdict == Leave <==> m.GoAway?)
            && (h.verdict == Kill <==>
                  || m.NoFlag?
                  || (m.Data? && m.id in table && |table[m.id].buf| + |m.payload| > cfg.window)
                  || (m.Ping? && |m.opaq| > cfg.maxPayload))
  {
    hide T.Parse;
  }

  lemma TakenOutAgain(table: map<u32, Core>, id: u32, c: Core)
    requires id !in table
    ensures table[id := c] - {id} == table
  {
  }

  class Session {
    const wire: Wire
    var streams: map<u32, Stream>
    var nextID: u32
    var acceptCh: seq<Stream>
    var shut: bool

    ghost predicate Valid()
      reads this, streams.Values
    {
      forall id :: id in streams ==> streams[id].wire == wire && streams[id].id == id
    }

    ghost function Table(): map<u32, Core>
      reads this, streams.Values
    {
      map id | id in streams :: streams[id].View()
    }

    constructor (wire: Wire)
      ensures Valid() && Table() == map[] && this.wire == wire && acceptCh == [] && !shut
      ensures nextID == if wire.cfg.initiator then 1 else 2
    {
      this.wire, streams, acceptCh, shut := wire, map[], [], false;
      nextID := if wire.cfg.initiator then 1 else 2;
    }

    method RemoveStream(id: u32)
      requires Valid()
      modifies this`streams
      ensures Valid() && Table() == old(Table()) - {id} && streams == old(streams) - {id}
    {
      streams := streams - {id};
    }

    /** Retires a stream and wakes its users with an error. */
    method ResetStream(id: u32)
      requires Valid()
      modifies this`streams, if id in streams then {streams[id]} else {}
      ensures Valid() && Table() == old(Table()) - {id} && streams == old(streams) - {id}
      ensures id in old(streams) ==> old(streams)[id].View() == S.MarkReset(old(streams[id].View()))
    {
      if id in streams {
        var st := streams[id];
        streams := streams - {id};
        st.RemoteReset();
      } else {
        assert streams - {id} == streams;
      }
    }

    method AbortStream(id: u32, reason: byte)
      modifies wire`out
      ensures wire.out == old(wire.out) + Reply(wire.cfg, wire.closed, Rst(id, reason))
    {
      var _ := wire.WriteFrame(Rst(id, reason));
    }

    /** Closes the write side of a stream: flag, retirement when both sides are done, FIN. */
    method CloseStream(st: Stream)
      requires Valid() && st.wire == wire
      modifies this`streams, st, wire`out
      ensures Valid() && st.View() == S.MarkFinSent(old(st.View()))
      ensures streams == if !old(st.finSent) && st.finRecv then old(streams) - {st.id} else old(streams)
      ensures wire.out == old(wire.out) + (if old(st.finSent) then [] else Reply(wire.cfg, wire.closed, Fin(st.id)))
    {
      var first, both := st.MarkClosed();
      if !first {
        return;
      }
      if both {
        RemoveStream(st.id);
      }
      var _ := wire.WriteFrame(Fin(st.id));
    }

    method Open(target: T.Target) returns (st: Stream?)
      requires Valid()
      modifies this`streams, this`nextID, wire`out
      ensures Valid()
      ensures wire.closed ==> st == null && streams == old(streams) && nextID == old(nextID) && wire.out == old(wire.out)
      ensures !wire.closed ==> nextID == (old(nextID) + 2) % U32
      ensures !wire.closed ==> (st == null <==> |T.Encode(target)| > wire.cfg.maxPayload)
      ensures !wire.closed && st != null ==>
                && fresh(st) && st.id == old(nextID) && st.target == target && st.View() == S.NewCore(wire.cfg.window)
                && streams == old(streams)[old(nextID) := st] && wire.out == old(wire.out) + [Syn(st.id, T.Encode(target))]
      ensures !wire.closed && st == null ==> streams == old(streams) - {old(nextID)} && wire.out == old(wire.out)
    {
      if wire.closed {
        return null;
      }
      var id := nextID;
      nextID := (id + 2) % U32;
      var s := new Stream(wire, id, target, wire.cfg.window);
      streams := streams[id := s];
      var ok := wire.WriteFrame(Syn(id, T.Encode(target)));
      if !ok {
        streams := streams - {id};
        return null;
      }
      return s;
    }

    /** Queues a new stream for `Accept`, or refuses it when the queue is full. */
    method Offer(st: Stream)
      requires Valid() && st.id in streams && streams[st.id] == st
      modifies this`streams, this`acceptCh, st, wire`out
      ensures Valid()
      ensures |old(acceptCh)| < wire.cfg.depth ==>
                streams == old(streams) && acceptCh == old(acceptCh) + [st] && wire.out == old(wire.out) && Table() == old(Table())
      ensures |old(acceptCh)| >= wire.cfg.depth ==>
                && Table() == old(Table()) - {st.id} && acceptCh == old(acceptCh)
                && wire.out == old(wire.out) + Reply(wire.cfg, wire.closed, Rst(st.id, REASON_BUSY))
    {
      if |acceptCh| < wire.cfg.depth {
        acceptCh := acceptCh + [st];
      } else {
        ResetStream(st.id);
        AbortStream(st.id, REASON_BUSY);
      }
    }

    method Register(id: u32, target: T.Target) returns (st: Stream)
      requires Valid() && id !in streams
      modifies this`streams
      ensures Valid() && fresh(st) && st.id == id && st.target == target && streams == old(streams)[id := st]
      ensures Table() == old(Table())[id := S.NewCore(wire.cfg.window)]
    {
      st := new Stream(wire, id, target, wire.cfg.window);
      streams := streams[id := st];
    }

    /** A new stream enters the table; it stays only if the accept queue takes it. */
    method Admit(id: u32, target: T.Target)
      requires Valid() && id !in streams
      modifies this`streams, this`acceptCh, wire`out
      ensures Valid()
      ensures |old(acceptCh)| < wire.cfg.depth ==>
                && Table() == old(Table())[id := S.NewCore(wire.cfg.window)] && wire.out == old(wire.out)
                && id in streams && acceptCh == old(acceptCh) + [streams[id]] && streams[id].target == target
      ensures |old(acceptCh)| >= wire.cfg.depth ==>
                && Table() == old(Table()) && acceptCh == old(acceptCh)
                && wire.out == old(wire.out) + Reply(wire.cfg, wire.closed, Rst(id, REASON_BUSY))
    {
      hide Reply, S.NewCore;
      TakenOutAgain(Table(), id, S.NewCore(wire.cfg.window));
      var st := Register(id, target);
      Offer(st);
    }

    method HandleSyn(id: u32, block: seq<byte>)
      requires Valid()
      modifies this`streams, this`acceptCh, wire`out
      ensures Valid()
      ensures var h := Handle(wire.cfg, wire.closed, |old(acceptCh)| < wire.cfg.depth, old(Table()), Syn(id, block));
              && Table() == h.table && wire.out == old(wire.out) + h.out
              && |acceptCh| == |old(acceptCh)| + (if h.queued then 1 else 0) && old(acceptCh) <= acceptCh
              && (h.queued ==> id in streams && acceptCh[|acceptCh| - 1] == streams[id] && T.Parse(block) == Ok(streams[id].target))
    {
      hide T.Parse, CanWrite, S.NewCore;
      var r := T.Parse(block);
      if r.Err? {
        AbortStream(id, REASON_PROTOCOL);
        return;
      }
      if id in streams {
        AbortStream(id, REASON_DUP);
        return;
      }
      Admit(id, r.value);
    }

    method HandleData(id: u32, payload: seq<byte>) returns (v: Verdict)
      requires Valid()
      modifies wire`out, if id in streams then {streams[id]} else {}
      ensures Valid() && v == Handle(wire.cfg, wire.closed, true, old(Table()), Data(id, payload)).verdict
      ensures var h := Handle(wire.cfg, wire.closed, true, old(Table()), Data(id, payload));
              Table() == h.table && wire.out == old(wire.out) + h.out
    {
      v := Go;
      if id !in streams {
        AbortStream(id, REASON_BUSY);
      } else {
        var ok := streams[id].PushData(payload);
        if !ok {
          v := Kill;
        }
      }
    }

    method HandleFin(id: u32)
      requires Valid()
      modifies this`streams, if id in streams then {streams[id]} else {}
      ensures Valid() && Table() == Handle(wire.cfg, wire.closed, true, old(Table()), Fin(id)).table
    {
      if id in streams {
        var both := streams[id].RemoteClosed();
        if both {
          RemoveStream(id);
        }
      }
    }

    method HandleWin(id: u32, credit: u32)
      requires Valid()
      modifies if id in streams then {streams[id]} else {}
      ensures Valid() && Table() == Handle(wire.cfg, wire.closed, true, old(Table()), Win(id, credit)).table
    {
      if id in streams {
        streams[id].AddSendWindow(credit);
      }
    }

    /** One inbound frame changes table, channel and accept queue exactly as `Handle` says. */
    method HandleFrame(m: Msg) returns (v: Verdict)
      requires Valid()
      modifies this`streams, this`acceptCh, wire`out, streams.Values
      ensures Valid()
      ensures var h := Handle(wire.cfg, wire.closed, |old(acceptCh)| < wire.cfg.depth, old(Table()), m);
              && Table() == h.table && wire.out == old(wire.out) + h.out && v == h.verdict
              && |acceptCh| == |old(acceptCh)| + (if h.queued then 1 else 0) && old(acceptCh) <= acceptCh
    {
      hide T.Parse, CanWrite, S.Push;
      v := Go;
      match m {
        case Syn(id, block) =>
          HandleSyn(id, block);
        case Data(id, payload) =>
          v := HandleData(id, payload);
        case Fin(id) =>
          HandleFin(id);
        case Rst(id, _) =>
          ResetStream(id);
        case Win(id, credit) =>
          HandleWin(id, credit);
        case Ping(p) =>
          var ok := wire.WriteFrame(Pong(p));
          if !ok {
            v := Kill;
          }
        case Pong(_) =>
        case GoAway(_) =>
          v := Leave;
        case NoFlag =>
          v := Kill;
      }
    }

    /** Wakes every stream of the table with the session's end, then empties the table. */
    method Sweep()
      requires Valid()
      modifies this`streams, streams.Values`sclosed, streams.Values`broadcasts
      ensures Valid() && streams == map[]
      ensures forall id :: id in old(streams) ==> old(streams)[id].sclosed
    {
      var left := streams.Keys;
      while left != {}
        modifies streams.Values`sclosed, streams.Values`broadcasts
        invariant left <= streams.Keys
        invariant forall id :: id in streams && id !in left ==> streams[id].sclosed
        decreases |left|
      {
        var id :| id in left;
        streams[id].SessionClosed();
        left := left - {id};
      }
      streams := map[];
    }

    /** GOAWAY, the flag, and every stream of the table woken; only the first call does anything. */
    method CloseWithError(reason: byte)
      requires Valid()
      modifies this`streams, this`shut, wire, streams.Values
      ensures Valid() && shut && (old(shut) ==> streams == old(streams) && wire.out == old(wire.out) && wire.closed == old(wire.closed))
      ensures !old(shut) ==> wire.closed && streams == map[] && wire.out == old(wire.out) + Reply(wire.cfg, old(wire.closed), GoAway(reason))
      ensures !old(shut) ==> forall id :: id in old(streams) ==> old(streams)[id].View() == S.MarkSessionClosed(old(streams[id].View()))
    {
      if shut {
        return;
      }
      shut := true;
      var _ := wire.WriteFrame(GoAway(reason));
      wire.closed := true;
      Sweep();
    }
  }

  // ----- The objects and the step system agree -----

  /** The table of a session of the step system: for each key the youngest object. */
  function TableIn(objs: map<u32, seq<MuxSession.Stream>>, live: set<u32>): map<u32, Core> {
    map id | id in live && id in objs && objs[id] != [] :: objs[id][|objs[id]| - 1].core
  }

  function TableOf(s: MuxSession.Session): map<u32, Core> {
    TableIn(s.objs, s.live)
  }

  /** Lets the receive loop finish with the frame it has, undisturbed; three steps are enough. */
  function Settle(o: Outcome, steps: nat): Outcome
    decreases steps
  {
    if steps == 0 then o
    else
      match LoopStepStep(o.s)
      case None => o
      case Some(p) => Settle(Outcome(p.s, o.out + p.out), steps - 1)
  }

  /** Every key of the table has an object. */
  predicate Backed(s: MuxSession.Session) {
    forall id :: id in s.live ==> HasObj(s, Latest(s, id))
  }

  /** What `Handle` computes, against a session that has settled. */
  predicate Agrees(h: Handled, s: MuxSession.Session, o: Outcome) {
    && TableOf(o.s) == h.table && o.out == h.out
    && (h.verdict == Go <==> o.s.loop == Ready) && (h.verdict != Go ==> o.s.loop == Stopped)
    && |o.s.acceptQ| == |s.acceptQ| + (if h.queued then 1 else 0)
  }

  /** A registered stream is queued, or refused with RST and taken out again. */
  lemma OfferAgrees(s: MuxSession.Session, st: MuxSession.Stream, id: u32)
    requires s.loop == Ready && Backed(s) && !InTable(s, id)
    ensures var t := Register(s, id, st); var o := Settle(Outcome(t.(loop := Offering(Latest(t, id))), []), 3);
            && o.s.loop == Ready
            && (|s.acceptQ| < s.cfg.depth ==> o.s == t.(acceptQ := s.acceptQ + [Latest(t, id)]) && o.out == [])
            && (|s.acceptQ| >= s.cfg.depth ==>
                  o.s.live == s.live && o.s.acceptQ == s.acceptQ && o.out == Reply(s.cfg, s.closed, Rst(id, REASON_BUSY))
                  && o.s.objs == SetCore(Unregister(t, id), Latest(t, id), S.MarkReset(st.core)).objs)
  {
    hide CanWrite;
    var t := Register(s, id, st);
    var key := Latest(t, id);
    var t0 := t.(loop := Offering(key));
    assert HasObj(t, key) && Obj(t, key) == st && InTable(t0, id) && Latest(t0, id) == key;
    if |s.acceptQ| >= s.cfg.depth {
      var t1 := Unregister(t0, id).(loop := Resetting(key, true));
      assert LoopStepStep(t0) == Quiet(t1);
      var t2 := SetCore(t1, key, S.MarkReset(st.core)).(loop := Putting(Rst(id, REASON_BUSY)));
      assert LoopStepStep(t1) == Quiet(t2);
      assert s.live + {id} - {id} == s.live;
    }
  }

  lemma SynAgrees(s: MuxSession.Session, id: u32, block: seq<byte>)
    requires s.loop == Ready && Backed(s)
    ensures Agrees(Handle(s.cfg, s.closed, |s.acceptQ| < s.cfg.depth, TableOf(s), Syn(id, block)), s, Settle(RecvSyn(s, id, block).value, 3))
  {
    hide T.Parse, CanWrite, TableIn;
    Keys(s, id);
    var o := RecvSyn(s, id, block).value;
    if T.Parse(block).Ok? && !InTable(s, id) {
      var st := NewStream(T.Parse(block).value, s.cfg.window, Queued);
      OfferAgrees(s, st, id);
      RegisterTable(s, st, id);
      RefusedTable(s, st, id, S.MarkReset(st.core));
      hide Settle, LoopStepStep;
    } else {
      SettledNext(o, LoopStepStep(o.s).value, 3);
      hide Settle;
    }
  }

  // ----- Changes of the table -----

  lemma Keys(s: MuxSession.Session, id: u32)
    requires Backed(s)
    ensures id in TableOf(s) <==> InTable(s, id)
    ensures InTable(s, id) ==> TableOf(s)[id] == Obj(s, Latest(s, id)).core
    ensures InTable(s, id) <==> id in s.live
  {
  }

  lemma RegisterTable(s: MuxSession.Session, st: MuxSession.Stream, id: u32)
    requires Backed(s) && !InTable(s, id)
    ensures TableOf(Register(s, id, st)) == TableOf(s)[id := st.core]
  {
  }

  /** Objects outside the table do not matter. */
  lemma OutsideTable(objs: map<u32, seq<MuxSession.Stream>>, live: set<u32>, id: u32, sts: seq<MuxSession.Stream>)
    requires id !in live
    ensures TableIn(objs[id := sts], live) == TableIn(objs, live)
  {
  }

  /** A change of the youngest stream of an id in the table shows under that id alone. */
  lemma InsideTable(objs: map<u32, seq<MuxSession.Stream>>, live: set<u32>, id: u32, sts: seq<MuxSession.Stream>)
    requires id in live && sts != []
    ensures TableIn(objs[id := sts], live) == TableIn(objs, live)[id := sts[|sts| - 1].core]
  {
  }

  /** Registered, reset and taken out again, a stream leaves the table as it was. */
  lemma RefusedTable(s: MuxSession.Session, st: MuxSession.Stream, id: u32, c: Core)
    requires Backed(s) && !InTable(s, id)
    ensures var t := Register(s, id, st); TableIn(SetCore(Unregister(t, id), Latest(t, id), c).objs, s.live) == TableOf(s)
  {
    var t := Register(s, id, st);
    var u := SetCore(Unregister(t, id), Latest(t, id), c);
    assert u.objs == s.objs[id := u.objs[id]];
    OutsideTable(s.objs, s.live, id, u.objs[id]);
  }

  lemma CoreTable(s: MuxSession.Session, id: u32, c: Core)
    requires Backed(s) && InTable(s, id)
    ensures TableOf(SetCore(s, Latest(s, id), c)) == TableOf(s)[id := c]
    ensures TableIn(SetCore(s, Latest(s, id), c).objs, s.live - {id}) == TableOf(s) - {id}
  {
    var u := SetCore(s, Latest(s, id), c);
    assert u.objs == s.objs[id := u.objs[id]];
    InsideTable(s.objs, s.live, id, u.objs[id]);
    OutsideTable(s.objs, s.live - {id}, id, u.objs[id]);
    GoneTable(s, id);
    hide TableIn;
  }

  lemma GoneTable(s: MuxSession.Session, id: u32)
    ensures TableIn(s.objs, s.live - {id}) == TableOf(s) - {id}
  {
  }

  /** Nothing is left to do. */
  lemma Settled(o: Outcome, steps: nat)
    requires o.s.loop == Ready || o.s.loop == Stopped
    ensures Settle(o, steps) == o
  {
  }

  /** One step was left to do. */
  lemma SettledNext(o: Outcome, p: Outcome, steps: nat)
    requires LoopStepStep(o.s) == Some(p) && (p.s.loop == Ready || p.s.loop == Stopped) && 0 < steps
    ensures Settle(o, steps) == Outcome(p.s, o.out + p.out)
  {
    hide LoopStepStep;
    Settled(Outcome(p.s, o.out + p.out), steps - 1);
  }

  lemma DataAgrees(s: MuxSession.Session, id: u32, payload: seq<byte>)
    requires s.loop == Ready && Backed(s)
    ensures Agrees(Handle(s.cfg, s.closed, |s.acceptQ| < s.cfg.depth, TableOf(s), Data(id, payload)), s, Settle(RecvStep(s, Data(id, payload)).value, 3))
  {
    hide CanWrite, Settle, TableIn;
    Keys(s, id);
    var o := RecvStep(s, Data(id, payload)).value;
    if InTable(s, id) {
      Settled(o, 3);
      var r := S.Push(Obj(s, Latest(s, id)).core, payload, s.cfg.window);
      if r.Some? {
        CoreTable(s, id, r.value);
      }
    } else {
      SettledNext(o, LoopStepStep(o.s).value, 3);
    }
  }

  lemma FinAgrees(s: MuxSession.Session, id: u32)
    requires s.loop == Ready && Backed(s)
    ensures Agrees(Handle(s.cfg, s.closed, |s.acceptQ| < s.cfg.depth, TableOf(s), Fin(id)), s, Settle(RecvStep(s, Fin(id)).value, 3))
  {
    hide CanWrite, Settle, TableIn, Backed;
    Keys(s, id);
    var o := RecvStep(s, Fin(id)).value;
    if InTable(s, id) {
      CoreTable(s, id, S.MarkFinRecv(Obj(s, Latest(s, id)).core));
    }
    if o.s.loop.Removing? {
      SettledNext(o, LoopStepStep(o.s).value, 3);
    } else {
      Settled(o, 3);
    }
  }

  lemma RstAgrees(s: MuxSession.Session, id: u32, reason: byte)
    requires s.loop == Ready && Backed(s)
    ensures Agrees(Handle(s.cfg, s.closed, |s.acceptQ| < s.cfg.depth, TableOf(s), Rst(id, reason)), s, Settle(RecvStep(s, Rst(id, reason)).value, 3))
  {
    hide CanWrite, Settle, TableIn, Backed;
    Keys(s, id);
    var o := RecvStep(s, Rst(id, reason)).value;
    GoneTable(s, id);
    if InTable(s, id) {
      CoreTable(s, id, S.MarkReset(Obj(s, Latest(s, id)).core));
      SettledNext(o, LoopStepStep(o.s).value, 3);
    } else {
      assert TableOf(s) - {id} == TableOf(s);
      Settled(o, 3);
    }
  }

  lemma WinAgrees(s: MuxSession.Session, id: u32, credit: u32)
    requires s.loop == Ready && Backed(s)
    ensures Agrees(Handle(s.cfg, s.closed, |s.acceptQ| < s.cfg.depth, TableOf(s), Win(id, credit)), s, Settle(RecvStep(s, Win(id, credit)).value, 3))
  {
    hide CanWrite, Settle, TableIn, Backed;
    Keys(s, id);
    var o := RecvStep(s, Win(id, credit)).value;
    Settled(o, 3);
    if InTable(s, id) {
      CoreTable(s, id, S.AddWindow(Obj(s, Latest(s, id)).core, credit));
    }
  }

  lemma ControlFrameAgrees(s: MuxSession.Session, m: Msg)
    requires s.loop == Ready && (m.Ping? || m.Pong? || m.GoAway? || m.NoFlag?)
    ensures Agrees(Handle(s.cfg, s.closed, |s.acceptQ| < s.cfg.depth, TableOf(s), m), s, Settle(RecvStep(s, m).value, 3))
  {
    hide CanWrite, Settle, TableIn, Backed;
    var o := RecvStep(s, m).value;
    if m.Ping? {
      SettledNext(o, LoopStepStep(o.s).value, 3);
    } else {
      Settled(o, 3);
    }
  }

  /**
   * Handling a frame in one go is what the step system does when nothing comes between its steps:
   * same table, same answer, and the receive loop goes on in the same cases.
   */
  lemma {:induction false} HandleIsUndisturbedSteps(s: MuxSession.Session, m: Msg)
    requires s.loop == Ready && Backed(s)
    ensures RecvStep(s, m).Some?
    ensures Agrees(Handle(s.cfg, s.closed, |s.acceptQ| < s.cfg.depth, TableOf(s), m), s, Settle(RecvStep(s, m).value, 3))
  {
    hide Agrees, Handle, Settle;
    if m.Syn? {
      SynAgrees(s, m.id, m.block);
    } else if m.Data? {
      DataAgrees(s, m.id, m.payload);
    } else if m.Fin? {
      FinAgrees(s, m.id);
    } else if m.Rst? {
      RstAgrees(s, m.id, m.reason);
    } else if m.Win? {
      WinAgrees(s, m.id, m.credit);
    } else {
      ControlFrameAgrees(s, m);
    }
  }
}
