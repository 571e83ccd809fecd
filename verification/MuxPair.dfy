/** Every step keeps the invariant of every stream: the steps of the caller threads. */
module MuxPair {
  import opened Bytes
  import opened MuxStream
  import opened MuxSession
  import opened MuxChannel
  import opened MuxNet
  import O = MuxOrphan
  import T = TargetCodec

  function After(me: End, r: StreamOut): End {
    me.(obj := Some(r.st), live := me.live && !r.drop)
  }

  // ----- Each part of the invariant under the steps of a user of the stream -----

  /** Calls of a user: everything but the three steps inside `Open`. */
  predicate IsUserCall(e: Event) {
    IsCall(e) && !e.OpenPut? && !e.OpenUndo?
  }

  /** The frames a user call writes all carry the stream's id and are DATA, WIN or FIN. */
  predicate UserFrames(out: seq<Msg>, id: u32) {
    |out| <= 1 && (out != [] ==> On(out[0], id) && !out[0].Syn? && !out[0].Rst?)
  }

  lemma ReadOk(c: Config, closed: bool, st: Stream, cap: nat)
    requires ReadStep(st, cap).Some? && StreamOk(st, closed, c) && c.window < U32 && |st.core.buf| <= c.window
    ensures StreamOk(ReadStep(st, cap).value.st, closed, c)
  {
    if st.core.buf != [] {
      DrainSplitsBuffer(st.core, cap);
    }
  }

  lemma WriteReserveOk(c: Config, closed: bool, st: Stream)
    requires WriteReserveStep(c, st).Some? && StreamOk(st, closed, c) && 0 < c.maxPayload
    ensures StreamOk(WriteReserveStep(c, st).value.st, closed, c)
  {
  }

  lemma StreamStepOk(c: Config, closed: bool, st: Stream, e: Event)
    requires IsCall(e) && StreamStep(c, closed, st, e).Some? && StreamOk(st, closed, c)
    requires c.window < U32 && 0 < c.maxPayload && |st.core.buf| <= c.window
    ensures var r := StreamStep(c, closed, st, e).value; StreamOk(r.st, closed, c)
  {
    hide CanWrite, T.Encode, ReadStep, WriteReserveStep;
    if e.Read? {
      ReadOk(c, closed, st, e.cap);
    } else if e.WriteReserve? {
      WriteReserveOk(c, closed, st);
    }
  }

  /** What no user call touches. */
  lemma UserCallFrame(c: Config, closed: bool, st: Stream, e: Event)
    requires IsUserCall(e) && StreamStep(c, closed, st, e).Some? && StreamOk(st, closed, c)
    ensures var r := StreamStep(c, closed, st, e).value;
            && InUse(st) && r.st.origin == st.origin
            && r.st.core.finRecv == st.core.finRecv && r.st.core.reset == st.core.reset
            && (NotHeard(st) ==> NotHeard(r.st))
            && UserFrames(r.out, e.key.id)
  {
    hide CanWrite, T.Encode;
  }

  /** Out of that, the shape of the pair survives. */
  lemma UserCallKeepsShape(me: End, peer: End, out: seq<Msg>, inn: seq<Msg>, id: u32, opener: bool, r: StreamOut)
    requires me.obj.Some? && Shape(me, peer, out, inn, id, opener)
    requires InUse(me.obj.value) && r.st.origin == me.obj.value.origin
    requires r.st.core.finRecv == me.obj.value.core.finRecv && r.st.core.reset == me.obj.value.core.reset
    requires NotHeard(me.obj.value) ==> NotHeard(r.st)
    requires UserFrames(r.out, id)
    ensures Shape(After(me, r), peer, out + r.out, inn, id, opener)
  {
    if r.out == [] {
      assert out + r.out == out;
    } else {
      if SynLeads(out, id) {
        SynLeadsHasSyn(out, id);
      }
      Append(out, r.out[0], id);
      assert out + r.out == out + [r.out[0]];
    }
  }

  // ----- Flow -----

  lemma BufferBound(me: End, peer: End, out: seq<Msg>, inn: seq<Msg>, id: u32, c: Config)
    requires EndOk(peer, c) && Flow(peer, me, inn, out, id, c.window)
    ensures |Buf(me)| + Pending(me) + |DataOf(inn, id)| <= c.window
  {
  }

  lemma WriteReserveKeepsFlow(me: End, peer: End, out: seq<Msg>, inn: seq<Msg>, id: u32, c: Config)
    requires me.obj.Some? && Flow(me, peer, out, inn, id, c.window) && Flow(peer, me, inn, out, id, c.window)
    requires WriteReserveStep(c, me.obj.value).Some?
    ensures var r := WriteReserveStep(c, me.obj.value).value; var n := After(me, r);
            Flow(n, peer, out + r.out, inn, id, c.window) && Flow(peer, n, inn, out + r.out, id, c.window)
  {
    assert out + [] == out;
  }

  lemma WritePutKeepsFlow(me: End, peer: End, out: seq<Msg>, inn: seq<Msg>, id: u32, c: Config)
    requires me.obj.Some? && Flow(me, peer, out, inn, id, c.window) && Flow(peer, me, inn, out, id, c.window)
    requires WritePutStep(c, me.closed, id, me.obj.value).Some? && InUse(me.obj.value) && StreamOk(me.obj.value, me.closed, c)
    ensures var r := WritePutStep(c, me.closed, id, me.obj.value).value; var n := After(me, r);
            Flow(n, peer, out + r.out, inn, id, c.window) && Flow(peer, n, inn, out + r.out, id, c.window)
  {
    var st := me.obj.value;
    var chunk := st.writer.chunk;
    if SynLeads(out, id) {
      SynLeadsHasSyn(out, id);
    }
    if CanWrite(c, me.closed, Data(id, chunk)) {
      Append(out, Data(id, chunk), id);
      var got := Delivered(peer) + Buf(peer);
      assert got + (DataOf(out, id) + chunk) == (got + DataOf(out, id)) + chunk;
      assert got <= st.framed + chunk;
    } else {
      assert out + [] == out;
    }
  }

  /** Moving bytes from the buffer to the reader, or nothing at all, leaves both directions as they are. */
  lemma MoveKeepsFlow(me: End, n: End, peer: End, out: seq<Msg>, inn: seq<Msg>, id: u32, c: Config)
    requires Flow(me, peer, out, inn, id, c.window) && Flow(peer, me, inn, out, id, c.window)
    requires me.obj.Some? && n == me.(obj := n.obj, live := n.live) && n.obj.Some? && (n.live ==> me.live)
    requires Delivered(n) + Buf(n) == Delivered(me) + Buf(me) && |Buf(n)| + Pending(n) == |Buf(me)| + Pending(me)
    requires (Delivered(me) == [] ==> Delivered(n) == [] || Buf(me) != [])
    requires n.obj.value.core.sendWin == me.obj.value.core.sendWin && n.obj.value.origin == me.obj.value.origin
    requires Reserved(n.obj.value) == Reserved(me.obj.value) && n.obj.value.framed == me.obj.value.framed
    ensures Flow(n, peer, out, inn, id, c.window) && Flow(peer, n, inn, out, id, c.window)
  {
  }

  lemma ReadKeepsFlow(me: End, peer: End, out: seq<Msg>, inn: seq<Msg>, id: u32, c: Config, cap: nat)
    requires me.obj.Some? && Flow(me, peer, out, inn, id, c.window) && Flow(peer, me, inn, out, id, c.window)
    requires ReadStep(me.obj.value, cap).Some? && EndOk(me, c) && EndOk(peer, c) && c.window < U32
    ensures var r := ReadStep(me.obj.value, cap).value; var n := After(me, r);
            Flow(n, peer, out + r.out, inn, id, c.window) && Flow(peer, n, inn, out + r.out, id, c.window)
  {
    var st := me.obj.value;
    var r := ReadStep(st, cap).value;
    hide Flow;
    assert out + [] == out;
    if st.core.buf != [] {
      BufferBound(me, peer, out, inn, id, c);
      ReadMovesBytes(st, cap);
    }
    hide ReadStep;
    MoveKeepsFlow(me, After(me, r), peer, out, inn, id, c);
  }

  /** A read moves bytes from the buffer to the reader and owes their number as credit. */
  lemma ReadMovesBytes(st: Stream, cap: nat)
    requires ReadStep(st, cap).Some? && st.core.recvUnacked == 0 && 0 < |st.core.buf| < U32
    ensures var r := ReadStep(st, cap).value; var t := r.st;
            && t.delivered + t.core.buf == st.delivered + st.core.buf
            && t.reader.RPut? && t.reader.credit + |t.core.buf| == |st.core.buf| && st.reader == RIdle
            && t == st.(core := t.core, reader := t.reader, delivered := t.delivered)
            && t.core == st.core.(buf := t.core.buf) && r.out == [] && !r.drop
  {
    DrainSplitsBuffer(st.core, cap);
  }

  lemma WinPutKeepsCredit(me: End, n: End, peer: End, out: seq<Msg>, inn: seq<Msg>, id: u32, c: Config)
    requires Credit(me, peer, out, inn, id, c.window) && Credit(peer, me, inn, out, id, c.window)
    requires EndOk(peer, c) && me.obj.Some? && n == me.(obj := Some(me.obj.value.(reader := RIdle)))
    requires 0 < Pending(me) < U32
    ensures var o := if me.closed then out else out + [Win(id, Pending(me))];
            Credit(n, peer, o, inn, id, c.window) && Credit(peer, n, inn, o, id, c.window)
  {
    if SynLeads(out, id) {
      SynLeadsHasSyn(out, id);
    }
    Append(out, Win(id, Pending(me)), id);
  }

  lemma WinPutKeepsOrder(me: End, n: End, peer: End, out: seq<Msg>, inn: seq<Msg>, id: u32)
    requires Order(me, peer, out, id) && Order(peer, me, inn, id)
    requires me.obj.Some? && n == me.(obj := Some(me.obj.value.(reader := RIdle))) && Pending(me) < U32
    ensures var o := if me.closed then out else out + [Win(id, Pending(me))];
            Order(n, peer, o, id) && Order(peer, n, inn, id)
  {
    if SynLeads(out, id) {
      SynLeadsHasSyn(out, id);
    }
    Append(out, Win(id, Pending(me)), id);
  }

  lemma ReadPutKeepsFlow(me: End, peer: End, out: seq<Msg>, inn: seq<Msg>, id: u32, c: Config)
    requires me.obj.Some? && Flow(me, peer, out, inn, id, c.window) && Flow(peer, me, inn, out, id, c.window)
    requires ReadPutStep(c, me.closed, id, me.obj.value).Some?
    requires EndOk(me, c) && EndOk(peer, c) && c.window < U32 && 260 <= c.maxPayload
    ensures var r := ReadPutStep(c, me.closed, id, me.obj.value).value; var n := After(me, r);
            Flow(n, peer, out + r.out, inn, id, c.window) && Flow(peer, n, inn, out + r.out, id, c.window)
  {
    BufferBound(me, peer, out, inn, id, c);
    var r := ReadPutStep(c, me.closed, id, me.obj.value).value;
    hide Credit, Order;
    assert Size(Win(id, Pending(me))) == 4;
    assert out + [] == out;
    WinPutKeepsCredit(me, After(me, r), peer, out, inn, id, c);
    WinPutKeepsOrder(me, After(me, r), peer, out, inn, id);
  }

  lemma FinPutKeepsFlow(me: End, peer: End, out: seq<Msg>, inn: seq<Msg>, id: u32, c: Config)
    requires Flow(me, peer, out, inn, id, c.window) && Flow(peer, me, inn, out, id, c.window)
    ensures Flow(me, peer, out + [Fin(id)], inn, id, c.window) && Flow(peer, me, inn, out + [Fin(id)], id, c.window)
  {
    if SynLeads(out, id) {
      SynLeadsHasSyn(out, id);
    }
    Append(out, Fin(id), id);
  }

  lemma ClosePutKeepsFlow(me: End, peer: End, out: seq<Msg>, inn: seq<Msg>, id: u32, c: Config)
    requires me.obj.Some? && Flow(me, peer, out, inn, id, c.window) && Flow(peer, me, inn, out, id, c.window)
    requires ClosePutStep(c, me.closed, id, me.obj.value).Some?
    ensures var r := ClosePutStep(c, me.closed, id, me.obj.value).value; var n := After(me, r);
            Flow(n, peer, out + r.out, inn, id, c.window) && Flow(peer, n, inn, out + r.out, id, c.window)
  {
    hide CanWrite, Flow;
    var r := ClosePutStep(c, me.closed, id, me.obj.value).value;
    FinPutKeepsFlow(me, peer, out, inn, id, c);
    assert out + [] == out;
    MoveKeepsFlow(me, After(me, r), peer, out + r.out, inn, id, c);
  }

  lemma UserCallKeepsFlow(me: End, peer: End, out: seq<Msg>, inn: seq<Msg>, id: u32, opener: bool, c: Config, e: Event)
    requires Pair(me, peer, out, inn, id, opener, c) && me.obj.Some? && 260 <= c.maxPayload
    requires IsUserCall(e) && e.key.id == id && StreamStep(c, me.closed, me.obj.value, e).Some?
    ensures var r := StreamStep(c, me.closed, me.obj.value, e).value; var n := After(me, r);
            Flow(n, peer, out + r.out, inn, id, c.window) && Flow(peer, n, inn, out + r.out, id, c.window)
  {
    hide Shape, Flow, CanWrite, WriteReserveStep, WritePutStep, ReadStep, ReadPutStep, ClosePutStep;
    var r := StreamStep(c, me.closed, me.obj.value, e).value;
    if e.WriteReserve? {
      WriteReserveKeepsFlow(me, peer, out, inn, id, c);
    } else if e.WritePut? {
      UserCallFrame(c, me.closed, me.obj.value, e);
      WritePutKeepsFlow(me, peer, out, inn, id, c);
    } else if e.Read? {
      ReadKeepsFlow(me, peer, out, inn, id, c, e.cap);
    } else if e.ReadPut? {
      ReadPutKeepsFlow(me, peer, out, inn, id, c);
    } else if e.ClosePut? {
      ClosePutKeepsFlow(me, peer, out, inn, id, c);
    } else {
      assert out + r.out == out;
      MoveKeepsFlow(me, After(me, r), peer, out, inn, id, c);
    }
  }

  lemma UserCallKeepsEnd(me: End, id: u32, c: Config, e: Event)
    requires EndOk(me, c) && me.obj.Some? && |Buf(me)| <= c.window && 260 <= c.maxPayload
    requires IsUserCall(e) && e.key.id == id && StreamStep(c, me.closed, me.obj.value, e).Some?
    ensures EndOk(After(me, StreamStep(c, me.closed, me.obj.value, e).value), c)
  {
    hide StreamStep, StreamOk;
    StreamStepOk(c, me.closed, me.obj.value, e);
    UserCallFrame(c, me.closed, me.obj.value, e);
    O.StreamStepGrows(c, me.closed, me.obj.value, e);
  }

  lemma UserCallKeepsPair(me: End, peer: End, out: seq<Msg>, inn: seq<Msg>, id: u32, opener: bool, c: Config, e: Event)
    requires Pair(me, peer, out, inn, id, opener, c) && me.obj.Some? && 260 <= c.maxPayload
    requires IsUserCall(e) && e.key.id == id && StreamStep(c, me.closed, me.obj.value, e).Some?
    ensures var r := StreamStep(c, me.closed, me.obj.value, e).value;
            Pair(After(me, r), peer, out + r.out, inn, id, opener, c)
  {
    hide Shape, Flow, StreamStep, EndOk;
    UserCallKeepsFlow(me, peer, out, inn, id, opener, c, e);
    BufferBound(me, peer, out, inn, id, c);
    UserCallKeepsEnd(me, id, c, e);
    EndStreamOk(me, c);
    UserCallFrame(c, me.closed, me.obj.value, e);
    UserCallKeepsShape(me, peer, out, inn, id, opener, StreamStep(c, me.closed, me.obj.value, e).value);
  }

  lemma EndStreamOk(me: End, c: Config)
    requires EndOk(me, c) && me.obj.Some?
    ensures StreamOk(me.obj.value, me.closed, c)
  {
  }

  // ----- Inside Open -----

  /** The SYN is written: from now on the far end is expected. */
  lemma SynPutKeepsPair(me: End, peer: End, out: seq<Msg>, inn: seq<Msg>, id: u32, opener: bool, c: Config, block: seq<byte>)
    requires Pair(me, peer, out, inn, id, opener, c) && me.obj.Some? && me.obj.value.origin == Dialing
    ensures Pair(me.(obj := Some(me.obj.value.(origin := Dialed))), peer, out + [Syn(id, block)], inn, id, opener, c)
  {
    SilentChannel(out, id);
    Append(out, Syn(id, block), id);
    hide Any, HasSyn, HasRst, HasFin, SynLeads, DataOf, CreditOf;
  }

  /** The SYN could not be written: only the origin changes. */
  lemma UndoingKeepsPair(me: End, peer: End, out: seq<Msg>, inn: seq<Msg>, id: u32, opener: bool, c: Config)
    requires Pair(me, peer, out, inn, id, opener, c) && me.obj.Some? && me.obj.value.origin == Dialing
    ensures Pair(me.(obj := Some(me.obj.value.(origin := Undoing))), peer, out, inn, id, opener, c)
  {
    hide DataOf, CreditOf, HasSyn, HasFin, HasRst, SynLeads, Any;
  }

  lemma OpenPutKeepsPair(me: End, peer: End, out: seq<Msg>, inn: seq<Msg>, id: u32, opener: bool, c: Config)
    requires Pair(me, peer, out, inn, id, opener, c) && me.obj.Some?
    requires OpenPutStep(c, me.closed, id, me.obj.value).Some?
    ensures var r := OpenPutStep(c, me.closed, id, me.obj.value).value;
            Pair(After(me, r), peer, out + r.out, inn, id, opener, c)
  {
    hide T.Encode, CanWrite;
    var st := me.obj.value;
    var r := OpenPutStep(c, me.closed, id, st).value;
    if r.out == [] {
      assert out + r.out == out;
      UndoingKeepsPair(me, peer, out, inn, id, opener, c);
    } else {
      hide Pair;
      SynPutKeepsPair(me, peer, out, inn, id, opener, c, T.Encode(st.target));
    }
  }

  lemma OpenUndoKeepsPair(me: End, peer: End, out: seq<Msg>, inn: seq<Msg>, id: u32, opener: bool, c: Config)
    requires Pair(me, peer, out, inn, id, opener, c) && me.obj.Some?
    requires OpenUndoStep(me.obj.value).Some?
    ensures Pair(After(me, OpenUndoStep(me.obj.value).value), peer, out, inn, id, opener, c)
  {
  }

  /** A new stream object of our own: the whole window is free. */
  lemma OpenKeepsPair(me: End, peer: End, out: seq<Msg>, inn: seq<Msg>, id: u32, c: Config, target: T.Target)
    requires Pair(me, peer, out, inn, id, true, c) && me.obj.None?
    ensures Pair(me.(obj := Some(NewStream(target, c.window, Dialing)), live := true), peer, out, inn, id, true, c)
  {
    SilentChannel(out, id);
    SilentChannel(inn, id);
  }
}
