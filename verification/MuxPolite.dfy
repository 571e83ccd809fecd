/**
 * Exact end of file. When no caller writes during or after `Close`, and closes only between writes,
 * the bytes read are at every moment a prefix of the bytes written, and end of file is reported only
 * when all of them have been read.
 */
module MuxPolite {
  import opened Bytes
  import opened MuxStream
  import opened MuxSession
  import opened MuxChannel
  import opened MuxNet
  import opened MuxPair
  import opened MuxPairRecv
  import opened MuxMoves
  import opened MuxRun
  import O = MuxOrphan
  import T = TargetCodec

  // ----- The two rules a caller keeps -----

  predicate PoliteCall(st: Stream, e: Event) {
    && (e.Write? ==> st.closer == CIdle)
    && (e.Close? ==> st.writer == WIdle)
  }

  predicate PoliteAct(s: Session, act: Action) {
    act.Local? && IsCall(act.e) && HasObj(s, act.e.key) ==> PoliteCall(Obj(s, act.e.key), act.e)
  }

  predicate PoliteMove(n: Net, mv: Move) {
    PoliteAct(if mv.left then n.a else n.b, mv.act)
  }

  predicate MoveIsPolite(r: Run, i: nat)
    requires |r.states| == |r.moves| + 1 && i < |r.moves|
  {
    PoliteMove(r.states[i], r.moves[i])
  }

  /** Every step of the run keeps the rules. */
  predicate PoliteRun(r: Run)
    requires |r.states| == |r.moves| + 1
  {
    forall i :: 0 <= i < |r.moves| ==> MoveIsPolite(r, i)
  }

  // ----- The invariant of one direction -----

  /** Where the bytes given to `Write` are. */
  predicate WriterOk(st: Stream, closed: bool) {
    && (st.closer != CIdle ==> st.writer == WIdle)
    && st.framed <= st.written
    && (!closed ==>
          match st.writer
          case WIdle => st.core.reset || st.framed == st.written
          case WLoop(rest) => st.core.reset || st.framed + rest == st.written
          case WPut(chunk, rest) => st.framed + chunk + rest == st.written)
  }

  /** A FIN closes what was framed, and what was framed is everything unless it cannot be heard. */
  predicate FinOk(src: End, dst: End, sd: seq<Msg>, id: u32) {
    && FinLast(sd, id)
    && (HasFin(sd, id) || FinSeen(dst) ==> src.obj.Some? && src.obj.value.finPut)
    && (FinSeen(dst) ==> DataOf(sd, id) == [] && Delivered(dst) + Buf(dst) == src.obj.value.framed)
    && (src.obj.Some? && src.obj.value.finPut && src.obj.value.framed != src.obj.value.written ==>
          !CanHear(src, dst, sd, id) && !FinSeen(dst))
  }

  predicate HalfOk(src: End, dst: End, sd: seq<Msg>, id: u32) {
    (src.obj.Some? ==> WriterOk(src.obj.value, src.closed)) && FinOk(src, dst, sd, id)
  }

  predicate BothOk(v: View, peer: End, id: u32) {
    HalfOk(v.me, peer, v.out, id) && HalfOk(peer, v.me, v.inn, id)
  }

  // ----- Calls -----

  lemma ReserveKeepsWriter(c: Config, closed: bool, st: Stream)
    requires WriteReserveStep(c, st).Some? && StreamOk(st, closed, c) && WriterOk(st, closed)
    ensures var t := WriteReserveStep(c, st).value.st;
            WriterOk(t, closed) && t == st.(core := t.core, writer := t.writer) && WriteReserveStep(c, st).value.out == []
            && t.core == st.core.(sendWin := t.core.sendWin)
  {
    var rest := st.writer.rest;
    var n := Reserve(st.core, |rest|, c.maxPayload).0;
    if n.Granted? {
      assert st.framed + rest[..n.n] + rest[n.n..] == st.framed + rest;
    }
  }

  lemma PutKeepsWriter(c: Config, closed: bool, id: u32, st: Stream)
    requires WritePutStep(c, closed, id, st).Some? && StreamOk(st, closed, c) && WriterOk(st, closed)
    ensures WriterOk(WritePutStep(c, closed, id, st).value.st, closed)
  {
  }

  lemma WriteKeepsWriter(closed: bool, st: Stream, p: seq<byte>)
    requires WriteStep(st, p).Some? && st.closer == CIdle && WriterOk(st, closed)
    ensures WriterOk(WriteStep(st, p).value.st, closed)
  {
  }

  lemma CallKeepsWriter(c: Config, closed: bool, st: Stream, e: Event)
    requires IsCall(e) && StreamStep(c, closed, st, e).Some? && StreamOk(st, closed, c)
    requires WriterOk(st, closed) && PoliteCall(st, e)
    ensures WriterOk(StreamStep(c, closed, st, e).value.st, closed)
  {
    hide CanWrite, T.Encode, WriteStep, WriteReserveStep, WritePutStep;
    if e.Write? {
      WriteKeepsWriter(closed, st, e.p);
    } else if e.WriteReserve? {
      ReserveKeepsWriter(c, closed, st);
    } else if e.WritePut? {
      PutKeepsWriter(c, closed, e.key.id, st);
    }
  }

  /** What a call means for the far end's view: its own FIN, its own frames. */
  lemma CallFins(c: Config, closed: bool, st: Stream, e: Event)
    requires IsCall(e) && StreamStep(c, closed, st, e).Some? && StreamOk(st, closed, c)
    requires WriterOk(st, closed) && PoliteCall(st, e)
    ensures var r := StreamStep(c, closed, st, e).value; var t := r.st;
            && (st.finPut ==> t.finPut && t.framed == st.framed && t.written == st.written)
            && (t.finPut && !st.finPut ==> e.ClosePut? && !closed && t.framed == st.framed && t.written == st.written && (st.core.reset || st.framed == st.written))
            && (r.out != [] && r.out[0].Fin? <==> t.finPut && !st.finPut)
            && (r.out != [] && r.out[0].Data? ==> !st.finPut)
            && (t.core.finRecv == st.core.finRecv)
  {
    hide Size, T.Encode, WriteReserveStep;
    if e.WriteReserve? {
      ReserveKeepsWriter(c, closed, st);
    }
  }

  /** A stream that was reset can no longer be heard by the far end. */
  lemma ResetIsUnheard(v: View, peer: End, id: u32, opener: bool, c: Config)
    requires PairIn(v, peer, id, opener, c) && v.me.obj.Some? && v.me.obj.value.core.reset && InUse(v.me.obj.value)
    ensures !CanHear(v.me, peer, v.out, id)
  {
    hide Flow;
  }

  lemma OwnEndOk(v: View, peer: End, id: u32, opener: bool, c: Config)
    requires PairIn(v, peer, id, opener, c)
    ensures v.me.obj.Some? ==> StreamOk(v.me.obj.value, v.me.closed, c)
  {
    hide Shape, Flow;
  }

  lemma CallKeepsFinOut(v: View, peer: End, e: Event, id: u32, opener: bool, c: Config)
    requires PairIn(v, peer, id, opener, c) && Can(v, Called(e), id, opener, c)
    requires BothOk(v, peer, id) && PoliteCall(v.me.obj.value, e)
    ensures var w := Next(v, Called(e), id, opener, c); FinOk(w.me, peer, w.out, id)
  {
    hide Pair, StreamStep, WriterOk, FinOk, StreamOk, CanHear;
    var st, closed := v.me.obj.value, v.me.closed;
    var r := StreamStep(c, closed, st, e).value;
    OwnEndOk(v, peer, id, opener, c);
    CallFins(c, closed, st, e);
    CallFrames(c, closed, st, e);
    CallOrigin(c, closed, st, e);
    if st.core.reset && InUse(st) {
      ResetIsUnheard(v, peer, id, opener, c);
    }
    if e.OpenPut? {
      OpenPutUnheard(v, peer, e, id, opener, c);
    }
    if r.out == [] {
      assert v.out + r.out == v.out;
      SilentKeepsFinOut(v.me, After(v.me, r), peer, v.out, id);
    } else {
      assert v.out + r.out == v.out + [r.out[0]];
      FrameKeepsFinOut(v.me, After(v.me, r), peer, v.out, r.out[0], e.OpenPut?, id);
    }
  }

  lemma SilentKeepsFinOut(me: End, w: End, peer: End, out: seq<Msg>, id: u32)
    requires FinOk(me, peer, out, id) && me.obj.Some? && w.obj.Some?
    requires var s, t := me.obj.value, w.obj.value;
             && (s.finPut ==> t.finPut && t.framed == s.framed && t.written == s.written)
             && s.finPut == t.finPut && (t.origin == Dialing ==> s.origin == Dialing)
    ensures FinOk(w, peer, out, id)
  {
    hide HasFin, DataOf, FinLast, SynLeads, Any, HasSyn;
  }

  /** A frame that goes out: DATA only before the FIN, a FIN only over everything that was framed. */
  lemma FrameKeepsFinOut(me: End, w: End, peer: End, out: seq<Msg>, m: Msg, first: bool, id: u32)
    requires FinOk(me, peer, out, id) && me.obj.Some? && w.obj.Some? && On(m, id)
    requires var s, t := me.obj.value, w.obj.value;
             && (s.finPut ==> t.finPut && t.framed == s.framed && t.written == s.written)
             && (m.Fin? <==> t.finPut && !s.finPut)
             && (m.Fin? ==> t.framed == s.framed && t.written == s.written && (!CanHear(me, peer, out, id) || s.framed == s.written))
             && (m.Data? ==> !s.finPut)
             && (t.origin == Dialing ==> s.origin == Dialing)
             && (m.Syn? ==> first) && (first ==> !s.finPut && !m.Fin?)
    ensures FinOk(w, peer, out + [m], id)
  {
    Append(out, m, id);
    hide HasFin, DataOf, FinLast, SynLeads, Any, HasSyn;
  }

  lemma CallOrigin(c: Config, closed: bool, st: Stream, e: Event)
    requires IsCall(e) && StreamStep(c, closed, st, e).Some? && StreamOk(st, closed, c)
    ensures var r := StreamStep(c, closed, st, e).value;
            && (r.st.origin == Dialing ==> st.origin == Dialing)
            && (r.out != [] && r.out[0].Syn? ==> e.OpenPut?)
            && (e.ClosePut? ==> InUse(st))
  {
    hide CanWrite, T.Encode;
  }

  /** Before the SYN nothing is on the stream. */
  lemma OpenPutUnheard(v: View, peer: End, e: Event, id: u32, opener: bool, c: Config)
    requires PairIn(v, peer, id, opener, c) && Can(v, Called(e), id, opener, c) && e.OpenPut?
    ensures !v.me.obj.value.finPut && !FinSeen(peer) && !HasFin(v.out, id) && DataOf(v.out, id) == []
  {
    SilentChannel(v.out, id);
  }

  lemma OwnBufferIsSmall(v: View, peer: End, id: u32, opener: bool, c: Config)
    requires PairIn(v, peer, id, opener, c)
    ensures |Buf(v.me)| < U32
  {
    hide Shape;
    BufferBound(v.me, peer, v.out, v.inn, id, c);
  }

  lemma CallKeepsFinIn(v: View, peer: End, e: Event, id: u32, opener: bool, c: Config)
    requires PairIn(v, peer, id, opener, c) && Can(v, Called(e), id, opener, c)
    requires FinOk(peer, v.me, v.inn, id)
    ensures var w := Next(v, Called(e), id, opener, c); FinOk(peer, w.me, w.inn, id)
  {
    hide PairIn, StreamStep, StreamOk, HasFin, DataOf, FinLast, SynLeads;
    OwnEndOk(v, peer, id, opener, c);
    OwnBufferIsSmall(v, peer, id, opener, c);
    CallMovesBytes(c, v.me.closed, v.me.obj.value, e);
  }

  /** No call changes what has arrived. */
  lemma CallMovesBytes(c: Config, closed: bool, st: Stream, e: Event)
    requires IsCall(e) && StreamStep(c, closed, st, e).Some? && StreamOk(st, closed, c) && |st.core.buf| < U32
    ensures var t := StreamStep(c, closed, st, e).value.st;
            t.delivered + t.core.buf == st.delivered + st.core.buf && t.core.finRecv == st.core.finRecv
  {
    hide CanWrite, T.Encode, ReadStep;
    if e.Read? {
      if st.core.buf != [] {
        ReadMovesBytes(st, e.cap);
      } else {
        EmptyRead(st, e.cap);
      }
    }
  }

  lemma EmptyRead(st: Stream, cap: nat)
    requires ReadStep(st, cap).Some? && st.core.buf == []
    ensures ReadStep(st, cap).value.st == st
  {
  }

  lemma CallKeepsBoth(v: View, peer: End, e: Event, id: u32, opener: bool, c: Config)
    requires PairIn(v, peer, id, opener, c) && Can(v, Called(e), id, opener, c)
    requires BothOk(v, peer, id) && PoliteCall(v.me.obj.value, e)
    ensures BothOk(Next(v, Called(e), id, opener, c), peer, id)
  {
    CallKeepsFinOut(v, peer, e, id, opener, c);
    CallKeepsFinIn(v, peer, e, id, opener, c);
    EndStreamOk(v.me, c);
    hide Pair, FinOk;
    CallKeepsWriter(c, v.me.closed, v.me.obj.value, e);
    hide StreamStep, WriterOk;
  }

  // ----- Frames that arrive -----

  /** The head is consumed and the far end's direction stays in order. */
  lemma HeadKeepsFinIn(v: View, peer: End, q: Cause, id: u32, opener: bool, c: Config)
    requires PairIn(v, peer, id, opener, c) && Can(v, q, id, opener, c) && Head(v, id) && FinOk(peer, v.me, v.inn, id)
    requires q.DataStray? || q.RstTaken? || q.WinTaken? || q.Dropped? || q.DataTaken? || q.SynRejected?
    ensures var w := Next(v, q, id, opener, c); FinOk(peer, w.me, w.inn, id)
  {
    hide Flow;
    if q.SynRejected? {
      SynFindsNothing(v.me, peer, v.out, v.inn, id, opener, c);
      if SynLeads(v.inn[1..], id) {
        SynLeadsHasSyn(v.inn[1..], id);
      }
    } else {
      NoSynBehind(v.me, peer, v.out, v.inn, id, opener);
    }
    hide Pair;
  }

  lemma FinKeepsFinIn(v: View, peer: End, q: Cause, id: u32, opener: bool, c: Config)
    requires PairIn(v, peer, id, opener, c) && Can(v, q, id, opener, c) && q.FinTaken? && FinOk(peer, v.me, v.inn, id)
    ensures var w := Next(v, q, id, opener, c); FinOk(peer, w.me, w.inn, id)
  {
    NoSynBehind(v.me, peer, v.out, v.inn, id, opener);
    assert DataOf(v.inn, id) == [];
  }

  lemma SynKeepsBoth(v: View, peer: End, q: Cause, id: u32, opener: bool, c: Config)
    requires PairIn(v, peer, id, opener, c) && Can(v, q, id, opener, c) && q.SynTaken? && BothOk(v, peer, id)
    ensures BothOk(Next(v, q, id, opener, c), peer, id)
  {
    SynFindsNothing(v.me, peer, v.out, v.inn, id, opener, c);
    SilentChannel(v.out, id);
    SynQuiet(v, peer, id, opener, c);
    hide Pair;
  }

  /** When the SYN arrives nothing has come back, and nothing arrived before it. */
  lemma SynQuiet(v: View, peer: End, id: u32, opener: bool, c: Config)
    requires PairIn(v, peer, id, opener, c) && Head(v, id) && v.inn[0].Syn?
    ensures !Any(v.out, id) && !FinSeen(peer) && v.me.obj.None? && SynLeads(v.inn, id) && peer.obj.Some?
  {
    SynFindsNothing(v.me, peer, v.out, v.inn, id, opener, c);
  }

  /** What was written, and where it stands, is not the concern of an arriving frame. */
  lemma HeadKeepsOut(v: View, peer: End, q: Cause, id: u32, opener: bool, c: Config)
    requires Can(v, q, id, opener, c) && Head(v, id) && BothOk(v, peer, id)
    requires q.SynRejected? || q.DataTaken? || q.DataStray? || q.FinTaken? || q.RstTaken? || q.WinTaken? || q.Dropped?
    ensures var w := Next(v, q, id, opener, c);
            (w.me.obj.Some? ==> WriterOk(w.me.obj.value, w.me.closed)) && FinOk(w.me, peer, w.out, id) && w.out == v.out
  {
    hide HasFin, DataOf, FinLast, SynLeads;
  }

  lemma HeadKeepsBoth(v: View, peer: End, q: Cause, id: u32, opener: bool, c: Config)
    requires PairIn(v, peer, id, opener, c) && Can(v, q, id, opener, c) && Head(v, id) && BothOk(v, peer, id)
    requires q.SynTaken? || q.SynRejected? || q.DataTaken? || q.DataStray? || q.FinTaken? || q.RstTaken? || q.WinTaken? || q.Dropped?
    ensures BothOk(Next(v, q, id, opener, c), peer, id)
  {
    if q.SynTaken? {
      SynKeepsBoth(v, peer, q, id, opener, c);
    } else {
      HeadKeepsOut(v, peer, q, id, opener, c);
      if q.FinTaken? {
        FinKeepsFinIn(v, peer, q, id, opener, c);
      } else {
        HeadKeepsFinIn(v, peer, q, id, opener, c);
      }
      hide Pair, FinOk, WriterOk, Can, Head;
    }
  }

  // ----- All other moves -----

  lemma SentKeepsBoth(v: View, peer: End, m: Msg, id: u32)
    requires BothOk(v, peer, id) && !On(m, id)
    ensures BothOk(v.(out := v.out + [m]), peer, id)
  {
    Append(v.out, m, id);
    hide WriterOk, HasFin, DataOf, FinLast, SynLeads, Any, HasSyn;
  }

  lemma SkippedKeepsBoth(v: View, peer: End, id: u32)
    requires BothOk(v, peer, id) && v.inn != [] && !On(v.inn[0], id)
    ensures BothOk(v.(inn := v.inn[1..]), peer, id)
  {
    SkipSummaries(v.inn, id);
    hide WriterOk, HasFin, DataOf, SynLeads, Any, HasSyn;
  }

  lemma OpenedKeepsBoth(v: View, peer: End, q: Cause, id: u32, opener: bool, c: Config)
    requires PairIn(v, peer, id, opener, c) && Can(v, q, id, opener, c) && q.Opened? && BothOk(v, peer, id)
    ensures BothOk(Next(v, q, id, opener, c), peer, id)
  {
    SilentChannel(v.out, id);
    SilentChannel(v.inn, id);
  }

  lemma RstPutKeepsBoth(v: View, peer: End, q: Cause, id: u32, opener: bool, c: Config)
    requires Can(v, q, id, opener, c) && q.RstPut? && BothOk(v, peer, id)
    ensures BothOk(Next(v, q, id, opener, c), peer, id)
  {
    Append(v.out, v.me.loop.m, id);
    hide WriterOk, HasFin, DataOf, FinLast, SynLeads, Any, HasSyn;
  }

  /** Moves that touch neither channel nor what was written and arrived. */
  lemma PlainKeepsBoth(v: View, peer: End, q: Cause, id: u32, opener: bool, c: Config)
    requires Can(v, q, id, opener, c) && BothOk(v, peer, id)
    requires q.Stay? || q.Offered? || q.Overflowed? || q.Retired? || q.ResetNow? || q.TakenUp? || q.FlaggedNow? || q.SweptNow?
    ensures BothOk(Next(v, q, id, opener, c), peer, id)
  {
    hide HasFin, DataOf, FinLast, SynLeads;
  }

  lemma MoveKeepsBoth(v: View, peer: End, q: Cause, id: u32, opener: bool, c: Config)
    requires PairIn(v, peer, id, opener, c) && Can(v, q, id, opener, c) && BothOk(v, peer, id)
    requires q.Called? ==> PoliteCall(v.me.obj.value, q.e)
    ensures BothOk(Next(v, q, id, opener, c), peer, id)
  {
    hide PairIn, BothOk;
    if q.Called? {
      CallKeepsBoth(v, peer, q.e, id, opener, c);
    } else if q.Sent? {
      SentKeepsBoth(v, peer, q.m, id);
    } else if q.Skipped? {
      SkippedKeepsBoth(v, peer, id);
    } else if q.Opened? {
      OpenedKeepsBoth(v, peer, q, id, opener, c);
    } else if q.RstPut? {
      RstPutKeepsBoth(v, peer, q, id, opener, c);
    } else if q.Stay? || q.Offered? || q.Overflowed? || q.Retired? || q.ResetNow? || q.TakenUp? || q.FlaggedNow? || q.SweptNow? {
      PlainKeepsBoth(v, peer, q, id, opener, c);
    } else {
      HeadKeepsBoth(v, peer, q, id, opener, c);
    }
  }

  // ----- Runs -----

  predicate PoliteAt(n: Net, id: u32) {
    BothOk(ViewOf(n, id), EndOf(n.b, id), id)
  }

  predicate PoliteInv(n: Net) {
    forall id: u32 :: PoliteAt(n, id)
  }

  lemma PoliteFlips(n: Net)
    requires PoliteInv(n)
    ensures PoliteInv(Flip(n))
  {
    hide HalfOk;
    forall id: u32 ensures PoliteAt(Flip(n), id) {
      assert PoliteAt(n, id);
    }
  }

  lemma StepAKeepsPolite(n: Net, act: Action)
    requires NetInv(n) && PoliteInv(n) && PoliteAct(n.a, act)
    requires StepA(n, act).Some? && StepA(n, act).value.a.opens <= U31
    ensures PoliteInv(StepA(n, act).value)
  {
    hide StepA, PoliteAct, PoliteAt;
    var m := StepA(n, act).value;
    forall id: u32 ensures PoliteAt(m, id) {
      StepKeepsPoliteAt(n, act, id);
    }
  }

  lemma StepKeepsPoliteAt(n: Net, act: Action, id: u32)
    requires NetInv(n) && PoliteInv(n) && PoliteAct(n.a, act)
    requires StepA(n, act).Some? && StepA(n, act).value.a.opens <= U31
    ensures PoliteAt(StepA(n, act).value, id)
  {
    hide StepA, BothOk, Pair, Next;
    var q := CauseOf(n, act, id);
    StepIsMove(n, act, id);
    assert PairAt(n, id) && PoliteAt(n, id);
    if q.Called? {
      CalledIsOurs(n, act, id);
    }
    hide CauseOf, PoliteAct, NetInv, PoliteInv;
    MoveKeepsBoth(ViewOf(n, id), EndOf(n.b, id), q, id, O.Own(n.a.cfg.initiator, id), n.a.cfg);
  }

  lemma CalledIsOurs(n: Net, act: Action, id: u32)
    requires CauseOf(n, act, id).Called? && PoliteAct(n.a, act)
    requires Can(ViewOf(n, id), CauseOf(n, act, id), id, O.Own(n.a.cfg.initiator, id), n.a.cfg)
    ensures PoliteCall(EndOf(n.a, id).obj.value, CauseOf(n, act, id).e)
  {
  }

  /** In a polite run both directions of every stream are in order. */
  lemma {:induction false} PoliteRunInv(c: Config, d: Config, r: Run)
    requires Mirrored(c, d) && RunFrom(r, Start(c, d)) && FewOpens(Last(r)) && PoliteRun(r)
    ensures PoliteInv(Last(r))
    decreases |r.moves|
  {
    hide NetInv, NetStep, PoliteInv, PoliteMove;
    if r.moves == [] {
      StartPolite(c, d);
    } else {
      LastMove(r, Start(c, d));
      PoliteBefore(r);
      var mv, n := r.moves[|r.moves| - 1], Last(Before(r));
      StepKeepsFew(n, mv.left, mv.act);
      RunKeepsInv(c, d, Before(r));
      PoliteRunInv(c, d, Before(r));
      StepKeepsPolite(n, mv);
    }
  }

  lemma PoliteBefore(r: Run)
    requires |r.states| == |r.moves| + 1 && r.moves != [] && PoliteRun(r)
    ensures PoliteRun(Before(r)) && PoliteMove(Last(Before(r)), r.moves[|r.moves| - 1])
  {
    hide PoliteMove;
    assert MoveIsPolite(r, |r.moves| - 1);
    forall i | 0 <= i < |r.moves| - 1 ensures MoveIsPolite(Before(r), i) {
      assert MoveIsPolite(r, i);
    }
  }

  lemma StartPolite(c: Config, d: Config)
    ensures PoliteInv(Start(c, d))
  {
  }

  lemma StepKeepsPolite(n: Net, mv: Move)
    requires NetInv(n) && PoliteInv(n) && PoliteMove(n, mv)
    requires NetStep(n, mv.left, mv.act).Some? && FewOpens(NetStep(n, mv.left, mv.act).value)
    ensures PoliteInv(NetStep(n, mv.left, mv.act).value)
  {
    hide NetInv, StepA, PoliteInv, PoliteAct;
    if mv.left {
      StepAKeepsPolite(n, mv.act);
    } else {
      InvFlips(n);
      PoliteFlips(n);
      StepAKeepsPolite(Flip(n), mv.act);
      PoliteFlips(StepA(Flip(n), mv.act).value);
    }
  }

  // ----- The theorems -----

  /** The network as seen from the sending side of a direction. */
  function From(n: Net, left: bool): Net {
    if left then n else Flip(n)
  }

  lemma FromKeeps(n: Net, left: bool, id: u32)
    requires NetInv(n) && PoliteInv(n)
    ensures PairAt(From(n, left), id) && PoliteAt(From(n, left), id)
  {
    hide PairAt, PoliteAt;
    InvFlips(n);
    PoliteFlips(n);
  }

  /** What one end has read, and what it holds, is a prefix of what the other end was given to write. */
  lemma {:induction false} ReadsArePrefix(c: Config, d: Config, r: Run, left: bool, id: u32)
    requires Mirrored(c, d) && RunFrom(r, Start(c, d)) && FewOpens(Last(r)) && PoliteRun(r)
    ensures var n := From(Last(r), left); var (src, dst) := (EndOf(n.a, id), EndOf(n.b, id));
            if src.obj.Some? then Delivered(dst) + Buf(dst) <= src.obj.value.written
            else Delivered(dst) == [] && Buf(dst) == []
  {
    RunKeepsInv(c, d, r);
    PoliteRunInv(c, d, r);
    FromKeeps(Last(r), left, id);
    hide Shape, Credit, EndOk, FinOk, NetInv, PoliteInv, RunFrom, PoliteRun;
  }

  /**
   * End of file is exact: when `Read` would report it, the other end has written its FIN after its last
   * byte, and every byte it was ever given has been read.
   */
  lemma {:induction false} ExactEof(c: Config, d: Config, r: Run, left: bool, id: u32)
    requires Mirrored(c, d) && RunFrom(r, Start(c, d)) && FewOpens(Last(r)) && PoliteRun(r)
    ensures var n := From(Last(r), left); var (src, dst) := (EndOf(n.a, id), EndOf(n.b, id));
            dst.obj.Some? && AtEof(dst.obj.value.core) ==>
              src.obj.Some? && src.obj.value.finPut && Delivered(dst) == src.obj.value.written
  {
    var n := From(Last(r), left);
    RunKeepsInv(c, d, r);
    PoliteRunInv(c, d, r);
    FromKeeps(Last(r), left, id);
    hide Pair, NetInv, PoliteInv, RunFrom, PoliteRun;
    assert FinOk(EndOf(n.a, id), EndOf(n.b, id), n.ab, id);
  }
}
