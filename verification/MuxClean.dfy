/**
 * Clean runs: targets are well-formed, callers keep the rules of `MuxPolite`, the accept queue never
 * overflows, and neither side shuts down. In a clean run no RST is ever sent, no stream is reset, every
 * accepted stream has the target its opener asked for, and a stream leaves the table only after both
 * FINs.
 */
module MuxClean {
  import opened Bytes
  import opened MuxStream
  import opened MuxSession
  import opened MuxChannel
  import opened MuxNet
  import opened MuxPair
  import opened MuxPairRecv
  import opened MuxMoves
  import opened MuxRun
  import opened MuxPolite
  import O = MuxOrphan
  import T = TargetCodec

  // ----- Clean steps -----

  predicate CleanAct(s: Session, act: Action) {
    && PoliteAct(s, act)
    && (act.Local? ==>
          && (act.e.Open? ==> T.WellFormed(act.e.target))
          && !act.e.ShutStart? && !act.e.ShutFlag? && !act.e.ShutSweep?
          && (act.e.LoopStep? && s.loop.Offering? ==> |s.acceptQ| < s.cfg.depth))
  }

  predicate CleanMove(n: Net, mv: Move) {
    CleanAct(if mv.left then n.a else n.b, mv.act)
  }

  predicate MoveIsClean(r: Run, i: nat)
    requires |r.states| == |r.moves| + 1 && i < |r.moves|
  {
    CleanMove(r.states[i], r.moves[i])
  }

  predicate CleanRun(r: Run)
    requires |r.states| == |r.moves| + 1
  {
    forall i :: 0 <= i < |r.moves| ==> MoveIsClean(r, i)
  }

  // ----- The invariant of one stream -----

  predicate CleanEnd(e: End) {
    && !e.closed
    && !e.loop.Resetting? && !e.loop.Putting?
    && (e.obj.Some? ==> CleanStream(e.obj.value) && (!e.live ==> e.obj.value.core.finRecv && e.obj.value.core.finSent))
    && (e.obj.Some? && e.obj.value.origin == Queued ==> e.queued || e.loop.Offering?)
  }

  predicate CleanStream(st: Stream) {
    !st.core.reset && !st.core.sclosed && st.origin != Undoing && st.origin != Refused && T.WellFormed(st.target)
  }

  /** Every SYN for the stream on the channel carries this target. */
  predicate SynCarries(ch: seq<Msg>, id: u32, target: T.Target) {
    forall i :: 0 <= i < |ch| && ch[i].Syn? && ch[i].id == id ==> T.Parse(ch[i].block) == Ok(target)
  }

  /** `x` opened the stream. */
  predicate CleanPair(x: End, y: End, xy: seq<Msg>, yx: seq<Msg>, id: u32) {
    && !HasRst(xy, id) && !HasRst(yx, id)
    && (x.obj.Some? ==> SynCarries(xy, id, x.obj.value.target))
    && (x.obj.Some? && x.obj.value.origin == Dialed && y.obj.None? ==> SynLeads(xy, id))
    && (x.obj.Some? && y.obj.Some? ==> y.obj.value.target == x.obj.value.target)
  }

  predicate CleanIn(v: View, peer: End, id: u32, opener: bool) {
    && CleanEnd(v.me) && CleanEnd(peer)
    && if opener then CleanPair(v.me, peer, v.out, v.inn, id) else CleanPair(peer, v.me, v.inn, v.out, id)
  }

  /** A `Close` that has gone through has sent its FIN, and the FIN is on its way or has arrived. */
  predicate FinGoes(src: End, dst: End, sd: seq<Msg>, id: u32) {
    src.obj.Some? ==>
      && (src.obj.value.closer == CDone ==> src.obj.value.finPut)
      && (src.obj.value.finPut ==> HasFin(sd, id) || FinSeen(dst))
  }

  /** A stream closed both ways is in the table only until the caller or the receive loop takes it out. */
  predicate Retires(e: End) {
    e.obj.Some? && e.live && e.obj.value.core.finRecv && e.obj.value.core.finSent ==>
      e.obj.value.closer == CRemove || e.loop.Removing?
  }

  predicate FinsIn(v: View, peer: End, id: u32) {
    FinGoes(v.me, peer, v.out, id) && FinGoes(peer, v.me, v.inn, id) && Retires(v.me) && Retires(peer)
  }

  /** What a clean step is for a stream. */
  predicate CleanCause(v: View, q: Cause) {
    && !q.Overflowed? && !q.FlaggedNow? && !q.SweptNow?
    && (q.Opened? ==> T.WellFormed(q.target))
  }

  /** The invariants a stream has in a clean run. */
  predicate Tidy(v: View, peer: End, id: u32, opener: bool, c: Config) {
    PairIn(v, peer, id, opener, c) && BothOk(v, peer, id) && CleanIn(v, peer, id, opener) && FinsIn(v, peer, id)
  }

  // ----- Branches that cannot be reached -----

  lemma NoBadSyn(v: View, peer: End, q: Cause, id: u32, opener: bool, c: Config)
    requires Tidy(v, peer, id, opener, c) && Can(v, q, id, opener, c) && 260 <= c.maxPayload
    ensures !q.SynRejected?
    ensures q.SynTaken? ==> peer.obj.Some? && q.target == peer.obj.value.target
  {
    hide Flow, BothOk;
    if q.SynRejected? || q.SynTaken? {
      SynQuiet(v, peer, id, opener, c);
      SynFindsNothing(v.me, peer, v.out, v.inn, id, opener, c);
    }
  }

  /** Any frame but a SYN finds an end. */
  lemma FrameFindsEnd(v: View, peer: End, id: u32, opener: bool, c: Config)
    requires Tidy(v, peer, id, opener, c) && Head(v, id) && !v.inn[0].Syn?
    ensures v.me.obj.Some?
  {
    hide Flow, BothOk;
  }

  /** An end that left the table has heard the FIN, and no DATA comes after that. */
  lemma GoneHasHeardFin(v: View, peer: End, id: u32, opener: bool, c: Config)
    requires Tidy(v, peer, id, opener, c) && v.me.obj.Some? && !v.me.live
    ensures DataOf(v.inn, id) == []
  {
    hide PairIn, WriterOk;
    assert FinOk(peer, v.me, v.inn, id);
  }

  lemma NoStrayData(v: View, peer: End, q: Cause, id: u32, opener: bool, c: Config)
    requires Tidy(v, peer, id, opener, c) && Can(v, q, id, opener, c)
    ensures !q.DataStray?
  {
    hide Tidy;
    if Head(v, id) && v.inn[0].Data? {
      FrameFindsEnd(v, peer, id, opener, c);
      if !v.me.live {
        GoneHasHeardFin(v, peer, id, opener, c);
      }
    }
  }

  lemma NoReset(v: View, peer: End, q: Cause, id: u32, opener: bool, c: Config)
    requires CleanIn(v, peer, id, opener) && Can(v, q, id, opener, c)
    ensures !q.RstTaken? && !q.ResetNow? && !q.RstPut? && (q.Dropped? ==> !v.inn[0].Rst?)
  {
  }

  // ----- Moves -----

  /** What a call changes of the things this invariant is about. */
  lemma CallKeepsStream(c: Config, st: Stream, e: Event)
    requires IsCall(e) && StreamStep(c, false, st, e).Some? && StreamOk(st, false, c) && CleanStream(st) && 260 <= c.maxPayload
    ensures var r := StreamStep(c, false, st, e).value;
            && CleanStream(r.st) && r.st.target == st.target && r.st.core.finRecv == st.core.finRecv
            && (st.core.finSent ==> r.st.core.finSent)
            && (r.drop ==> st.core.finRecv && st.core.finSent)
            && r.st.origin == (if e.OpenPut? then Dialed else st.origin)
            && (e.OpenPut? ==> st.origin == Dialing && r.out == [Syn(e.key.id, T.Encode(st.target))])
            && (!e.OpenPut? && r.out != [] ==> |r.out| == 1 && On(r.out[0], e.key.id) && !r.out[0].Syn? && !r.out[0].Rst?)
  {
    if e.OpenPut? {
      T.EncodedSize(st.target);
    }
    hide T.Encode, T.WellFormed;
  }

  /** Does a call leave alone everything the invariant is about? */
  predicate SameStream(s: Stream, t: Stream) {
    CleanStream(t) && t.target == s.target && t.origin == s.origin
    && t.core.finRecv == s.core.finRecv && (s.core.finSent ==> t.core.finSent)
  }

  lemma FrameKeepsClean(v: View, r: StreamOut, peer: End, id: u32, opener: bool)
    requires CleanIn(v, peer, id, opener) && v.me.obj.Some? && SameStream(v.me.obj.value, r.st)
    requires r.drop ==> v.me.obj.value.core.finRecv && v.me.obj.value.core.finSent
    requires r.out != [] ==> |r.out| == 1 && On(r.out[0], id) && !r.out[0].Syn? && !r.out[0].Rst?
    ensures CleanIn(View(After(v.me, r), v.out + r.out, v.inn), peer, id, opener)
  {
    if r.out == [] {
      assert v.out + r.out == v.out;
    } else {
      assert v.out + r.out == v.out + [r.out[0]];
      Append(v.out, r.out[0], id);
      if SynLeads(v.out, id) {
        SynLeadsHasSyn(v.out, id);
      }
    }
    hide HasRst, SynLeads, Any, HasSyn, CleanStream, T.Parse;
  }

  lemma SynPutKeepsClean(v: View, r: StreamOut, peer: End, id: u32, opener: bool)
    requires CleanIn(v, peer, id, opener) && v.me.obj.Some? && opener && peer.obj.None? && !Any(v.out, id)
    requires r == StreamOut(v.me.obj.value.(origin := Dialed), false, [Syn(id, T.Encode(v.me.obj.value.target))])
    ensures CleanIn(View(After(v.me, r), v.out + r.out, v.inn), peer, id, opener)
  {
    var st := v.me.obj.value;
    T.RoundTripExact(st.target);
    Append(v.out, r.out[0], id);
    hide HasRst, SynLeads, Any, HasSyn, T.Parse, T.Encode, T.WellFormed;
  }

  lemma CallKeepsClean(v: View, peer: End, e: Event, id: u32, opener: bool, c: Config)
    requires Tidy(v, peer, id, opener, c) && Can(v, Called(e), id, opener, c) && 260 <= c.maxPayload
    ensures CleanIn(Next(v, Called(e), id, opener, c), peer, id, opener)
  {
    hide PairIn, BothOk, StreamStep, CleanPair, CleanStream, T.Parse, T.Encode;
    var st := v.me.obj.value;
    var r := StreamStep(c, false, st, e).value;
    OwnEndOk(v, peer, id, opener, c);
    CallKeepsStream(c, st, e);
    if e.OpenPut? {
      DialingIsSilent(v, peer, id, opener, c);
      DialedOnly(c, st, e);
      SynPutKeepsClean(v, r, peer, id, opener);
    } else {
      FrameKeepsClean(v, r, peer, id, opener);
    }
  }

  lemma DialedOnly(c: Config, st: Stream, e: Event)
    requires e.OpenPut? && StreamStep(c, false, st, e).Some? && StreamStep(c, false, st, e).value.out != []
    ensures var r := StreamStep(c, false, st, e).value; r.st == st.(origin := Dialed) && !r.drop
  {
    hide T.Encode;
  }

  lemma DialingIsSilent(v: View, peer: End, id: u32, opener: bool, c: Config)
    requires PairIn(v, peer, id, opener, c) && v.me.obj.Some? && v.me.obj.value.origin == Dialing
    ensures opener && !Any(v.out, id) && peer.obj.None?
  {
    hide Flow;
  }

  lemma SynKeepsClean(v: View, peer: End, q: Cause, id: u32, opener: bool, c: Config)
    requires Tidy(v, peer, id, opener, c) && Can(v, q, id, opener, c) && q.SynTaken?
    requires peer.obj.Some? && q.target == peer.obj.value.target
    ensures CleanIn(Next(v, q, id, opener, c), peer, id, opener)
  {
    SynQuiet(v, peer, id, opener, c);
    SynFindsNothing(v.me, peer, v.out, v.inn, id, opener, c);
    hide PairIn, BothOk, SynLeads, HasSyn, Any, T.Parse, T.WellFormed;
  }

  lemma CoreKeepsClean(st: Stream, m: Msg)
    requires CleanStream(st)
    ensures m.Data? ==> CleanStream(st.(core := st.core.(buf := st.core.buf + m.payload)))
    ensures m.Win? ==> CleanStream(st.(core := AddWindow(st.core, m.credit)))
    ensures CleanStream(st.(core := MarkFinRecv(st.core)))
  {
  }

  lemma HeadKeepsClean(v: View, peer: End, q: Cause, id: u32, opener: bool, c: Config)
    requires Tidy(v, peer, id, opener, c) && Can(v, q, id, opener, c)
    requires q.DataTaken? || q.FinTaken? || q.WinTaken? || q.Dropped?
    ensures CleanIn(Next(v, q, id, opener, c), peer, id, opener)
  {
    hide PairIn, BothOk, SynLeads, CleanStream, T.Parse;
    FrameFindsEnd(v, peer, id, opener, c);
    CoreKeepsClean(v.me.obj.value, v.inn[0]);
  }

  lemma PlainKeepsClean(v: View, peer: End, q: Cause, id: u32, opener: bool, c: Config)
    requires Tidy(v, peer, id, opener, c) && Can(v, q, id, opener, c)
    requires q.Stay? || q.Offered? || q.Retired? || q.TakenUp?
    ensures CleanIn(Next(v, q, id, opener, c), peer, id, opener)
  {
    hide PairIn, BothOk, SynLeads, HasRst, SynCarries, T.Parse, T.WellFormed;
    if q.Retired? {
      RetiredIsClosed(v, peer, id, opener, c);
    }
  }

  lemma OpenedKeepsClean(v: View, peer: End, q: Cause, id: u32, opener: bool, c: Config)
    requires Tidy(v, peer, id, opener, c) && Can(v, q, id, opener, c) && q.Opened? && T.WellFormed(q.target)
    ensures CleanIn(Next(v, q, id, opener, c), peer, id, opener)
  {
    hide PairIn, BothOk, SynLeads, HasRst, SynCarries, T.Parse, T.WellFormed;
    SilentBeforeOpen(v, peer, id, opener, c);
    SilentCarries(v.out, id, q.target);
  }

  lemma RetiredIsClosed(v: View, peer: End, id: u32, opener: bool, c: Config)
    requires PairIn(v, peer, id, opener, c) && v.me.loop.Removing?
    ensures v.me.obj.Some? && v.me.obj.value.core.finRecv && v.me.obj.value.core.finSent
  {
  }

  lemma SilentBeforeOpen(v: View, peer: End, id: u32, opener: bool, c: Config)
    requires PairIn(v, peer, id, opener, c) && v.me.obj.None? && opener
    ensures peer.obj.None? && !Any(v.out, id)
  {
    hide Flow;
  }

  lemma {:induction false} SilentCarries(ch: seq<Msg>, id: u32, target: T.Target)
    requires !Any(ch, id)
    ensures SynCarries(ch, id, target)
  {
    if ch != [] {
      SilentCarries(ch[1..], id, target);
      assert forall i :: 1 <= i < |ch| ==> ch[i] == ch[1..][i - 1];
    }
  }

  lemma SentKeepsClean(v: View, peer: End, m: Msg, id: u32, opener: bool)
    requires CleanIn(v, peer, id, opener) && !On(m, id)
    ensures CleanIn(v.(out := v.out + [m]), peer, id, opener)
  {
    Append(v.out, m, id);
    if SynLeads(v.out, id) {
      SynLeadsHasSyn(v.out, id);
    }
    hide HasRst, SynLeads, Any, HasSyn, T.Parse;
  }

  lemma SkippedKeepsClean(v: View, peer: End, id: u32, opener: bool)
    requires CleanIn(v, peer, id, opener) && v.inn != [] && !On(v.inn[0], id)
    ensures CleanIn(v.(inn := v.inn[1..]), peer, id, opener)
  {
    SkipSummaries(v.inn, id);
    hide HasRst, SynLeads, T.Parse;
  }

  // ----- Moves and the FIN frames -----

  /** What a call of an open session does about closing. */
  lemma CallCloses(c: Config, st: Stream, e: Event)
    requires IsCall(e) && StreamStep(c, false, st, e).Some? && StreamOk(st, false, c)
    requires st.closer == CDone ==> st.finPut
    ensures var r := StreamStep(c, false, st, e).value;
            && (r.st.closer == CDone ==> r.st.finPut) && r.st.core.finRecv == st.core.finRecv
            && (r.st.finPut && !st.finPut ==> r.out == [Fin(e.key.id)])
            && (st.core.finSent ==> r.st.core.finSent)
            && (r.st.core.finRecv && r.st.core.finSent && r.st.closer != CRemove && !r.drop ==>
                  st.core.finSent && st.closer != CRemove)
  {
    hide T.Encode;
  }

  lemma AfterKeepsFins(v: View, r: StreamOut, peer: End, id: u32)
    requires FinsIn(v, peer, id) && v.me.obj.Some? && |r.out| <= 1
    requires var st := v.me.obj.value;
             && (r.st.closer == CDone ==> r.st.finPut) && r.st.core.finRecv == st.core.finRecv
             && (r.st.finPut && !st.finPut ==> r.out == [Fin(id)])
             && (r.st.core.finRecv && r.st.core.finSent && r.st.closer != CRemove && !r.drop ==>
                   st.core.finSent && st.closer != CRemove)
    ensures FinsIn(View(After(v.me, r), v.out + r.out, v.inn), peer, id)
  {
    if r.out == [] {
      assert v.out + r.out == v.out;
    } else {
      assert v.out + r.out == v.out + [r.out[0]];
      AppendRstFin(v.out, r.out[0], id);
    }
    hide HasFin;
  }

  lemma CallKeepsFins(v: View, peer: End, e: Event, id: u32, opener: bool, c: Config)
    requires Tidy(v, peer, id, opener, c) && Can(v, Called(e), id, opener, c)
    ensures FinsIn(Next(v, Called(e), id, opener, c), peer, id)
  {
    OwnEndOk(v, peer, id, opener, c);
    assert !v.me.closed;
    hide PairIn, BothOk, StreamStep, CleanIn, StreamOk;
    CallCloses(c, v.me.obj.value, e);
    CallOut(c, v.me.obj.value, e);
    AfterKeepsFins(v, StreamStep(c, false, v.me.obj.value, e).value, peer, id);
    hide FinsIn;
  }

  lemma CallOut(c: Config, st: Stream, e: Event)
    requires IsCall(e) && StreamStep(c, false, st, e).Some?
    ensures |StreamStep(c, false, st, e).value.out| <= 1
  {
    hide T.Encode, CanWrite, Reserve, Drain;
  }

  lemma HeadKeepsFins(v: View, peer: End, q: Cause, id: u32, opener: bool, c: Config)
    requires Tidy(v, peer, id, opener, c) && Can(v, q, id, opener, c)
    requires q.DataTaken? || q.WinTaken? || (q.Dropped? && !v.inn[0].Rst?)
    ensures FinsIn(Next(v, q, id, opener, c), peer, id)
  {
    FrameFindsEnd(v, peer, id, opener, c);
    hide PairIn, BothOk, CleanPair, CleanStream;
  }

  lemma FinKeepsFins(v: View, peer: End, q: Cause, id: u32, opener: bool, c: Config)
    requires Tidy(v, peer, id, opener, c) && Can(v, q, id, opener, c) && q.FinTaken?
    ensures FinsIn(Next(v, q, id, opener, c), peer, id)
  {
    FrameFindsEnd(v, peer, id, opener, c);
    hide PairIn, BothOk, CleanPair, CleanStream;
  }

  lemma SynKeepsFins(v: View, peer: End, q: Cause, id: u32, opener: bool, c: Config)
    requires Tidy(v, peer, id, opener, c) && Can(v, q, id, opener, c) && q.SynTaken?
    ensures FinsIn(Next(v, q, id, opener, c), peer, id)
  {
    SynFindsNothing(v.me, peer, v.out, v.inn, id, opener, c);
    hide PairIn, BothOk, CleanIn, T.Parse;
  }

  lemma PlainKeepsFins(v: View, peer: End, q: Cause, id: u32, opener: bool, c: Config)
    requires Tidy(v, peer, id, opener, c) && Can(v, q, id, opener, c)
    requires q.Stay? || q.Opened? || q.Offered? || q.Retired? || q.TakenUp?
    ensures FinsIn(Next(v, q, id, opener, c), peer, id)
  {
    if q.Opened? {
      SilentBeforeOpen(v, peer, id, opener, c);
    }
    hide PairIn, BothOk, CleanIn, HasFin;
  }

  lemma OtherKeepsFins(v: View, peer: End, q: Cause, id: u32, opener: bool, c: Config)
    requires FinsIn(v, peer, id) && Can(v, q, id, opener, c) && (q.Sent? || q.Skipped?)
    ensures FinsIn(Next(v, q, id, opener, c), peer, id)
  {
    if q.Sent? {
      AppendRstFin(v.out, q.m, id);
    } else {
      SkipSummaries(v.inn, id);
    }
    hide HasFin;
  }

  lemma MoveKeepsFins(v: View, peer: End, q: Cause, id: u32, opener: bool, c: Config)
    requires Tidy(v, peer, id, opener, c) && Can(v, q, id, opener, c) && 260 <= c.maxPayload && CleanCause(v, q)
    ensures FinsIn(Next(v, q, id, opener, c), peer, id)
  {
    NoBadSyn(v, peer, q, id, opener, c);
    NoStrayData(v, peer, q, id, opener, c);
    NoReset(v, peer, q, id, opener, c);
    hide PairIn, BothOk, CleanIn, FinsIn, Next;
    if q.Called? {
      CallKeepsFins(v, peer, q.e, id, opener, c);
    } else if q.Sent? || q.Skipped? {
      OtherKeepsFins(v, peer, q, id, opener, c);
    } else if q.SynTaken? {
      SynKeepsFins(v, peer, q, id, opener, c);
    } else if q.Stay? || q.Opened? || q.Offered? || q.Retired? || q.TakenUp? {
      PlainKeepsFins(v, peer, q, id, opener, c);
    } else if q.FinTaken? {
      FinKeepsFins(v, peer, q, id, opener, c);
    } else {
      HeadKeepsFins(v, peer, q, id, opener, c);
    }
  }

  /** Every clean move keeps everything about the stream. */
  lemma MoveKeepsTidy(v: View, peer: End, q: Cause, id: u32, opener: bool, c: Config)
    requires Tidy(v, peer, id, opener, c) && Can(v, q, id, opener, c) && 260 <= c.maxPayload && CleanCause(v, q)
    requires q.Called? ==> PoliteCall(v.me.obj.value, q.e)
    ensures Tidy(Next(v, q, id, opener, c), peer, id, opener, c)
  {
    NoBadSyn(v, peer, q, id, opener, c);
    NoStrayData(v, peer, q, id, opener, c);
    NoReset(v, peer, q, id, opener, c);
    MoveKeepsPair(v, peer, q, id, opener, c);
    MoveKeepsBoth(v, peer, q, id, opener, c);
    MoveKeepsFins(v, peer, q, id, opener, c);
    hide PairIn, BothOk, CleanIn, FinsIn, Next;
    if q.Called? {
      CallKeepsClean(v, peer, q.e, id, opener, c);
    } else if q.Sent? {
      SentIsNext(v, q.m, id, opener, c);
      SentKeepsClean(v, peer, q.m, id, opener);
    } else if q.Skipped? {
      SkippedIsNext(v, id, opener, c);
      SkippedKeepsClean(v, peer, id, opener);
    } else if q.Opened? {
      OpenedKeepsClean(v, peer, q, id, opener, c);
    } else if q.Stay? || q.Offered? || q.Retired? || q.TakenUp? {
      PlainKeepsClean(v, peer, q, id, opener, c);
    } else if q.SynTaken? {
      SynKeepsClean(v, peer, q, id, opener, c);
    } else {
      HeadKeepsClean(v, peer, q, id, opener, c);
    }
  }

  lemma SentIsNext(v: View, m: Msg, id: u32, opener: bool, c: Config)
    requires Can(v, Sent(m), id, opener, c)
    ensures Next(v, Sent(m), id, opener, c) == v.(out := v.out + [m])
  {
  }

  lemma SkippedIsNext(v: View, id: u32, opener: bool, c: Config)
    requires Can(v, Skipped, id, opener, c)
    ensures Next(v, Skipped, id, opener, c) == v.(inn := v.inn[1..])
  {
  }

  // ----- Runs -----

  predicate TidyAt(n: Net, id: u32) {
    Tidy(ViewOf(n, id), EndOf(n.b, id), id, O.Own(n.a.cfg.initiator, id), n.a.cfg)
  }

  /** A side that is up, whose receive loop goes on, and a channel without GOAWAY. */
  predicate Calm(s: Session, ch: seq<Msg>) {
    && s.shutdown == Up && !s.loop.Stopped?
    && (s.loop.Putting? ==> Size(s.loop.m) <= s.cfg.maxPayload)
    && forall i :: 0 <= i < |ch| ==> !ch[i].GoAway?
  }

  predicate CleanInv(n: Net) {
    Calm(n.a, n.ab) && Calm(n.b, n.ba) && forall id: u32 :: TidyAt(n, id)
  }

  lemma CleanFlips(n: Net)
    requires NetInv(n) && CleanInv(n)
    ensures CleanInv(Flip(n))
  {
    hide TidyAt, PairAt, Calm;
    forall id: u32 ensures TidyAt(Flip(n), id) {
      TidyFlips(n, id);
    }
  }

  lemma TidyFlips(n: Net, id: u32)
    requires Mirrored(n.a.cfg, n.b.cfg) && TidyAt(n, id)
    ensures TidyAt(Flip(n), id)
  {
    hide Pair, HalfOk, CleanEnd, CleanPair;
    PairFlips(n, id);
  }

  lemma StepKeepsTidyAt(n: Net, act: Action, id: u32)
    requires NetInv(n) && CleanInv(n) && CleanAct(n.a, act)
    requires StepA(n, act).Some? && StepA(n, act).value.a.opens <= U31
    ensures TidyAt(StepA(n, act).value, id)
  {
    hide StepA, Tidy, Next;
    var q := CauseOf(n, act, id);
    StepIsMove(n, act, id);
    assert TidyAt(n, id);
    CauseIsClean(n, act, id);
    if q.Called? {
      CalledIsOurs(n, act, id);
    }
    hide CauseOf, CleanAct, NetInv, CleanInv;
    MoveKeepsTidy(ViewOf(n, id), EndOf(n.b, id), q, id, O.Own(n.a.cfg.initiator, id), n.a.cfg);
  }

  lemma CauseIsClean(n: Net, act: Action, id: u32)
    requires CleanAct(n.a, act) && Mirrored(n.a.cfg, n.b.cfg)
    ensures CleanCause(ViewOf(n, id), CauseOf(n, act, id)) && 260 <= n.a.cfg.maxPayload
  {
    hide CallStep, Put;
  }

  lemma StepKeepsCalm(n: Net, act: Action)
    requires NetInv(n) && CleanInv(n) && CleanAct(n.a, act) && StepA(n, act).Some?
    ensures var m := StepA(n, act).value; Calm(m.a, m.ab) && Calm(m.b, m.ba)
  {
    hide NetInv, TidyAt, CallStep, RecvStep, LoopStepStep, CanPut;
    var s := n.a;
    if act.Deliver? {
      HeadIsHandled(n);
      assert SessionStep(s, Recv(n.ba[0])) == RecvStep(s, n.ba[0]);
      RecvSilent(s, n.ba[0]);
      RecvKeepsCalm(n);
      assert n.ab + [] == n.ab;
    } else if IsCall(act.e) {
      CallKeepsConfig(s, act.e);
      CallNoGoAway(n, act.e);
    } else if act.e.LoopStep? {
      LoopKeepsCalm(n);
    }
  }

  lemma RecvKeepsCalm(n: Net)
    requires NetInv(n) && CleanInv(n) && n.ba != [] && RecvStep(n.a, n.ba[0]).Some?
    ensures Calm(RecvStep(n.a, n.ba[0]).value.s, n.ab)
  {
    hide PairAt, TidyAt, T.Parse, Push;
    HeadIsHandled(n);
    if n.ba[0].Data? {
      hide PairAt;
      DataIsMove(n, n.ba[0].id);
      FatalOnly(n.a, n.ba[0]);
    }
    hide NetInv;
  }

  lemma FatalOnly(s: Session, m: Msg)
    requires RecvStep(s, m).Some? && m.Data? && !RecvStep(s, m).value.s.fatal
    ensures !RecvStep(s, m).value.s.loop.Stopped?
  {
  }

  lemma CallNoGoAway(n: Net, e: Event)
    requires NetInv(n) && IsCall(e) && CallStep(n.a, e).Some?
    ensures forall i :: 0 <= i < |CallStep(n.a, e).value.out| ==> !CallStep(n.a, e).value.out[i].GoAway?
    ensures CallStep(n.a, e).value.s.shutdown == n.a.shutdown
  {
    hide StreamStep, PairAt;
    var s := n.a;
    CallEnds(s, e, e.key.id);
    assert PairAt(n, e.key.id);
    PairStreamOk(n, e.key.id);
    CallFrames(s.cfg, s.closed, Obj(s, e.key), e);
  }

  lemma LoopKeepsCalm(n: Net)
    requires NetInv(n) && CleanInv(n) && LoopStepStep(n.a).Some?
    ensures var o := LoopStepStep(n.a).value; Calm(o.s, n.ab + o.out)
  {
    hide PairAt, TidyAt;
    assert KeysOk(n.a) && O.IdsOk(n.a);
    hide NetInv;
  }

  lemma StepAKeepsClean(n: Net, act: Action)
    requires NetInv(n) && CleanInv(n) && CleanAct(n.a, act)
    requires StepA(n, act).Some? && StepA(n, act).value.a.opens <= U31
    ensures CleanInv(StepA(n, act).value)
  {
    StepKeepsCalm(n, act);
    hide StepA, CleanAct, TidyAt, Calm;
    forall id: u32 ensures TidyAt(StepA(n, act).value, id) {
      StepKeepsTidyAt(n, act, id);
    }
  }

  lemma StepKeepsClean(n: Net, mv: Move)
    requires NetInv(n) && CleanInv(n) && CleanMove(n, mv)
    requires NetStep(n, mv.left, mv.act).Some? && FewOpens(NetStep(n, mv.left, mv.act).value)
    ensures CleanInv(NetStep(n, mv.left, mv.act).value) && NetInv(NetStep(n, mv.left, mv.act).value)
  {
    StepKeepsInv(n, mv.left, mv.act);
    hide NetInv, StepA, CleanInv, CleanAct;
    if mv.left {
      StepAKeepsClean(n, mv.act);
    } else {
      InvFlips(n);
      CleanFlips(n);
      StepAKeepsClean(Flip(n), mv.act);
      InvFlips(NetStep(n, mv.left, mv.act).value);
      CleanFlips(StepA(Flip(n), mv.act).value);
    }
  }

  lemma StartClean(c: Config, d: Config)
    requires Mirrored(c, d)
    ensures CleanInv(Start(c, d))
  {
    hide Pair;
    StartInv(c, d);
    forall id: u32 ensures TidyAt(Start(c, d), id) {
      assert PairAt(Start(c, d), id);
    }
  }

  lemma {:induction false} CleanRunFrom(n: Net, r: Run)
    requires NetInv(n) && CleanInv(n) && RunFrom(r, n) && CleanRun(r) && FewOpens(Last(r))
    ensures NetInv(Last(r)) && CleanInv(Last(r)) && Last(r).a.cfg == n.a.cfg && Last(r).b.cfg == n.b.cfg
    decreases |r.moves|
  {
    hide NetInv, NetStep, CleanInv, CleanMove;
    if r.moves != [] {
      LastMove(r, n);
      CleanBefore(r);
      var mv, m := r.moves[|r.moves| - 1], Last(Before(r));
      StepKeepsFew(m, mv.left, mv.act);
      CleanRunFrom(n, Before(r));
      StepKeepsClean(m, mv);
    }
  }

  lemma CleanBefore(r: Run)
    requires |r.states| == |r.moves| + 1 && r.moves != [] && CleanRun(r)
    ensures CleanRun(Before(r)) && CleanMove(Last(Before(r)), r.moves[|r.moves| - 1])
  {
    hide CleanMove;
    assert MoveIsClean(r, |r.moves| - 1);
    forall i | 0 <= i < |r.moves| - 1 ensures MoveIsClean(Before(r), i) {
      assert MoveIsClean(r, i);
    }
  }

  lemma CleanRunInv(c: Config, d: Config, r: Run)
    requires Mirrored(c, d) && RunFrom(r, Start(c, d)) && FewOpens(Last(r)) && CleanRun(r)
    ensures NetInv(Last(r)) && CleanInv(Last(r)) && Last(r).a.cfg == c && Last(r).b.cfg == d
  {
    StartInv(c, d);
    StartClean(c, d);
    hide NetInv, CleanInv, NetStep;
    CleanRunFrom(Start(c, d), r);
  }

  // ----- The theorem -----

  predicate NoRst(ch: seq<Msg>) {
    forall i :: 0 <= i < |ch| ==> !ch[i].Rst?
  }

  lemma {:induction false} NoRstOnChannel(ch: seq<Msg>)
    requires forall id: u32 :: !HasRst(ch, id)
    ensures NoRst(ch)
  {
    if ch != [] {
      if ch[0].Rst? {
        assert HasRst(ch, ch[0].id);
      }
      forall id: u32 ensures !HasRst(ch[1..], id) {
        assert HasRst(ch[1..], id) ==> HasRst(ch, id);
      }
      NoRstOnChannel(ch[1..]);
    }
  }

  lemma NetHasNoRst(n: Net)
    requires CleanInv(n)
    ensures NoRst(n.ab) && NoRst(n.ba)
  {
    hide Calm, PairIn, BothOk, HasRst;
    forall id: u32 ensures !HasRst(n.ab, id) && !HasRst(n.ba, id) {
      assert TidyAt(n, id);
    }
    hide CleanInv, NoRst;
    NoRstOnChannel(n.ab);
    NoRstOnChannel(n.ba);
  }

  /** The receive loop is in none of the branches that refuse, reset or give up. */
  predicate LoopIsPeaceful(s: Session) {
    s.loop.Ready? || s.loop.Offering? || s.loop.Removing? || (s.loop.Putting? && s.loop.m.Pong?)
  }

  lemma SideIsPeaceful(n: Net)
    requires NetInv(n) && CleanInv(n)
    ensures LoopIsPeaceful(n.a)
  {
    assert KeysOk(n.a);
    hide NetInv, PairIn, BothOk, CleanPair;
    if n.a.loop.Resetting? {
      assert TidyAt(n, n.a.loop.key.id);
    } else if n.a.loop.Putting? && n.a.loop.m.Rst? {
      assert TidyAt(n, n.a.loop.m.id);
    }
  }

  /**
   * A clean run never sends RST: none is on the way, the receive loops are in no branch that refuses or
   * resets, no stream is reset or refused, an accepted stream has the opener's target, and an end that
   * left the table has sent and seen FIN.
   */
  lemma {:induction false} CleanRunNeverResets(c: Config, d: Config, r: Run, id: u32)
    requires Mirrored(c, d) && RunFrom(r, Start(c, d)) && FewOpens(Last(r)) && CleanRun(r)
    ensures var n := Last(r); var (x, y) := (EndOf(n.a, id), EndOf(n.b, id));
            && NoRst(n.ab) && NoRst(n.ba) && LoopIsPeaceful(n.a) && LoopIsPeaceful(n.b)
            && CleanEnd(x) && CleanEnd(y)
            && (x.obj.Some? && y.obj.Some? ==> x.obj.value.target == y.obj.value.target)
  {
    var n := Last(r);
    CleanRunInv(c, d, r);
    NetHasNoRst(n);
    SideIsPeaceful(n);
    InvFlips(n);
    CleanFlips(n);
    SideIsPeaceful(Flip(n));
    assert TidyAt(n, id);
    hide NetInv, PairIn, BothOk, RunFrom, CleanRun;
  }
}
