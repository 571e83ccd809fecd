/**
 * Progress. Every step that is not a user's new request makes a weight of the whole network fall, so
 * the network always comes to rest; and a clean network at rest has delivered every byte written.
 */
module MuxProgress {
  import opened Bytes
  import opened MuxStream
  import opened MuxSession
  import opened MuxChannel
  import opened MuxNet
  import opened MuxPair
  import opened MuxPairRecv
  import opened MuxMoves
  import opened MuxRun
  import opened MuxPolite
  import opened MuxClean
  import O = MuxOrphan
  import F = FrameCodec
  import T = TargetCodec

  // ----- The weight of one stream -----

  /** A byte gets lighter on its way: to be sent, reserved, in transit, buffered. */
  function WriterWeight(w: Writer): nat {
    match w
    case WIdle => 0
    case WLoop(rest) => 6 * |rest|
    case WPut(chunk, rest) => 5 * |chunk| + 6 * |rest|
  }

  function OriginWeight(o: Origin): nat {
    match o
    case Dialing => 8
    case Undoing => 1
    case Queued => 1
    case Refused => 0
    case Dialed => 0
    case Accepted => 0
  }

  function CloserWeight(c: Closer): nat {
    match c
    case CRemove => 4
    case CPut => 3
    case CIdle => 0
    case CDone => 0
  }

  function StreamWeight(st: Stream): nat {
    WriterWeight(st.writer) + OriginWeight(st.origin) + CloserWeight(st.closer)
    + 3 * |st.core.buf| + (if st.reader.RPut? then 2 else 0)
  }

  /** The receive loop busy with a stream; control frames are weighed elsewhere. */
  function LoopWeight(l: Loop): nat {
    match l
    case Offering(_) => 5
    case Removing(_) => 1
    case Resetting(_, reply) => if reply then 4 else 1
    case Putting(_) => 3
    case Ready => 0
    case Stopped => 0
  }

  function EndWeight(e: End): nat {
    (if e.obj.Some? then StreamWeight(e.obj.value) else 0) + LoopWeight(e.loop)
  }

  function MsgWeight(m: Msg): nat {
    match m
    case Syn(_, _) => 7
    case Data(_, payload) => 4 * |payload|
    case Fin(_) => 2
    case Rst(_, _) => 2
    case Win(_, _) => 1
    case Ping(_) => 3
    case Pong(_) => 1
    case GoAway(_) => 1
    case NoFlag => 0
  }

  /** The weight of a stream's frames on a channel. */
  function ChanWeight(ch: seq<Msg>, id: u32): nat {
    if ch == [] then 0 else (if On(ch[0], id) then MsgWeight(ch[0]) else 0) + ChanWeight(ch[1..], id)
  }

  function ViewWeight(v: View, id: u32): nat {
    EndWeight(v.me) + ChanWeight(v.out, id) + ChanWeight(v.inn, id)
  }

  lemma {:induction false} AppendWeight(ch: seq<Msg>, m: Msg, id: u32)
    ensures ChanWeight(ch + [m], id) == ChanWeight(ch, id) + (if On(m, id) then MsgWeight(m) else 0)
  {
    if ch == [] {
      assert ch + [m] == [m] && [m][1..] == [];
    } else {
      assert (ch + [m])[0] == ch[0] && (ch + [m])[1..] == ch[1..] + [m];
      AppendWeight(ch[1..], m, id);
    }
  }

  // ----- Moves -----

  /** Steps that only carry on what was begun: no new request by a user. */
  predicate InternalCall(st: Stream, e: Event) {
    !e.Write? && !e.Close? && (e.Read? ==> st.core.buf != [])
  }

  predicate InternalCause(v: View, q: Cause) {
    && !q.Opened?
    && (q.Called? && v.me.obj.Some? ==> InternalCall(v.me.obj.value, q.e))
    && (v.inn != [] && v.inn[0].Data? ==> v.inn[0].payload != [])
  }

  /** Moves that do something to the stream itself. */
  predicate Active(q: Cause) {
    !q.Stay? && !q.Sent? && !q.Skipped? && !q.FlaggedNow? && !q.SweptNow?
  }

  lemma WriterFalls(c: Config, closed: bool, st: Stream, id: u32)
    requires StreamOk(st, closed, c) && 0 < c.maxPayload
    ensures WriteReserveStep(c, st).Some? ==> StreamWeight(WriteReserveStep(c, st).value.st) < StreamWeight(st)
    ensures WritePutStep(c, closed, id, st).Some? ==>
              var r := WritePutStep(c, closed, id, st).value;
              StreamWeight(r.st) + (if r.out == [] then 0 else MsgWeight(r.out[0])) < StreamWeight(st)
  {
  }

  lemma CallFalls(c: Config, closed: bool, st: Stream, e: Event)
    requires IsCall(e) && StreamStep(c, closed, st, e).Some? && StreamOk(st, closed, c) && InternalCall(st, e) && 0 < c.maxPayload
    ensures var r := StreamStep(c, closed, st, e).value;
            && |r.out| <= 1
            && StreamWeight(r.st) + (if r.out == [] then 0 else MsgWeight(r.out[0])) < StreamWeight(st)
  {
    if e.WriteReserve? || e.WritePut? {
      hide CanWrite, StreamWeight;
      WriterFalls(c, closed, st, e.key.id);
    } else {
      hide WritePutStep, WriteReserveStep, CanWrite, T.Encode;
    }
  }

  lemma CalledFalls(v: View, peer: End, e: Event, id: u32, opener: bool, c: Config)
    requires PairIn(v, peer, id, opener, c) && Can(v, Called(e), id, opener, c) && InternalCall(v.me.obj.value, e) && 0 < c.maxPayload
    ensures ViewWeight(Next(v, Called(e), id, opener, c), id) < ViewWeight(v, id)
  {
    hide PairIn, StreamStep, StreamWeight, MsgWeight, StreamOk, ChanWeight;
    OwnEndOk(v, peer, id, opener, c);
    var r := StreamStep(c, v.me.closed, v.me.obj.value, e).value;
    CallFalls(c, v.me.closed, v.me.obj.value, e);
    CallFrames(c, v.me.closed, v.me.obj.value, e);
    if r.out == [] {
      assert v.out + r.out == v.out;
    } else {
      assert v.out + r.out == v.out + [r.out[0]];
      AppendWeight(v.out, r.out[0], id);
    }
  }

  lemma HeadFalls(v: View, peer: End, q: Cause, id: u32, opener: bool, c: Config)
    requires PairIn(v, peer, id, opener, c) && Can(v, q, id, opener, c) && Head(v, id) && InternalCause(v, q)
    requires q.SynTaken? || q.SynRejected? || q.DataTaken? || q.DataStray? || q.FinTaken? || q.RstTaken? || q.WinTaken? || q.Dropped?
    ensures ViewWeight(Next(v, q, id, opener, c), id) < ViewWeight(v, id)
  {
    if q.SynTaken? {
      SynFindsNothing(v.me, peer, v.out, v.inn, id, opener, c);
    }
    hide PairIn, T.Parse;
  }

  lemma LoopFalls(v: View, q: Cause, id: u32, opener: bool, c: Config)
    requires EndOk(v.me, c) && Can(v, q, id, opener, c)
    requires q.Offered? || q.Overflowed? || q.Retired? || q.ResetNow? || q.RstPut? || q.TakenUp? || q.FlaggedNow? || q.SweptNow?
    ensures var w := Next(v, q, id, opener, c);
            ViewWeight(w, id) <= ViewWeight(v, id) && (Active(q) ==> ViewWeight(w, id) < ViewWeight(v, id))
  {
    if q.RstPut? {
      AppendWeight(v.out, v.me.loop.m, id);
    }
    hide ChanWeight;
  }

  lemma MoveFalls(v: View, peer: End, q: Cause, id: u32, opener: bool, c: Config)
    requires PairIn(v, peer, id, opener, c) && Can(v, q, id, opener, c) && InternalCause(v, q) && 0 < c.maxPayload
    ensures var w := Next(v, q, id, opener, c);
            ViewWeight(w, id) <= ViewWeight(v, id) && (Active(q) ==> ViewWeight(w, id) < ViewWeight(v, id))
  {
    hide PairIn, EndWeight;
    if q.Called? {
      CalledFalls(v, peer, q.e, id, opener, c);
    } else if q.Sent? {
      AppendWeight(v.out, q.m, id);
    } else if q.Offered? || q.Overflowed? || q.Retired? || q.ResetNow? || q.RstPut? || q.TakenUp? || q.FlaggedNow? || q.SweptNow? {
      OwnEndIsOk(v, peer, id, opener, c);
      hide Next, Can, ViewWeight;
      LoopFalls(v, q, id, opener, c);
    } else if !q.Stay? && !q.Skipped? {
      HeadFalls(v, peer, q, id, opener, c);
    }
  }

  lemma OwnEndIsOk(v: View, peer: End, id: u32, opener: bool, c: Config)
    requires PairIn(v, peer, id, opener, c)
    ensures EndOk(v.me, c)
  {
    hide Shape, Flow;
  }

  // ----- The weight of the network -----

  function WeightAt(n: Net, id: u32): nat {
    ViewWeight(ViewOf(n, id), id) + EndWeight(EndOf(n.b, id))
  }

  /** The weight of the streams with ids below `k`. */
  function Sum(n: Net, k: nat): nat
    requires k <= U32
  {
    if k == 0 then 0 else Sum(n, k - 1) + WeightAt(n, k - 1)
  }

  /** The weight of the control frames on a channel. */
  function CtlWeight(ch: seq<Msg>): nat {
    if ch == [] then 0
    else (if ch[0].Ping? || ch[0].Pong? || ch[0].GoAway? then MsgWeight(ch[0]) else 0) + CtlWeight(ch[1..])
  }

  /** A side's own unfinished control business: a PONG to write, a shutdown to carry through. */
  function SideWeight(s: Session): nat {
    (if s.loop.Putting? && s.loop.m.Pong? then 2 else 0)
    + (if s.shutdown == Said then 2 else if s.shutdown == Shutdown.Flagged then 1 else 0)
  }

  function Measure(n: Net): nat {
    Sum(n, U32) + CtlWeight(n.ab) + CtlWeight(n.ba) + SideWeight(n.a) + SideWeight(n.b)
  }

  lemma {:induction false} SumFalls(n: Net, m: Net, k: nat, i: nat)
    requires k <= U32
    requires forall id: u32 :: WeightAt(m, id) <= WeightAt(n, id)
    requires i < U32 ==> WeightAt(m, i) < WeightAt(n, i)
    ensures Sum(m, k) <= Sum(n, k) && (i < k ==> Sum(m, k) < Sum(n, k))
  {
    hide WeightAt;
    if k > 0 {
      SumFalls(n, m, k - 1, i);
    }
  }

  lemma {:induction false} AppendCtl(ch: seq<Msg>, m: Msg)
    ensures CtlWeight(ch + [m]) == CtlWeight(ch) + (if m.Ping? || m.Pong? || m.GoAway? then MsgWeight(m) else 0)
  {
    if ch == [] {
      assert ch + [m] == [m] && [m][1..] == [];
    } else {
      assert (ch + [m])[0] == ch[0] && (ch + [m])[1..] == ch[1..] + [m];
      AppendCtl(ch[1..], m);
    }
  }

  // ----- Internal steps -----

  /** Everything but `Open`, `Write`, `Close`, a ping, the start of a shutdown, and reads that find nothing. */
  predicate Internal(s: Session, act: Action) {
    act.Local? ==>
      && !act.e.Open? && !act.e.SendPing? && !act.e.ShutStart?
      && (IsCall(act.e) && HasObj(s, act.e.key) ==> InternalCall(Obj(s, act.e.key), act.e))
  }

  /** The stream a step is about; none (2^32) for control business. */
  function ActiveId(n: Net, act: Action): nat {
    match act
    case Deliver => if n.ba != [] && On(n.ba[0], OnId(n.ba[0])) then n.ba[0].id else U32
    case Local(e) =>
      if IsCall(e) then e.key.id
      else if e.Accept? && n.a.acceptQ != [] then n.a.acceptQ[0].id
      else if e.LoopStep? then LoopId(n.a.loop)
      else U32
  }

  function LoopId(l: Loop): nat {
    match l
    case Offering(key) => key.id
    case Removing(id) => id
    case Resetting(key, _) => key.id
    case Putting(m) => if m.Rst? then m.id else U32
    case Ready => U32
    case Stopped => U32
  }

  lemma InternalIsInternal(n: Net, act: Action, id: u32)
    requires NetInv(n) && Internal(n.a, act) && StepA(n, act).Some?
    requires Can(ViewOf(n, id), CauseOf(n, act, id), id, O.Own(n.a.cfg.initiator, id), n.a.cfg)
    ensures InternalCause(ViewOf(n, id), CauseOf(n, act, id))
    ensures id == ActiveId(n, act) ==> Active(CauseOf(n, act, id))
  {
    if n.ba != [] {
      HeadIsHandled(n);
    }
    hide NetInv, StepA, T.Parse, CallStep, Put;
  }

  lemma WeightFallsAt(n: Net, act: Action, id: u32)
    requires NetInv(n) && Internal(n.a, act) && StepA(n, act).Some?
    ensures var m := StepA(n, act).value;
            WeightAt(m, id) <= WeightAt(n, id) && (id == ActiveId(n, act) ==> WeightAt(m, id) < WeightAt(n, id))
  {
    OpensStay(n, act);
    StepIsMove(n, act, id);
    InternalIsInternal(n, act, id);
    assert PairAt(n, id);
    hide StepA, ActiveId, CauseOf, Can, Next, Pair, Internal, InternalCause, ViewWeight, Active;
    MoveFalls(ViewOf(n, id), EndOf(n.b, id), CauseOf(n, act, id), id, O.Own(n.a.cfg.initiator, id), n.a.cfg);
  }

  lemma OpensStay(n: Net, act: Action)
    requires NetInv(n) && Internal(n.a, act) && StepA(n, act).Some?
    ensures StepA(n, act).value.a.opens <= U31
  {
    hide PairAt, CallStep, RecvStep;
    assert n.a.opens <= U31;
    if act.Deliver? {
      HeadIsHandled(n);
      assert SessionStep(n.a, Recv(n.ba[0])) == RecvStep(n.a, n.ba[0]);
      RecvKeepsConfig(n.a, n.ba[0]);
    } else if IsCall(act.e) {
      CallKeepsConfig(n.a, act.e);
    }
  }

  // ----- Control business -----

  /** The control weight of side A's two channels and of side A. */
  function Control(n: Net): nat {
    CtlWeight(n.ab) + CtlWeight(n.ba) + SideWeight(n.a)
  }

  lemma CallControl(n: Net, e: Event)
    requires NetInv(n) && IsCall(e) && CallStep(n.a, e).Some?
    ensures var o := CallStep(n.a, e).value; Control(n.(a := o.s, ab := n.ab + o.out)) == Control(n)
  {
    hide StreamStep, PairAt;
    var s := n.a;
    CallEnds(s, e, e.key.id);
    assert PairAt(n, e.key.id);
    PairStreamOk(n, e.key.id);
    CallFrames(s.cfg, s.closed, Obj(s, e.key), e);
    var out := CallStep(s, e).value.out;
    if out == [] {
      assert n.ab + out == n.ab;
    } else {
      assert n.ab + out == n.ab + [out[0]];
      AppendCtl(n.ab, out[0]);
    }
  }

  lemma LoopControl(n: Net)
    requires KeysOk(n.a) && LoopStepStep(n.a).Some?
    ensures var o := LoopStepStep(n.a).value; var m := n.(a := o.s, ab := n.ab + o.out);
            Control(m) <= Control(n) && (LoopId(n.a.loop) == U32 ==> Control(m) < Control(n))
  {
    hide CanPut;
    var out := LoopStepStep(n.a).value.out;
    if out == [] {
      assert n.ab + out == n.ab;
    } else {
      assert n.ab + out == n.ab + [out[0]];
      AppendCtl(n.ab, out[0]);
    }
  }

  lemma RecvControl(n: Net)
    requires n.ba != [] && RecvStep(n.a, n.ba[0]).Some? && !n.ba[0].NoFlag?
    ensures var m := n.(a := RecvStep(n.a, n.ba[0]).value.s, ba := n.ba[1..]);
            Control(m) <= Control(n) && (ActiveId(n, Deliver) == U32 ==> Control(m) < Control(n))
  {
    hide T.Parse, Push;
  }

  lemma ControlFalls(n: Net, act: Action)
    requires NetInv(n) && Internal(n.a, act) && StepA(n, act).Some?
    ensures var m := StepA(n, act).value;
            Control(m) <= Control(n) && (ActiveId(n, act) == U32 ==> Control(m) < Control(n)) && m.b == n.b
  {
    hide CallStep, RecvStep, LoopStepStep, PairAt, Control;
    assert n.ab + [] == n.ab;
    if act.Deliver? {
      HeadIsHandled(n);
      assert SessionStep(n.a, Recv(n.ba[0])) == RecvStep(n.a, n.ba[0]);
      RecvSilent(n.a, n.ba[0]);
      RecvControl(n);
    } else if IsCall(act.e) {
      CallControl(n, act.e);
    } else if act.e.LoopStep? {
      LoopControl(n);
    } else {
      ShutControl(n, act.e);
    }
  }

  lemma ShutControl(n: Net, e: Event)
    requires (e.Accept? || e.ShutFlag? || e.ShutSweep?) && StepA(n, Local(e)).Some?
    ensures var m := StepA(n, Local(e)).value;
            Control(m) <= Control(n) && (ActiveId(n, Local(e)) == U32 ==> Control(m) < Control(n))
  {
    assert n.ab + [] == n.ab;
  }

  // ----- The network comes to rest -----

  lemma StepAFalls(n: Net, act: Action)
    requires NetInv(n) && Internal(n.a, act) && StepA(n, act).Some?
    ensures Measure(StepA(n, act).value) < Measure(n)
  {
    hide StepA, WeightAt, Control;
    var m := StepA(n, act).value;
    ControlFalls(n, act);
    forall id: u32 ensures WeightAt(m, id) <= WeightAt(n, id) && (id == ActiveId(n, act) ==> WeightAt(m, id) < WeightAt(n, id)) {
      WeightFallsAt(n, act, id);
    }
    hide ActiveId;
    SumFalls(n, m, U32, ActiveId(n, act));
    ControlIsPart(n);
    ControlIsPart(m);
  }

  lemma ControlIsPart(n: Net)
    ensures Measure(n) == Sum(n, U32) + Control(n) + SideWeight(n.b)
  {
    hide Sum, CtlWeight, SideWeight;
  }

  predicate InternalMove(n: Net, mv: Move) {
    Internal(if mv.left then n.a else n.b, mv.act)
  }

  lemma WeightFlips(n: Net, id: u32)
    ensures WeightAt(Flip(n), id) == WeightAt(n, id)
  {
    hide EndWeight, ChanWeight;
  }

  lemma {:induction false} SumFlips(n: Net, k: nat)
    requires k <= U32
    ensures Sum(Flip(n), k) == Sum(n, k)
  {
    hide WeightAt;
    if k > 0 {
      SumFlips(n, k - 1);
      WeightFlips(n, k - 1);
    }
  }

  /** Whichever side takes it, an internal step makes the weight of the network fall. */
  lemma {:induction false} InternalStepFalls(n: Net, mv: Move)
    requires NetInv(n) && InternalMove(n, mv) && NetStep(n, mv.left, mv.act).Some?
    ensures Measure(NetStep(n, mv.left, mv.act).value) < Measure(n)
    ensures NetInv(NetStep(n, mv.left, mv.act).value)
  {
    hide StepA, Internal, NetInv, Sum, CtlWeight, SideWeight;
    if mv.left {
      StepAFalls(n, mv.act);
      OpensStay(n, mv.act);
      StepAKeepsInv(n, mv.act);
    } else {
      InvFlips(n);
      StepAFalls(Flip(n), mv.act);
      OpensStay(Flip(n), mv.act);
      StepAKeepsInv(Flip(n), mv.act);
      var m := StepA(Flip(n), mv.act).value;
      InvFlips(m);
      SumFlips(n, U32);
      SumFlips(m, U32);
    }
  }

  predicate MoveIsInternal(r: Run, i: nat)
    requires |r.states| == |r.moves| + 1 && i < |r.moves|
  {
    InternalMove(r.states[i], r.moves[i])
  }

  /** A run of internal steps only. */
  predicate InternalRun(r: Run)
    requires |r.states| == |r.moves| + 1
  {
    forall i :: 0 <= i < |r.moves| ==> MoveIsInternal(r, i)
  }

  lemma InternalBefore(r: Run)
    requires |r.states| == |r.moves| + 1 && r.moves != [] && InternalRun(r)
    ensures InternalRun(Before(r)) && InternalMove(Last(Before(r)), r.moves[|r.moves| - 1])
  {
    hide InternalMove;
    assert MoveIsInternal(r, |r.moves| - 1);
    forall i | 0 <= i < |r.moves| - 1 ensures MoveIsInternal(Before(r), i) {
      assert MoveIsInternal(r, i);
    }
  }

  /**
   * From any reachable state, whatever happened before (resets and shutdowns included), no schedule of
   * internal steps is longer than the weight of the network: it cannot go round in circles.
   */
  lemma {:induction false} InternalRunsEnd(n: Net, r: Run)
    requires NetInv(n) && RunFrom(r, n) && InternalRun(r)
    ensures |r.moves| + Measure(Last(r)) <= Measure(n) && NetInv(Last(r))
    decreases |r.moves|
  {
    hide NetInv, NetStep, Measure, InternalMove;
    if r.moves != [] {
      LastMove(r, n);
      InternalBefore(r);
      InternalRunsEnd(n, Before(r));
      InternalStepFalls(Last(Before(r)), r.moves[|r.moves| - 1]);
    }
  }

  // ----- A clean network at rest -----

  /** An internal step that a clean run allows and that side A can take. */
  predicate Possible(n: Net, act: Action) {
    Internal(n.a, act) && CleanAct(n.a, act) && StepA(n, act).Some?
  }

  ghost predicate SideAtRest(n: Net) {
    forall act :: !Possible(n, act)
  }

  ghost predicate AtRest(n: Net) {
    SideAtRest(n) && SideAtRest(Flip(n))
  }

  predicate Queues(n: Net) {
    0 < n.a.cfg.depth && 0 < n.b.cfg.depth
  }

  lemma AcceptIsPossible(n: Net)
    requires KeysOk(n.a) && n.a.acceptQ != []
    ensures Possible(n, Local(Accept))
  {
  }

  lemma LoopIsPossible(n: Net)
    requires KeysOk(n.a) && LoopIsPeaceful(n.a) && n.a.loop != Ready && |n.a.acceptQ| < n.a.cfg.depth
    ensures Possible(n, Local(LoopStep))
  {
    hide CanPut;
  }

  lemma DeliverIsPossible(n: Net)
    requires NetInv(n) && n.ba != [] && n.a.loop == Ready
    ensures Possible(n, Deliver)
  {
    HeadIsHandled(n);
    hide NetInv, F.Accepted, T.Parse, Push;
    assert RecvStep(n.a, n.ba[0]).Some?;
    hide RecvStep;
  }

  lemma RestingLoop(n: Net)
    requires NetInv(n) && CleanInv(n) && SideAtRest(n) && Queues(n)
    ensures n.a.loop == Ready && n.a.acceptQ == [] && n.ba == []
  {
    hide Possible, CleanInv, PairAt;
    SideIsPeaceful(n);
    if n.a.acceptQ != [] {
      AcceptIsPossible(n);
    } else if n.a.loop != Ready {
      LoopIsPossible(n);
    } else if n.ba != [] {
      DeliverIsPossible(n);
    }
  }

  /** A stream on which no internal call is possible. */
  predicate StreamAtRest(st: Stream) {
    && st.origin != Dialing && st.reader == RIdle && (st.closer == CIdle || st.closer == CDone)
    && (InUse(st) ==> st.core.buf == [])
    && (st.writer.WIdle? || (st.writer.WLoop? && st.core.sendWin == 0 && !st.core.finSent))
  }

  /** If the stream is not at rest, this call is possible. */
  function NextCall(st: Stream, key: Key): Event {
    if st.origin == Dialing then OpenPut(key)
    else if st.reader.RPut? then ReadPut(key)
    else if st.closer == CRemove then CloseRemove(key)
    else if st.closer == CPut then ClosePut(key)
    else if InUse(st) && st.core.buf != [] then Read(key, 1)
    else if st.writer.WPut? then WritePut(key)
    else WriteReserve(key)
  }

  lemma NextCallIsPossible(c: Config, closed: bool, st: Stream, key: Key)
    requires StreamOk(st, closed, c) && !st.core.reset && !st.core.sclosed && !StreamAtRest(st)
    ensures var e := NextCall(st, key);
            IsCall(e) && e.key == key && StreamStep(c, closed, st, e).Some? && InternalCall(st, e) && PoliteCall(st, e)
  {
    hide CanWrite, T.Encode;
  }

  lemma CallIsPossible(n: Net, id: u32)
    requires NetInv(n) && CleanInv(n) && EndOf(n.a, id).obj.Some? && !StreamAtRest(EndOf(n.a, id).obj.value)
    ensures Possible(n, Local(NextCall(EndOf(n.a, id).obj.value, Key(id, 0))))
  {
    hide StreamAtRest, CleanPair, BothOk, Pair, NextCall;
    var st := EndOf(n.a, id).obj.value;
    assert PairAt(n, id) && TidyAt(n, id);
    PairStreamOk(n, id);
    NextCallIsPossible(n.a.cfg, n.a.closed, st, Key(id, 0));
    hide StreamStep, NetInv, CleanInv, StreamOk;
  }

  lemma RestingStream(n: Net, id: u32)
    requires NetInv(n) && CleanInv(n) && SideAtRest(n)
    ensures EndOf(n.a, id).obj.Some? ==> StreamAtRest(EndOf(n.a, id).obj.value)
  {
    hide StreamAtRest, NetInv, CleanInv, Possible;
    if EndOf(n.a, id).obj.Some? && !StreamAtRest(EndOf(n.a, id).obj.value) {
      CallIsPossible(n, id);
    }
  }

  // ----- Everything has arrived -----

  /** What both ends of a stream are like when the network rests. */
  predicate Resting(src: End, dst: End) {
    && (src.obj.Some? ==> StreamAtRest(src.obj.value) && InUse(src.obj.value))
    && (dst.obj.Some? ==> StreamAtRest(dst.obj.value) && InUse(dst.obj.value))
  }

  /** A writer still in its loop has a whole stream before it, at both ends. */
  lemma WaitingIsIntact(v: View, peer: End, id: u32, opener: bool, c: Config)
    requires Tidy(v, peer, id, opener, c) && Resting(v.me, peer) && v.me.obj.Some? && peer.obj.Some?
    ensures v.me.obj.value.writer == WIdle || Intact(v.me, peer, v.out, id)
  {
    hide Shape, Flow, WriterOk;
    assert FinOk(v.me, peer, v.out, id);
  }

  lemma EmptyTotal(v: View, peer: End, id: u32)
    requires Resting(v.me, peer) && v.me.obj.Some? && peer.obj.Some? && v.out == [] && v.inn == []
    ensures v.me.obj.value.writer == WIdle || Total(v.me, peer, v.out, v.inn, id) == 0
  {
  }

  /** Nobody waits for window: it would all have come back. */
  lemma NoWriterWaits(v: View, peer: End, id: u32, opener: bool, c: Config)
    requires Tidy(v, peer, id, opener, c) && Resting(v.me, peer) && v.out == [] && v.inn == [] && 0 < c.window
    requires v.me.obj.Some? && peer.obj.Some?
    ensures v.me.obj.value.writer == WIdle
  {
    WaitingIsIntact(v, peer, id, opener, c);
    EmptyTotal(v, peer, id);
    hide Shape, Order, BothOk, CleanIn, Resting, Intact, Total, EndOk;
  }

  lemma PeerExists(v: View, peer: End, id: u32, opener: bool, c: Config)
    requires Tidy(v, peer, id, opener, c) && v.out == [] && v.me.obj.Some? && InUse(v.me.obj.value)
    ensures peer.obj.Some?
  {
    hide Flow, BothOk;
  }

  /** What a caller has closed has ended at the other end, and what both have closed is in neither table. */
  predicate Ended(src: End, dst: End) {
    && (src.obj.Some? && src.obj.value.core.finSent ==> dst.obj.Some? && AtEof(dst.obj.value.core))
    && (src.obj.Some? && src.obj.value.core.finSent && dst.obj.Some? && dst.obj.value.core.finSent ==> !src.live && !dst.live)
  }

  lemma AllEnded(v: View, peer: End, id: u32, opener: bool, c: Config)
    requires Tidy(v, peer, id, opener, c) && Resting(v.me, peer) && v.out == [] && v.inn == []
    requires v.me.loop == Ready && peer.loop == Ready && v.me.obj.Some? && peer.obj.Some?
    ensures Ended(v.me, peer)
  {
    OwnEndOk(v, peer, id, opener, c);
    assert StreamOk(peer.obj.value, peer.closed, c);
    hide Pair, BothOk, CleanPair;
  }

  lemma AllArrived(v: View, peer: End, id: u32, opener: bool, c: Config)
    requires Tidy(v, peer, id, opener, c) && Resting(v.me, peer) && v.out == [] && v.inn == [] && 0 < c.window
    requires v.me.obj.Some?
    ensures peer.obj.Some? && v.me.obj.value.writer == WIdle && Delivered(peer) == v.me.obj.value.written
  {
    hide FinsIn;
    PeerExists(v, peer, id, opener, c);
    NoWriterWaits(v, peer, id, opener, c);
    hide Shape, Credit;
    assert FinOk(v.me, peer, v.out, id) && WriterOk(v.me.obj.value, v.me.closed);
    assert v.me.obj.value.framed == v.me.obj.value.written;
    assert Delivered(peer) + Buf(peer) == v.me.obj.value.framed;
  }

  lemma OriginsAtRest(n: Net, id: u32)
    requires NetInv(n) && CleanInv(n) && SideAtRest(n) && Queues(n) && EndOf(n.a, id).obj.Some?
    ensures InUse(EndOf(n.a, id).obj.value)
  {
    RestingLoop(n);
    RestingStream(n, id);
    assert TidyAt(n, id);
    hide NetInv, PairIn, BothOk, CleanPair;
  }

  /**
   * When a clean network comes to rest, every byte ever given to `Write` has been read at the other
   * end, on every stream and in both directions, nobody waits for window, and nothing is in transit.
   * Where a caller has closed, the other end is at end of file; where both have, neither table has the id.
   */
  lemma RestMeansDelivered(n: Net, left: bool, id: u32)
    requires NetInv(n) && CleanInv(n) && AtRest(n) && Queues(n)
    ensures n.ab == [] && n.ba == []
    ensures var (src, dst) := (EndOf(From(n, left).a, id), EndOf(From(n, left).b, id));
            && (src.obj.Some? ==> dst.obj.Some? && src.obj.value.writer == WIdle && dst.obj.value.delivered == src.obj.value.written)
            && Ended(src, dst)
  {
    hide NetInv, CleanInv, SideAtRest, Tidy, Resting, StreamAtRest;
    InvFlips(n);
    CleanFlips(n);
    RestingLoop(n);
    RestingLoop(Flip(n));
    DirectionArrived(From(n, left), id);
  }

  lemma DirectionArrived(n: Net, id: u32)
    requires NetInv(n) && CleanInv(n) && AtRest(n) && Queues(n) && n.ab == [] && n.ba == []
    requires n.a.loop == Ready && n.b.loop == Ready
    ensures var (src, dst) := (EndOf(n.a, id), EndOf(n.b, id));
            && (src.obj.Some? ==> dst.obj.Some? && src.obj.value.writer == WIdle && dst.obj.value.delivered == src.obj.value.written)
            && Ended(src, dst)
  {
    assert TidyAt(n, id) && 0 < n.a.cfg.window;
    InvFlips(n);
    CleanFlips(n);
    hide NetInv, CleanInv, SideAtRest, Tidy, StreamAtRest;
    RestingStream(n, id);
    RestingStream(Flip(n), id);
    if EndOf(n.a, id).obj.Some? {
      OriginsAtRest(n, id);
      if EndOf(n.b, id).obj.Some? {
        OriginsAtRest(Flip(n), id);
      }
      AllArrived(ViewOf(n, id), EndOf(n.b, id), id, O.Own(n.a.cfg.initiator, id), n.a.cfg);
      AllEnded(ViewOf(n, id), EndOf(n.b, id), id, O.Own(n.a.cfg.initiator, id), n.a.cfg);
    }
  }

  // ----- Finite delivery -----

  /** What was given to `Write` stays what it was, and what was closed stays closed. */
  predicate Asked(a: Stream, b: Stream) {
    b.written == a.written && (a.core.finSent ==> b.core.finSent)
  }

  /** Internal steps ask for nothing new. */
  lemma InternalCallKeepsAsked(c: Config, closed: bool, st: Stream, e: Event)
    requires IsCall(e) && !e.Write? && StreamStep(c, closed, st, e).Some?
    ensures Asked(st, StreamStep(c, closed, st, e).value.st)
  {
    hide CanWrite, T.Encode;
  }

  lemma MoveKeepsAsked(v: View, q: Cause, id: u32, opener: bool, c: Config)
    requires Can(v, q, id, opener, c) && InternalCause(v, q) && v.me.obj.Some? && !q.SynTaken?
    ensures var w := Next(v, q, id, opener, c); w.me.obj.Some? && Asked(v.me.obj.value, w.me.obj.value)
  {
    hide StreamStep, T.Parse;
    if q.Called? {
      InternalCallKeepsAsked(c, v.me.closed, v.me.obj.value, q.e);
    }
  }

  predicate SameAsked(n: Net, m: Net, id: u32) {
    && (EndOf(n.a, id).obj.Some? ==> EndOf(m.a, id).obj.Some? && Asked(EndOf(n.a, id).obj.value, EndOf(m.a, id).obj.value))
    && (EndOf(n.b, id).obj.Some? ==> EndOf(m.b, id).obj.Some? && Asked(EndOf(n.b, id).obj.value, EndOf(m.b, id).obj.value))
  }

  lemma StepAKeepsAsked(n: Net, act: Action, id: u32)
    requires NetInv(n) && Internal(n.a, act) && StepA(n, act).Some?
    ensures SameAsked(n, StepA(n, act).value, id)
  {
    OpensStay(n, act);
    StepIsMove(n, act, id);
    InternalIsInternal(n, act, id);
    assert PairAt(n, id);
    hide StepA, CauseOf, Can, Next, Internal, InternalCause, NetInv;
    var q, v, opener := CauseOf(n, act, id), ViewOf(n, id), O.Own(n.a.cfg.initiator, id);
    if v.me.obj.Some? {
      NoSynForUs(v, EndOf(n.b, id), q, id, opener, n.a.cfg);
      MoveKeepsAsked(v, q, id, opener, n.a.cfg);
    }
  }

  lemma NoSynForUs(v: View, peer: End, q: Cause, id: u32, opener: bool, c: Config)
    requires PairIn(v, peer, id, opener, c) && Can(v, q, id, opener, c) && v.me.obj.Some?
    ensures !q.SynTaken?
  {
    hide Pair;
    if Head(v, id) && v.inn[0].Syn? {
      SynFindsNothing(v.me, peer, v.out, v.inn, id, opener, c);
    }
  }

  lemma StepKeepsAsked(n: Net, mv: Move, id: u32)
    requires NetInv(n) && InternalMove(n, mv) && NetStep(n, mv.left, mv.act).Some?
    ensures SameAsked(n, NetStep(n, mv.left, mv.act).value, id)
  {
    hide StepA, Internal, NetInv;
    if mv.left {
      StepAKeepsAsked(n, mv.act, id);
    } else {
      InvFlips(n);
      StepAKeepsAsked(Flip(n), mv.act, id);
    }
  }

  lemma {:induction false} InternalRunKeepsAsked(n: Net, r: Run, id: u32)
    requires NetInv(n) && RunFrom(r, n) && InternalRun(r)
    ensures SameAsked(n, Last(r), id)
    decreases |r.moves|
  {
    hide NetInv, NetStep, InternalMove, EndOf;
    if r.moves != [] {
      LastMove(r, n);
      InternalBefore(r);
      InternalRunsEnd(n, Before(r));
      InternalRunKeepsAsked(n, Before(r), id);
      StepKeepsAsked(Last(Before(r)), r.moves[|r.moves| - 1], id);
    }
  }

  /**
   * Finite delivery without deadlock. After any clean run, let the network go on by internal steps, in
   * any order. That takes at most `Measure` steps; and when no step is left, every byte that had been
   * given to `Write` has been read at the other end, every stream that was closed is at end of file there,
   * and a stream closed at both ends is in neither table.
   */
  lemma {:induction false} FiniteDelivery(c: Config, d: Config, r: Run, more: Run, left: bool, id: u32)
    requires Mirrored(c, d) && 0 < c.depth && 0 < d.depth
    requires RunFrom(r, Start(c, d)) && FewOpens(Last(r)) && CleanRun(r)
    requires RunFrom(more, Last(r)) && InternalRun(more) && CleanRun(more)
    ensures |more.moves| <= Measure(Last(r))
    ensures AtRest(Last(more)) ==>
              var (n, m) := (From(Last(r), left), From(Last(more), left));
              var (was, src, dst) := (EndOf(n.a, id).obj, EndOf(m.a, id).obj, EndOf(m.b, id).obj);
              && (was.Some? ==> src.Some? && dst.Some? && src.value.writer == WIdle && dst.value.delivered == was.value.written)
              && (was.Some? && was.value.core.finSent ==> AtEof(dst.value.core))
              && Ended(EndOf(m.a, id), EndOf(m.b, id))
  {
    CleanRunInv(c, d, r);
    InternalRunsEnd(Last(r), more);
    InternalRunKeepsAsked(Last(r), more, id);
    FewAlways(Last(more));
    CleanRunFrom(Last(r), more);
    hide RunFrom, CleanRun, InternalRun, NetInv, CleanInv, Measure, SideAtRest;
    if AtRest(Last(more)) {
      RestMeansDelivered(Last(more), left, id);
    }
  }

  lemma FewAlways(n: Net)
    requires NetInv(n)
    ensures FewOpens(n)
  {
    hide PairAt;
  }
}
