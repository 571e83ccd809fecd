/** Runs of the network: every reachable state satisfies the invariant of every stream. */
module MuxRun {
  import opened Bytes
  import opened MuxStream
  import opened MuxSession
  import opened MuxChannel
  import opened MuxNet
  import opened MuxPair
  import opened MuxPairRecv
  import opened MuxMoves
  import O = MuxOrphan
  import F = FrameCodec
  import T = TargetCodec

  // ----- The invariant of the network -----

  /**
   * The accept queue and the receive loop name existing objects, the queue names none twice, and the
   * loop writes nothing but RST and PONG.
   */
  predicate KeysOk(s: Session) {
    && (forall i, j :: 0 <= i < j < |s.acceptQ| ==> s.acceptQ[i] != s.acceptQ[j])
    && (forall i :: 0 <= i < |s.acceptQ| ==> s.acceptQ[i].k == 0 && HasObj(s, s.acceptQ[i]))
    && (s.loop.Offering? || s.loop.Resetting? ==> s.loop.key.k == 0 && HasObj(s, s.loop.key))
    && (s.loop.Putting? ==> s.loop.m.Rst? || s.loop.m.Pong?)
  }

  predicate SideOk(s: Session) {
    O.Inv(s, O.FreshIds) && KeysOk(s) && !s.fatal
  }

  /** What a session puts on the channel. */
  predicate MsgOk(m: Msg, maxPayload: u32) {
    Size(m) <= maxPayload && !m.NoFlag? && (m.Data? ==> m.payload != [])
  }

  predicate ChanOk(ch: seq<Msg>, maxPayload: u32) {
    forall i :: 0 <= i < |ch| ==> MsgOk(ch[i], maxPayload)
  }

  predicate PairAt(n: Net, id: u32) {
    Pair(EndOf(n.a, id), EndOf(n.b, id), n.ab, n.ba, id, O.Own(n.a.cfg.initiator, id), n.a.cfg)
  }

  predicate NetInv(n: Net) {
    && Mirrored(n.a.cfg, n.b.cfg)
    && SideOk(n.a) && SideOk(n.b)
    && ChanOk(n.ab, n.a.cfg.maxPayload) && ChanOk(n.ba, n.a.cfg.maxPayload)
    && forall id: u32 :: PairAt(n, id)
  }

  lemma StartInv(c: Config, d: Config)
    requires Mirrored(c, d)
    ensures NetInv(Start(c, d))
  {
  }

  lemma PairFlips(n: Net, id: u32)
    requires Mirrored(n.a.cfg, n.b.cfg) && PairAt(n, id)
    ensures PairAt(Flip(n), id)
  {
    hide Life, Resets, Credit, Order;
  }

  lemma InvFlips(n: Net)
    requires NetInv(n)
    ensures NetInv(Flip(n))
  {
    hide PairAt;
    forall id: u32 ensures PairAt(Flip(n), id) {
      PairFlips(n, id);
    }
  }

  lemma ChanGrows(ch: seq<Msg>, out: seq<Msg>, maxPayload: u32)
    requires ChanOk(ch, maxPayload) && ChanOk(out, maxPayload)
    ensures ChanOk(ch + out, maxPayload)
  {
  }

  // ----- Every step is a move of every stream -----

  function ViewOf(n: Net, id: u32): View {
    View(EndOf(n.a, id), n.ab, n.ba)
  }

  function OutCause(out: seq<Msg>): Cause {
    if out == [] then Stay else Sent(out[0])
  }

  function HeadCause(e: End, m: Msg, id: u32): Cause {
    if !On(m, id) then Skipped
    else if m.Syn? then (match T.Parse(m.block) case Ok(t) => SynTaken(t) case Err(_) => SynRejected)
    else if m.Data? then (if e.live then DataTaken else DataStray)
    else if !e.live then Dropped
    else if m.Fin? then FinTaken
    else if m.Rst? then RstTaken
    else WinTaken
  }

  function LoopCause(s: Session, id: u32): Cause {
    match LoopOn(s.loop, id)
    case Offering(_) => if |s.acceptQ| < s.cfg.depth then Offered else Overflowed
    case Removing(_) => Retired
    case Resetting(_, _) => ResetNow
    case Putting(_) => RstPut
    case Ready => if s.loop.Putting? then OutCause(Put(s, s.loop.m)) else Stay
    case Stopped => Stay
  }

  /** What a step of side A is for stream `id`. */
  function CauseOf(n: Net, act: Action, id: u32): Cause {
    var s := n.a;
    match act
    case Deliver => if n.ba == [] then Stay else HeadCause(EndOf(s, id), n.ba[0], id)
    case Local(e) =>
      if IsCall(e) then
        if e.key.id == id then Called(e)
        else
          match CallStep(s, e)
          case None => Stay
          case Some(o) => OutCause(o.out)
      else if e.Open? then (if !s.closed && id == s.nextID then Opened(e.target) else Stay)
      else if e.Accept? then (if s.acceptQ != [] && s.acceptQ[0].id == id then TakenUp else Stay)
      else if e.SendPing? then OutCause(Put(s, Ping(e.p)))
      else if e.LoopStep? then LoopCause(s, id)
      else if e.ShutStart? then OutCause(Put(s, GoAway(e.reason)))
      else if e.ShutFlag? then FlaggedNow
      else if e.ShutSweep? && id in s.live then SweptNow
      else Stay
  }

  /** Is the step from `n` to `m` of side A the move `q` of stream `id`? */
  predicate IsMove(n: Net, m: Net, q: Cause, id: u32) {
    var opener := O.Own(n.a.cfg.initiator, id);
    && Can(ViewOf(n, id), q, id, opener, n.a.cfg)
    && ViewOf(m, id) == Next(ViewOf(n, id), q, id, opener, n.a.cfg)
    && m.b == n.b && m.a.cfg == n.a.cfg
  }

  lemma MovesKeepPair(n: Net, m: Net, q: Cause, id: u32)
    requires PairAt(n, id) && IsMove(n, m, q, id) && 260 <= n.a.cfg.maxPayload
    ensures PairAt(m, id)
  {
    hide Pair, Can, Next;
    MoveKeepsPair(ViewOf(n, id), EndOf(n.b, id), q, id, O.Own(n.a.cfg.initiator, id), n.a.cfg);
  }

  // ----- Steps of caller threads -----

  lemma CallEnds(s: Session, e: Event, id: u32)
    requires O.Inv(s, O.FreshIds) && IsCall(e) && CallStep(s, e).Some?
    ensures var t := CallStep(s, e).value.s; var r := StreamStep(s.cfg, s.closed, Obj(s, e.key), e).value;
            && e.key.k == 0 && EndOf(s, e.key.id).obj == Some(Obj(s, e.key))
            && EndOf(t, id) == (if id == e.key.id then After(EndOf(s, id), r) else EndOf(s, id))
  {
    hide StreamStep;
    assert O.IdOk(s, e.key.id);
  }

  /** What a caller thread writes. */
  lemma CallFrames(c: Config, closed: bool, st: Stream, e: Event)
    requires IsCall(e) && StreamStep(c, closed, st, e).Some? && StreamOk(st, closed, c)
    ensures var out := StreamStep(c, closed, st, e).value.out;
            |out| <= 1 && ChanOk(out, c.maxPayload) && (out != [] ==> On(out[0], e.key.id) && !out[0].Rst? && !closed)
  {
    hide T.Encode, Size;
  }

  lemma CallKeepsConfig(s: Session, e: Event)
    requires IsCall(e) && CallStep(s, e).Some?
    ensures var t := CallStep(s, e).value.s;
            && t.cfg == s.cfg && t.closed == s.closed && t.acceptQ == s.acceptQ && t.loop == s.loop
            && t.fatal == s.fatal && t.opens == s.opens && t.objs.Keys == s.objs.Keys
            && (forall id :: id in s.objs ==> |t.objs[id]| == |s.objs[id]|)
  {
    hide StreamStep;
  }

  lemma PairStreamOk(n: Net, id: u32)
    requires PairAt(n, id)
    ensures EndOf(n.a, id).obj.Some? ==> StreamOk(EndOf(n.a, id).obj.value, n.a.closed, n.a.cfg)
  {
    hide Shape, Flow;
  }

  /** Appending the frames of a step, one at most, for a stream they are not on. */
  lemma OutIsMove(v: View, out: seq<Msg>, id: u32, opener: bool, c: Config)
    requires |out| <= 1 && (out != [] ==> !On(out[0], id))
    ensures Can(v, OutCause(out), id, opener, c) && Next(v, OutCause(out), id, opener, c) == v.(out := v.out + out)
  {
    if out == [] {
      assert v.out + out == v.out;
    } else {
      assert out == [out[0]];
    }
  }

  lemma CallIsMove(n: Net, e: Event, id: u32)
    requires NetInv(n) && IsCall(e) && CallStep(n.a, e).Some?
    ensures var o := CallStep(n.a, e).value; IsMove(n, n.(a := o.s, ab := n.ab + o.out), CauseOf(n, Local(e), id), id)
  {
    hide StreamStep, PairAt;
    var s := n.a;
    var r := StreamStep(s.cfg, s.closed, Obj(s, e.key), e).value;
    CallEnds(s, e, id);
    CallKeepsConfig(s, e);
    assert PairAt(n, e.key.id);
    PairStreamOk(n, e.key.id);
    CallFrames(s.cfg, s.closed, Obj(s, e.key), e);
    hide NetInv;
    if id != e.key.id {
      OutIsMove(ViewOf(n, id), r.out, id, O.Own(s.cfg.initiator, id), s.cfg);
    }
  }

  // ----- Deliveries -----

  /** In the network every id has at most one object, so a table entry is that object. */
  lemma TableEntry(s: Session, id: u32)
    requires O.Inv(s, O.FreshIds)
    ensures InTable(s, id) <==> EndOf(s, id).live
    ensures Latest(s, id) == Key(id, 0)
    ensures EndOf(s, id).live ==> EndOf(s, id).obj == Some(Obj(s, Key(id, 0)))
    ensures HasObj(s, Key(id, 0)) <==> id in s.objs
  {
    assert O.IdOk(s, id);
  }

  /** The frame at the head of the channel is accepted, so it is handled as the message it was. */
  lemma HeadIsHandled(n: Net)
    requires NetInv(n) && n.ba != []
    ensures F.Accepted(FrameOf(n.ba[0]), n.a.cfg.maxPayload) && F.Valid(FrameOf(n.ba[0]))
    ensures Classify(FrameOf(n.ba[0])) == n.ba[0] && MsgOk(n.ba[0], n.a.cfg.maxPayload)
  {
    EmittedFramesAreUnderstood(n.ba[0]);
    assert MsgOk(n.ba[0], n.a.cfg.maxPayload);
  }

  /** A frame changes only the stream it names. */
  lemma SynElsewhere(s: Session, sid: u32, block: seq<byte>, id: u32)
    requires id != sid
    ensures var t := RecvSyn(s, sid, block).value.s;
            && HasObj(t, Key(id, 0)) == HasObj(s, Key(id, 0))
            && (HasObj(s, Key(id, 0)) ==> Obj(t, Key(id, 0)) == Obj(s, Key(id, 0)))
            && (id in t.live <==> id in s.live)
            && t.acceptQ == s.acceptQ && (s.loop == Ready ==> LoopOn(t.loop, id) == LoopOn(s.loop, id))
  {
    hide T.Parse;
  }

  lemma RecvElsewhere(s: Session, m: Msg, id: u32)
    requires RecvStep(s, m).Some? && !On(m, id)
    ensures var t := RecvStep(s, m).value.s;
            && HasObj(t, Key(id, 0)) == HasObj(s, Key(id, 0))
            && (HasObj(s, Key(id, 0)) ==> Obj(t, Key(id, 0)) == Obj(s, Key(id, 0)))
            && (id in t.live <==> id in s.live)
            && t.acceptQ == s.acceptQ && LoopOn(t.loop, id) == LoopOn(s.loop, id)
  {
    hide RecvSyn, Push, MarkFinRecv, AddWindow, MuxStream.NewCore;
    if m.Syn? {
      SynElsewhere(s, m.id, m.block, id);
    }
  }

  lemma SynIsMove(n: Net, id: u32)
    requires NetInv(n) && n.ba != [] && RecvStep(n.a, n.ba[0]).Some? && n.ba[0].Syn? && n.ba[0].id == id
    ensures IsMove(n, n.(a := RecvStep(n.a, n.ba[0]).value.s, ba := n.ba[1..]), CauseOf(n, Deliver, id), id)
  {
    hide Pair, T.Parse;
    var m, s := n.ba[0], n.a;
    assert PairAt(n, id);
    TableEntry(s, id);
    SynFindsNothing(EndOf(s, id), EndOf(n.b, id), n.ab, n.ba, id, O.Own(s.cfg.initiator, id), s.cfg);
    assert !EndOf(s, id).queued by {
      assert forall i :: 0 <= i < |s.acceptQ| ==> HasObj(s, s.acceptQ[i]);
    }
  }

  /** DATA for a stream in the table fits its buffer. */
  lemma DataFits(n: Net, id: u32)
    requires NetInv(n) && n.ba != [] && n.ba[0].Data? && n.ba[0].id == id && id in n.a.live
    ensures HasObj(n.a, Key(id, 0)) && Push(Obj(n.a, Key(id, 0)).core, n.ba[0].payload, n.a.cfg.window).Some?
  {
    hide Pair;
    assert PairAt(n, id);
    TableEntry(n.a, id);
    PushSucceeds(EndOf(n.a, id), EndOf(n.b, id), n.ab, n.ba, id, O.Own(n.a.cfg.initiator, id), n.a.cfg);
  }

  lemma DataIsMove(n: Net, id: u32)
    requires NetInv(n) && n.ba != [] && RecvStep(n.a, n.ba[0]).Some? && n.ba[0].Data? && n.ba[0].id == id
    ensures IsMove(n, n.(a := RecvStep(n.a, n.ba[0]).value.s, ba := n.ba[1..]), CauseOf(n, Deliver, id), id)
    ensures !RecvStep(n.a, n.ba[0]).value.s.fatal
  {
    hide PairAt;
    assert MsgOk(n.ba[0], n.a.cfg.maxPayload);
    TableEntry(n.a, id);
    if id in n.a.live {
      DataFits(n, id);
    }
  }

  lemma FlagIsMove(n: Net, id: u32)
    requires NetInv(n) && n.ba != [] && RecvStep(n.a, n.ba[0]).Some? && On(n.ba[0], id)
    requires n.ba[0].Fin? || n.ba[0].Rst? || n.ba[0].Win?
    ensures IsMove(n, n.(a := RecvStep(n.a, n.ba[0]).value.s, ba := n.ba[1..]), CauseOf(n, Deliver, id), id)
  {
    hide PairAt;
    TableEntry(n.a, id);
  }

  lemma SkipIsMove(n: Net, id: u32)
    requires NetInv(n) && n.ba != [] && RecvStep(n.a, n.ba[0]).Some? && !On(n.ba[0], id)
    ensures IsMove(n, n.(a := RecvStep(n.a, n.ba[0]).value.s, ba := n.ba[1..]), CauseOf(n, Deliver, id), id)
  {
    hide NetInv, RecvStep;
    RecvKeepsConfig(n.a, n.ba[0]);
    RecvElsewhere(n.a, n.ba[0], id);
  }

  lemma RecvIsMove(n: Net, id: u32)
    requires NetInv(n) && n.ba != [] && RecvStep(n.a, n.ba[0]).Some?
    ensures IsMove(n, n.(a := RecvStep(n.a, n.ba[0]).value.s, ba := n.ba[1..]), CauseOf(n, Deliver, id), id)
  {
    hide RecvStep, IsMove, NetInv;
    var m := n.ba[0];
    if !On(m, id) {
      SkipIsMove(n, id);
    } else if m.Syn? {
      SynIsMove(n, id);
    } else if m.Data? {
      DataIsMove(n, id);
    } else {
      FlagIsMove(n, id);
    }
  }

  // ----- The receive loop, Open, Accept and shutdown -----

  lemma LoopOutOk(s: Session)
    requires LoopStepStep(s).Some?
    ensures var o := LoopStepStep(s).value;
            && |o.out| <= 1 && o.s.cfg == s.cfg && o.s.closed == s.closed && o.s.opens == s.opens && o.s.fatal == s.fatal
            && (o.out != [] ==> s.loop == Putting(o.out[0]) && CanPut(s, o.out[0]))
  {
    hide CanPut;
  }

  lemma OfferIsMove(n: Net, id: u32)
    requires NetInv(n) && n.a.loop.Offering?
    ensures IsMove(n, n.(a := LoopStepStep(n.a).value.s), LoopCause(n.a, id), id)
  {
    hide PairAt;
    var s := n.a;
    assert KeysOk(s);
    TableEntry(s, s.loop.key.id);
    hide NetInv, O.Inv;
    if |s.acceptQ| < s.cfg.depth {
      var t := LoopStepStep(s).value.s;
      assert t == s.(acceptQ := s.acceptQ + [s.loop.key], loop := Ready);
      assert Key(id, 0) in t.acceptQ <==> Key(id, 0) in s.acceptQ || s.loop.key == Key(id, 0);
    }
  }

  lemma ClearIsMove(n: Net, id: u32)
    requires NetInv(n) && (n.a.loop.Removing? || n.a.loop.Resetting?)
    ensures LoopStepStep(n.a).Some? && IsMove(n, n.(a := LoopStepStep(n.a).value.s), LoopCause(n.a, id), id)
  {
    hide PairAt;
    assert KeysOk(n.a);
    hide NetInv, O.Inv, KeysOk;
  }

  lemma PutIsMove(n: Net, id: u32)
    requires n.a.loop.Putting? && KeysOk(n.a) && 260 <= n.a.cfg.maxPayload
    ensures var o := LoopStepStep(n.a).value; IsMove(n, n.(a := o.s, ab := n.ab + o.out), LoopCause(n.a, id), id)
  {
    hide CanPut;
    var s := n.a;
    RstFits(s);
    LoopOutOk(s);
    assert n.ab + [] == n.ab;
    if LoopOn(s.loop, id) == Ready {
      OutIsMove(ViewOf(n, id), LoopStepStep(s).value.out, id, O.Own(s.cfg.initiator, id), s.cfg);
    }
  }

  lemma LoopIsMove(n: Net, id: u32)
    requires NetInv(n) && LoopStepStep(n.a).Some?
    ensures var o := LoopStepStep(n.a).value; IsMove(n, n.(a := o.s, ab := n.ab + o.out), LoopCause(n.a, id), id)
  {
    hide PairAt, IsMove, CanPut, LoopCause;
    assert KeysOk(n.a) && 260 <= n.a.cfg.maxPayload;
    hide NetInv, KeysOk;
    assert n.ab + [] == n.ab;
    if n.a.loop.Offering? {
      OfferIsMove(n, id);
    } else if n.a.loop.Putting? {
      PutIsMove(n, id);
    } else {
      ClearIsMove(n, id);
    }
  }

  lemma RstFits(s: Session)
    requires 260 <= s.cfg.maxPayload
    ensures s.loop.Putting? && s.loop.m.Rst? ==> CanPut(s, s.loop.m) == !s.closed
  {
  }

  lemma FreshId(s: Session)
    requires O.Inv(s, O.FreshIds) && s.opens < U31
    ensures O.Own(s.cfg.initiator, s.nextID) && s.nextID !in s.objs && s.nextID !in s.live
  {
    assert O.IdOk(s, s.nextID);
  }

  lemma OpenIsMove(n: Net, target: T.Target, id: u32)
    requires NetInv(n) && n.a.opens < U31
    ensures IsMove(n, n.(a := OpenStep(n.a, target).value.s), CauseOf(n, Local(Open(target)), id), id)
  {
    hide PairAt;
    FreshId(n.a);
  }

  lemma AcceptIsMove(n: Net, id: u32)
    requires NetInv(n) && AcceptStep(n.a).Some?
    ensures IsMove(n, n.(a := AcceptStep(n.a).value.s), CauseOf(n, Local(Accept), id), id)
  {
    hide PairAt, O.Inv;
    var s, t := n.a, AcceptStep(n.a).value.s;
    var key := s.acceptQ[0];
    assert KeysOk(s) && key.k == 0;
    assert Key(id, 0) in t.acceptQ <==> Key(id, 0) in s.acceptQ && id != key.id by {
      assert s.acceptQ == [key] + t.acceptQ;
      assert forall i :: 0 <= i < |t.acceptQ| ==> t.acceptQ[i] == s.acceptQ[i + 1];
    }
  }

  lemma SweepIsMove(n: Net, id: u32)
    requires NetInv(n) && ShutSweepStep(n.a).Some?
    ensures IsMove(n, n.(a := ShutSweepStep(n.a).value.s), CauseOf(n, Local(ShutSweep), id), id)
    ensures ShutSweepStep(n.a).value.out == []
  {
    hide PairAt;
    TableEntry(n.a, id);
    assert O.IdOk(n.a, id);
  }

  lemma ControlIsMove(n: Net, t: Session, m: Msg, id: u32)
    requires (m.Ping? || m.GoAway?) && t == n.a.(shutdown := t.shutdown)
    ensures IsMove(n, n.(a := t, ab := n.ab + Put(n.a, m)), OutCause(Put(n.a, m)), id)
  {
    hide CanPut;
    OutIsMove(ViewOf(n, id), Put(n.a, m), id, O.Own(n.a.cfg.initiator, id), n.a.cfg);
  }

  /** Every step of side A that does not exhaust the ids is, for every stream, the move `CauseOf` names. */
  lemma StepIsMove(n: Net, act: Action, id: u32)
    requires NetInv(n) && StepA(n, act).Some? && StepA(n, act).value.a.opens <= U31
    ensures IsMove(n, StepA(n, act).value, CauseOf(n, act, id), id)
  {
    hide NetInv, CallStep, RecvStep, LoopStepStep, OpenStep, AcceptStep, ShutSweepStep, CanPut, IsMove;
    var s := n.a;
    assert n.ab + [] == n.ab;
    if act.Deliver? {
      HeadIsHandled(n);
      assert SessionStep(s, Recv(n.ba[0])) == RecvStep(s, n.ba[0]);
      RecvSilent(s, n.ba[0]);
      RecvIsMove(n, id);
    } else {
      LocalIsMove(n, act.e, id);
    }
  }

  lemma LocalIsMove(n: Net, e: Event, id: u32)
    requires NetInv(n) && StepA(n, Local(e)).Some? && StepA(n, Local(e)).value.a.opens <= U31
    ensures IsMove(n, StepA(n, Local(e)).value, CauseOf(n, Local(e), id), id)
  {
    hide NetInv, CallStep, RecvStep, LoopStepStep, OpenStep, AcceptStep, ShutSweepStep, CanPut, IsMove;
    var s := n.a;
    assert n.ab + [] == n.ab;
    if IsCall(e) {
      CallIsMove(n, e, id);
    } else if e.Open? {
      OpenCounts(s, e.target);
      if s.closed {
        StayIsMove(n, id);
      } else {
        OpenIsMove(n, e.target, id);
      }
    } else if e.Accept? {
      AcceptSilent(s);
      AcceptIsMove(n, id);
    } else if e.SendPing? {
      ControlIsMove(n, s, Ping(e.p), id);
    } else if e.LoopStep? {
      LoopIsMove(n, id);
    } else if e.ShutStart? {
      ControlIsMove(n, s.(shutdown := Said), GoAway(e.reason), id);
    } else if e.ShutFlag? {
      FlaggedIsMove(n, id);
    } else {
      SweepIsMove(n, id);
    }
  }

  lemma StayIsMove(n: Net, id: u32)
    ensures IsMove(n, n, Stay, id)
  {
  }

  lemma FlaggedIsMove(n: Net, id: u32)
    requires ShutFlagStep(n.a).Some?
    ensures IsMove(n, n.(a := ShutFlagStep(n.a).value.s), FlaggedNow, id)
  {
  }

  // ----- The side that moved -----

  lemma CallKeepsSide(n: Net, e: Event)
    requires NetInv(n) && IsCall(e) && CallStep(n.a, e).Some?
    ensures var o := CallStep(n.a, e).value; SideOk(o.s) && ChanOk(n.ab + o.out, n.a.cfg.maxPayload)
  {
    var s := n.a;
    CallKeepsConfig(s, e);
    assert PairAt(n, e.key.id);
    CallEnds(s, e, e.key.id);
    PairStreamOk(n, e.key.id);
    CallFrames(s.cfg, s.closed, Obj(s, e.key), e);
    hide StreamStep, PairAt, O.IdOk;
    ChanGrows(n.ab, StreamStep(s.cfg, s.closed, Obj(s, e.key), e).value.out, s.cfg.maxPayload);
    O.CallKeepsInv(s, e, O.FreshIds);
  }

  lemma SynKeepsKeys(s: Session, m: Msg)
    requires O.Inv(s, O.FreshIds) && KeysOk(s) && RecvStep(s, m).Some? && m.Syn? && m.id !in s.objs
    ensures KeysOk(RecvStep(s, m).value.s)
  {
    hide T.Parse;
    TableEntry(s, m.id);
  }

  lemma RecvKeepsKeys(s: Session, m: Msg)
    requires O.Inv(s, O.FreshIds) && KeysOk(s) && RecvStep(s, m).Some? && (m.Syn? ==> m.id !in s.objs)
    ensures KeysOk(RecvStep(s, m).value.s)
  {
    hide RecvSyn, Push;
    if m.Syn? {
      SynKeepsKeys(s, m);
    } else if On(m, OnId(m)) {
      TableEntry(s, OnId(m));
      hide O.Inv;
    }
  }

  /** The stream a message is about, 0 for control frames. */
  function OnId(m: Msg): u32 {
    if m.Syn? || m.Data? || m.Fin? || m.Rst? || m.Win? then m.id else 0
  }

  lemma RecvKeepsSide(n: Net)
    requires NetInv(n) && n.ba != [] && RecvStep(n.a, n.ba[0]).Some?
    ensures SideOk(RecvStep(n.a, n.ba[0]).value.s) && RecvStep(n.a, n.ba[0]).value.out == []
  {
    var s, m := n.a, n.ba[0];
    assert MsgOk(m, s.cfg.maxPayload);
    RecvSilent(s, m);
    if m.Data? {
      DataIsMove(n, m.id);
    }
    if m.Syn? {
      assert PairAt(n, m.id);
      hide Pair;
      SynFindsNothing(EndOf(s, m.id), EndOf(n.b, m.id), n.ab, n.ba, m.id, O.Own(s.cfg.initiator, m.id), s.cfg);
      TableEntry(s, m.id);
    }
    hide RecvStep, PairAt, O.Inv;
    O.RecvKeepsInv(s, m, O.FreshIds);
    RecvKeepsKeys(s, m);
  }

  lemma RecvSilent(s: Session, m: Msg)
    requires RecvStep(s, m).Some?
    ensures RecvStep(s, m).value.out == []
    ensures RecvStep(s, m).value.s.fatal ==> s.fatal || m.Data? || m.NoFlag?
  {
    hide T.Parse, Push;
  }

  lemma LoopKeepsSide(n: Net)
    requires NetInv(n) && LoopStepStep(n.a).Some?
    ensures var o := LoopStepStep(n.a).value; SideOk(o.s) && ChanOk(n.ab + o.out, n.a.cfg.maxPayload)
  {
    var s := n.a;
    LoopOutOk(s);
    O.LoopStepKeepsInv(s, O.FreshIds);
    LoopKeepsKeys(n);
    hide O.Inv, KeysOk, PairAt;
    ChanGrows(n.ab, LoopStepStep(s).value.out, s.cfg.maxPayload);
  }

  lemma OfferedIsNotQueued(n: Net, id: u32)
    requires PairAt(n, id) && n.a.loop == Offering(Key(id, 0))
    ensures Key(id, 0) !in n.a.acceptQ
  {
    hide Shape, Flow;
    assert EndOk(EndOf(n.a, id), n.a.cfg);
  }

  lemma QueueKeepsKeys(s: Session, key: Key)
    requires KeysOk(s) && HasObj(s, key) && key.k == 0 && key !in s.acceptQ
    ensures KeysOk(s.(acceptQ := s.acceptQ + [key], loop := Ready))
  {
    var q := s.acceptQ + [key];
    forall i, j | 0 <= i < j < |q| ensures q[i] != q[j] {
      if j == |s.acceptQ| {
        assert q[i] == s.acceptQ[i];
      }
    }
  }

  lemma OfferKeepsKeys(n: Net)
    requires NetInv(n) && n.a.loop.Offering?
    ensures KeysOk(LoopStepStep(n.a).value.s)
  {
    var s := n.a;
    assert KeysOk(s) && s.loop.key.k == 0;
    assert PairAt(n, s.loop.key.id);
    hide PairAt;
    TableEntry(s, s.loop.key.id);
    OfferedIsNotQueued(n, s.loop.key.id);
    hide NetInv, O.Inv;
    if |s.acceptQ| < s.cfg.depth {
      QueueKeepsKeys(s, s.loop.key);
      hide KeysOk;
    }
  }

  lemma LoopKeepsKeys(n: Net)
    requires NetInv(n) && LoopStepStep(n.a).Some?
    ensures KeysOk(LoopStepStep(n.a).value.s)
    ensures var o := LoopStepStep(n.a).value; o.out != [] ==> o.out[0].Rst? || o.out[0].Pong?
  {
    hide Pair, CanPut;
    if n.a.loop.Offering? {
      OfferKeepsKeys(n);
    } else {
      assert KeysOk(n.a);
      hide PairAt, NetInv, O.Inv;
    }
  }

  lemma OpenKeepsSide(n: Net, target: T.Target)
    requires NetInv(n) && n.a.opens < U31
    ensures SideOk(OpenStep(n.a, target).value.s)
  {
    var s := n.a;
    if !s.closed {
      O.OpenKeepsInv(s, target, O.FreshIds);
      FreshId(s);
    }
  }

  lemma AcceptKeepsSide(s: Session)
    requires SideOk(s) && AcceptStep(s).Some?
    ensures SideOk(AcceptStep(s).value.s)
  {
    O.AcceptKeepsInv(s, O.FreshIds);
    hide O.Inv;
  }

  lemma ShutKeepsSide(s: Session, e: Event)
    requires SideOk(s) && (e.ShutStart? || e.ShutFlag? || e.ShutSweep?) && SessionStep(s, e).Some?
    ensures SideOk(SessionStep(s, e).value.s)
  {
    O.ShutKeepsInv(s, e, O.FreshIds);
    hide O.Inv;
  }

  // ----- The step theorem -----

  /** What one side keeps by itself, whatever it does. */
  lemma StepKeepsSide(n: Net, act: Action)
    requires NetInv(n) && StepA(n, act).Some? && StepA(n, act).value.a.opens <= U31
    ensures var m := StepA(n, act).value;
            && SideOk(m.a) && m.b == n.b && m.a.cfg == n.a.cfg
            && ChanOk(m.ab, n.a.cfg.maxPayload) && ChanOk(m.ba, n.a.cfg.maxPayload)
  {
    hide CallStep, RecvStep, LoopStepStep, OpenStep, AcceptStep, ShutFlagStep, ShutSweepStep, CanPut, PairAt, SideOk;
    if act.Deliver? {
      HeadIsHandled(n);
      assert SessionStep(n.a, Recv(n.ba[0])) == RecvStep(n.a, n.ba[0]);
      RecvKeepsSide(n);
      RecvKeepsConfig(n.a, n.ba[0]);
      assert n.ab + [] == n.ab;
    } else {
      LocalKeepsSide(n, act.e);
    }
  }

  lemma LocalKeepsSide(n: Net, e: Event)
    requires NetInv(n) && StepA(n, Local(e)).Some? && StepA(n, Local(e)).value.a.opens <= U31
    ensures var m := StepA(n, Local(e)).value;
            && SideOk(m.a) && m.b == n.b && m.a.cfg == n.a.cfg
            && ChanOk(m.ab, n.a.cfg.maxPayload) && ChanOk(m.ba, n.a.cfg.maxPayload)
  {
    hide CallStep, RecvStep, LoopStepStep, OpenStep, AcceptStep, ShutFlagStep, ShutSweepStep, CanPut, PairAt, SideOk;
    var s := n.a;
    assert n.ab + [] == n.ab;
    assert SessionStep(s, e).Some?;
    StepKeepsConfig(s, e);
    if IsCall(e) {
      CallKeepsSide(n, e);
    } else if e.Open? {
      OpenCounts(s, e.target);
      if !s.closed { OpenKeepsSide(n, e.target); }
    } else if e.Accept? {
      AcceptSilent(s);
      AcceptKeepsSide(s);
    } else if e.SendPing? {
      PingFits(s, e.p);
      ChanGrows(n.ab, Put(s, Ping(e.p)), s.cfg.maxPayload);
    } else if e.LoopStep? {
      LoopKeepsSide(n);
    } else {
      ShutKeepsSide(s, e);
      ShutOut(s, e);
      ChanGrows(n.ab, SessionStep(s, e).value.out, s.cfg.maxPayload);
    }
  }

  lemma PingFits(s: Session, p: seq<byte>)
    ensures ChanOk(Put(s, Ping(p)), s.cfg.maxPayload)
  {
  }

  lemma ShutOut(s: Session, e: Event)
    requires (e.ShutStart? || e.ShutFlag? || e.ShutSweep?) && SessionStep(s, e).Some?
    ensures ChanOk(SessionStep(s, e).value.out, s.cfg.maxPayload)
  {
  }

  /** Whatever side A does, the invariant of the network survives. */
  lemma StepAKeepsInv(n: Net, act: Action)
    requires NetInv(n) && StepA(n, act).Some? && StepA(n, act).value.a.opens <= U31
    ensures NetInv(StepA(n, act).value)
  {
    hide StepA, SideOk, PairAt, ChanOk, IsMove, CauseOf;
    StepKeepsSide(n, act);
    var m := StepA(n, act).value;
    forall id: u32 ensures PairAt(m, id) {
      StepIsMove(n, act, id);
      MovesKeepPair(n, m, CauseOf(n, act, id), id);
    }
  }

  lemma OpenCounts(s: Session, target: T.Target)
    ensures var o := OpenStep(s, target).value;
            o.out == [] && (if s.closed then o.s == s else o.s.opens == s.opens + 1)
  {
  }

  lemma AcceptSilent(s: Session)
    requires AcceptStep(s).Some?
    ensures AcceptStep(s).value.out == []
  {
  }

  /** Neither side has taken more ids than there are. */
  predicate FewOpens(n: Net) {
    n.a.opens <= U31 && n.b.opens <= U31
  }

  lemma StepKeepsInv(n: Net, left: bool, act: Action)
    requires NetInv(n) && NetStep(n, left, act).Some? && FewOpens(NetStep(n, left, act).value)
    ensures NetInv(NetStep(n, left, act).value)
  {
    hide NetInv, StepA;
    if left {
      StepAKeepsInv(n, act);
    } else {
      InvFlips(n);
      StepAKeepsInv(Flip(n), act);
      InvFlips(StepA(Flip(n), act).value);
    }
  }

  lemma StepKeepsFew(n: Net, left: bool, act: Action)
    requires NetStep(n, left, act).Some? && FewOpens(NetStep(n, left, act).value)
    ensures FewOpens(n) && NetStep(n, left, act).value.a.cfg == n.a.cfg && NetStep(n, left, act).value.b.cfg == n.b.cfg
  {
    hide SessionStep;
    var m := if left then n else Flip(n);
    if act.Deliver? {
      EmittedFramesAreUnderstood(m.ba[0]);
      var f := FrameOf(m.ba[0]);
      StepKeepsConfig(m.a, if F.Accepted(f, m.a.cfg.maxPayload) then Recv(Classify(f)) else RecvBad);
    } else {
      StepKeepsConfig(m.a, act.e);
    }
  }

  /** Every state two mirrored sessions can reach satisfies the invariant. */
  lemma {:induction false} RunKeepsInv(c: Config, d: Config, r: Run)
    requires Mirrored(c, d) && RunFrom(r, Start(c, d)) && FewOpens(Last(r))
    ensures NetInv(Last(r)) && Last(r).a.cfg == c && Last(r).b.cfg == d
    decreases |r.moves|
  {
    hide NetInv, NetStep;
    if r.moves == [] {
      StartInv(c, d);
    } else {
      LastMove(r, Start(c, d));
      var mv, n := r.moves[|r.moves| - 1], Last(Before(r));
      StepKeepsFew(n, mv.left, mv.act);
      RunKeepsInv(c, d, Before(r));
      StepKeepsInv(n, mv.left, mv.act);
    }
  }
}
