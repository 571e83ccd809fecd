/**
 * No orphaned sleeper, for one session against an arbitrary peer: whatever frames arrive and however
 * the calls interleave, a stream that `Open` returned and that is no longer in the table is one on
 * which nobody can sleep. The one condition on the peer is that it opens streams with its own ids.
 */
module MuxOrphan {
  import opened Bytes
  import opened MuxStream
  import opened MuxSession
  import T = TargetCodec

  /** The ids a side hands out: odd for the initiator, even for the other. */
  predicate Own(initiator: bool, id: u32) {
    (id % 2 == 1) == initiator
  }

  /** The first id a side hands out. */
  function FirstId(initiator: bool): u32 {
    if initiator then 1 else 2
  }

  /** The position of an id in its side's numbering; the even side ends with id 0. */
  function Index(id: u32): nat {
    if id == 0 then U31 - 1 else (id - 1) / 2
  }

  /** What is known about the SYN frames that `handleSYN` takes; it checks neither parity nor reuse. */
  datatype Peer =
    | AnyPeer     // no restriction at all
    | OwnIds      // the peer opens streams with ids of its own side
    | FreshIds    // and never uses an id twice

  /** The event registers a stream: a SYN with a good address block whose id is not in the table. */
  predicate TakesSyn(s: Session, e: Event) {
    e.Recv? && e.m.Syn? && T.Parse(e.m.block).Ok? && !InTable(s, e.m.id)
  }

  predicate SynAllowed(s: Session, e: Event, peer: Peer) {
    TakesSyn(s, e) ==>
      && (peer != AnyPeer ==> !Own(s.cfg.initiator, e.m.id))
      && (peer == FreshIds ==> e.m.id !in s.objs)
  }

  /** The state after a run of one session, if each step can happen and the peer keeps to its kind. */
  function RunTo(s: Session, es: seq<Event>, peer: Peer): Option<Session> {
    if es == [] then Some(s)
    else
      match RunTo(s, es[..|es| - 1], peer)
      case None => None
      case Some(t) => StepTo(t, es[|es| - 1], peer)
  }

  function StepTo(s: Session, e: Event, peer: Peer): Option<Session> {
    if !SynAllowed(s, e, peer) then None
    else
      match SessionStep(s, e)
      case None => None
      case Some(o) => Some(o.s)
  }

  // ----- The invariant -----

  predicate IdsOk(s: Session) {
    && s.opens <= U31
    && (s.opens < U31 ==> Own(s.cfg.initiator, s.nextID) && Index(s.nextID) == s.opens)
    && (s.closed <==> s.shutdown == Flagged || s.shutdown == Down)
    && (forall i :: 0 <= i < |s.acceptQ| ==> !Own(s.cfg.initiator, s.acceptQ[i].id))
    && (s.loop.Offering? ==> !Own(s.cfg.initiator, s.loop.key.id))
  }

  predicate Dialer(o: Origin) {
    o == Dialing || o == Undoing || o == Refused || o == Dialed
  }

  /** What holds of one id: the side's own ids, and all ids if the peer never repeats one. */
  predicate IdOk(s: Session, id: u32) {
    && (id in s.live || s.loop == Removing(id) ==> id in s.objs)
    && (id in s.objs ==>
          var st := s.objs[id];
          && |st| == 1
          && (Own(s.cfg.initiator, id) ==>
                Index(id) < s.opens && Dialer(st[0].origin) && (s.shutdown == Down ==> id !in s.live))
          && (!Own(s.cfg.initiator, id) ==> !Dialer(st[0].origin))
          && (st[0].closer == CRemove ==> st[0].core.finRecv && st[0].core.finSent)
          && (s.loop == Removing(id) ==> st[0].core.finRecv && st[0].core.finSent)
          && (id !in s.live ==>
                Released(st[0].core) || st[0].origin == Refused || IsResetting(s, Key(id, 0))))
  }

  predicate Covered(s: Session, peer: Peer, id: u32) {
    peer == FreshIds || Own(s.cfg.initiator, id)
  }

  predicate IsResetting(s: Session, key: Key) {
    s.loop.Resetting? && s.loop.key == key
  }

  predicate Inv(s: Session, peer: Peer) {
    IdsOk(s) && forall id: u32 :: Covered(s, peer, id) ==> IdOk(s, id)
  }

  lemma NextIndex(id: u32)
    requires Index(id) + 1 < U31
    ensures Index((id + 2) % U32) == Index(id) + 1 && (id + 2) % U32 % 2 == id % 2
  {
  }

  lemma OpenKeepsInv(s: Session, target: T.Target, peer: Peer)
    requires Inv(s, peer) && s.opens < U31
    ensures Inv(OpenStep(s, target).value.s, peer)
  {
    if Index(s.nextID) + 1 < U31 {
      NextIndex(s.nextID);
    }
    var t := OpenStep(s, target).value.s;
    forall id: u32 | Covered(s, peer, id) ensures IdOk(t, id) {
      assert IdOk(s, id);
    }
  }

  /** What a change of one stream must preserve: released stays released, flags stay set. */
  predicate Grows(a: Stream, b: Stream) {
    && (Dialer(a.origin) <==> Dialer(b.origin))
    && (b.closer == CRemove ==> a.closer == CRemove || (b.core.finRecv && b.core.finSent))
    && (a.core.reset ==> b.core.reset)
    && (a.core.sclosed ==> b.core.sclosed)
    && (a.core.finRecv ==> b.core.finRecv)
    && (a.core.finSent ==> b.core.finSent)
    && (a.origin == Refused ==> b.origin == Refused)
  }

  lemma SetObjKeepsInv(s: Session, key: Key, st: Stream, peer: Peer)
    requires Inv(s, peer) && HasObj(s, key) && Grows(Obj(s, key), st)
    ensures Inv(SetObj(s, key, st), peer)
  {
    forall id: u32 | Covered(s, peer, id) ensures IdOk(SetObj(s, key, st), id) {
      assert IdOk(s, id);
    }
  }

  lemma UnregisterKeepsInv(s: Session, id: u32, peer: Peer)
    requires Inv(s, peer)
    requires Covered(s, peer, id) && id in s.objs ==>
               Released(s.objs[id][0].core) || s.objs[id][0].origin == Refused || IsResetting(s, Key(id, 0))
    ensures Inv(Unregister(s, id), peer)
  {
    forall i: u32 | Covered(s, peer, i) ensures IdOk(Unregister(s, id), i) {
      assert IdOk(s, i);
    }
  }

  /** A thread's step on its stream grows it; it deletes the table entry only when it may. */
  lemma StreamStepGrows(cfg: Config, closed: bool, st: Stream, e: Event)
    requires IsCall(e) && StreamStep(cfg, closed, st, e).Some?
    ensures var r := StreamStep(cfg, closed, st, e).value;
            Grows(st, r.st) && (r.drop ==> r.st.origin == Refused || st.closer == CRemove)
  {
    hide CanWrite, T.Encode;
  }

  lemma CallKeepsInv(s: Session, e: Event, peer: Peer)
    requires Inv(s, peer) && IsCall(e) && CallStep(s, e).Some?
    ensures Inv(CallStep(s, e).value.s, peer)
  {
    hide StreamStep;
    StreamStepGrows(s.cfg, s.closed, Obj(s, e.key), e);
    var r := StreamStep(s.cfg, s.closed, Obj(s, e.key), e).value;
    assert IdOk(s, e.key.id) || !Covered(s, peer, e.key.id);
    SetObjKeepsInv(s, e.key, r.st, peer);
    if r.drop {
      UnregisterKeepsInv(SetObj(s, e.key, r.st), e.key.id, peer);
    }
  }

  lemma AcceptKeepsInv(s: Session, peer: Peer)
    requires Inv(s, peer) && AcceptStep(s).Some?
    ensures Inv(AcceptStep(s).value.s, peer)
  {
    var t := AcceptStep(s).value.s;
    forall id: u32 | Covered(s, peer, id) ensures IdOk(t, id) {
      assert IdOk(s, id);
    }
  }

  /** The loop moves on without touching a stream. */
  lemma LoopMoveKeepsInv(s: Session, l: Loop, peer: Peer)
    requires Inv(s, peer) && !l.Offering?
    requires l.Removing? && Covered(s, peer, l.rid) ==>
               l.rid in s.objs && s.objs[l.rid][0].core.finRecv && s.objs[l.rid][0].core.finSent
    requires s.loop.Resetting? ==> l == s.loop || (HasObj(s, s.loop.key) && Released(Obj(s, s.loop.key).core))
    ensures Inv(s.(loop := l), peer) && Inv(s.(loop := l, fatal := true), peer)
  {
    forall id: u32 | Covered(s, peer, id)
      ensures IdOk(s.(loop := l), id) && IdOk(s.(loop := l, fatal := true), id)
    {
      assert IdOk(s, id);
    }
  }

  lemma RegisterKeepsId(s: Session, id: u32, st: Stream, i: u32, peer: Peer)
    requires Inv(s, peer) && s.loop == Ready && Covered(s, peer, i) && st.origin == Queued && st.closer == CIdle
    requires !Own(s.cfg.initiator, id) && (peer == FreshIds ==> id !in s.objs)
    ensures IdOk(Register(s, id, st).(loop := Offering(Latest(Register(s, id, st), id))), i)
  {
    assert IdOk(s, i);
  }

  lemma RecvSynKeepsInv(s: Session, id: u32, block: seq<byte>, peer: Peer)
    requires Inv(s, peer) && s.loop == Ready && peer != AnyPeer && SynAllowed(s, Recv(Syn(id, block)), peer)
    ensures Inv(RecvSyn(s, id, block).value.s, peer)
  {
    hide T.Parse, IdOk;
    var t := RecvSyn(s, id, block).value.s;
    if t.loop.Putting? {
      LoopMoveKeepsInv(s, t.loop, peer);
    } else {
      forall i: u32 | Covered(s, peer, i) ensures IdOk(t, i) {
        RegisterKeepsId(s, id, NewStream(T.Parse(block).value, s.cfg.window, Queued), i, peer);
      }
    }
  }

  lemma RecvRstKeepsInv(s: Session, id: u32, peer: Peer)
    requires Inv(s, peer) && s.loop == Ready && InTable(s, id)
    ensures Inv(Unregister(s, id).(loop := Resetting(Latest(s, id), false)), peer)
  {
    var t := Unregister(s, id).(loop := Resetting(Latest(s, id), false));
    forall i: u32 | Covered(s, peer, i) ensures IdOk(t, i) {
      assert IdOk(s, i);
    }
  }

  /** DATA, FIN and WIN change one stream and at most make the loop busy. */
  lemma RecvOnStreamKeepsInv(s: Session, m: Msg, peer: Peer)
    requires Inv(s, peer) && s.loop == Ready && (m.Data? || m.Fin? || m.Win?) && InTable(s, m.id)
    ensures Inv(RecvStep(s, m).value.s, peer)
  {
    var t := RecvStep(s, m).value.s;
    var key := Latest(s, m.id);
    assert IdOk(s, m.id) || !Covered(s, peer, m.id);
    if m.Data? && Push(Obj(s, key).core, m.payload, s.cfg.window).None? {
      LoopMoveKeepsInv(s, Stopped, peer);
    } else {
      SetObjKeepsInv(s, key, Obj(t, key), peer);
      LoopMoveKeepsInv(SetObj(s, key, Obj(t, key)), t.loop, peer);
    }
  }

  lemma RecvKeepsInv(s: Session, m: Msg, peer: Peer)
    requires Inv(s, peer) && RecvStep(s, m).Some? && peer != AnyPeer && SynAllowed(s, Recv(m), peer)
    ensures Inv(RecvStep(s, m).value.s, peer)
  {
    var t := RecvStep(s, m).value.s;
    if m.Syn? {
      RecvSynKeepsInv(s, m.id, m.block, peer);
    } else if m.Rst? {
      if InTable(s, m.id) {
        RecvRstKeepsInv(s, m.id, peer);
        assert t == Unregister(s, m.id).(loop := Resetting(Latest(s, m.id), false));
      }
    } else if (m.Data? || m.Fin? || m.Win?) && InTable(s, m.id) {
      RecvOnStreamKeepsInv(s, m, peer);
    } else {
      LoopMoveKeepsInv(s, t.loop, peer);
    }
    assert Inv(t, peer);
  }

  lemma RemovingKeepsInv(s: Session, id: u32, peer: Peer)
    requires Inv(s, peer) && s.loop == Removing(id)
    ensures Inv(Unregister(s, id).(loop := Ready), peer)
  {
    forall i: u32 | Covered(s, peer, i) ensures IdOk(Unregister(s, id).(loop := Ready), i) {
      assert IdOk(s, i);
    }
  }

  lemma QueueKeepsId(s: Session, q: seq<Key>, i: u32)
    requires IdOk(s, i)
    ensures IdOk(s.(acceptQ := q), i)
  {
  }

  lemma RefuseKeepsId(s: Session, key: Key, i: u32, peer: Peer)
    requires Inv(s, peer) && s.loop == Offering(key) && InTable(s, key.id) && Covered(s, peer, i)
    ensures IdOk(Unregister(s, key.id).(loop := Resetting(Latest(s, key.id), true)), i)
  {
    assert IdOk(s, i);
    assert Covered(s, peer, key.id) ==> IdOk(s, key.id);
  }

  lemma OfferingKeepsInv(s: Session, key: Key, peer: Peer)
    requires Inv(s, peer) && s.loop == Offering(key)
    ensures Inv(LoopStepStep(s).value.s, peer)
  {
    hide IdOk;
    var t := LoopStepStep(s).value.s;
    if |s.acceptQ| < s.cfg.depth || !InTable(s, key.id) {
      LoopMoveKeepsInv(s, t.loop, peer);
      forall i: u32 | Covered(s, peer, i) ensures IdOk(t, i) {
        QueueKeepsId(s.(loop := t.loop), t.acceptQ, i);
      }
    } else {
      forall i: u32 | Covered(s, peer, i) ensures IdOk(t, i) {
        RefuseKeepsId(s, key, i, peer);
      }
    }
  }

  lemma LoopStepKeepsInv(s: Session, peer: Peer)
    requires Inv(s, peer) && LoopStepStep(s).Some?
    ensures Inv(LoopStepStep(s).value.s, peer)
  {
    var t := LoopStepStep(s).value.s;
    if s.loop.Resetting? {
      var key := s.loop.key;
      SetObjKeepsInv(s, key, Obj(t, key), peer);
      LoopMoveKeepsInv(SetObj(s, key, Obj(t, key)), t.loop, peer);
    } else if s.loop.Putting? {
      LoopMoveKeepsInv(s, t.loop, peer);
    } else if s.loop.Removing? {
      RemovingKeepsInv(s, s.loop.rid, peer);
    } else {
      OfferingKeepsInv(s, s.loop.key, peer);
    }
  }

  lemma ShutKeepsInv(s: Session, e: Event, peer: Peer)
    requires Inv(s, peer) && SessionStep(s, e).Some? && (e.ShutStart? || e.ShutFlag? || e.ShutSweep?)
    ensures Inv(SessionStep(s, e).value.s, peer)
  {
    var t := SessionStep(s, e).value.s;
    forall id: u32 | Covered(s, peer, id) ensures IdOk(t, id) {
      assert IdOk(s, id);
    }
  }

  lemma StepKeepsInv(s: Session, e: Event, peer: Peer)
    requires Inv(s, peer) && SynAllowed(s, e, peer) && peer != AnyPeer
    requires SessionStep(s, e).Some? && SessionStep(s, e).value.s.opens <= U31
    ensures Inv(SessionStep(s, e).value.s, peer)
  {
    if IsCall(e) {
      CallKeepsInv(s, e, peer);
    } else if e.Open? {
      if !s.closed { OpenKeepsInv(s, e.target, peer); }
    } else if e.Accept? {
      AcceptKeepsInv(s, peer);
    } else if e.Recv? {
      RecvKeepsInv(s, e.m, peer);
    } else if e.RecvBad? {
      LoopMoveKeepsInv(s, Stopped, peer);
    } else if e.LoopStep? {
      LoopStepKeepsInv(s, peer);
    } else if !e.SendPing? {
      ShutKeepsInv(s, e, peer);
    }
  }

  lemma {:induction false} RunKeepsInv(cfg: Config, es: seq<Event>, peer: Peer)
    requires peer != AnyPeer
    requires RunTo(NewSession(cfg), es, peer).Some? && RunTo(NewSession(cfg), es, peer).value.opens <= U31
    ensures Inv(RunTo(NewSession(cfg), es, peer).value, peer)
    ensures RunTo(NewSession(cfg), es, peer).value.cfg == cfg
    decreases |es|
  {
    if es != [] {
      var pre, e := es[..|es| - 1], es[|es| - 1];
      var s := RunTo(NewSession(cfg), pre, peer).value;
      StepKeepsConfig(s, e);
      RunKeepsInv(cfg, pre, peer);
      StepKeepsInv(s, e, peer);
    }
  }

  // ----- The theorems -----

  /**
   * In every reachable state, a stream `Open` returned and that has left the table is released, or the
   * receive loop is about to mark it reset. No call on a released stream sleeps. After the session has
   * been shut down every such stream has left the table.
   */
  lemma {:induction false} NoOrphanedSleeper(cfg: Config, es: seq<Event>, peer: Peer, id: u32)
    requires peer != AnyPeer
    requires RunTo(NewSession(cfg), es, peer).Some? && RunTo(NewSession(cfg), es, peer).value.opens <= U31
    requires var s := RunTo(NewSession(cfg), es, peer).value;
             Own(cfg.initiator, id) && id in s.objs && s.objs[id] != [] && s.objs[id][0].origin == Dialed
    ensures var s := RunTo(NewSession(cfg), es, peer).value; var c := s.objs[id][0].core;
            && (id !in s.live && !IsResetting(s, Key(id, 0)) ==>
                  Released(c) && !ReaderSleeps(c) && !WriterSleeps(c))
            && (s.shutdown == Down ==> id !in s.live)
  {
    RunKeepsInv(cfg, es, peer);
    assert IdOk(RunTo(NewSession(cfg), es, peer).value, id);
  }

  /** The same for inbound streams, as long as they are out of the table and the peer repeats no id. */
  lemma {:induction false} NoOrphanedInbound(cfg: Config, es: seq<Event>, id: u32)
    requires RunTo(NewSession(cfg), es, FreshIds).Some? && RunTo(NewSession(cfg), es, FreshIds).value.opens <= U31
    requires var s := RunTo(NewSession(cfg), es, FreshIds).value;
             id in s.objs && s.objs[id] != [] && InUse(s.objs[id][0])
    ensures var s := RunTo(NewSession(cfg), es, FreshIds).value; var c := s.objs[id][0].core;
            id !in s.live && !IsResetting(s, Key(id, 0)) ==> Released(c) && !ReaderSleeps(c) && !WriterSleeps(c)
  {
    RunKeepsInv(cfg, es, FreshIds);
    assert IdOk(RunTo(NewSession(cfg), es, FreshIds).value, id);
  }

  /** The sweep marks the streams in the table and leaves every other stream as it is. */
  lemma SweepWakesTable(s: Session, key: Key)
    requires s.shutdown == Flagged && HasObj(s, key)
    ensures var t := ShutSweepStep(s).value.s; var st := Obj(s, key);
            && t.live == {} && HasObj(t, key)
            && Obj(t, key) == (if key.id in s.live && key == Latest(s, key.id) then st.(core := MarkSessionClosed(st.core)) else st)
  {
  }

  predicate Unmarked(s: Session, key: Key) {
    s.shutdown == Down && HasObj(s, key) && !Obj(s, key).core.sclosed
  }

  lemma StreamStepKeepsSclosed(cfg: Config, closed: bool, st: Stream, e: Event)
    requires IsCall(e) && StreamStep(cfg, closed, st, e).Some?
    ensures StreamStep(cfg, closed, st, e).value.st.core.sclosed == st.core.sclosed
  {
    hide CanWrite, T.Encode;
  }

  lemma CallKeepsUnmarked(s: Session, e: Event, key: Key)
    requires Unmarked(s, key) && IsCall(e) && CallStep(s, e).Some?
    ensures Unmarked(CallStep(s, e).value.s, key)
  {
    hide StreamStep;
    StreamStepKeepsSclosed(s.cfg, s.closed, Obj(s, e.key), e);
  }

  lemma RecvKeepsUnmarked(s: Session, m: Msg, key: Key)
    requires Unmarked(s, key) && RecvStep(s, m).Some?
    ensures Unmarked(RecvStep(s, m).value.s, key)
  {
    hide T.Parse;
  }

  /** Only the sweep sets `sclosed`, and it happens once: what is registered later is never marked. */
  lemma StepKeepsUnmarked(s: Session, e: Event, key: Key)
    requires Unmarked(s, key) && SessionStep(s, e).Some?
    ensures Unmarked(SessionStep(s, e).value.s, key)
  {
    if IsCall(e) {
      CallKeepsUnmarked(s, e, key);
    } else if e.Recv? {
      RecvKeepsUnmarked(s, e.m, key);
    }
  }

  lemma {:induction false} LateStreamIsNeverMarked(s: Session, es: seq<Event>, peer: Peer, key: Key)
    requires Unmarked(s, key) && RunTo(s, es, peer).Some?
    ensures Unmarked(RunTo(s, es, peer).value, key)
    decreases |es|
  {
    if es != [] {
      var t := RunTo(s, es[..|es| - 1], peer).value;
      LateStreamIsNeverMarked(s, es[..|es| - 1], peer, key);
      StepKeepsUnmarked(t, es[|es| - 1], key);
    }
  }
}
