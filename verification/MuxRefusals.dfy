/** Calls are refused for the reason they are given, in every run of a session and with any peer. */
module MuxRefusals {
  import opened Bytes
  import opened MuxStream
  import opened MuxSession
  import opened MuxOrphan
  import opened MuxStranded
  import T = TargetCodec

  /** The step begins to reset the stream: an RST for its id, or a full accept queue, while it is in the table. */
  predicate Resets(s: Session, e: Event, key: Key) {
    && InTable(s, key.id) && Latest(s, key.id) == key
    && (|| (e.Recv? && e.m.Rst? && e.m.id == key.id)
        || (e.LoopStep? && s.loop.Offering? && s.loop.key.id == key.id && s.cfg.depth <= |s.acceptQ|))
  }

  predicate ResetAt(cfg: Config, es: seq<Event>, peer: Peer, i: nat, key: Key)
    requires i < |es|
  {
    var r := RunTo(NewSession(cfg), es[..i], peer);
    r.Some? && Resets(r.value, es[i], key)
  }

  ghost predicate WasReset(cfg: Config, es: seq<Event>, peer: Peer, key: Key) {
    exists i :: 0 <= i < |es| && ResetAt(cfg, es, peer, i, key)
  }

  /** What a step that is not the sweep does to the flags of a stream. */
  predicate Keeps(s: Session, t: Session, key: Key) {
    HasObj(t, key) ==>
      if HasObj(s, key) then
        && Obj(t, key).core.sclosed == Obj(s, key).core.sclosed
        && (Obj(t, key).core.reset != Obj(s, key).core.reset ==> s.loop.Resetting? && s.loop.key == key)
      else !Obj(t, key).core.reset && !Obj(t, key).core.sclosed
  }

  lemma CallKeepsReset(cfg: Config, closed: bool, st: Stream, e: Event)
    requires IsCall(e) && StreamStep(cfg, closed, st, e).Some?
    ensures StreamStep(cfg, closed, st, e).value.st.core.reset == st.core.reset
  {
    hide CanWrite, T.Encode;
  }

  lemma CallKeeps(s: Session, e: Event, key: Key)
    requires IsCall(e) && CallStep(s, e).Some?
    ensures Keeps(s, CallStep(s, e).value.s, key) && CallStep(s, e).value.s.loop == s.loop
    ensures CallStep(s, e).value.s.shutdown == s.shutdown
  {
    CallKeepsReset(s.cfg, s.closed, Obj(s, e.key), e);
    StreamStepKeepsSclosed(s.cfg, s.closed, Obj(s, e.key), e);
    hide StreamStep;
  }

  lemma SynKeeps(s: Session, id: u32, block: seq<byte>, key: Key)
    requires s.loop == Ready
    ensures var t := RecvSyn(s, id, block).value.s; Keeps(s, t, key) && !t.loop.Resetting? && t.shutdown == s.shutdown
  {
    hide T.Parse;
  }

  lemma FrameKeeps(s: Session, m: Msg, key: Key)
    requires RecvStep(s, m).Some? && !m.Syn?
    ensures var t := RecvStep(s, m).value.s;
            Keeps(s, t, key) && (t.loop.Resetting? ==> Resets(s, Recv(m), t.loop.key)) && t.shutdown == s.shutdown
  {
    hide RecvSyn;
  }

  lemma LoopKeeps(s: Session, key: Key)
    requires LoopStepStep(s).Some?
    ensures var t := LoopStepStep(s).value.s;
            Keeps(s, t, key) && (t.loop.Resetting? ==> Resets(s, LoopStep, t.loop.key)) && t.shutdown == s.shutdown
  {
    hide CanPut;
  }

  lemma SweepKeeps(s: Session, key: Key)
    requires ShutSweepStep(s).Some? && HasObj(ShutSweepStep(s).value.s, key)
    ensures var t := ShutSweepStep(s).value.s;
            HasObj(s, key) && Obj(t, key).core.reset == Obj(s, key).core.reset && t.loop == s.loop && t.shutdown == Down
  {
  }

  /** One step: who is marked reset or begins to be, and when a stream hears of the session's end. */
  lemma StepMarks(s: Session, e: Event, key: Key)
    requires SessionStep(s, e).Some?
    ensures var t := SessionStep(s, e).value.s;
            && (HasObj(t, key) && Obj(t, key).core.reset ==>
                  (HasObj(s, key) && Obj(s, key).core.reset) || (s.loop.Resetting? && s.loop.key == key))
            && (HasObj(t, key) && Obj(t, key).core.sclosed ==> t.shutdown == Down || (HasObj(s, key) && Obj(s, key).core.sclosed))
            && (s.shutdown == Down ==> t.shutdown == Down)
            && (t.loop.Resetting? ==> t.loop == s.loop || Resets(s, e, t.loop.key))
  {
    if IsCall(e) {
      CallKeeps(s, e, key);
    } else if e.Recv? {
      if e.m.Syn? {
        SynKeeps(s, e.m.id, e.m.block, key);
      } else {
        FrameKeeps(s, e.m, key);
      }
      hide RecvSyn;
    } else if e.LoopStep? {
      LoopKeeps(s, key);
    } else if e.ShutSweep? {
      if HasObj(ShutSweepStep(s).value.s, key) {
        SweepKeeps(s, key);
      }
    }
    hide CallStep, RecvStep, LoopStepStep, ShutSweepStep, Resets;
  }

  lemma ResetStays(cfg: Config, es: seq<Event>, peer: Peer, key: Key)
    requires es != [] && WasReset(cfg, es[..|es| - 1], peer, key)
    ensures WasReset(cfg, es, peer, key)
  {
    var pre := es[..|es| - 1];
    hide RunTo, Resets;
    var i :| 0 <= i < |pre| && ResetAt(cfg, pre, peer, i, key);
    assert pre[..i] == es[..i];
    assert ResetAt(cfg, es, peer, i, key);
  }

  /** Whatever is marked reset, or about to be, was reset by the peer or refused by a full queue. */
  lemma {:induction false} MarkedWasReset(cfg: Config, es: seq<Event>, peer: Peer, key: Key)
    requires RunTo(NewSession(cfg), es, peer).Some?
    ensures var s := RunTo(NewSession(cfg), es, peer).value;
            && (HasObj(s, key) && Obj(s, key).core.reset ==> WasReset(cfg, es, peer, key))
            && (s.loop.Resetting? ==> WasReset(cfg, es, peer, s.loop.key))
    decreases |es|
  {
    if es != [] {
      var n := |es| - 1;
      var pre := es[..n];
      var s, t := RunTo(NewSession(cfg), pre, peer).value, RunTo(NewSession(cfg), es, peer).value;
      MarkedWasReset(cfg, pre, peer, key);
      StepMarks(s, es[n], key);
      hide SessionStep, Resets, WasReset;
      if WasReset(cfg, pre, peer, key) {
        ResetStays(cfg, es, peer, key);
      }
      if t.loop.Resetting? {
        if t.loop == s.loop {
          ResetStays(cfg, es, peer, t.loop.key);
        } else {
          StartsReset(cfg, es, peer, t.loop.key);
        }
      }
    }
  }

  lemma StartsReset(cfg: Config, es: seq<Event>, peer: Peer, key: Key)
    requires es != [] && RunTo(NewSession(cfg), es[..|es| - 1], peer).Some?
    requires Resets(RunTo(NewSession(cfg), es[..|es| - 1], peer).value, es[|es| - 1], key)
    ensures WasReset(cfg, es, peer, key)
  {
    hide RunTo, Resets;
    assert ResetAt(cfg, es, peer, |es| - 1, key);
  }

  lemma {:induction false} SweptIsDown(cfg: Config, es: seq<Event>, peer: Peer, key: Key)
    requires RunTo(NewSession(cfg), es, peer).Some?
    ensures var s := RunTo(NewSession(cfg), es, peer).value;
            HasObj(s, key) && Obj(s, key).core.sclosed ==> s.shutdown == Down
    decreases |es|
  {
    if es != [] {
      var n := |es| - 1;
      var s, t := RunTo(NewSession(cfg), es[..n], peer).value, RunTo(NewSession(cfg), es, peer).value;
      SweptIsDown(cfg, es[..n], peer, key);
      StepMarks(s, es[n], key);
      hide SessionStep, Resets;
    }
  }

  /**
   * Over every run and with any peer: a read or a write says that its stream was reset only if the peer
   * reset it or the accept queue was full; that the session has ended only after the sweep; and a write
   * that the stream is half-closed only after `Close`.
   */
  lemma {:induction false} RefusalsAreTrue(cfg: Config, es: seq<Event>, peer: Peer, key: Key, cap: nat, left: nat)
    requires RunTo(NewSession(cfg), es, peer).Some? && 0 < cap
    requires HasObj(RunTo(NewSession(cfg), es, peer).value, key)
    requires 0 <= Obj(RunTo(NewSession(cfg), es, peer).value, key).core.sendWin
    ensures var s := RunTo(NewSession(cfg), es, peer).value; var c := Obj(s, key).core;
            var (r, w) := (Drain(c, cap).0, Reserve(c, left, cfg.maxPayload).0);
            && (r.ReadReset? || w.WriteReset? ==> c.reset && WasReset(cfg, es, peer, key))
            && (r.ReadSessionClosed? || w.WriteSessionClosed? ==> s.shutdown == Down)
            && (w.WriteHalfClosed? ==> c.finSent)
            && (r.ReadWait? ==> ReaderSleeps(c)) && (w.WriteWait? ==> WriterSleeps(c))
  {
    MarkedWasReset(cfg, es, peer, key);
    SweptIsDown(cfg, es, peer, key);
    hide RunTo, WasReset;
  }
}
