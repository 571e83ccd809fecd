/** Inbound streams are handed out in the order in which they were queued, in every run and with any peer. */
module MuxAccept {
  import opened MuxSession
  import opened MuxOrphan
  import T = TargetCodec

  /** The stream that `Accept` returns in this step, if it is one. */
  function Taken(s: Session, e: Event): seq<Key> {
    if e.Accept? && s.acceptQ != [] then [s.acceptQ[0]] else []
  }

  /** The stream the receive loop finds room for in this step. */
  function Admitted(s: Session, e: Event): seq<Key> {
    if e.LoopStep? && s.loop.Offering? && |s.acceptQ| < s.cfg.depth then [s.loop.key] else []
  }

  /** The streams taken in a run, in order. */
  function TakenIn(cfg: Config, es: seq<Event>, peer: Peer): seq<Key>
    requires RunTo(NewSession(cfg), es, peer).Some?
  {
    if es == [] then []
    else
      var pre := es[..|es| - 1];
      TakenIn(cfg, pre, peer) + Taken(RunTo(NewSession(cfg), pre, peer).value, es[|es| - 1])
  }

  /** The streams admitted in a run, in order. */
  function AdmittedIn(cfg: Config, es: seq<Event>, peer: Peer): seq<Key>
    requires RunTo(NewSession(cfg), es, peer).Some?
  {
    if es == [] then []
    else
      var pre := es[..|es| - 1];
      AdmittedIn(cfg, pre, peer) + Admitted(RunTo(NewSession(cfg), pre, peer).value, es[|es| - 1])
  }

  lemma FrameKeepsQueue(s: Session, m: Msg)
    requires RecvStep(s, m).Some?
    ensures RecvStep(s, m).value.s.acceptQ == s.acceptQ
  {
    hide T.Parse;
  }

  lemma CallKeepsQueue(s: Session, e: Event)
    requires IsCall(e) && CallStep(s, e).Some?
    ensures CallStep(s, e).value.s.acceptQ == s.acceptQ
  {
    hide StreamStep;
  }

  /** What one step takes from the front of the queue and puts at its end; what is taken is its user's from then on. */
  lemma QueueStep(s: Session, e: Event)
    requires SessionStep(s, e).Some?
    ensures var t := SessionStep(s, e).value.s;
            && t.cfg == s.cfg && Taken(s, e) + t.acceptQ == s.acceptQ + Admitted(s, e)
            && (|s.acceptQ| <= s.cfg.depth ==> |t.acceptQ| <= s.cfg.depth)
            && (e.Accept? ==> s.acceptQ != [] && HasObj(t, s.acceptQ[0]) && Obj(t, s.acceptQ[0]).origin == Accepted)
  {
    StepKeepsConfig(s, e);
    hide CallStep, RecvStep, CanPut, Sweep;
    if IsCall(e) {
      CallKeepsQueue(s, e);
    } else if e.Recv? {
      FrameKeepsQueue(s, e.m);
    }
  }

  lemma QueueMoves(before: seq<Key>, out: seq<Key>, q: seq<Key>, p: seq<Key>, more: seq<Key>)
    requires out + q == p + more
    ensures before + p + more == (before + out) + q
  {
    assert before + p + more == before + (p + more);
  }

  lemma Unfolded(cfg: Config, es: seq<Event>, peer: Peer)
    requires es != [] && RunTo(NewSession(cfg), es, peer).Some?
    ensures var pre, e := es[..|es| - 1], es[|es| - 1];
            && RunTo(NewSession(cfg), pre, peer).Some?
            && var s := RunTo(NewSession(cfg), pre, peer).value;
            && SessionStep(s, e).Some? && RunTo(NewSession(cfg), es, peer).value == SessionStep(s, e).value.s
            && TakenIn(cfg, es, peer) == TakenIn(cfg, pre, peer) + Taken(s, e)
            && AdmittedIn(cfg, es, peer) == AdmittedIn(cfg, pre, peer) + Admitted(s, e)
  {
    hide SessionStep, Taken, Admitted;
  }

  /**
   * Whatever the peer does: the streams accepted so far, followed by those still queued, are the streams the
   * receive loop found room for, in order; and the queue never grows beyond its depth.
   */
  lemma {:induction false} AcceptedInOrder(cfg: Config, es: seq<Event>, peer: Peer)
    requires RunTo(NewSession(cfg), es, peer).Some?
    ensures var s := RunTo(NewSession(cfg), es, peer).value;
            && s.cfg == cfg && |s.acceptQ| <= cfg.depth
            && AdmittedIn(cfg, es, peer) == TakenIn(cfg, es, peer) + s.acceptQ
    decreases |es|
  {
    if es != [] {
      hide *;
      var pre, e := es[..|es| - 1], es[|es| - 1];
      Unfolded(cfg, es, peer);
      var s, t := RunTo(NewSession(cfg), pre, peer).value, RunTo(NewSession(cfg), es, peer).value;
      AcceptedInOrder(cfg, pre, peer);
      QueueStep(s, e);
      QueueMoves(TakenIn(cfg, pre, peer), Taken(s, e), t.acceptQ, s.acceptQ, Admitted(s, e));
    }
  }
}
