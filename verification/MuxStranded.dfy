/**
 * Which runs leave somebody asleep for ever. `handleSYN` looks neither at `closed` nor at the parity of
 * the id; each of the two gaps is closed by exactly one condition on the SYN frames that are taken.
 */
module MuxStranded {
  import opened Bytes
  import opened MuxStream
  import opened MuxSession
  import opened MuxOrphan
  import T = TargetCodec

  // ----- A SYN taken after the shutdown -----

  /** In the i-th step of the run a SYN is taken although the sweep is over. */
  predicate LateAt(cfg: Config, es: seq<Event>, peer: Peer, i: nat)
    requires i < |es|
  {
    var r := RunTo(NewSession(cfg), es[..i], peer);
    r.Some? && r.value.shutdown == Down && TakesSyn(r.value, es[i])
  }

  ghost predicate LateSyn(cfg: Config, es: seq<Event>, peer: Peer) {
    exists i :: 0 <= i < |es| && LateAt(cfg, es, peer, i)
  }

  /** After i steps the session is down and its table is not empty. */
  predicate TableAfterShutdown(cfg: Config, es: seq<Event>, peer: Peer, i: nat)
    requires i <= |es|
  {
    var r := RunTo(NewSession(cfg), es[..i], peer);
    r.Some? && r.value.shutdown == Down && r.value.live != {}
  }

  predicate FlagStands(s: Session) {
    s.shutdown == Flagged || s.shutdown == Down ==> s.closed
  }

  lemma CallKeepsTable(s: Session, e: Event)
    requires IsCall(e) && CallStep(s, e).Some?
    ensures var t := CallStep(s, e).value.s; t.live <= s.live && t.closed == s.closed && t.shutdown == s.shutdown
  {
    hide StreamStep;
  }

  lemma RecvKeepsTable(s: Session, m: Msg)
    requires RecvStep(s, m).Some?
    ensures var t := RecvStep(s, m).value.s; t.closed == s.closed && t.shutdown == s.shutdown
    ensures TakesSyn(s, Recv(m)) ==> RecvStep(s, m).value.s.live == s.live + {m.id}
    ensures !TakesSyn(s, Recv(m)) ==> RecvStep(s, m).value.s.live <= s.live
  {
    hide T.Parse, Push;
  }

  /** Once the session is down, only a SYN puts a stream into the table. */
  lemma StepKeepsTable(s: Session, e: Event)
    requires FlagStands(s) && (s.shutdown == Down ==> s.live == {}) && SessionStep(s, e).Some?
    ensures var t := SessionStep(s, e).value.s;
            FlagStands(t) && (t.shutdown == Down && !(s.shutdown == Down && TakesSyn(s, e)) ==> t.live == {})
  {
    hide T.Parse, CanPut;
    if IsCall(e) {
      CallKeepsTable(s, e);
    } else if e.Recv? {
      RecvKeepsTable(s, e.m);
    }
  }

  lemma PrefixIsTimely(cfg: Config, es: seq<Event>, i: nat, peer: Peer)
    requires i <= |es| && !LateSyn(cfg, es, peer)
    ensures !LateSyn(cfg, es[..i], peer)
  {
    hide RunTo, TakesSyn;
    forall j | 0 <= j < i ensures !LateAt(cfg, es[..i], peer, j) {
      assert es[..i][..j] == es[..j];
      assert !LateAt(cfg, es, peer, j);
    }
  }

  lemma {:induction false} TimelySyns(cfg: Config, es: seq<Event>, peer: Peer)
    requires RunTo(NewSession(cfg), es, peer).Some? && !LateSyn(cfg, es, peer)
    ensures var s := RunTo(NewSession(cfg), es, peer).value; FlagStands(s) && (s.shutdown == Down ==> s.live == {})
    decreases |es|
  {
    if es != [] {
      var n := |es| - 1;
      var pre := es[..n];
      hide TakesSyn, SessionStep;
      PrefixIsTimely(cfg, es, n, peer);
      TimelySyns(cfg, pre, peer);
      assert !LateAt(cfg, es, peer, n);
      StepKeepsTable(RunTo(NewSession(cfg), pre, peer).value, es[n]);
    }
  }

  lemma {:induction false} PrefixRuns(s: Session, es: seq<Event>, i: nat, peer: Peer)
    requires RunTo(s, es, peer).Some? && i <= |es|
    ensures RunTo(s, es[..i], peer).Some?
    ensures RunTo(s, es[..i], peer).value.opens <= RunTo(s, es, peer).value.opens
    decreases |es|
  {
    if i == |es| {
      assert es[..i] == es;
    } else {
      var pre := es[..|es| - 1];
      PrefixRuns(s, pre, i, peer);
      assert pre[..i] == es[..i];
      StepKeepsConfig(RunTo(s, pre, peer).value, es[|es| - 1]);
    }
  }

  /** One more step of a prefix. */
  lemma NextOfRun(s: Session, es: seq<Event>, i: nat, peer: Peer)
    requires RunTo(s, es, peer).Some? && i < |es|
    ensures RunTo(s, es[..i], peer).Some? && RunTo(s, es[..i + 1], peer).Some?
    ensures StepTo(RunTo(s, es[..i], peer).value, es[i], peer) == RunTo(s, es[..i + 1], peer)
  {
    PrefixRuns(s, es, i, peer);
    PrefixRuns(s, es, i + 1, peer);
    assert es[..i + 1][..i] == es[..i];
  }

  /**
   * Whoever the peer is: the table of a session that is down ever holds a stream exactly if a SYN is
   * taken after the sweep.
   */
  lemma {:induction false} TableStaysEmptyExactly(cfg: Config, es: seq<Event>, peer: Peer)
    requires RunTo(NewSession(cfg), es, peer).Some?
    ensures (exists i :: 0 <= i <= |es| && TableAfterShutdown(cfg, es, peer, i)) <==> LateSyn(cfg, es, peer)
  {
    hide TakesSyn, SessionStep;
    if LateSyn(cfg, es, peer) {
      var i :| 0 <= i < |es| && LateAt(cfg, es, peer, i);
      NextOfRun(NewSession(cfg), es, i, peer);
      LateSynRegisters(RunTo(NewSession(cfg), es[..i], peer).value, es[i], peer);
      assert TableAfterShutdown(cfg, es, peer, i + 1);
    } else if i :| 0 <= i <= |es| && TableAfterShutdown(cfg, es, peer, i) {
      PrefixIsTimely(cfg, es, i, peer);
      TimelySyns(cfg, es[..i], peer);
    }
  }

  /** The stream a late SYN makes is in the table, its reader sleeps, and the sweep is over. */
  lemma LateSynRegisters(s: Session, e: Event, peer: Peer)
    requires s.shutdown == Down && TakesSyn(s, e) && StepTo(s, e, peer).Some?
    ensures var t := StepTo(s, e, peer).value; t.shutdown == Down && e.m.id in t.live
    ensures peer == FreshIds ==> var t := StepTo(s, e, peer).value; Unmarked(t, Key(e.m.id, 0)) && Stranded(t, e.m.id)
  {
    hide T.Parse;
  }

  /**
   * A caller can sleep on the first stream of this id although the session is down. Nobody ever holds a
   * stream whose `Open` failed, and one that is about to be marked reset is not lost.
   */
  predicate Stranded(s: Session, id: u32) {
    && s.shutdown == Down && HasObj(s, Key(id, 0)) && !IsResetting(s, Key(id, 0))
    && var st := Obj(s, Key(id, 0));
       st.origin != Refused && (ReaderSleeps(st.core) || WriterSleeps(st.core))
  }

  predicate StrandedAt(cfg: Config, es: seq<Event>, i: nat, id: u32)
    requires i <= |es|
  {
    var r := RunTo(NewSession(cfg), es[..i], FreshIds);
    r.Some? && Stranded(r.value, id)
  }

  /**
   * With a peer that keeps to ids of its own and repeats none, a caller can ever be asleep after the
   * shutdown exactly if a SYN is taken after the sweep.
   */
  lemma {:induction false} StrandedExactly(cfg: Config, es: seq<Event>)
    requires RunTo(NewSession(cfg), es, FreshIds).Some? && RunTo(NewSession(cfg), es, FreshIds).value.opens <= U31
    ensures (exists i: nat, id: u32 :: i <= |es| && StrandedAt(cfg, es, i, id)) <==> LateSyn(cfg, es, FreshIds)
  {
    hide T.Parse, SessionStep;
    if LateSyn(cfg, es, FreshIds) {
      var i :| 0 <= i < |es| && LateAt(cfg, es, FreshIds, i);
      NextOfRun(NewSession(cfg), es, i, FreshIds);
      LateSynRegisters(RunTo(NewSession(cfg), es[..i], FreshIds).value, es[i], FreshIds);
      assert StrandedAt(cfg, es, i + 1, es[i].m.id);
    } else if i: nat, id: u32 :| i <= |es| && StrandedAt(cfg, es, i, id) {
      PrefixIsTimely(cfg, es, i, FreshIds);
      TimelySyns(cfg, es[..i], FreshIds);
      PrefixRuns(NewSession(cfg), es, i, FreshIds);
      RunKeepsInv(cfg, es[..i], FreshIds);
      hide RunTo, LateSyn;
      assert IdOk(RunTo(NewSession(cfg), es[..i], FreshIds).value, id);
    }
  }

  /** The stream of a late SYN is never marked, however the run goes on. */
  lemma {:induction false} LateStreamStaysUnmarked(cfg: Config, es: seq<Event>, i: nat)
    requires RunTo(NewSession(cfg), es, FreshIds).Some? && i < |es| && LateAt(cfg, es, FreshIds, i)
    ensures Unmarked(RunTo(NewSession(cfg), es, FreshIds).value, Key(es[i].m.id, 0))
    decreases |es|
  {
    var n := |es| - 1;
    var pre := es[..n];
    hide TakesSyn, SessionStep;
    if i == n {
      LateSynRegisters(RunTo(NewSession(cfg), pre, FreshIds).value, es[n], FreshIds);
    } else {
      assert pre[..i] == es[..i];
      LateStreamStaysUnmarked(cfg, pre, i);
      StepKeepsUnmarked(RunTo(NewSession(cfg), pre, FreshIds).value, es[n], Key(es[i].m.id, 0));
    }
  }

  // ----- A SYN with an id of the other side -----

  lemma RunSnoc(s: Session, es: seq<Event>, e: Event, peer: Peer)
    requires RunTo(s, es, peer).Some?
    ensures RunTo(s, es + [e], peer) == StepTo(RunTo(s, es, peer).value, e, peer)
  {
    assert (es + [e])[..|es|] == es;
  }

  /** Our first id, registered by the peer: the first stream of the id has the given flags and closer. */
  predicate Stolen(s: Session, cfg: Config, origin: Origin, finRecv: bool, closer: Closer) {
    var id := FirstId(cfg.initiator);
    && s.cfg == cfg && s.nextID == id && !s.closed && s.shutdown == Up && s.opens == 0 && s.loop == Ready
    && id in s.objs && |s.objs[id]| == 1 && id in s.live
    && s.objs[id][0].origin == origin && s.objs[id][0].core.finRecv == finRecv && s.objs[id][0].closer == closer
    && (closer == CIdle ==> !s.objs[id][0].core.finSent)
  }

  /** A queue for inbound streams, and room for every address block. */
  predicate Roomy(cfg: Config) {
    0 < cfg.depth && 260 <= cfg.maxPayload
  }

  /** The peer sends a SYN with this id and the stream is queued. */
  lemma SynIsQueued(s: Session, pre: seq<Event>, id: u32, peer: Peer) returns (es: seq<Event>)
    requires var r := RunTo(s, pre, peer);
             && r.Some? && r.value.loop == Ready && id !in r.value.objs && |r.value.acceptQ| < r.value.cfg.depth
             && (peer != AnyPeer ==> !Own(r.value.cfg.initiator, id))
    ensures var r := RunTo(s, pre, peer).value; var st := NewStream(T.UNSPECIFIED, r.cfg.window, Queued);
            RunTo(s, es, peer) == Some(Register(r, id, st).(acceptQ := r.acceptQ + [Key(id, 0)]))
  {
    T.RoundTripExact(T.UNSPECIFIED);
    hide RunTo, T.Encode, T.Parse;
    var syn := Recv(Syn(id, T.Encode(T.UNSPECIFIED)));
    RunSnoc(s, pre, syn, peer);
    RunSnoc(s, pre + [syn], LoopStep, peer);
    es := pre + [syn] + [LoopStep];
  }

  lemma FinIsHeard(s: Session, cfg: Config)
    requires Stolen(s, cfg, Queued, false, CIdle)
    ensures var t := StepTo(s, Recv(Fin(FirstId(cfg.initiator))), AnyPeer);
            t.Some? && Stolen(t.value, cfg, Queued, true, CIdle) && t.value.acceptQ == s.acceptQ
  {
  }

  lemma StolenIsAccepted(s: Session, cfg: Config)
    requires Stolen(s, cfg, Queued, true, CIdle) && s.acceptQ == [Key(FirstId(cfg.initiator), 0)]
    ensures var t := StepTo(s, Accept, AnyPeer); t.Some? && Stolen(t.value, cfg, Accepted, true, CIdle)
  {
  }

  lemma StolenIsClosed(s: Session, cfg: Config)
    requires Stolen(s, cfg, Accepted, true, CIdle)
    ensures var t := StepTo(s, Close(Key(FirstId(cfg.initiator), 0)), AnyPeer);
            t.Some? && Stolen(t.value, cfg, Accepted, true, CRemove)
  {
  }

  /** The peer ends its stream, and our caller closes it too: the stream is about to be removed by id. */
  lemma PeerStreamCloses(s0: Session, pre: seq<Event>, cfg: Config) returns (es: seq<Event>)
    requires var r := RunTo(s0, pre, AnyPeer);
             r.Some? && Stolen(r.value, cfg, Queued, false, CIdle) && r.value.acceptQ == [Key(FirstId(cfg.initiator), 0)]
    ensures var r := RunTo(s0, es, AnyPeer); r.Some? && Stolen(r.value, cfg, Accepted, true, CRemove)
  {
    hide RunTo, StepTo, Stolen;
    var key := Key(FirstId(cfg.initiator), 0);
    FinIsHeard(RunTo(s0, pre, AnyPeer).value, cfg);
    RunSnoc(s0, pre, Recv(Fin(key.id)), AnyPeer);
    es := pre + [Recv(Fin(key.id))];
    StolenIsAccepted(RunTo(s0, es, AnyPeer).value, cfg);
    RunSnoc(s0, es, Accept, AnyPeer);
    es := es + [Accept];
    StolenIsClosed(RunTo(s0, es, AnyPeer).value, cfg);
    RunSnoc(s0, es, Close(key), AnyPeer);
    es := es + [Close(key)];
  }

  /** The stream `Open` made under the same id, with the peer's stream still to be removed by id. */
  predicate Doubled(s: Session, cfg: Config, origin: Origin, live: bool) {
    var id := FirstId(cfg.initiator);
    && s.cfg == cfg && !s.closed && s.shutdown == Up && s.opens == 1 && s.loop == Ready
    && id in s.objs && |s.objs[id]| == 2 && (live <==> id in s.live)
    && s.objs[id][1].target == T.UNSPECIFIED && s.objs[id][1].origin == origin && ReaderSleeps(s.objs[id][1].core)
    && (live ==> s.objs[id][0].closer == CRemove)
  }

  lemma OpenDoubles(s: Session, cfg: Config)
    requires Stolen(s, cfg, Accepted, true, CRemove)
    ensures var t := StepTo(s, Open(T.UNSPECIFIED), AnyPeer); t.Some? && Doubled(t.value, cfg, Dialing, true)
  {
  }

  lemma OpenReturns(s: Session, cfg: Config)
    requires Roomy(cfg) && Doubled(s, cfg, Dialing, true)
    ensures var t := StepTo(s, OpenPut(Key(FirstId(cfg.initiator), 1)), AnyPeer); t.Some? && Doubled(t.value, cfg, Dialed, true)
  {
    T.EncodedSize(T.UNSPECIFIED);
    hide T.Encode;
  }

  lemma RemovalHitsOurs(s: Session, cfg: Config)
    requires Doubled(s, cfg, Dialed, true)
    ensures var t := StepTo(s, CloseRemove(Key(FirstId(cfg.initiator), 0)), AnyPeer);
            t.Some? && Doubled(t.value, cfg, Dialed, false)
  {
  }

  lemma OpenIsDeleted(s0: Session, pre: seq<Event>, cfg: Config) returns (es: seq<Event>)
    requires Roomy(cfg)
    requires var r := RunTo(s0, pre, AnyPeer); r.Some? && Stolen(r.value, cfg, Accepted, true, CRemove)
    ensures var r := RunTo(s0, es, AnyPeer); r.Some? && Doubled(r.value, cfg, Dialed, false)
  {
    hide RunTo, StepTo, Stolen, Doubled;
    var id := FirstId(cfg.initiator);
    OpenDoubles(RunTo(s0, pre, AnyPeer).value, cfg);
    RunSnoc(s0, pre, Open(T.UNSPECIFIED), AnyPeer);
    es := pre + [Open(T.UNSPECIFIED)];
    OpenReturns(RunTo(s0, es, AnyPeer).value, cfg);
    RunSnoc(s0, es, OpenPut(Key(id, 1)), AnyPeer);
    es := es + [OpenPut(Key(id, 1))];
    RemovalHitsOurs(RunTo(s0, es, AnyPeer).value, cfg);
    RunSnoc(s0, es, CloseRemove(Key(id, 0)), AnyPeer);
    es := es + [CloseRemove(Key(id, 0))];
  }

  /** A shutdown carried through without anything in between. */
  lemma ShutdownRun(s0: Session, pre: seq<Event>, peer: Peer) returns (es: seq<Event>)
    requires var r := RunTo(s0, pre, peer); r.Some? && r.value.shutdown == Up
    ensures RunTo(s0, es, peer) == Some(ShutSweepStep(RunTo(s0, pre, peer).value.(shutdown := Flagged, closed := true)).value.s)
  {
    hide RunTo, CanPut;
    RunSnoc(s0, pre, ShutStart(REASON_NORMAL), peer);
    es := pre + [ShutStart(REASON_NORMAL)];
    RunSnoc(s0, es, ShutFlag, peer);
    es := es + [ShutFlag];
    RunSnoc(s0, es, ShutSweep, peer);
    es := es + [ShutSweep];
  }

  /** After the shutdown a stream `Open` returned has a reader asleep, and nothing will ever mark it. */
  predicate Orphaned(s: Session, key: Key) {
    && Unmarked(s, key) && Own(s.cfg.initiator, key.id) && !IsResetting(s, key)
    && Obj(s, key).origin == Dialed && ReaderSleeps(Obj(s, key).core)
  }

  predicate OrphanRun(cfg: Config, es: seq<Event>, peer: Peer, key: Key) {
    var r := RunTo(NewSession(cfg), es, peer);
    r.Some? && r.value.opens <= U31 && Orphaned(r.value, key)
  }

  ghost predicate CanOrphan(cfg: Config, peer: Peer) {
    exists es: seq<Event>, key: Key :: OrphanRun(cfg, es, peer, key)
  }

  lemma ShutdownMissesIt(pre: seq<Event>, cfg: Config) returns (es: seq<Event>)
    requires var r := RunTo(NewSession(cfg), pre, AnyPeer); r.Some? && Doubled(r.value, cfg, Dialed, false)
    ensures OrphanRun(cfg, es, AnyPeer, Key(FirstId(cfg.initiator), 1))
  {
    es := ShutdownRun(NewSession(cfg), pre, AnyPeer);
    hide RunTo;
  }

  /**
   * A peer that opens a stream under an id of our side makes `Open` overwrite the table entry; the
   * close of the peer's stream then deletes ours. By `LateStreamIsNeverMarked` its reader sleeps for ever.
   */
  lemma WrongParityOrphans(cfg: Config)
    requires Roomy(cfg)
    ensures CanOrphan(cfg, AnyPeer)
  {
    var s0, id := NewSession(cfg), FirstId(cfg.initiator);
    assert RunTo(s0, [], AnyPeer) == Some(s0);
    hide RunTo;
    var es := SynIsQueued(s0, [], id, AnyPeer);
    assert Stolen(RunTo(s0, es, AnyPeer).value, cfg, Queued, false, CIdle);
    hide Stolen, Doubled, OrphanRun;
    es := PeerStreamCloses(s0, es, cfg);
    es := OpenIsDeleted(s0, es, cfg);
    es := ShutdownMissesIt(es, cfg);
    assert OrphanRun(cfg, es, AnyPeer, Key(id, 1));
  }

  /** In a state with the invariant, a stream `Open` returned is not left behind by the shutdown. */
  lemma KeptIsNotOrphaned(s: Session, peer: Peer, key: Key)
    requires Inv(s, peer)
    ensures !Orphaned(s, key)
  {
    assert Own(s.cfg.initiator, key.id) ==> IdOk(s, key.id);
    hide Inv;
  }

  /**
   * A stream that `Open` returned can be left asleep for ever exactly if the peer may have a SYN taken
   * that carries an id of our side.
   */
  lemma {:induction false} OrphansExactly(cfg: Config, peer: Peer)
    requires Roomy(cfg)
    ensures CanOrphan(cfg, peer) <==> peer == AnyPeer
  {
    hide RunTo, Inv, Orphaned;
    if peer == AnyPeer {
      WrongParityOrphans(cfg);
    } else {
      forall es: seq<Event>, key: Key ensures !OrphanRun(cfg, es, peer, key) {
        var r := RunTo(NewSession(cfg), es, peer);
        if r.Some? && r.value.opens <= U31 {
          RunKeepsInv(cfg, es, peer);
          KeptIsNotOrphaned(r.value, peer, key);
        }
      }
    }
  }

  // ----- A late SYN whose stream is handed out -----

  /** The stream is in the caller's hands after the shutdown, its reader asleep, and nothing will ever mark it. */
  predicate LostInbound(cfg: Config, es: seq<Event>, key: Key) {
    var r := RunTo(NewSession(cfg), es, FreshIds);
    && r.Some? && r.value.opens <= U31 && Unmarked(r.value, key) && key.id in r.value.live
    && Obj(r.value, key).origin == Accepted && ReaderSleeps(Obj(r.value, key).core)
  }

  lemma AcceptTakes(s: Session, key: Key)
    requires s.acceptQ == [key] && HasObj(s, key)
    ensures StepTo(s, Accept, FreshIds) == Some(SetObj(s, key, Obj(s, key).(origin := Accepted)).(acceptQ := []))
  {
    assert [key][1..] == [];
  }

  /** Under every configuration that queues streams, a well-behaved peer can bring that about. */
  lemma {:induction false} SynAfterSweepOrphans(cfg: Config)
    requires 0 < cfg.depth
    ensures exists es: seq<Event>, key: Key :: LostInbound(cfg, es, key)
  {
    var s0, id := NewSession(cfg), FirstId(!cfg.initiator);
    assert RunTo(s0, [], FreshIds) == Some(s0);
    hide RunTo;
    var es := ShutdownRun(s0, [], FreshIds);
    assert RunTo(s0, es, FreshIds).value.objs.Keys == {};
    es := SynIsQueued(s0, es, id, FreshIds);
    RunSnoc(s0, es, Accept, FreshIds);
    hide StepTo;
    AcceptTakes(RunTo(s0, es, FreshIds).value, Key(id, 0));
    assert LostInbound(cfg, es + [Accept], Key(id, 0));
  }
}
