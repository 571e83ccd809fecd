/** End of file is exact for callers that do not write after or during `Close`, and only for those. */
module MuxLateWrite {
  import opened Bytes
  import opened MuxStream
  import opened MuxSession
  import opened MuxNet
  import opened MuxRun
  import opened MuxPolite
  import opened MuxWindows
  import O = MuxOrphan
  import F = FrameCodec
  import T = TargetCodec

  /** `Read` of the right side would report end of file although the left side was given bytes that were not read. */
  predicate EarlyEof(n: Net, id: u32) {
    var (src, dst) := (EndOf(n.a, id), EndOf(n.b, id));
    dst.obj.Some? && AtEof(dst.obj.value.core) && (src.obj.Some? ==> Delivered(dst) != src.obj.value.written)
  }

  predicate EarlyEofRun(c: Config, d: Config, r: Run, polite: bool, id: u32) {
    RunFrom(r, Start(c, d)) && FewOpens(Last(r)) && (polite ==> PoliteRun(r)) && EarlyEof(Last(r), id)
  }

  ghost predicate CanCutOff(c: Config, d: Config, polite: bool) {
    exists r: Run, id: u32 :: EarlyEofRun(c, d, r, polite, id)
  }

  /** The FIN has been written and has arrived; the window is as it was. */
  predicate Ended(n: Net, c: Config) {
    var id := O.FirstId(c.initiator);
    && Idle(n, c, [], c.window) && n.a.opens == 1 && n.b.opens == 0
    && HasObj(n.b, Key(id, 0)) && AtEof(Obj(n.b, Key(id, 0)).core) && Obj(n.b, Key(id, 0)).delivered == []
  }

  lemma FinLeaves(n: Net, c: Config, d: Config) returns (m: Net)
    requires Peers(c, d) && Reachable(c, d, n) && Filled(n, c, d, 0)
    requires First(n, c, []) == NewStream(T.UNSPECIFIED, c.window, Dialed)
    ensures Reachable(c, d, m) && m.b == n.b && Idle(m, c, [Fin(O.FirstId(c.initiator))], c.window)
  {
    hide Reachable, NetStep;
    var key := Key(O.FirstId(c.initiator), 0);
    CallOnFirst(n, c, [], Close(key));
    Follow(c, d, n, true, Local(Close(key)));
    var n1 := NetStep(n, true, Local(Close(key))).value;
    CallOnFirst(n1, c, [], ClosePut(key));
    Follow(c, d, n1, true, Local(ClosePut(key)));
    m := NetStep(n1, true, Local(ClosePut(key))).value;
  }

  lemma FinArrives(n: Net, c: Config, d: Config)
    requires Peers(c, d) && Receiver(n, O.FirstId(c.initiator), d, Some(0)) && Idle(n, c, [Fin(O.FirstId(c.initiator))], c.window)
    ensures var m := NetStep(n, false, Deliver); m.Some? && Ended(m.value, c)
  {
    EmittedFramesAreUnderstood(Fin(O.FirstId(c.initiator)));
    hide F.Valid;
  }

  /** A byte written after `Close` goes out behind the FIN: the reader has been told that there is no more. */
  lemma LateByteIsCutOff(c: Config, d: Config)
    requires Peers(c, d)
    ensures CanCutOff(c, d, false)
  {
    var id := O.FirstId(c.initiator);
    var n0 := StreamStands(c, d);
    var n1 := FinLeaves(n0, c, d);
    FinArrives(n1, c, d);
    hide NetStep, RunFrom;
    Follow(c, d, n1, false, Deliver);
    var n2 := NetStep(n1, false, Deliver).value;
    var n3 := ByteLeaves(n2, c, d, c.window);
    assert EarlyEof(n3, id);
    var r: Run :| RunFrom(r, Start(c, d)) && Last(r) == n3;
    assert EarlyEofRun(c, d, r, false, id);
  }

  /** Callers must be polite for end of file to be exact, and it is enough. */
  lemma {:induction false} EofExactlyIfPolite(c: Config, d: Config, polite: bool)
    requires Mirrored(c, d) && 0 < c.depth && 0 < d.depth
    ensures CanCutOff(c, d, polite) <==> !polite
  {
    if polite {
      hide RunFrom, PoliteRun;
      forall r: Run, id: u32 ensures !EarlyEofRun(c, d, r, true, id) {
        if RunFrom(r, Start(c, d)) && FewOpens(Last(r)) && PoliteRun(r) {
          ExactEof(c, d, r, true, id);
        }
      }
    } else {
      LateByteIsCutOff(c, d);
    }
  }
}
