/** The initial windows of two peers must agree: exactly then honest peers never kill the session. */
module MuxWindows {
  import opened Bytes
  import opened MuxStream
  import opened MuxSession
  import opened MuxNet
  import opened MuxRun
  import opened MuxSafety
  import O = MuxOrphan
  import F = FrameCodec
  import T = TargetCodec

  // ----- Networks that can be reached -----

  ghost predicate Reachable(c: Config, d: Config, n: Net) {
    exists r: Run :: RunFrom(r, Start(c, d)) && Last(r) == n
  }

  lemma StartReachable(c: Config, d: Config)
    ensures Reachable(c, d, Start(c, d))
  {
    var r := Run([Start(c, d)], []);
    assert RunFrom(r, Start(c, d)) && Last(r) == Start(c, d);
  }

  lemma Follow(c: Config, d: Config, n: Net, left: bool, act: Action)
    requires Reachable(c, d, n) && NetStep(n, left, act).Some?
    ensures Reachable(c, d, NetStep(n, left, act).value)
  {
    hide NetStep;
    var m, mv := NetStep(n, left, act).value, Move(left, act);
    var r: Run :| RunFrom(r, Start(c, d)) && Last(r) == n;
    ThenIsRun(r, Start(c, d), mv, m);
    assert RunFrom(Then(r, mv, m), Start(c, d)) && Last(Then(r, mv, m)) == m;
  }

  /** A run seen from the other side. */
  function FlipRun(r: Run): Run {
    Run(seq(|r.states|, i requires 0 <= i < |r.states| => Flip(r.states[i])),
        seq(|r.moves|, i requires 0 <= i < |r.moves| => Move(!r.moves[i].left, r.moves[i].act)))
  }

  lemma FlipReachable(c: Config, d: Config, n: Net)
    requires Reachable(d, c, n)
    ensures Reachable(c, d, Flip(n))
  {
    var r: Run :| RunFrom(r, Start(d, c)) && Last(r) == n;
    var f := FlipRun(r);
    hide StepA;
    forall i | 0 <= i < |f.moves| ensures Takes(f, i) {
      assert Takes(r, i);
    }
    assert RunFrom(f, Start(c, d)) && Last(f) == Flip(n);
  }

  // ----- Filling the buffer of the other end -----

  /** Side A has opened its first stream, and these frames are on their way. */
  predicate Sender(n: Net, c: Config, ab: seq<Msg>) {
    var id := O.FirstId(c.initiator);
    n.a.cfg == c && !n.a.closed && n.a.opens == 1 && n.ab == ab && id in n.a.objs && |n.a.objs[id]| == 1
  }

  function First(n: Net, c: Config, ab: seq<Msg>): Stream
    requires Sender(n, c, ab)
  {
    n.a.objs[O.FirstId(c.initiator)][0]
  }

  /** Side A's user is not in a call, and this much window is left. */
  predicate Idle(n: Net, c: Config, ab: seq<Msg>, window: int) {
    && Sender(n, c, ab)
    && var st := First(n, c, ab);
       st.origin == Dialed && st.writer == WIdle && !st.core.reset && st.core.sendWin == window
  }

  /** Side B has not heard of that stream, or holds `size` bytes of it unread. */
  predicate Receiver(n: Net, id: u32, d: Config, size: Option<nat>) {
    && n.b.cfg == d && n.b.opens == 0 && !n.b.fatal && n.b.loop == Ready
    && match size
       case None => n.b.live == {} && n.b.objs == map[] && n.b.acceptQ == []
       case Some(k) => id in n.b.live && id in n.b.objs && |n.b.objs[id]| == 1 && Holding(n.b.objs[id][0], k)
  }

  predicate Holding(st: Stream, k: nat) {
    |st.core.buf| == k && st.delivered == [] && !st.core.reset && !st.core.finSent
  }

  predicate Peers(c: Config, d: Config) {
    && c.initiator != d.initiator && 0 < c.window && 0 < d.window
    && c.maxPayload == d.maxPayload && 260 <= c.maxPayload
    && 0 < c.depth && 0 < d.depth
  }

  /** `k` bytes of side A's first stream lie unread at side B, and nothing else is going on. */
  predicate Filled(n: Net, c: Config, d: Config, k: nat) {
    Idle(n, c, [], c.window - k) && Receiver(n, O.FirstId(c.initiator), d, Some(k))
  }

  /** A call of side A on its first stream. */
  lemma CallOnFirst(n: Net, c: Config, ab: seq<Msg>, e: Event)
    requires Sender(n, c, ab) && IsCall(e) && e.key == Key(O.FirstId(c.initiator), 0)
    requires var s := StreamStep(c, false, First(n, c, ab), e); s.Some? && !s.value.drop
    ensures var s := StreamStep(c, false, First(n, c, ab), e).value; var m := NetStep(n, true, Local(e));
            && m.Some? && m.value.b == n.b
            && Sender(m.value, c, ab + s.out) && First(m.value, c, ab + s.out) == s.st
  {
    hide StreamStep;
  }

  lemma OpenFirst(c: Config, d: Config) returns (n: Net)
    requires Peers(c, d)
    ensures var ab := [Syn(O.FirstId(c.initiator), T.Encode(T.UNSPECIFIED))];
            && Reachable(c, d, n) && Receiver(n, O.FirstId(c.initiator), d, None)
            && Sender(n, c, ab) && First(n, c, ab) == NewStream(T.UNSPECIFIED, c.window, Dialed)
  {
    var n0, e := Start(c, d), OpenPut(Key(O.FirstId(c.initiator), 0));
    StartReachable(c, d);
    hide Reachable;
    Follow(c, d, n0, true, Local(Open(T.UNSPECIFIED)));
    var n1 := NetStep(n0, true, Local(Open(T.UNSPECIFIED))).value;
    assert Sender(n1, c, []) && First(n1, c, []) == NewStream(T.UNSPECIFIED, c.window, Dialing);
    assert Receiver(n1, O.FirstId(c.initiator), d, None);
    T.EncodedSize(T.UNSPECIFIED);
    hide T.Encode;
    CallOnFirst(n1, c, [], e);
    hide NetStep;
    Follow(c, d, n1, true, Local(e));
    n := NetStep(n1, true, Local(e)).value;
  }

  /** Side B has taken the SYN and is about to queue the stream. */
  predicate Offered(n: Net, id: u32, d: Config) {
    && n.b.cfg == d && n.b.opens == 0 && !n.b.fatal && n.b.loop == Offering(Key(id, 0)) && n.b.acceptQ == []
    && id in n.b.live && id in n.b.objs && |n.b.objs[id]| == 1 && Holding(n.b.objs[id][0], 0)
  }

  lemma SynArrives(n: Net, c: Config, d: Config)
    requires var ab := [Syn(O.FirstId(c.initiator), T.Encode(T.UNSPECIFIED))];
             Peers(c, d) && Receiver(n, O.FirstId(c.initiator), d, None) && Sender(n, c, ab)
    ensures var m := NetStep(n, false, Deliver);
            m.Some? && m.value.a == n.a && m.value.ab == [] && Offered(m.value, O.FirstId(c.initiator), d)
  {
    T.EncodedSize(T.UNSPECIFIED);
    T.RoundTripExact(T.UNSPECIFIED);
    EmittedFramesAreUnderstood(Syn(O.FirstId(c.initiator), T.Encode(T.UNSPECIFIED)));
    hide T.Encode, T.Parse, T.WellFormed, F.Valid;
  }

  lemma StreamIsQueued(n: Net, c: Config, d: Config)
    requires Peers(c, d) && Offered(n, O.FirstId(c.initiator), d)
    ensures var m := NetStep(n, false, Local(LoopStep));
            m.Some? && m.value.a == n.a && m.value.ab == n.ab && Receiver(m.value, O.FirstId(c.initiator), d, Some(0))
  {
  }

  /** A network in which side A has opened a stream that side B has queued. */
  lemma StreamStands(c: Config, d: Config) returns (n: Net)
    requires Peers(c, d)
    ensures Reachable(c, d, n) && Filled(n, c, d, 0) && First(n, c, []) == NewStream(T.UNSPECIFIED, c.window, Dialed)
  {
    hide Reachable, NetStep;
    var n0 := OpenFirst(c, d);
    SynArrives(n0, c, d);
    Follow(c, d, n0, false, Deliver);
    var n1 := NetStep(n0, false, Deliver).value;
    StreamIsQueued(n1, c, d);
    Follow(c, d, n1, false, Local(LoopStep));
    n := NetStep(n1, false, Local(LoopStep)).value;
  }

  /** One byte written and framed, whatever has been closed, if the window is not empty. */
  lemma ByteLeaves(n: Net, c: Config, d: Config, window: nat) returns (m: Net)
    requires Peers(c, d) && Reachable(c, d, n) && Idle(n, c, [], window) && 0 < window
    ensures Reachable(c, d, m) && m.b == n.b && Idle(m, c, [Data(O.FirstId(c.initiator), [0])], window - 1)
    ensures First(m, c, [Data(O.FirstId(c.initiator), [0])]).written == First(n, c, []).written + [0]
  {
    hide Reachable, NetStep;
    var p: seq<byte> := [0];
    var key := Key(O.FirstId(c.initiator), 0);
    assert p[..1] == p && p[1..] == [];
    CallOnFirst(n, c, [], Write(key, p));
    Follow(c, d, n, true, Local(Write(key, p)));
    var n1 := NetStep(n, true, Local(Write(key, p))).value;
    CallOnFirst(n1, c, [], WriteReserve(key));
    Follow(c, d, n1, true, Local(WriteReserve(key)));
    var n2 := NetStep(n1, true, Local(WriteReserve(key))).value;
    CallOnFirst(n2, c, [], WritePut(key));
    Follow(c, d, n2, true, Local(WritePut(key)));
    m := NetStep(n2, true, Local(WritePut(key))).value;
  }

  /** It is buffered while there is room, and taken for a violation when there is none. */
  lemma ByteArrives(n: Net, c: Config, d: Config, k: nat)
    requires Peers(c, d) && Receiver(n, O.FirstId(c.initiator), d, Some(k)) && k <= d.window
    requires Idle(n, c, [Data(O.FirstId(c.initiator), [0])], c.window - k - 1)
    ensures var m := NetStep(n, false, Deliver);
            m.Some? && FewOpens(m.value) && if k < d.window then Filled(m.value, c, d, k + 1) else m.value.b.fatal
  {
    EmittedFramesAreUnderstood(Data(O.FirstId(c.initiator), [0]));
    hide F.Valid;
  }

  /** Byte after byte, without a read, a sender with the larger window runs the receiver over. */
  lemma {:induction false} Overflow(n: Net, c: Config, d: Config, k: nat) returns (m: Net)
    requires Peers(c, d) && Reachable(c, d, n) && Filled(n, c, d, k) && k <= d.window < c.window
    ensures Reachable(c, d, m) && FewOpens(m) && m.b.fatal
    decreases d.window - k
  {
    hide Reachable;
    var n1 := ByteLeaves(n, c, d, c.window - k);
    ByteArrives(n1, c, d, k);
    hide NetStep;
    Follow(c, d, n1, false, Deliver);
    m := NetStep(n1, false, Deliver).value;
    if k < d.window {
      m := Overflow(m, c, d, k + 1);
    }
  }

  lemma LargerWindowKills(c: Config, d: Config) returns (m: Net)
    requires Peers(c, d) && d.window < c.window
    ensures Reachable(c, d, m) && FewOpens(m) && m.b.fatal
  {
    var n := StreamStands(c, d);
    m := Overflow(n, c, d, 0);
  }

  /** Two honest peers can be brought to take one another for a violator. */
  ghost predicate CanKill(c: Config, d: Config) {
    exists r: Run :: RunFrom(r, Start(c, d)) && FewOpens(Last(r)) && (Last(r).a.fatal || Last(r).b.fatal)
  }

  /** Of two honest peers one can take the other for a violator exactly if their windows differ. */
  lemma {:induction false} WindowsMustAgree(c: Config, d: Config)
    requires Peers(c, d)
    ensures CanKill(c, d) <==> c.window != d.window
  {
    if c.window == d.window {
      hide RunFrom;
      forall r: Run | RunFrom(r, Start(c, d)) && FewOpens(Last(r)) ensures !Last(r).a.fatal && !Last(r).b.fatal {
        HonestPeersNeverKill(c, d, r);
      }
    } else {
      var m: Net;
      if d.window < c.window {
        m := LargerWindowKills(c, d);
      } else {
        var f := LargerWindowKills(d, c);
        FlipReachable(c, d, f);
        m := Flip(f);
      }
      hide RunFrom;
      var r: Run :| RunFrom(r, Start(c, d)) && Last(r) == m;
      assert RunFrom(r, Start(c, d)) && FewOpens(Last(r)) && (Last(r).a.fatal || Last(r).b.fatal);
    }
  }
}
