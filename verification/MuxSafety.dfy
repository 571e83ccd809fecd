/** What holds in every state two honest, mirrored sessions can reach, however their users behave. */
module MuxSafety {
  import opened Bytes
  import opened MuxStream
  import opened MuxSession
  import opened MuxChannel
  import opened MuxNet
  import opened MuxPairRecv
  import opened MuxRun
  import O = MuxOrphan
  import F = FrameCodec

  /**
   * Credit conservation. Of every direction of every stream the window left, the bytes reserved, in
   * transit and buffered, the credit owed and the credit in transit never exceed the initial window;
   * they are exactly the initial window while neither side is closed and both ends have the stream.
   */
  lemma {:induction false} CreditConservation(c: Config, d: Config, r: Run, id: u32)
    requires Mirrored(c, d) && RunFrom(r, Start(c, d)) && FewOpens(Last(r))
    ensures var n := Last(r); var (x, y) := (EndOf(n.a, id), EndOf(n.b, id));
            && (x.obj.Some? ==> Total(x, y, n.ab, n.ba, id) <= c.window)
            && (y.obj.Some? ==> Total(y, x, n.ba, n.ab, id) <= c.window)
            && (x.obj.Some? && Intact(x, y, n.ab, id) ==> Total(x, y, n.ab, n.ba, id) == c.window)
            && (y.obj.Some? && Intact(y, x, n.ba, id) ==> Total(y, x, n.ba, n.ab, id) == c.window)
  {
    var n := Last(r);
    RunKeepsInv(c, d, r);
    assert PairAt(n, id);
    hide RunFrom, NetInv, Shape, EndOk, Order;
  }

  /**
   * First in, first out: what an end has read and holds is a prefix of what the other end has put into
   * frames, and with what is in transit it is all of it while the stream can still be heard.
   */
  lemma {:induction false} FramesArriveInOrder(c: Config, d: Config, r: Run, id: u32)
    requires Mirrored(c, d) && RunFrom(r, Start(c, d)) && FewOpens(Last(r))
    ensures var n := Last(r); var (x, y) := (EndOf(n.a, id), EndOf(n.b, id));
            && (x.obj.Some? ==> Delivered(y) + Buf(y) <= x.obj.value.framed)
            && (y.obj.Some? ==> Delivered(x) + Buf(x) <= y.obj.value.framed)
            && (x.obj.Some? && CanHear(x, y, n.ab, id) ==> Delivered(y) + Buf(y) + DataOf(n.ab, id) == x.obj.value.framed)
            && (y.obj.Some? && CanHear(y, x, n.ba, id) ==> Delivered(x) + Buf(x) + DataOf(n.ba, id) == y.obj.value.framed)
  {
    var n := Last(r);
    RunKeepsInv(c, d, r);
    assert PairAt(n, id);
    hide RunFrom, NetInv, Shape, EndOk, Credit;
  }

  /** A frame the other end's codec accepts and understands as it was meant. */
  predicate Understood(m: Msg, maxPayload: u32) {
    var f := FrameOf(m);
    F.Accepted(f, maxPayload) && F.Valid(f) && Classify(f) == m && !m.NoFlag?
  }

  /**
   * Honest peers never kill the session: no protocol violation is found, every frame on the way passes
   * the codec, DATA fits the buffer it is for, and no SYN names a stream that is in the table.
   */
  lemma {:induction false} HonestPeersNeverKill(c: Config, d: Config, r: Run)
    requires Mirrored(c, d) && RunFrom(r, Start(c, d)) && FewOpens(Last(r))
    ensures var n := Last(r);
            && !n.a.fatal && !n.b.fatal
            && (forall i :: 0 <= i < |n.ab| ==> Understood(n.ab[i], d.maxPayload))
            && (forall i :: 0 <= i < |n.ba| ==> Understood(n.ba[i], c.maxPayload))
            && HeadFits(n) && HeadFits(Flip(n))
  {
    var n := Last(r);
    RunKeepsInv(c, d, r);
    InvFlips(n);
    hide RunFrom, PairAt;
    ChanUnderstood(n.ab, d.maxPayload);
    ChanUnderstood(n.ba, c.maxPayload);
    HeadsFit(n);
    HeadsFit(Flip(n));
  }

  lemma ChanUnderstood(ch: seq<Msg>, maxPayload: u32)
    requires ChanOk(ch, maxPayload)
    ensures forall i :: 0 <= i < |ch| ==> Understood(ch[i], maxPayload)
  {
    forall i | 0 <= i < |ch| ensures Understood(ch[i], maxPayload) {
      assert MsgOk(ch[i], maxPayload);
      EmittedFramesAreUnderstood(ch[i]);
    }
  }

  /** The next frame for side A can be handled: room for DATA, no duplicate SYN. */
  predicate HeadFits(n: Net) {
    n.ba != [] ==>
      && (n.ba[0].Data? && InTable(n.a, n.ba[0].id) ==>
            Push(Obj(n.a, Latest(n.a, n.ba[0].id)).core, n.ba[0].payload, n.a.cfg.window).Some?)
      && (n.ba[0].Syn? ==> !InTable(n.a, n.ba[0].id) && !O.Own(n.a.cfg.initiator, n.ba[0].id))
  }

  lemma HeadsFit(n: Net)
    requires NetInv(n)
    ensures HeadFits(n)
  {
    hide Pair;
    if n.ba != [] && (n.ba[0].Data? || n.ba[0].Syn?) {
      var id := n.ba[0].id;
      assert PairAt(n, id);
      TableEntry(n.a, id);
      if n.ba[0].Syn? {
        SynFindsNothing(EndOf(n.a, id), EndOf(n.b, id), n.ab, n.ba, id, O.Own(n.a.cfg.initiator, id), n.a.cfg);
      } else if id in n.a.live {
        DataFits(n, id);
      }
    }
  }

  /** Ids never collide or repeat: one stream object per id, and its opener is the side the id belongs to. */
  lemma {:induction false} IdsNeverCollide(c: Config, d: Config, r: Run, id: u32)
    requires Mirrored(c, d) && RunFrom(r, Start(c, d)) && FewOpens(Last(r))
    ensures var n := Last(r);
            && (id in n.a.objs ==> |n.a.objs[id]| == 1 && (O.Dialer(n.a.objs[id][0].origin) <==> O.Own(c.initiator, id)))
            && (id in n.b.objs ==> |n.b.objs[id]| == 1 && (O.Dialer(n.b.objs[id][0].origin) <==> O.Own(d.initiator, id)))
            && O.Own(c.initiator, id) != O.Own(d.initiator, id)
  {
    RunKeepsInv(c, d, r);
    var n := Last(r);
    hide RunFrom, PairAt;
    assert O.IdOk(n.a, id) && O.IdOk(n.b, id);
  }
}
