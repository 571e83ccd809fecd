/** Every step keeps the invariant of every stream: deliveries, the receive loop, accept and shutdown. */
module MuxPairRecv {
  import opened Bytes
  import opened MuxStream
  import opened MuxSession
  import opened MuxChannel
  import opened MuxNet
  import T = TargetCodec

  function WithCore(e: End, c: Core): End
    requires e.obj.Some?
  {
    e.(obj := Some(e.obj.value.(core := c)))
  }

  // ----- Deliveries: the head of `inn` is consumed -----

  /** A frame of another stream, or a control frame, is not seen. */
  lemma SkipKeepsPair(me: End, peer: End, out: seq<Msg>, inn: seq<Msg>, id: u32, opener: bool, c: Config)
    requires Pair(me, peer, out, inn, id, opener, c) && inn != [] && !On(inn[0], id)
    ensures Pair(me, peer, out, inn[1..], id, opener, c)
  {
    hide Any, HasSyn, HasRst, HasFin, SynLeads, DataOf, CreditOf, EndOk;
    SkipSummaries(inn, id);
    assert Flow(me, peer, out, inn[1..], id, c.window) && Flow(peer, me, inn[1..], out, id, c.window);
    hide Flow;
    assert Shape(me, peer, out, inn[1..], id, opener);
  }

  lemma SkipSummaries(ch: seq<Msg>, id: u32)
    requires ch != [] && !On(ch[0], id)
    ensures Any(ch, id) == Any(ch[1..], id) && HasSyn(ch, id) == HasSyn(ch[1..], id) && HasRst(ch, id) == HasRst(ch[1..], id)
    ensures HasFin(ch, id) == HasFin(ch[1..], id) && SynLeads(ch, id) == SynLeads(ch[1..], id)
    ensures DataOf(ch, id) == DataOf(ch[1..], id) && CreditOf(ch, id) == CreditOf(ch[1..], id)
  {
  }

  /** A SYN only ever arrives at the far end of a stream that has no object there. */
  lemma SynFindsNothing(me: End, peer: End, out: seq<Msg>, inn: seq<Msg>, id: u32, opener: bool, c: Config)
    requires Pair(me, peer, out, inn, id, opener, c) && inn != [] && inn[0].Syn? && inn[0].id == id
    ensures !opener && me.obj.None? && !me.live && me.loop == Ready && SynLeads(inn, id) && !HasSyn(inn[1..], id)
  {
  }

  lemma SynKeepsPair(me: End, peer: End, out: seq<Msg>, inn: seq<Msg>, id: u32, opener: bool, c: Config, target: T.Target)
    requires Pair(me, peer, out, inn, id, opener, c) && inn != [] && inn[0].Syn? && inn[0].id == id
    ensures Pair(me.(obj := Some(NewStream(target, c.window, Queued)), live := true, loop := Offering(Key(id, 0)), queued := false),
                 peer, out, inn[1..], id, opener, c)
  {
    SynFindsNothing(me, peer, out, inn, id, opener, c);
    SilentChannel(out, id);
  }

  lemma BadSynKeepsPair(me: End, peer: End, out: seq<Msg>, inn: seq<Msg>, id: u32, opener: bool, c: Config)
    requires Pair(me, peer, out, inn, id, opener, c) && inn != [] && inn[0].Syn? && inn[0].id == id
    ensures Pair(me.(loop := Putting(Rst(id, REASON_PROTOCOL))), peer, out, inn[1..], id, opener, c)
  {
    SynFindsNothing(me, peer, out, inn, id, opener, c);
    if SynLeads(inn[1..], id) {
      SynLeadsHasSyn(inn[1..], id);
    }
  }

  /** The receive window is never exceeded by what the far end may send. */
  lemma PushSucceeds(me: End, peer: End, out: seq<Msg>, inn: seq<Msg>, id: u32, opener: bool, c: Config)
    requires Pair(me, peer, out, inn, id, opener, c) && inn != [] && inn[0].Data? && inn[0].id == id && me.obj.Some?
    ensures Push(me.obj.value.core, inn[0].payload, c.window).Some?
  {
    assert |DataOf(inn, id)| >= |inn[0].payload|;
  }

  lemma DataKeepsPair(me: End, peer: End, out: seq<Msg>, inn: seq<Msg>, id: u32, opener: bool, c: Config)
    requires Pair(me, peer, out, inn, id, opener, c) && inn != [] && inn[0].Data? && inn[0].id == id && me.live
    ensures var st := me.obj.value;
            Pair(WithCore(me, st.core.(buf := st.core.buf + inn[0].payload)), peer, out, inn[1..], id, opener, c)
  {
    var st, p := me.obj.value, inn[0].payload;
    assert Delivered(me) + (Buf(me) + p) == (Delivered(me) + Buf(me)) + p;
    assert (Delivered(me) + Buf(me)) + (p + DataOf(inn[1..], id)) == ((Delivered(me) + Buf(me)) + p) + DataOf(inn[1..], id);
  }

  lemma StrayDataKeepsPair(me: End, peer: End, out: seq<Msg>, inn: seq<Msg>, id: u32, opener: bool, c: Config)
    requires Pair(me, peer, out, inn, id, opener, c) && inn != [] && inn[0].Data? && inn[0].id == id && !me.live
    requires inn[0].payload != [] && me.loop == Ready
    ensures Pair(me.(loop := Putting(Rst(id, REASON_BUSY))), peer, out, inn[1..], id, opener, c)
  {
    if SynLeads(inn[1..], id) {
      SynLeadsHasSyn(inn[1..], id);
    }
  }

  lemma MarkFinKeepsPair(me: End, peer: End, out: seq<Msg>, inn: seq<Msg>, id: u32, opener: bool, c: Config)
    requires Pair(me, peer, out, inn, id, opener, c) && me.live && me.loop == Ready
    requires (opener ==> peer.obj.Some?) && !SynLeads(out, id)
    ensures var core := me.obj.value.core;
            Pair(WithCore(me, MarkFinRecv(core)).(loop := if core.finSent then Removing(id) else Ready), peer, out, inn, id, opener, c)
  {
  }

  lemma FinKeepsPair(me: End, peer: End, out: seq<Msg>, inn: seq<Msg>, id: u32, opener: bool, c: Config)
    requires Pair(me, peer, out, inn, id, opener, c) && inn != [] && inn[0].Fin? && inn[0].id == id && me.live && me.loop == Ready
    ensures var core := me.obj.value.core;
            Pair(WithCore(me, MarkFinRecv(core)).(loop := if core.finSent then Removing(id) else Ready),
                 peer, out, inn[1..], id, opener, c)
  {
    FinComesFromAnEnd(me, peer, out, inn, id, opener, c);
    DropKeepsPair(me, peer, out, inn, id, opener, c);
    hide Pair;
    MarkFinKeepsPair(me, peer, out, inn[1..], id, opener, c);
  }

  lemma FinComesFromAnEnd(me: End, peer: End, out: seq<Msg>, inn: seq<Msg>, id: u32, opener: bool, c: Config)
    requires Pair(me, peer, out, inn, id, opener, c) && inn != [] && inn[0].Fin? && inn[0].id == id && me.live
    ensures (opener ==> peer.obj.Some?) && !SynLeads(out, id)
  {
    if SynLeads(out, id) {
      SynLeadsHasSyn(out, id);
    }
  }

  lemma RstKeepsPair(me: End, peer: End, out: seq<Msg>, inn: seq<Msg>, id: u32, opener: bool, c: Config)
    requires Pair(me, peer, out, inn, id, opener, c) && inn != [] && inn[0].Rst? && inn[0].id == id && me.live && me.loop == Ready
    ensures Pair(me.(live := false, loop := Resetting(Key(id, 0), false)), peer, out, inn[1..], id, opener, c)
  {
  }

  /** What the shape of a pair depends on at one end. */
  lemma ShapeFrame(me: End, n: End, peer: End, out: seq<Msg>, inn: seq<Msg>, id: u32, opener: bool)
    requires Shape(me, peer, out, inn, id, opener) && me.obj.Some? && n.obj.Some?
    requires n == me.(obj := n.obj) && n.obj.value == me.obj.value.(core := n.obj.value.core)
    requires n.obj.value.core == me.obj.value.core.(sendWin := n.obj.value.core.sendWin)
    ensures Shape(n, peer, out, inn, id, opener)
  {
  }

  lemma DropKeepsShape(me: End, peer: End, out: seq<Msg>, inn: seq<Msg>, id: u32, opener: bool)
    requires Shape(me, peer, out, inn, id, opener) && inn != [] && On(inn[0], id) && !inn[0].Syn?
    ensures Shape(me, peer, out, inn[1..], id, opener)
  {
    if SynLeads(inn[1..], id) {
      SynLeadsHasSyn(inn[1..], id);
    }
  }

  lemma WinKeepsCredit(me: End, peer: End, out: seq<Msg>, inn: seq<Msg>, id: u32, c: Config)
    requires Credit(me, peer, out, inn, id, c.window) && Credit(peer, me, inn, out, id, c.window) && EndOk(me, c)
    requires inn != [] && inn[0].Win? && inn[0].id == id && me.live
    ensures var n := WithCore(me, AddWindow(me.obj.value.core, inn[0].credit));
            Credit(n, peer, out, inn[1..], id, c.window) && Credit(peer, n, inn[1..], out, id, c.window)
  {
  }

  lemma WinKeepsOrder(me: End, peer: End, out: seq<Msg>, inn: seq<Msg>, id: u32)
    requires Order(me, peer, out, id) && Order(peer, me, inn, id) && me.obj.Some?
    requires inn != [] && inn[0].Win? && inn[0].id == id && me.live
    ensures var n := WithCore(me, AddWindow(me.obj.value.core, inn[0].credit));
            Order(n, peer, out, id) && Order(peer, n, inn[1..], id)
  {
    TailData(inn, id);
    hide DataOf;
  }

  lemma WinKeepsPair(me: End, peer: End, out: seq<Msg>, inn: seq<Msg>, id: u32, opener: bool, c: Config)
    requires Pair(me, peer, out, inn, id, opener, c) && inn != [] && inn[0].Win? && inn[0].id == id && me.live
    ensures Pair(WithCore(me, AddWindow(me.obj.value.core, inn[0].credit)), peer, out, inn[1..], id, opener, c)
  {
    hide Shape, Credit, Order;
    WinKeepsCredit(me, peer, out, inn, id, c);
    WinKeepsOrder(me, peer, out, inn, id);
    DropKeepsShape(me, peer, out, inn, id, opener);
    ShapeFrame(me, WithCore(me, AddWindow(me.obj.value.core, inn[0].credit)), peer, out, inn[1..], id, opener);
  }

  /** FIN and RST carry no bytes and no credit; WIN for a stream that is gone is dropped. */
  lemma DropKeepsPair(me: End, peer: End, out: seq<Msg>, inn: seq<Msg>, id: u32, opener: bool, c: Config)
    requires Pair(me, peer, out, inn, id, opener, c) && inn != [] && On(inn[0], id) && !inn[0].Syn? && !inn[0].Data?
    requires inn[0].Win? ==> !me.live
    ensures Pair(me, peer, out, inn[1..], id, opener, c)
  {
    hide Shape, Credit, Order, EndOk;
    DropKeepsShape(me, peer, out, inn, id, opener);
    DropKeepsCredit(me, peer, out, inn, id, opener, c);
    DropKeepsOrder(me, peer, out, inn, id, opener, c);
  }

  lemma NoSynBehind(me: End, peer: End, out: seq<Msg>, inn: seq<Msg>, id: u32, opener: bool)
    requires Shape(me, peer, out, inn, id, opener) && inn != [] && On(inn[0], id) && !inn[0].Syn?
    ensures !SynLeads(inn[1..], id) && !SynLeads(inn, id)
  {
    if SynLeads(inn[1..], id) {
      SynLeadsHasSyn(inn[1..], id);
    }
  }

  lemma DropKeepsCredit(me: End, peer: End, out: seq<Msg>, inn: seq<Msg>, id: u32, opener: bool, c: Config)
    requires Credit(me, peer, out, inn, id, c.window) && Credit(peer, me, inn, out, id, c.window)
    requires Shape(me, peer, out, inn, id, opener) && inn != [] && On(inn[0], id) && !inn[0].Syn? && !inn[0].Data?
    requires inn[0].Win? ==> !me.live
    ensures Credit(me, peer, out, inn[1..], id, c.window) && Credit(peer, me, inn[1..], out, id, c.window)
  {
    NoSynBehind(me, peer, out, inn, id, opener);
    hide Shape;
  }

  lemma DropKeepsOrder(me: End, peer: End, out: seq<Msg>, inn: seq<Msg>, id: u32, opener: bool, c: Config)
    requires Order(me, peer, out, id) && Order(peer, me, inn, id)
    requires Shape(me, peer, out, inn, id, opener) && inn != [] && On(inn[0], id) && !inn[0].Syn? && !inn[0].Data?
    ensures Order(me, peer, out, id) && Order(peer, me, inn[1..], id)
  {
    NoSynBehind(me, peer, out, inn, id, opener);
    TailData(inn, id);
    hide Shape, DataOf, SynLeads;
  }

  // ----- The receive loop between two frames -----

  lemma OfferKeepsPair(me: End, peer: End, out: seq<Msg>, inn: seq<Msg>, id: u32, opener: bool, c: Config)
    requires Pair(me, peer, out, inn, id, opener, c) && me.loop == Offering(Key(id, 0))
    ensures Pair(me.(loop := Ready, queued := true), peer, out, inn, id, opener, c)
  {
  }

  lemma RefuseKeepsPair(me: End, peer: End, out: seq<Msg>, inn: seq<Msg>, id: u32, opener: bool, c: Config)
    requires Pair(me, peer, out, inn, id, opener, c) && me.loop == Offering(Key(id, 0))
    ensures Pair(if me.live then me.(live := false, loop := Resetting(Key(id, 0), true))
                 else me.(loop := Putting(Rst(id, REASON_BUSY))), peer, out, inn, id, opener, c)
  {
    if SynLeads(inn, id) {
      SynLeadsHasSyn(inn, id);
    }
  }

  lemma RemoveKeepsPair(me: End, peer: End, out: seq<Msg>, inn: seq<Msg>, id: u32, opener: bool, c: Config)
    requires Pair(me, peer, out, inn, id, opener, c) && me.loop == Removing(id)
    ensures Pair(me.(live := false, loop := Ready), peer, out, inn, id, opener, c)
  {
  }

  lemma ResetKeepsPair(me: End, peer: End, out: seq<Msg>, inn: seq<Msg>, id: u32, opener: bool, c: Config)
    requires Pair(me, peer, out, inn, id, opener, c) && me.loop.Resetting? && me.obj.Some?
    ensures Pair(WithCore(me, MarkReset(me.obj.value.core)).(
                 loop := if me.loop.reply then Putting(Rst(id, REASON_BUSY)) else Ready), peer, out, inn, id, opener, c)
  {
    if SynLeads(inn, id) {
      SynLeadsHasSyn(inn, id);
    }
  }

  /** The RST goes out, or is lost because the session is closed. */
  lemma PutRstKeepsPair(me: End, peer: End, out: seq<Msg>, inn: seq<Msg>, id: u32, opener: bool, c: Config, reason: byte, put: bool)
    requires Pair(me, peer, out, inn, id, opener, c) && me.loop == Putting(Rst(id, reason))
    ensures Pair(me.(loop := Ready), peer, if put then out + [Rst(id, reason)] else out, inn, id, opener, c)
  {
    if SynLeads(out, id) {
      SynLeadsHasSyn(out, id);
    }
    Append(out, Rst(id, reason), id);
  }

  /** Any message of another stream, or a control frame, leaves the pair alone when written. */
  lemma OtherPutKeepsPair(me: End, peer: End, out: seq<Msg>, inn: seq<Msg>, id: u32, opener: bool, c: Config, m: Msg)
    requires Pair(me, peer, out, inn, id, opener, c) && !On(m, id)
    ensures Pair(me, peer, out + [m], inn, id, opener, c)
  {
    if SynLeads(out, id) {
      SynLeadsHasSyn(out, id);
    }
    Append(out, m, id);
  }

  // ----- Accept and shutdown -----

  lemma AcceptKeepsPair(me: End, peer: End, out: seq<Msg>, inn: seq<Msg>, id: u32, opener: bool, c: Config)
    requires Pair(me, peer, out, inn, id, opener, c) && me.queued && me.obj.Some?
    ensures Pair(me.(obj := Some(me.obj.value.(origin := Accepted)), queued := false), peer, out, inn, id, opener, c)
  {
  }

  lemma FlagKeepsPair(me: End, peer: End, out: seq<Msg>, inn: seq<Msg>, id: u32, opener: bool, c: Config)
    requires Pair(me, peer, out, inn, id, opener, c)
    ensures Pair(me.(closed := true), peer, out, inn, id, opener, c)
  {
  }

  lemma SweepKeepsPair(me: End, peer: End, out: seq<Msg>, inn: seq<Msg>, id: u32, opener: bool, c: Config)
    requires Pair(me, peer, out, inn, id, opener, c) && me.closed && me.live
    ensures Pair(WithCore(me, MarkSessionClosed(me.obj.value.core)).(live := false), peer, out, inn, id, opener, c)
  {
  }
}
