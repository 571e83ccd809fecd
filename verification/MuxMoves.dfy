/**
 * What one step of a side does to one stream. Every step of the network is, for every stream, one of
 * the few moves listed here; invariants of a stream are proved move by move.
 */
module MuxMoves {
  import opened Bytes
  import opened MuxStream
  import opened MuxSession
  import opened MuxChannel
  import opened MuxNet
  import opened MuxPair
  import opened MuxPairRecv
  import T = TargetCodec

  /** A stream as the moving side sees it: its own end and the two channels. */
  datatype View = View(me: End, out: seq<Msg>, inn: seq<Msg>)

  datatype Cause =
    | Stay                          // another stream, and no frame
    | Sent(m: Msg)                  // a frame of another stream, or a control frame, was written
    | Skipped                       // such a frame was received
    | Called(e: Event)              // a caller thread on this stream
    | Opened(target: T.Target)
    | SynTaken(target: T.Target) | SynRejected
    | DataTaken | DataStray | FinTaken | RstTaken | WinTaken | Dropped
    | Offered | Overflowed | Retired | ResetNow | RstPut
    | TakenUp                       // by Accept
    | FlaggedNow | SweptNow

  predicate Head(v: View, id: u32) {
    v.inn != [] && On(v.inn[0], id) && v.me.loop == Ready
  }

  predicate Can(v: View, q: Cause, id: u32, opener: bool, c: Config) {
    match q
    case Stay => true
    case Sent(m) => !On(m, id)
    case Skipped => v.inn != [] && !On(v.inn[0], id)
    case Called(e) => IsCall(e) && e.key == Key(id, 0) && v.me.obj.Some? && StreamStep(c, v.me.closed, v.me.obj.value, e).Some?
    case Opened(_) => opener && v.me.obj.None? && !v.me.closed
    case SynTaken(t) => Head(v, id) && v.inn[0].Syn? && T.Parse(v.inn[0].block) == Ok(t)
    case SynRejected => Head(v, id) && v.inn[0].Syn? && T.Parse(v.inn[0].block).Err?
    case DataTaken => Head(v, id) && v.inn[0].Data? && v.me.live && v.me.obj.Some?
    case DataStray => Head(v, id) && v.inn[0].Data? && !v.me.live && v.inn[0].payload != []
    case FinTaken => Head(v, id) && v.inn[0].Fin? && v.me.live && v.me.obj.Some?
    case RstTaken => Head(v, id) && v.inn[0].Rst? && v.me.live
    case WinTaken => Head(v, id) && v.inn[0].Win? && v.me.live && v.me.obj.Some?
    case Dropped => Head(v, id) && !v.me.live && (v.inn[0].Fin? || v.inn[0].Rst? || v.inn[0].Win?)
    case Offered => v.me.loop == Offering(Key(id, 0))
    case Overflowed => v.me.loop == Offering(Key(id, 0))
    case Retired => v.me.loop == Removing(id)
    case ResetNow => v.me.loop.Resetting? && v.me.obj.Some?
    case RstPut => v.me.loop.Putting? && v.me.loop.m.Rst? && v.me.loop.m.id == id
    case TakenUp => v.me.queued && v.me.obj.Some?
    case FlaggedNow => true
    case SweptNow => v.me.closed && v.me.live && v.me.obj.Some?
  }

  function Next(v: View, q: Cause, id: u32, opener: bool, c: Config): View
    requires Can(v, q, id, opener, c)
  {
    var me := v.me;
    match q
    case Stay => v
    case Sent(m) => v.(out := v.out + [m])
    case Skipped => v.(inn := v.inn[1..])
    case Called(e) =>
      var r := StreamStep(c, me.closed, me.obj.value, e).value;
      View(After(me, r), v.out + r.out, v.inn)
    case Opened(t) => v.(me := me.(obj := Some(NewStream(t, c.window, Dialing)), live := true))
    case SynTaken(t) =>
      View(me.(obj := Some(NewStream(t, c.window, Queued)), live := true, loop := Offering(Key(id, 0)), queued := false),
           v.out, v.inn[1..])
    case SynRejected => View(me.(loop := Putting(Rst(id, REASON_PROTOCOL))), v.out, v.inn[1..])
    case DataTaken =>
      View(WithCore(me, me.obj.value.core.(buf := me.obj.value.core.buf + v.inn[0].payload)), v.out, v.inn[1..])
    case DataStray => View(me.(loop := Putting(Rst(id, REASON_BUSY))), v.out, v.inn[1..])
    case FinTaken =>
      View(WithCore(me, MarkFinRecv(me.obj.value.core)).(loop := if me.obj.value.core.finSent then Removing(id) else Ready),
           v.out, v.inn[1..])
    case RstTaken => View(me.(live := false, loop := Resetting(Key(id, 0), false)), v.out, v.inn[1..])
    case WinTaken => View(WithCore(me, AddWindow(me.obj.value.core, v.inn[0].credit)), v.out, v.inn[1..])
    case Dropped => v.(inn := v.inn[1..])
    case Offered => v.(me := me.(loop := Ready, queued := true))
    case Overflowed =>
      v.(me := if me.live then me.(live := false, loop := Resetting(Key(id, 0), true))
               else me.(loop := Putting(Rst(id, REASON_BUSY))))
    case Retired => v.(me := me.(live := false, loop := Ready))
    case ResetNow =>
      v.(me := WithCore(me, MarkReset(me.obj.value.core)).(
           loop := if me.loop.reply then Putting(Rst(id, REASON_BUSY)) else Ready))
    case RstPut => View(me.(loop := Ready), if me.closed then v.out else v.out + [me.loop.m], v.inn)
    case TakenUp => v.(me := me.(obj := Some(me.obj.value.(origin := Accepted)), queued := false))
    case FlaggedNow => v.(me := me.(closed := true))
    case SweptNow => v.(me := WithCore(me, MarkSessionClosed(me.obj.value.core)).(live := false))
  }

  predicate PairIn(v: View, peer: End, id: u32, opener: bool, c: Config) {
    Pair(v.me, peer, v.out, v.inn, id, opener, c)
  }

  lemma CallKeepsPair(v: View, peer: End, e: Event, id: u32, opener: bool, c: Config)
    requires PairIn(v, peer, id, opener, c) && Can(v, Called(e), id, opener, c) && 260 <= c.maxPayload
    ensures PairIn(Next(v, Called(e), id, opener, c), peer, id, opener, c)
  {
    hide Pair;
    if e.OpenPut? {
      OpenPutKeepsPair(v.me, peer, v.out, v.inn, id, opener, c);
    } else if e.OpenUndo? {
      OpenUndoKeepsPair(v.me, peer, v.out, v.inn, id, opener, c);
      assert v.out + [] == v.out;
    } else {
      UserCallKeepsPair(v.me, peer, v.out, v.inn, id, opener, c, e);
    }
  }

  lemma HeadKeepsPair(v: View, peer: End, q: Cause, id: u32, opener: bool, c: Config)
    requires PairIn(v, peer, id, opener, c) && Can(v, q, id, opener, c) && Head(v, id)
    requires q.SynTaken? || q.SynRejected? || q.DataTaken? || q.DataStray? || q.FinTaken? || q.RstTaken? || q.WinTaken? || q.Dropped?
    ensures PairIn(Next(v, q, id, opener, c), peer, id, opener, c)
  {
    hide Pair;
    if q.SynTaken? {
      SynKeepsPair(v.me, peer, v.out, v.inn, id, opener, c, q.target);
    } else if q.SynRejected? {
      BadSynKeepsPair(v.me, peer, v.out, v.inn, id, opener, c);
    } else if q.DataTaken? {
      DataKeepsPair(v.me, peer, v.out, v.inn, id, opener, c);
    } else if q.DataStray? {
      StrayDataKeepsPair(v.me, peer, v.out, v.inn, id, opener, c);
    } else if q.FinTaken? {
      FinKeepsPair(v.me, peer, v.out, v.inn, id, opener, c);
    } else if q.RstTaken? {
      RstKeepsPair(v.me, peer, v.out, v.inn, id, opener, c);
    } else if q.WinTaken? {
      WinKeepsPair(v.me, peer, v.out, v.inn, id, opener, c);
    } else {
      DropKeepsPair(v.me, peer, v.out, v.inn, id, opener, c);
    }
  }

  lemma LoopKeepsPair(v: View, peer: End, q: Cause, id: u32, opener: bool, c: Config)
    requires PairIn(v, peer, id, opener, c) && Can(v, q, id, opener, c)
    requires q.Offered? || q.Overflowed? || q.Retired? || q.ResetNow? || q.RstPut?
    ensures PairIn(Next(v, q, id, opener, c), peer, id, opener, c)
  {
    hide Pair;
    if q.Offered? {
      OfferKeepsPair(v.me, peer, v.out, v.inn, id, opener, c);
    } else if q.Overflowed? {
      RefuseKeepsPair(v.me, peer, v.out, v.inn, id, opener, c);
    } else if q.Retired? {
      RemoveKeepsPair(v.me, peer, v.out, v.inn, id, opener, c);
    } else if q.ResetNow? {
      ResetKeepsPair(v.me, peer, v.out, v.inn, id, opener, c);
    } else {
      PutRstKeepsPair(v.me, peer, v.out, v.inn, id, opener, c, v.me.loop.m.reason, !v.me.closed);
    }
  }

  /** Every move keeps the invariant of the stream. */
  lemma {:induction false} MoveKeepsPair(v: View, peer: End, q: Cause, id: u32, opener: bool, c: Config)
    requires PairIn(v, peer, id, opener, c) && Can(v, q, id, opener, c) && 260 <= c.maxPayload
    ensures PairIn(Next(v, q, id, opener, c), peer, id, opener, c)
  {
    hide Pair;
    if q.Called? {
      CallKeepsPair(v, peer, q.e, id, opener, c);
    } else if q.Sent? {
      OtherPutKeepsPair(v.me, peer, v.out, v.inn, id, opener, c, q.m);
    } else if q.Skipped? {
      SkipKeepsPair(v.me, peer, v.out, v.inn, id, opener, c);
    } else if q.Opened? {
      OpenKeepsPair(v.me, peer, v.out, v.inn, id, c, q.target);
    } else if q.Offered? || q.Overflowed? || q.Retired? || q.ResetNow? || q.RstPut? {
      LoopKeepsPair(v, peer, q, id, opener, c);
    } else if q.TakenUp? {
      AcceptKeepsPair(v.me, peer, v.out, v.inn, id, opener, c);
    } else if q.FlaggedNow? {
      FlagKeepsPair(v.me, peer, v.out, v.inn, id, opener, c);
    } else if q.SweptNow? {
      SweepKeepsPair(v.me, peer, v.out, v.inn, id, opener, c);
    } else if !q.Stay? {
      HeadKeepsPair(v, peer, q, id, opener, c);
    }
  }
}
