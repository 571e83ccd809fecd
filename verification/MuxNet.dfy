/**
 * Two mirrored sessions over two FIFO channels, and what ties the two ends of a stream together.
 * The invariant is stated per stream id on the two `End`s of the stream and the two channels.
 */
module MuxNet {
  import opened Bytes
  import opened MuxStream
  import opened MuxSession
  import opened MuxChannel
  import O = MuxOrphan
  import F = FrameCodec

  datatype Net = Net(a: Session, b: Session, ab: seq<Msg>, ba: seq<Msg>)

  /** The same network seen from the other side. */
  function Flip(n: Net): Net {
    Net(n.b, n.a, n.ba, n.ab)
  }

  datatype Action = Local(e: Event) | Deliver

  /** A step of side A: one of its own, or the next frame of `ba` handed to its receive loop. */
  function StepA(n: Net, act: Action): Option<Net> {
    match act
    case Local(e) =>
      if e.Recv? || e.RecvBad? then None
      else
        (match SessionStep(n.a, e)
         case None => None
         case Some(o) => Some(n.(a := o.s, ab := n.ab + o.out)))
    case Deliver =>
      if n.ba == [] then None
      else
        var f := FrameOf(n.ba[0]);
        EmittedFramesAreUnderstood(n.ba[0]);
        var e := if F.Accepted(f, n.a.cfg.maxPayload) then Recv(Classify(f)) else RecvBad;
        (match SessionStep(n.a, e)
         case None => None
         case Some(o) => Some(n.(a := o.s, ab := n.ab + o.out, ba := n.ba[1..])))
  }

  /** `left` says which side moves. */
  function NetStep(n: Net, left: bool, act: Action): Option<Net> {
    if left then StepA(n, act)
    else
      match StepA(Flip(n), act)
      case None => None
      case Some(m) => Some(Flip(m))
  }

  datatype Move = Move(left: bool, act: Action)

  /** A run: the states it goes through and the moves between them. */
  datatype Run = Run(states: seq<Net>, moves: seq<Move>)

  /** The i-th move leads from the i-th state to the next. */
  predicate Takes(r: Run, i: nat)
    requires |r.states| == |r.moves| + 1 && i < |r.moves|
  {
    NetStep(r.states[i], r.moves[i].left, r.moves[i].act) == Some(r.states[i + 1])
  }

  predicate RunFrom(r: Run, n: Net) {
    |r.states| == |r.moves| + 1 && r.states[0] == n && forall i :: 0 <= i < |r.moves| ==> Takes(r, i)
  }

  function Last(r: Run): Net
    requires r.states != []
  {
    r.states[|r.states| - 1]
  }

  /** A run without its last move. */
  function Before(r: Run): Run
    requires |r.states| == |r.moves| + 1 && r.moves != []
  {
    Run(r.states[..|r.moves|], r.moves[..|r.moves| - 1])
  }

  /** The last move of a run leads from the run before it to the last state. */
  lemma LastMove(r: Run, n: Net)
    requires RunFrom(r, n) && r.moves != []
    ensures RunFrom(Before(r), n) && Before(r).states != []
    ensures var mv := r.moves[|r.moves| - 1]; NetStep(Last(Before(r)), mv.left, mv.act) == Some(Last(r))
  {
    hide NetStep;
    assert Takes(r, |r.moves| - 1);
    forall i | 0 <= i < |r.moves| - 1 ensures Takes(Before(r), i) {
      assert Takes(r, i);
    }
  }

  /** A run extended by a move. */
  function Then(r: Run, mv: Move, n: Net): Run {
    Run(r.states + [n], r.moves + [mv])
  }

  lemma ThenIsRun(r: Run, n0: Net, mv: Move, n: Net)
    requires RunFrom(r, n0) && NetStep(Last(r), mv.left, mv.act) == Some(n)
    ensures RunFrom(Then(r, mv, n), n0) && Last(Then(r, mv, n)) == n
  {
    hide NetStep;
    var t := Then(r, mv, n);
    forall i | 0 <= i < |t.moves| ensures Takes(t, i) {
      if i < |r.moves| {
        assert Takes(r, i);
      }
    }
  }

  /** Limits both ends share: the same window, not more than a WIN frame can carry, and the same payload cap. */
  predicate Mirrored(c: Config, d: Config) {
    && c.initiator != d.initiator
    && c.window == d.window && 0 < c.window
    && c.maxPayload == d.maxPayload && 260 <= c.maxPayload
  }

  function Start(c: Config, d: Config): Net {
    Net(NewSession(c), NewSession(d), [], [])
  }

  // ----- One end of one stream -----

  datatype End = End(obj: Option<Stream>, live: bool, closed: bool, loop: Loop, queued: bool)

  /** The receive loop as far as it is busy with stream `id`. */
  function LoopOn(l: Loop, id: u32): Loop {
    match l
    case Offering(key) => if key.id == id then l else Ready
    case Removing(rid) => if rid == id then l else Ready
    case Resetting(key, _) => if key.id == id then l else Ready
    case Putting(m) => if m.Rst? && m.id == id then l else Ready
    case Ready => Ready
    case Stopped => Ready
  }

  function EndOf(s: Session, id: u32): End {
    End(
      if HasObj(s, Key(id, 0)) then Some(Obj(s, Key(id, 0))) else None,
      id in s.live,
      s.closed,
      LoopOn(s.loop, id),
      Key(id, 0) in s.acceptQ)
  }

  function Buf(e: End): seq<byte> {
    if e.obj.Some? then e.obj.value.core.buf else []
  }

  function Delivered(e: End): seq<byte> {
    if e.obj.Some? then e.obj.value.delivered else []
  }

  /** Bytes drained by `Read` whose credit has not been put into a WIN frame yet. */
  function Pending(e: End): nat {
    if e.obj.Some? && e.obj.value.reader.RPut? then e.obj.value.reader.credit else 0
  }

  /** Bytes taken out of the window but not yet put into a DATA frame. */
  function Reserved(st: Stream): seq<byte> {
    if st.writer.WPut? then st.writer.chunk else []
  }

  predicate FinSeen(e: End) {
    e.obj.Some? && e.obj.value.core.finRecv
  }

  // ----- The invariant of one stream -----

  /** What one end knows by itself. */
  predicate EndOk(e: End, c: Config) {
    && (e.live ==> e.obj.Some?)
    && (e.obj.Some? ==> StreamOk(e.obj.value, e.closed, c) && (e.obj.value.core.reset ==> !e.live))
    && (e.loop.Resetting? ==> !e.live && e.obj.Some?)
    && (e.loop.Offering? ==> e.obj.Some? && e.obj.value.origin == Queued && !e.queued && !e.obj.value.core.reset)
    && (e.loop.Removing? ==> e.obj.Some? && e.obj.value.core.finRecv && e.obj.value.core.finSent)
    && (e.queued ==> e.obj.Some? && e.obj.value.origin == Queued)
  }

  predicate StreamOk(st: Stream, closed: bool, c: Config) {
    && st.core.recvUnacked == 0 && 0 <= st.core.sendWin
    && (st.core.sclosed ==> closed)
    && (st.core.finSent <==> st.closer != CIdle)
    && (st.closer == CRemove ==> st.core.finRecv)
    && (st.finPut ==> st.closer == CDone)
    && (st.writer.WLoop? ==> st.writer.rest != [])
    && (st.writer.WPut? ==> st.writer.chunk != [] && |st.writer.chunk| <= c.maxPayload)
    && (st.reader.RPut? ==> 0 < st.reader.credit)
    && (!InUse(st) ==> Unused(st))
  }

  /** Nobody has called anything on the stream. */
  predicate Unused(st: Stream) {
    && st.writer == WIdle && st.reader == RIdle && st.closer == CIdle && !st.finPut
    && st.written == [] && st.framed == [] && st.delivered == []
  }

  /** The SYN of a stream without a far end is still on its way. */
  predicate Expecting(src: End, dst: End, sd: seq<Msg>, id: u32) {
    dst.obj.None? && src.obj.Some? && (src.obj.value.origin == Dialing || SynLeads(sd, id))
  }

  /** DATA written now will reach the far buffer. */
  predicate CanHear(src: End, dst: End, sd: seq<Msg>, id: u32) {
    dst.live || Expecting(src, dst, sd, id)
  }

  /** The window of one direction, wherever it is. */
  function Total(src: End, dst: End, sd: seq<Msg>, ds: seq<Msg>, id: u32): int
    requires src.obj.Some?
  {
    var s := src.obj.value;
    s.core.sendWin + |Reserved(s)| + |DataOf(sd, id)| + |Buf(dst)| + Pending(dst) + CreditOf(ds, id)
  }

  predicate Intact(src: End, dst: End, sd: seq<Msg>, id: u32) {
    src.live && !src.closed && !dst.closed && CanHear(src, dst, sd, id)
  }

  /** Credit conservation for the direction from `src` to `dst`. */
  predicate Credit(src: End, dst: End, sd: seq<Msg>, ds: seq<Msg>, id: u32, window: nat) {
    if src.obj.None? then |DataOf(sd, id)| == 0 && |Buf(dst)| == 0 && Pending(dst) == 0 && CreditOf(ds, id) == 0
    else
      && Total(src, dst, sd, ds, id) <= window
      && (Intact(src, dst, sd, id) ==> Total(src, dst, sd, ds, id) == window)
  }

  /** Order for the direction from `src` to `dst`: what was delivered and buffered begins what was framed. */
  predicate Order(src: End, dst: End, sd: seq<Msg>, id: u32) {
    if src.obj.None? then Delivered(dst) == [] && Buf(dst) == [] && DataOf(sd, id) == []
    else
      && (DataOf(sd, id) != [] ==> InUse(src.obj.value))
      && Delivered(dst) + Buf(dst) <= src.obj.value.framed
      && (CanHear(src, dst, sd, id) ==> Delivered(dst) + Buf(dst) + DataOf(sd, id) == src.obj.value.framed)
  }

  predicate Flow(src: End, dst: End, sd: seq<Msg>, ds: seq<Msg>, id: u32, window: nat) {
    Credit(src, dst, sd, ds, id, window) && Order(src, dst, sd, id)
  }

  /** The life of a stream: `x` opened it, `y` is the far end. */
  predicate Life(x: End, y: End, xy: seq<Msg>, yx: seq<Msg>, id: u32) {
    && !HasSyn(yx, id)
    && !x.queued && !x.loop.Offering?
    && (x.obj.None? || x.obj.value.origin != Dialed ==>
          && y.obj.None? && !Any(xy, id) && !Any(yx, id) && x.loop == Ready && y.loop == Ready
          && (x.obj.Some? ==> NotHeard(x.obj.value)))
    && (x.obj.Some? ==> O.Dialer(x.obj.value.origin))
    && (y.obj.Some? ==> !HasSyn(xy, id) && !O.Dialer(y.obj.value.origin))
    && (y.obj.None? ==>
          && !HasFin(yx, id) && CreditOf(yx, id) == 0
          && (x.obj.Some? ==> !x.obj.value.core.finRecv)
          && (HasSyn(xy, id) ==> SynLeads(xy, id))
          && (SynLeads(xy, id) ==>
                !Any(yx, id) && y.loop == Ready && x.obj.Some? && NotHeard(x.obj.value) && x.loop == Ready))
  }

  /** Nothing from the far end has arrived. */
  predicate NotHeard(st: Stream) {
    !st.core.finRecv && !st.core.reset && st.core.buf == [] && st.delivered == [] && st.reader == RIdle
  }

  /** RST is sent only by an end that no longer has the stream, and only such an RST resets the other. */
  predicate Resets(x: End, y: End, xy: seq<Msg>, yx: seq<Msg>, id: u32) {
    && (HasRst(yx, id) || x.loop.Resetting? || y.loop.Putting? || (y.loop.Resetting? && y.loop.reply)
          || (x.obj.Some? && x.obj.value.core.reset) ==>
          !y.live && !SynLeads(xy, id) && x.obj.Some? && x.obj.value.origin == Dialed)
    && (HasRst(xy, id) || x.loop.Putting? || (y.loop.Resetting? && !y.loop.reply) ==>
          !x.live && y.obj.Some? && y.obj.value.origin == Accepted)
    && (x.loop.Resetting? ==> !x.loop.reply)
    && (y.loop.Resetting? && y.loop.reply ==> y.obj.Some? && y.obj.value.origin == Queued)
    && (y.obj.Some? && y.obj.value.core.reset && y.obj.value.origin == Accepted ==> !x.live)
    && (y.queued ==> y.obj.Some? && !y.obj.value.core.reset && !y.loop.Resetting?)
  }

  /** Life and resets, with the roles sorted out. */
  predicate Shape(me: End, peer: End, out: seq<Msg>, inn: seq<Msg>, id: u32, opener: bool) {
    if opener then Life(me, peer, out, inn, id) && Resets(me, peer, out, inn, id)
    else Life(peer, me, inn, out, id) && Resets(peer, me, inn, out, id)
  }

  predicate Pair(me: End, peer: End, out: seq<Msg>, inn: seq<Msg>, id: u32, opener: bool, c: Config) {
    && EndOk(me, c) && EndOk(peer, c)
    && Shape(me, peer, out, inn, id, opener)
    && Flow(me, peer, out, inn, id, c.window)
    && Flow(peer, me, inn, out, id, c.window)
  }
}
