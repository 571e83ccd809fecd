/**
 * One TLMP session as a step system. A step is one section of code between two lock operations, or
 * one frame handed to the connection. The datatype `Stream` adds to the stream's own fields where its
 * caller threads stand, and three history sequences.
 */
module MuxSession {
  import opened Bytes
  import opened MuxStream
  import F = FrameCodec
  import T = TargetCodec

  type u32 = F.u32

  const REASON_NORMAL: byte := 0
  const REASON_PROTOCOL: byte := 1
  const REASON_BUSY: byte := 2
  const REASON_DUP: byte := 2

  // ----- Frames as the session sees them -----

  /** A frame by the first flag `handleFrame` acts on. */
  datatype Msg =
    | Syn(id: u32, block: seq<byte>)
    | Data(id: u32, payload: seq<byte>)
    | Fin(id: u32)
    | Rst(id: u32, reason: byte)
    | Win(id: u32, credit: u32)
    | Ping(opaq: seq<byte>)
    | Pong(opaq: seq<byte>)
    | GoAway(reason: byte)
    | NoFlag

  function Classify(f: F.Frame): Msg
    requires F.Valid(f)
  {
    if Has(f.flags, F.SYN) then Syn(f.id, f.payload)
    else if Has(f.flags, F.DATA) then Data(f.id, f.payload)
    else if Has(f.flags, F.FIN) then Fin(f.id)
    else if Has(f.flags, F.RST) then Rst(f.id, f.payload[0])
    else if Has(f.flags, F.WIN) then Be32Inverse(f.payload); Win(f.id, FromBe32(f.payload))
    else if Has(f.flags, F.PING) then Ping(f.payload)
    else if Has(f.flags, F.PONG) then Pong(f.payload)
    else if Has(f.flags, F.GOAWAY) then GoAway(f.payload[0])
    else NoFlag
  }

  /** The frame a session writes for a message: one flag, and id 0 on control frames. */
  function FrameOf(m: Msg): F.Frame {
    match m
    case Syn(id, block) => F.Frame(F.PROTOCOL_VERSION, F.SYN, id, block)
    case Data(id, payload) => F.Frame(F.PROTOCOL_VERSION, F.DATA, id, payload)
    case Fin(id) => F.Frame(F.PROTOCOL_VERSION, F.FIN, id, [])
    case Rst(id, reason) => F.Frame(F.PROTOCOL_VERSION, F.RST, id, [reason])
    case Win(id, credit) => F.Frame(F.PROTOCOL_VERSION, F.WIN, id, Be32(credit))
    case Ping(p) => F.Frame(F.PROTOCOL_VERSION, F.PING, 0, p)
    case Pong(p) => F.Frame(F.PROTOCOL_VERSION, F.PONG, 0, p)
    case GoAway(reason) => F.Frame(F.PROTOCOL_VERSION, F.GOAWAY, 0, [reason])
    case NoFlag => F.Frame(F.PROTOCOL_VERSION, 0, 0, [])
  }

  function Size(m: Msg): nat {
    |FrameOf(m).payload|
  }

  /** Every frame a session can build is structurally valid and is understood as what was meant. */
  lemma EmittedFramesAreUnderstood(m: Msg)
    ensures F.Valid(FrameOf(m)) && Classify(FrameOf(m)) == m
  {
    if m.Win? {
      Be32RoundTrip(m.credit);
    }
  }

  /** The bytes of each message: version, flag, id, size, payload; id 0 on PING, PONG and GOAWAY. */
  lemma MessageLayout(m: Msg)
    ensures var e := F.Encode(FrameOf(m));
            match m
            case Syn(id, block) => e == [1, 1] + Be32(id) + Be32(|block|) + block
            case Data(id, payload) => e == [1, 16] + Be32(id) + Be32(|payload|) + payload
            case Fin(id) => e == [1, 2] + Be32(id) + [0, 0, 0, 0]
            case Rst(id, reason) => e == [1, 4] + Be32(id) + [0, 0, 0, 1] + [reason]
            case Win(id, credit) => e == [1, 8] + Be32(id) + [0, 0, 0, 4] + Be32(credit)
            case Ping(p) => e == [1, 32, 0, 0, 0, 0] + Be32(|p|) + p
            case Pong(p) => e == [1, 64, 0, 0, 0, 0] + Be32(|p|) + p
            case GoAway(reason) => e == [1, 128, 0, 0, 0, 0, 0, 0, 0, 1] + [reason]
            case NoFlag => e == [1, 0, 0, 0, 0, 0, 0, 0, 0, 0]
  {
    assert Be32(0) == [0, 0, 0, 0] && Be32(1) == [0, 0, 0, 1] && Be32(4) == [0, 0, 0, 4];
    hide Be32;
  }

  /** None of the flags `before` is set, but `bit` is. */
  predicate Decides(flags: byte, before: seq<nat>, bit: nat)
    requires bit in {1, 2, 4, 8, 16, 32, 64, 128} && forall k :: k in before ==> k in {1, 2, 4, 8, 16, 32, 64, 128}
  {
    Has(flags, bit) && forall k :: k in before ==> !Has(flags, k)
  }

  /** Of several flags the first in this order decides: SYN, DATA, FIN, RST, WIN, PING, PONG, GOAWAY. */
  lemma FirstFlagDecides(f: F.Frame)
    requires F.Valid(f)
    ensures var b := f.flags; var m := Classify(f);
            && (m.Syn? <==> Decides(b, [], 1))
            && (m.Data? <==> Decides(b, [1], 16))
            && (m.Fin? <==> Decides(b, [1, 16], 2))
            && (m.Rst? <==> Decides(b, [1, 16, 2], 4))
            && (m.Win? <==> Decides(b, [1, 16, 2, 4], 8))
            && (m.Ping? <==> Decides(b, [1, 16, 2, 4, 8], 32))
            && (m.Pong? <==> Decides(b, [1, 16, 2, 4, 8, 32], 64))
            && (m.GoAway? <==> Decides(b, [1, 16, 2, 4, 8, 32, 64], 128))
  {
    hide Has, FromBe32;
  }

  // ----- State -----

  datatype Config = Config(initiator: bool, maxPayload: u32, window: u32, depth: nat)

  /** How a stream came to be, and whether its user has it in hand yet. */
  datatype Origin =
    | Dialing    // registered by Open, SYN not yet written
    | Undoing    // SYN could not be written, table entry still there
    | Refused    // Open returned an error
    | Dialed     // Open returned the stream
    | Queued     // inbound, Accept has not returned it
    | Accepted   // inbound, returned by Accept

  datatype Writer =
    | WIdle
    | WLoop(rest: seq<byte>)                     // in the Write loop, about to take the lock
    | WPut(chunk: seq<byte>, rest: seq<byte>)    // window reserved for chunk, frame not yet written

  datatype Reader = RIdle | RPut(credit: nat)      // bytes drained, WIN frame not yet written

  datatype Closer = CIdle | CRemove | CPut | CDone // finSent is set from CRemove or CPut on

  datatype Stream = Stream(
    target: T.Target,
    core: Core,
    origin: Origin,
    writer: Writer,
    reader: Reader,
    closer: Closer,
    finPut: bool,             // history: the FIN frame went out
    written: seq<byte>,       // history: all bytes given to Write
    framed: seq<byte>,        // history: all bytes put into DATA frames
    delivered: seq<byte>)     // history: all bytes returned by Read

  function NewStream(target: T.Target, window: nat, origin: Origin): Stream {
    Stream(target, NewCore(window), origin, WIdle, RIdle, CIdle, false, [], [], [])
  }

  predicate InUse(st: Stream) {
    st.origin == Dialed || st.origin == Accepted
  }

  /** The k-th stream object created for a stream id. */
  datatype Key = Key(id: u32, k: nat)

  /** Where the receive loop stands between two frames. */
  datatype Loop =
    | Ready
    | Offering(key: Key)                 // SYN registered, not yet queued for Accept
    | Removing(rid: u32)                 // both FINs seen, table entry not yet deleted
    | Resetting(key: Key, reply: bool)   // deleted, not yet marked reset; RST(busy) follows if reply
    | Putting(m: Msg)                    // an answer to be written
    | Stopped

  /** `closeWithError`, which runs once: GOAWAY, then the flag, then the sweep over the table. */
  datatype Shutdown = Up | Said | Flagged | Down

  datatype Session = Session(
    cfg: Config,
    objs: map<u32, seq<Stream>>,   // every stream object ever created; the last one may be in the table
    live: set<u32>,                // the keys of the table
    nextID: u32,
    opens: nat,                    // history: how many ids Open has taken
    acceptQ: seq<Key>,
    closed: bool,
    shutdown: Shutdown,
    loop: Loop,
    fatal: bool)                   // history: a protocol violation was found

  function NewSession(cfg: Config): Session {
    Session(cfg, map[], {}, if cfg.initiator then 1 else 2, 0, [], false, Up, Ready, false)
  }

  predicate HasObj(s: Session, key: Key) {
    key.id in s.objs && key.k < |s.objs[key.id]|
  }

  function Obj(s: Session, key: Key): Stream
    requires HasObj(s, key)
  {
    s.objs[key.id][key.k]
  }

  function SetObj(s: Session, key: Key, st: Stream): Session
    requires HasObj(s, key)
  {
    s.(objs := s.objs[key.id := s.objs[key.id][key.k := st]])
  }

  function SetCore(s: Session, key: Key, c: Core): Session
    requires HasObj(s, key)
  {
    SetObj(s, key, Obj(s, key).(core := c))
  }

  /** The youngest object with an id: the one a table entry for the id stands for. */
  function Latest(s: Session, id: u32): Key {
    Key(id, if id in s.objs && s.objs[id] != [] then |s.objs[id]| - 1 else 0)
  }

  /** Is there a table entry for the id? */
  predicate InTable(s: Session, id: u32) {
    id in s.live && HasObj(s, Latest(s, id))
  }

  function Register(s: Session, id: u32, st: Stream): Session {
    s.(objs := s.objs[id := (if id in s.objs then s.objs[id] else []) + [st]], live := s.live + {id})
  }

  function Unregister(s: Session, id: u32): Session {
    s.(live := s.live - {id})
  }

  /** `writeFrame` succeeds while the session is not closed and the payload fits the cap. */
  predicate CanWrite(cfg: Config, closed: bool, m: Msg) {
    !closed && Size(m) <= cfg.maxPayload
  }

  predicate CanPut(s: Session, m: Msg) {
    CanWrite(s.cfg, s.closed, m)
  }

  function Put(s: Session, m: Msg): seq<Msg> {
    if CanPut(s, m) then [m] else []
  }

  // ----- Steps -----

  datatype Event =
    | Open(target: T.Target) | OpenPut(key: Key) | OpenUndo(key: Key)
    | Write(key: Key, p: seq<byte>) | WriteReserve(key: Key) | WritePut(key: Key)
    | Read(key: Key, cap: nat) | ReadPut(key: Key)
    | Close(key: Key) | CloseRemove(key: Key) | ClosePut(key: Key)
    | Accept
    | SendPing(p: seq<byte>)
    | Recv(m: Msg) | RecvBad
    | LoopStep
    | ShutStart(reason: byte) | ShutFlag | ShutSweep

  /** The state after a step and the frames it wrote; nothing when the step cannot happen (or sleeps). */
  datatype Outcome = Outcome(s: Session, out: seq<Msg>)

  type Step = Option<Outcome>

  function Quiet(s: Session): Step {
    Some(Outcome(s, []))
  }

  /** `Open`, first section: check, take an id, register. */
  function OpenStep(s: Session, target: T.Target): Step {
    if s.closed then Quiet(s)
    else
      var id := s.nextID;
      var st := NewStream(target, s.cfg.window, Dialing);
      Quiet(Register(s, id, st).(nextID := (id + 2) % U32, opens := s.opens + 1))
  }

  /** What a thread's step does to its stream; `drop` deletes the table entry of the stream's id. */
  datatype StreamOut = StreamOut(st: Stream, drop: bool, out: seq<Msg>)

  function Silent(st: Stream): Option<StreamOut> {
    Some(StreamOut(st, false, []))
  }

  function OpenPutStep(cfg: Config, closed: bool, id: u32, st: Stream): Option<StreamOut> {
    var m := Syn(id, T.Encode(st.target));
    if st.origin != Dialing then None
    else if CanWrite(cfg, closed, m) then Some(StreamOut(st.(origin := Dialed), false, [m]))
    else Silent(st.(origin := Undoing))
  }

  /** The SYN could not be written: `Open` deletes its entry, by id, and fails. */
  function OpenUndoStep(st: Stream): Option<StreamOut> {
    if st.origin != Undoing then None
    else Some(StreamOut(st.(origin := Refused), true, []))
  }

  function WriteStep(st: Stream, p: seq<byte>): Option<StreamOut> {
    if !InUse(st) || st.writer != WIdle then None
    else if p == [] then Silent(st)
    else Silent(st.(writer := WLoop(p), written := st.written + p))
  }

  /** One locked turn of the `Write` loop; no step while the writer sleeps, an error ends the call. */
  function WriteReserveStep(cfg: Config, st: Stream): Option<StreamOut> {
    if !st.writer.WLoop? || st.core.sendWin < 0 then None
    else
      var rest := st.writer.rest;
      var (r, c) := Reserve(st.core, |rest|, cfg.maxPayload);
      match r
      case WriteWait => None
      case Granted(n) => Silent(st.(core := c, writer := WPut(rest[..n], rest[n..])))
      case WriteReset => Silent(st.(writer := WIdle))
      case WriteSessionClosed => Silent(st.(writer := WIdle))
      case WriteHalfClosed => Silent(st.(writer := WIdle))
  }

  function WritePutStep(cfg: Config, closed: bool, id: u32, st: Stream): Option<StreamOut> {
    if !st.writer.WPut? then None
    else
      var WPut(chunk, rest) := st.writer;
      if !CanWrite(cfg, closed, Data(id, chunk)) then Silent(st.(writer := WIdle))
      else
        var w := if rest == [] then WIdle else WLoop(rest);
        Some(StreamOut(st.(writer := w, framed := st.framed + chunk), false, [Data(id, chunk)]))
  }

  /** The locked part of `Read`; end of file and errors change nothing. */
  function ReadStep(st: Stream, cap: nat): Option<StreamOut> {
    if !InUse(st) || st.reader != RIdle || cap == 0 then None
    else
      var (r, c) := Drain(st.core, cap);
      match r
      case ReadWait => None
      case Got(bytes, credit) =>
        Silent(st.(core := c, reader := RPut(credit), delivered := st.delivered + bytes))
      case Eof => Silent(st)
      case ReadReset => Silent(st)
      case ReadSessionClosed => Silent(st)
  }

  function ReadPutStep(cfg: Config, closed: bool, id: u32, st: Stream): Option<StreamOut> {
    if !st.reader.RPut? then None
    else
      var m := Win(id, st.reader.credit % U32);
      Some(StreamOut(st.(reader := RIdle), false, if CanWrite(cfg, closed, m) then [m] else []))
  }

  function CloseStep(st: Stream): Option<StreamOut> {
    if !InUse(st) || st.closer != CIdle then None
    else Silent(st.(core := MarkFinSent(st.core), closer := if st.core.finRecv then CRemove else CPut))
  }

  function CloseRemoveStep(st: Stream): Option<StreamOut> {
    if st.closer != CRemove then None
    else Some(StreamOut(st.(closer := CPut), true, []))
  }

  function ClosePutStep(cfg: Config, closed: bool, id: u32, st: Stream): Option<StreamOut> {
    if st.closer != CPut then None
    else if CanWrite(cfg, closed, Fin(id)) then Some(StreamOut(st.(closer := CDone, finPut := true), false, [Fin(id)]))
    else Silent(st.(closer := CDone))
  }

  /** The steps of threads that work on one stream. */
  predicate IsCall(e: Event) {
    || e.OpenPut? || e.OpenUndo? || e.Write? || e.WriteReserve? || e.WritePut?
    || e.Read? || e.ReadPut? || e.Close? || e.CloseRemove? || e.ClosePut?
  }

  function StreamStep(cfg: Config, closed: bool, st: Stream, e: Event): Option<StreamOut>
    requires IsCall(e)
  {
    match e
    case OpenPut(key) => OpenPutStep(cfg, closed, key.id, st)
    case OpenUndo(_) => OpenUndoStep(st)
    case Write(_, p) => WriteStep(st, p)
    case WriteReserve(_) => WriteReserveStep(cfg, st)
    case WritePut(key) => WritePutStep(cfg, closed, key.id, st)
    case Read(_, cap) => ReadStep(st, cap)
    case ReadPut(key) => ReadPutStep(cfg, closed, key.id, st)
    case Close(_) => CloseStep(st)
    case CloseRemove(_) => CloseRemoveStep(st)
    case ClosePut(key) => ClosePutStep(cfg, closed, key.id, st)
  }

  function CallStep(s: Session, e: Event): Step
    requires IsCall(e)
  {
    if !HasObj(s, e.key) then None
    else
      match StreamStep(s.cfg, s.closed, Obj(s, e.key), e)
      case None => None
      case Some(r) =>
        var t := SetObj(s, e.key, r.st);
        Some(Outcome(if r.drop then Unregister(t, e.key.id) else t, r.out))
  }

  function AcceptStep(s: Session): Step {
    if s.acceptQ == [] || !HasObj(s, s.acceptQ[0]) then None
    else
      var key := s.acceptQ[0];
      Quiet(SetObj(s, key, Obj(s, key).(origin := Accepted)).(acceptQ := s.acceptQ[1..]))
  }

  function Violation(s: Session): Step {
    Quiet(s.(loop := Stopped, fatal := true))
  }

  /** `handleFrame` up to the stream's own section. */
  function RecvStep(s: Session, m: Msg): Step
  {
    if s.loop != Ready then None
    else
      match m
      case Syn(id, block) => RecvSyn(s, id, block)
      case Data(id, payload) =>
        if !InTable(s, id) then Quiet(s.(loop := Putting(Rst(id, REASON_BUSY))))
        else
          var key := Latest(s, id);
          (match Push(Obj(s, key).core, payload, s.cfg.window)
           case None => Violation(s)
           case Some(c) => Quiet(SetCore(s, key, c)))
      case Fin(id) =>
        if !InTable(s, id) then Quiet(s)
        else
          var key := Latest(s, id);
          var c := Obj(s, key).core;
          Quiet(SetCore(s, key, MarkFinRecv(c)).(loop := if c.finSent then Removing(id) else Ready))
      case Rst(id, _) =>
        if !InTable(s, id) then Quiet(s)
        else Quiet(Unregister(s, id).(loop := Resetting(Latest(s, id), false)))
      case Win(id, credit) =>
        if !InTable(s, id) then Quiet(s)
        else
          var key := Latest(s, id);
          Quiet(SetCore(s, key, AddWindow(Obj(s, key).core, credit)))
      case Ping(p) => Quiet(s.(loop := Putting(Pong(p))))
      case Pong(_) => Quiet(s)
      case GoAway(_) => Quiet(s.(loop := Stopped))
      case NoFlag => Violation(s)
  }

  /** `handleSYN`: it looks neither at the parity of the id nor at `closed`. */
  function RecvSyn(s: Session, id: u32, block: seq<byte>): Step {
    match T.Parse(block)
    case Err(_) => Quiet(s.(loop := Putting(Rst(id, REASON_PROTOCOL))))
    case Ok(target) =>
      if InTable(s, id) then Quiet(s.(loop := Putting(Rst(id, REASON_DUP))))
      else
        var s1 := Register(s, id, NewStream(target, s.cfg.window, Queued));
        Quiet(s1.(loop := Offering(Latest(s1, id))))
  }

  /** The receive loop goes on with the frame it has. */
  function LoopStepStep(s: Session): Step {
    match s.loop
    case Ready => None
    case Stopped => None
    case Offering(key) =>
      if |s.acceptQ| < s.cfg.depth then Quiet(s.(acceptQ := s.acceptQ + [key], loop := Ready))
      else if InTable(s, key.id) then
        Quiet(Unregister(s, key.id).(loop := Resetting(Latest(s, key.id), true)))
      else Quiet(s.(loop := Putting(Rst(key.id, REASON_BUSY))))
    case Removing(id) => Quiet(Unregister(s, id).(loop := Ready))
    case Resetting(key, reply) =>
      if !HasObj(s, key) then None
      else
        Quiet(SetCore(s, key, MarkReset(Obj(s, key).core)).(
              loop := if reply then Putting(Rst(key.id, REASON_BUSY)) else Ready))
    case Putting(m) =>
      Some(Outcome(s.(loop := if m.Pong? && !CanPut(s, m) then Stopped else Ready), Put(s, m)))
  }

  function Sweep(objs: seq<Stream>): seq<Stream> {
    if objs == [] then objs
    else
      var last := |objs| - 1;
      objs[last := objs[last].(core := MarkSessionClosed(objs[last].core))]
  }

  function ShutStartStep(s: Session, reason: byte): Step {
    if s.shutdown != Up then None
    else Some(Outcome(s.(shutdown := Said), Put(s, GoAway(reason))))
  }

  function ShutFlagStep(s: Session): Step {
    if s.shutdown != Said then None else Quiet(s.(shutdown := Flagged, closed := true))
  }

  /** Under the table lock: every stream in the table is marked, then the table is emptied. */
  function ShutSweepStep(s: Session): Step
  {
    if s.shutdown != Flagged then None
    else
      var objs := map id | id in s.objs :: if id in s.live then Sweep(s.objs[id]) else s.objs[id];
      Quiet(s.(shutdown := Down, objs := objs, live := {}))
  }

  function SessionStep(s: Session, e: Event): Step {
    if IsCall(e) then CallStep(s, e)
    else
      match e
      case Open(target) => OpenStep(s, target)
      case Accept => AcceptStep(s)
      case SendPing(p) => Some(Outcome(s, Put(s, Ping(p))))
      case Recv(m) => RecvStep(s, m)
      case RecvBad => if s.loop == Ready then Violation(s) else None
      case LoopStep => LoopStepStep(s)
      case ShutStart(reason) => ShutStartStep(s, reason)
      case ShutFlag => ShutFlagStep(s)
      case ShutSweep => ShutSweepStep(s)
  }

  lemma RecvKeepsConfig(s: Session, m: Msg)
    requires RecvStep(s, m).Some?
    ensures var t := RecvStep(s, m).value.s; t.cfg == s.cfg && t.opens == s.opens && t.closed == s.closed
  {
    hide T.Parse, Push;
  }

  lemma StepKeepsConfig(s: Session, e: Event)
    requires SessionStep(s, e).Some?
    ensures SessionStep(s, e).value.s.cfg == s.cfg
    ensures SessionStep(s, e).value.s.opens >= s.opens
  {
    hide CanPut, StreamStep, RecvStep, Sweep;
    if e.Recv? {
      RecvKeepsConfig(s, e.m);
    }
  }
}
