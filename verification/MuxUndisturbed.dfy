/**
 * The calls of the objects against the steps of the step system: a call that nothing comes between does
 * to table, stream and channel what the method in `MuxObjects` says.
 */
module MuxUndisturbed {
  import opened Bytes
  import opened MuxSession
  import opened MuxObjects
  import S = MuxStream
  import T = TargetCodec

  /** One step after what has happened so far. */
  function Then(o: Outcome, e: Event): Option<Outcome> {
    match SessionStep(o.s, e)
    case None => None
    case Some(p) => Some(Outcome(p.s, o.out + p.out))
  }

  /** Steps one after the other, each of which must be possible. */
  function Steps(s: MuxSession.Session, es: seq<Event>): Option<Outcome> {
    if es == [] then Some(Outcome(s, []))
    else
      match Steps(s, es[..|es| - 1])
      case None => None
      case Some(o) => Then(o, es[|es| - 1])
  }

  /** After silence, a step is all that has happened. */
  lemma ThenFirst(s: MuxSession.Session, e: Event)
    ensures Then(Outcome(s, []), e) == SessionStep(s, e)
  {
    var r := SessionStep(s, e);
    hide SessionStep;
    if r.Some? {
      assert [] + r.value.out == r.value.out;
    }
  }

  /** A silent step adds nothing to what was written. */
  lemma ThenSilent(o: Outcome, e: Event, t: MuxSession.Session)
    requires SessionStep(o.s, e) == Quiet(t)
    ensures Then(o, e) == Some(Outcome(t, o.out))
  {
    hide SessionStep;
    assert o.out + [] == o.out;
  }

  lemma OneStep(s: MuxSession.Session, a: Event)
    ensures Steps(s, [a]) == SessionStep(s, a)
  {
    assert [a][..0] == [];
    assert Steps(s, []) == Some(Outcome(s, []));
    ThenFirst(s, a);
    hide Then, SessionStep;
  }

  lemma TwoSteps(s: MuxSession.Session, a: Event, b: Event)
    ensures Steps(s, [a, b]) == match Steps(s, [a]) case None => None case Some(o) => Then(o, b)
  {
    assert [a, b][..1] == [a];
    hide Then;
  }

  lemma ThreeSteps(s: MuxSession.Session, a: Event, b: Event, c: Event)
    ensures Steps(s, [a, b, c]) == match Steps(s, [a, b]) case None => None case Some(o) => Then(o, c)
  {
    assert [a, b, c][..2] == [a, b];
    hide Then;
  }

  /** Of two changes of one object the second one stands. */
  lemma SetTwice(s: MuxSession.Session, key: Key, a: MuxSession.Stream, b: MuxSession.Stream)
    requires HasObj(s, key)
    ensures HasObj(SetObj(s, key, a), key) && Obj(SetObj(s, key, a), key) == a
    ensures SetObj(SetObj(s, key, a), key, b) == SetObj(s, key, b)
  {
    var xs := s.objs[key.id];
    assert xs[key.k := a][key.k := b] == xs[key.k := b];
    assert s.objs[key.id := xs[key.k := a]][key.id := xs[key.k := b]] == s.objs[key.id := xs[key.k := b]];
  }

  // ----- Close -----

  /** The three steps of `Close`, or the two when there is nothing to take out. */
  function CloseSteps(key: Key, both: bool): seq<Event> {
    if both then [Close(key), CloseRemove(key), ClosePut(key)] else [Close(key), ClosePut(key)]
  }

  /** The stream with its write side closed and everything done about it. */
  function Closed(st: MuxSession.Stream, sent: bool): MuxSession.Stream {
    st.(core := S.MarkFinSent(st.core), closer := CDone, finPut := st.finPut || sent)
  }

  /** The first close of a stream: flag, retirement exactly if the other side has closed, and FIN. */
  lemma {:induction false} CloseIsUndisturbedSteps(s: MuxSession.Session, key: Key)
    requires HasObj(s, key) && InUse(Obj(s, key)) && Obj(s, key).closer == CIdle
    ensures var st := Obj(s, key); var o := Steps(s, CloseSteps(key, st.core.finRecv));
            && o.Some? && o.value.out == Reply(s.cfg, s.closed, Fin(key.id))
            && o.value.s == SetObj(s, key, Closed(st, !s.closed)).(live := if st.core.finRecv then s.live - {key.id} else s.live)
  {
    var st := Obj(s, key);
    var a := st.(core := S.MarkFinSent(st.core), closer := if st.core.finRecv then CRemove else CPut);
    var s1 := SetObj(s, key, a);
    OneStep(s, Close(key));
    assert SessionStep(s, Close(key)) == Quiet(s1);
    var b := a.(closer := CPut);
    var s2 := if st.core.finRecv then Unregister(SetObj(s1, key, b), key.id) else s1;
    SetTwice(s, key, a, b);
    SetTwice(s, key, b, Closed(st, !s.closed));
    if st.core.finRecv {
      TwoSteps(s, Close(key), CloseRemove(key));
      assert SessionStep(s1, CloseRemove(key)) == Quiet(s2);
      ThenSilent(Outcome(s1, []), CloseRemove(key), s2);
      ThreeSteps(s, Close(key), CloseRemove(key), ClosePut(key));
    } else {
      TwoSteps(s, Close(key), ClosePut(key));
    }
    FinPut(s2, key);
    ThenFirst(s2, ClosePut(key));
    hide Steps, Then, SessionStep;
  }

  lemma FinPut(s: MuxSession.Session, key: Key)
    requires HasObj(s, key) && Obj(s, key).closer == CPut
    ensures var st := Obj(s, key); var done := st.(closer := CDone, finPut := st.finPut || !s.closed);
            SessionStep(s, ClosePut(key)) == Some(Outcome(SetObj(s, key, done), Reply(s.cfg, s.closed, Fin(key.id))))
  {
  }

  // ----- Open -----

  /** The key `Open` gives its stream. */
  function NextKey(s: MuxSession.Session): Key {
    Key(s.nextID, if s.nextID in s.objs then |s.objs[s.nextID]| else 0)
  }

  /** A closed session is left alone. */
  lemma OpenClosed(s: MuxSession.Session, target: T.Target)
    requires s.closed
    ensures Steps(s, [Open(target)]) == Some(Outcome(s, []))
  {
    OneStep(s, Open(target));
  }

  /** The session with one more stream, in the given state, under the next id. */
  function WithNext(s: MuxSession.Session, target: T.Target, origin: Origin): MuxSession.Session {
    Register(s, s.nextID, NewStream(target, s.cfg.window, origin)).(nextID := (s.nextID + 2) % U32, opens := s.opens + 1)
  }

  lemma Opened(s: MuxSession.Session, target: T.Target)
    requires !s.closed
    ensures Steps(s, [Open(target)]) == Some(Outcome(WithNext(s, target, Dialing), []))
  {
    OneStep(s, Open(target));
    assert SessionStep(s, Open(target)) == Quiet(WithNext(s, target, Dialing)) by {
      hide Steps, Register;
    }
    hide Steps, WithNext, SessionStep;
  }

  lemma NextObj(s: MuxSession.Session, target: T.Target, origin: Origin, after: Origin)
    ensures var t := WithNext(s, target, origin); var key := NextKey(s); var st := NewStream(target, s.cfg.window, origin);
            HasObj(t, key) && Obj(t, key) == st && SetObj(t, key, st.(origin := after)) == WithNext(s, target, after)
  {
    var t := WithNext(s, target, origin);
    var id := s.nextID;
    var xs := if id in s.objs then s.objs[id] else [];
    var a := NewStream(target, s.cfg.window, origin);
    var b := NewStream(target, s.cfg.window, after);
    assert b == a.(origin := after);
    assert (xs + [a])[|xs| := b] == xs + [b];
    assert s.objs[id := xs + [a]][id := xs + [b]] == s.objs[id := xs + [b]];
    hide NewStream;
  }

  /** The SYN can be written: the stream is in the table under the next id, and the SYN is out. */
  lemma {:induction false} OpenIsUndisturbedSteps(s: MuxSession.Session, target: T.Target)
    requires !s.closed && |T.Encode(target)| <= s.cfg.maxPayload
    ensures Steps(s, [Open(target), OpenPut(NextKey(s))])
            == Some(Outcome(WithNext(s, target, Dialed), [Syn(s.nextID, T.Encode(target))]))
  {
    hide T.Encode;
    var key := NextKey(s);
    Opened(s, target);
    NextObj(s, target, Dialing, Dialed);
    TwoSteps(s, Open(target), OpenPut(key));
    var t := WithNext(s, target, Dialing);
    hide Steps, Then;
    assert SessionStep(t, OpenPut(key)) == Some(Outcome(WithNext(s, target, Dialed), [Syn(s.nextID, T.Encode(target))]));
    ThenFirst(t, OpenPut(key));
    hide SessionStep, WithNext;
  }

  /** It cannot: the entry is taken out again, by id, and nothing was written. */
  lemma {:induction false} OpenUndoneIsUndisturbedSteps(s: MuxSession.Session, target: T.Target)
    requires !s.closed && |T.Encode(target)| > s.cfg.maxPayload
    ensures Steps(s, [Open(target), OpenPut(NextKey(s)), OpenUndo(NextKey(s))])
            == Some(Outcome(Unregister(WithNext(s, target, Refused), s.nextID), []))
  {
    hide T.Encode;
    var key := NextKey(s);
    Opened(s, target);
    NextObj(s, target, Dialing, Undoing);
    NextObj(s, target, Undoing, Refused);
    var t := WithNext(s, target, Dialing);
    var t1 := WithNext(s, target, Undoing);
    var t2 := Unregister(WithNext(s, target, Refused), key.id);
    TwoSteps(s, Open(target), OpenPut(key));
    ThreeSteps(s, Open(target), OpenPut(key), OpenUndo(key));
    hide Steps, Then;
    assert SessionStep(t, OpenPut(key)) == Quiet(t1);
    ThenSilent(Outcome(t, []), OpenPut(key), t1);
    assert SessionStep(t1, OpenUndo(key)) == Quiet(t2);
    ThenSilent(Outcome(t1, []), OpenUndo(key), t2);
    hide SessionStep, WithNext;
  }

  // ----- Read and write -----

  /** A read with something to return: its bytes, and the WIN frame for its credit. */
  lemma {:induction false} ReadIsUndisturbedSteps(s: MuxSession.Session, key: Key, cap: nat)
    requires HasObj(s, key) && InUse(Obj(s, key)) && Obj(s, key).reader == RIdle && 0 < cap && Obj(s, key).core.buf != []
    ensures var st := Obj(s, key); var (r, c) := S.Drain(st.core, cap); var o := Steps(s, [MuxSession.Read(key, cap), ReadPut(key)]);
            && r.Got? && o.Some? && o.value.out == Reply(s.cfg, s.closed, Win(key.id, r.credit % U32))
            && o.value.s == SetObj(s, key, st.(core := c, delivered := st.delivered + r.bytes))
  {
    var st := Obj(s, key);
    var (r, c) := S.Drain(st.core, cap);
    OneStep(s, MuxSession.Read(key, cap));
    var a := st.(core := c, reader := RPut(r.credit), delivered := st.delivered + r.bytes);
    assert SessionStep(s, MuxSession.Read(key, cap)) == Quiet(SetObj(s, key, a));
    SetTwice(s, key, a, a.(reader := RIdle));
    TwoSteps(s, MuxSession.Read(key, cap), ReadPut(key));
    ThenFirst(SetObj(s, key, a), ReadPut(key));
    hide S.Drain, Steps, Then, CanWrite;
  }

  /** One turn of the write loop that is granted `n` bytes: they are framed, and the rest is still to come. */
  lemma {:induction false} TurnIsUndisturbedSteps(s: MuxSession.Session, key: Key)
    requires HasObj(s, key) && Obj(s, key).writer.WLoop? && 0 <= Obj(s, key).core.sendWin && !s.closed
    requires S.Reserve(Obj(s, key).core, |Obj(s, key).writer.rest|, s.cfg.maxPayload).0.Granted?
    ensures var st := Obj(s, key); var p := st.writer.rest; var (r, c) := S.Reserve(st.core, |p|, s.cfg.maxPayload);
            var o := Steps(s, [WriteReserve(key), WritePut(key)]);
            && o.Some? && r.n <= |p| && o.value.out == [Data(key.id, p[..r.n])]
            && o.value.s == SetObj(s, key, st.(core := c, writer := if r.n == |p| then WIdle else WLoop(p[r.n..]), framed := st.framed + p[..r.n]))
  {
    var st := Obj(s, key);
    var p := st.writer.rest;
    var (r, c) := S.Reserve(st.core, |p|, s.cfg.maxPayload);
    OneStep(s, WriteReserve(key));
    var a := st.(core := c, writer := WPut(p[..r.n], p[r.n..]));
    assert SessionStep(s, WriteReserve(key)) == Quiet(SetObj(s, key, a));
    SetTwice(s, key, a, a.(writer := if r.n == |p| then WIdle else WLoop(p[r.n..]), framed := st.framed + p[..r.n]));
    TwoSteps(s, WriteReserve(key), WritePut(key));
    ThenFirst(SetObj(s, key, a), WritePut(key));
    assert p[r.n..] == [] <==> r.n == |p|;
    hide S.Reserve, Steps, Then;
  }

  // ----- Shutdown -----

  /** Every object is there as before, those of the table marked. */
  ghost predicate Swept(s: MuxSession.Session, t: MuxSession.Session) {
    && t.objs.Keys == s.objs.Keys
    && (forall key: Key :: HasObj(s, key) ==>
          HasObj(t, key)
          && Obj(t, key) == (if key.id in s.live && key == Latest(s, key.id)
                             then Obj(s, key).(core := S.MarkSessionClosed(Obj(s, key).core)) else Obj(s, key)))
  }

  lemma SweepMarks(s: MuxSession.Session)
    requires s.shutdown == Flagged
    ensures var o := ShutSweepStep(s); o.Some? && o == Quiet(o.value.s) && Swept(s, o.value.s)
    ensures var t := ShutSweepStep(s).value.s; t.closed == s.closed && t.shutdown == Down && t.live == {}
  {
    hide S.MarkSessionClosed;
  }

  /** GOAWAY, the flag, and the sweep. */
  lemma {:induction false} CloseWithErrorIsUndisturbedSteps(s: MuxSession.Session, reason: byte)
    requires s.shutdown == Up && !s.closed
    ensures var o := Steps(s, [ShutStart(reason), ShutFlag, ShutSweep]);
            && o.Some? && o.value.out == Reply(s.cfg, s.closed, GoAway(reason))
            && o.value.s.closed && o.value.s.shutdown == Down && o.value.s.live == {} && Swept(s, o.value.s)
  {
    var s1 := s.(shutdown := Said);
    var s2 := s1.(shutdown := Flagged, closed := true);
    OneStep(s, ShutStart(reason));
    TwoSteps(s, ShutStart(reason), ShutFlag);
    ThreeSteps(s, ShutStart(reason), ShutFlag, ShutSweep);
    hide Steps, Then, CanWrite;
    var o1 := Outcome(s1, Reply(s.cfg, s.closed, GoAway(reason)));
    SweepMarks(s2);
    assert SessionStep(s, ShutStart(reason)) == Some(o1);
    assert SessionStep(s1, ShutFlag) == Quiet(s2);
    assert SessionStep(s2, ShutSweep) == ShutSweepStep(s2);
    hide SessionStep, ShutSweepStep;
    ThenSilent(o1, ShutFlag, s2);
    ThenSilent(Outcome(s2, o1.out), ShutSweep, ShutSweepStep(s2).value.s);
  }
}
