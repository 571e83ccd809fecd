/**
 * The XX handshake of the Noise Protocol Framework, revision 34 (sections 5.2, 5.3 and 7.5), as the
 * Kotlin client runs it. Hash, key derivation, Diffie-Hellman and cipher are functions of which only
 * their laws are used.
 */
module NoiseXX {
  import opened Bytes

  type Key = seq<byte>

  const KEY_LEN := 32
  const TAG_LEN := 16

  datatype Suite = Suite(
    name: seq<byte>,
    hash: seq<byte> -> seq<byte>,
    kdf: (Key, seq<byte>) -> (Key, Key),
    dh: (Key, Key) -> seq<byte>,
    pub: Key -> Key,
    enc: (Key, nat, seq<byte>, seq<byte>) -> seq<byte>,
    dec: (Key, nat, seq<byte>, seq<byte>) -> Option<seq<byte>>)

  ghost predicate DhCommutes(u: Suite) {
    forall a: Key, b: Key :: u.dh(a, u.pub(b)) == u.dh(b, u.pub(a))
  }

  ghost predicate CipherInverts(u: Suite) {
    forall k: Key, n: nat, ad: seq<byte>, pt: seq<byte> ::
      |u.enc(k, n, ad, pt)| == |pt| + TAG_LEN && u.dec(k, n, ad, u.enc(k, n, ad, pt)) == Some(pt)
  }

  ghost predicate Lawful(u: Suite) {
    && DhCommutes(u) && CipherInverts(u)
    && (forall a: Key :: |u.pub(a)| == KEY_LEN)
    && (forall a: Key, b: Key :: |u.dh(a, b)| == KEY_LEN)
  }

  // ----- Symmetric state -----

  datatype Sym = Sym(h: seq<byte>, ck: Key, key: Option<Key>, nonce: nat)

  function StartSym(u: Suite): Sym {
    Sym(u.hash(u.name), u.hash(u.name), None, 0)
  }

  function MixHash(u: Suite, y: Sym, data: seq<byte>): Sym {
    y.(h := u.hash(y.h + data))
  }

  function MixKey(u: Suite, y: Sym, secret: seq<byte>): Sym {
    var (ck, k) := u.kdf(y.ck, secret);
    y.(ck := ck, key := Some(k), nonce := 0)
  }

  function EncryptAndHash(u: Suite, y: Sym, pt: seq<byte>): (Sym, seq<byte>) {
    match y.key
    case None => (MixHash(u, y, pt), pt)
    case Some(k) =>
      var ct := u.enc(k, y.nonce, y.h, pt);
      (MixHash(u, y, ct).(nonce := y.nonce + 1), ct)
  }

  function DecryptAndHash(u: Suite, y: Sym, ct: seq<byte>): Option<(Sym, seq<byte>)> {
    match y.key
    case None => Some((MixHash(u, y, ct), ct))
    case Some(k) =>
      match u.dec(k, y.nonce, y.h, ct)
      case None => None
      case Some(pt) => Some((MixHash(u, y, ct).(nonce := y.nonce + 1), pt))
  }

  /** The receiver undoes what the sender did and ends in the same symmetric state. */
  lemma DecryptFollows(u: Suite, y: Sym, pt: seq<byte>)
    requires CipherInverts(u)
    ensures var (z, ct) := EncryptAndHash(u, y, pt);
            && DecryptAndHash(u, y, ct) == Some((z, pt))
            && |ct| == |pt| + (if y.key.Some? then TAG_LEN else 0)
  {
  }

  // ----- Handshake state -----

  datatype Role = Initiator | Responder

  datatype State = State(
    role: Role,
    s: Key,                 // static private key
    sym: Sym,
    e: Option<Key>,         // ephemeral private key, once generated
    re: Option<Key>,
    rs: Option<Key>,
    step: nat,
    complete: bool)

  function Start(u: Suite, role: Role, s: Key): State {
    State(role, s, StartSym(u), None, None, None, 0, false)
  }

  datatype Error = OutOfTurn | Truncated | Missing | BadTag

  /** After a message: the step moves on, and the third message written completes the handshake. */
  function Written(st: State, sym: Sym): State {
    st.(sym := sym, step := st.step + 1, complete := st.complete || st.step + 1 == 3)
  }

  function WriteMessage(u: Suite, st: State, payload: seq<byte>, newKey: Key): Result<(State, seq<byte>), Error> {
    if st.role == Initiator && st.step == 0 then
      var pub := u.pub(newKey);
      var (y, c) := EncryptAndHash(u, MixHash(u, st.sym, pub), payload);
      Ok((Written(st.(e := Some(newKey)), y), pub + c))
    else if st.role == Initiator && st.step == 2 then
      if st.re.None? then Err(Missing)
      else
        var (y1, c1) := EncryptAndHash(u, st.sym, u.pub(st.s));
        var (y2, c2) := EncryptAndHash(u, MixKey(u, y1, u.dh(st.s, st.re.value)), payload);
        Ok((Written(st, y2), c1 + c2))
    else if st.role == Responder && st.step == 1 then
      if st.re.None? then Err(Missing)
      else
        var pub := u.pub(newKey);
        var y0 := MixKey(u, MixHash(u, st.sym, pub), u.dh(newKey, st.re.value));
        var (y1, c1) := EncryptAndHash(u, y0, u.pub(st.s));
        var (y2, c2) := EncryptAndHash(u, MixKey(u, y1, u.dh(st.s, st.re.value)), payload);
        Ok((Written(st.(e := Some(newKey)), y2), pub + c1 + c2))
    else Err(OutOfTurn)
  }

  /**
   * How the responder reads the third message: as the file has it, or as section 7.5 demands, with
   * `se` computed from its ephemeral key and completion noted on reading too.
   */
  datatype Variant = AsWritten | Repaired

  function ThirdSecret(u: Suite, st: State, rs: Key, v: Variant): Option<seq<byte>> {
    match v
    case AsWritten => if st.re.None? then None else Some(u.dh(st.s, st.re.value))
    case Repaired => if st.e.None? then None else Some(u.dh(st.e.value, rs))
  }

  function Read(st: State, sym: Sym, v: Variant): State {
    st.(sym := sym, step := st.step + 1, complete := st.complete || (v == Repaired && st.step + 1 == 3))
  }

  function ReadSecond(u: Suite, st: State, m: seq<byte>): Result<(State, seq<byte>), Error> {
    if |m| < 2 * KEY_LEN + TAG_LEN then Err(Truncated)
    else if st.e.None? then Err(Missing)
    else
      var re := m[..KEY_LEN];
      var y0 := MixKey(u, MixHash(u, st.sym, re), u.dh(st.e.value, re));
      match DecryptAndHash(u, y0, m[KEY_LEN..2 * KEY_LEN + TAG_LEN])
      case None => Err(BadTag)
      case Some((y1, rs)) =>
        match DecryptAndHash(u, MixKey(u, y1, u.dh(st.e.value, rs)), m[2 * KEY_LEN + TAG_LEN..])
        case None => Err(BadTag)
        case Some((y2, payload)) => Ok((Read(st.(re := Some(re), rs := Some(rs)), y2, AsWritten), payload))
  }

  function ReadFirst(u: Suite, st: State, m: seq<byte>): Result<(State, seq<byte>), Error> {
    if |m| < KEY_LEN then Err(Truncated)
    else
      var re := m[..KEY_LEN];
      match DecryptAndHash(u, MixHash(u, st.sym, re), m[KEY_LEN..])
      case None => Err(BadTag)
      case Some((y, payload)) => Ok((Read(st.(re := Some(re)), y, AsWritten), payload))
  }

  function ReadThird(u: Suite, st: State, m: seq<byte>, v: Variant): Result<(State, seq<byte>), Error> {
    if |m| < KEY_LEN + TAG_LEN then Err(Truncated)
    else
      match DecryptAndHash(u, st.sym, m[..KEY_LEN + TAG_LEN])
      case None => Err(BadTag)
      case Some((y1, rs)) =>
        match ThirdSecret(u, st, rs, v)
        case None => Err(Missing)
        case Some(secret) =>
          match DecryptAndHash(u, MixKey(u, y1, secret), m[KEY_LEN + TAG_LEN..])
          case None => Err(BadTag)
          case Some((y2, payload)) => Ok((Read(st.(rs := Some(rs)), y2, v), payload))
  }

  function ReadMessage(u: Suite, st: State, m: seq<byte>, v: Variant): Result<(State, seq<byte>), Error> {
    if st.role == Initiator then (if st.step != 1 then Err(OutOfTurn) else ReadSecond(u, st, m))
    else if st.step == 0 then ReadFirst(u, st, m)
    else if st.step == 2 then ReadThird(u, st, m, v)
    else Err(OutOfTurn)
  }

  /** The transport keys: the first is for what the initiator sends. */
  function Split(u: Suite, st: State): Option<(Key, Key)> {
    if !st.complete then None else Some(u.kdf(st.sym.ck, []))
  }

  // ----- Agreement -----

  /** Everything two honest ends put into a handshake. */
  datatype Keys = Keys(si: Key, sr: Key, ei: Key, er: Key, p1: seq<byte>, p2: seq<byte>, p3: seq<byte>)

  lemma FirstMessage(u: Suite, k: Keys)
    requires Lawful(u)
    ensures var w := WriteMessage(u, Start(u, Initiator, k.si), k.p1, k.ei);
            && w.Ok?
            && var (i, m) := w.value;
               var r := ReadMessage(u, Start(u, Responder, k.sr), m, AsWritten);
            && r.Ok? && r.value.1 == k.p1 && r.value.0.sym == i.sym && i.sym.key.None?
            && r.value.0 == State(Responder, k.sr, i.sym, None, Some(u.pub(k.ei)), None, 1, false)
            && i == State(Initiator, k.si, i.sym, Some(k.ei), None, None, 1, false)
  {
    var pub := u.pub(k.ei);
    var y := MixHash(u, StartSym(u), pub);
    var (z, c) := EncryptAndHash(u, y, k.p1);
    assert (pub + c)[..KEY_LEN] == pub && (pub + c)[KEY_LEN..] == c;
  }

  /** After the second message both ends hold the same chaining key, hash and cipher key. */
  lemma SecondMessage(u: Suite, k: Keys, y: Sym)
    requires Lawful(u) && y.key.None?
    ensures var w := WriteMessage(u, State(Responder, k.sr, y, None, Some(u.pub(k.ei)), None, 1, false), k.p2, k.er);
            && w.Ok?
            && var (r, m) := w.value;
               var i := ReadMessage(u, State(Initiator, k.si, y, Some(k.ei), None, None, 1, false), m, AsWritten);
            && i.Ok? && i.value.1 == k.p2 && i.value.0.sym == r.sym && r.sym.key.Some?
            && i.value.0 == State(Initiator, k.si, r.sym, Some(k.ei), Some(u.pub(k.er)), Some(u.pub(k.sr)), 2, false)
            && r == State(Responder, k.sr, r.sym, Some(k.er), Some(u.pub(k.ei)), None, 2, false)
  {
    var re := u.pub(k.er);
    var y0 := MixKey(u, MixHash(u, y, re), u.dh(k.er, u.pub(k.ei)));
    var (y1, c1) := EncryptAndHash(u, y0, u.pub(k.sr));
    DecryptFollows(u, y0, u.pub(k.sr));
    var z1 := MixKey(u, y1, u.dh(k.sr, u.pub(k.ei)));
    var (y2, c2) := EncryptAndHash(u, z1, k.p2);
    DecryptFollows(u, z1, k.p2);
    hide EncryptAndHash, DecryptAndHash;
    assert u.dh(k.ei, re) == u.dh(k.er, u.pub(k.ei)) && u.dh(k.ei, u.pub(k.sr)) == u.dh(k.sr, u.pub(k.ei));
    var m := re + c1 + c2;
    assert m[..KEY_LEN] == re && m[KEY_LEN..2 * KEY_LEN + TAG_LEN] == c1 && m[2 * KEY_LEN + TAG_LEN..] == c2;
  }

  /** The third message was read, carried its payload, and left both ends with the same state and statics. */
  predicate Agreed(u: Suite, k: Keys, i: State, r: Result<(State, seq<byte>), Error>) {
    && r.Ok? && r.value.1 == k.p3 && r.value.0.sym == i.sym
    && i.rs == Some(u.pub(k.sr)) && r.value.0.rs == Some(u.pub(k.si))
  }

  /** The state of each end before the third message, when they agree on `y`. */
  function InitiatorAt2(u: Suite, k: Keys, y: Sym): State {
    State(Initiator, k.si, y, Some(k.ei), Some(u.pub(k.er)), Some(u.pub(k.sr)), 2, false)
  }

  function ResponderAt2(u: Suite, k: Keys, y: Sym): State {
    State(Responder, k.sr, y, Some(k.er), Some(u.pub(k.ei)), None, 2, false)
  }

  /** The third message works exactly when both ends derive the same keys from their third secret. */
  lemma ThirdMessage(u: Suite, k: Keys, y: Sym, v: Variant)
    requires Lawful(u) && y.key.Some?
    ensures var w := WriteMessage(u, InitiatorAt2(u, k, y), k.p3, []);
            && w.Ok? && w.value.0.complete
            && var r := ReadMessage(u, ResponderAt2(u, k, y), w.value.1, v);
            && (Agreed(u, k, w.value.0, r) <==>
                  u.kdf(y.ck, u.dh(k.si, u.pub(k.er))) == u.kdf(y.ck, ThirdSecret(u, ResponderAt2(u, k, y), u.pub(k.si), v).value))
            && (r.Ok? ==> r.value.0.complete == (v == Repaired))
  {
    var (y1, c1) := EncryptAndHash(u, y, u.pub(k.si));
    DecryptFollows(u, y, u.pub(k.si));
    var zi := MixKey(u, y1, u.dh(k.si, u.pub(k.er)));
    var zr := MixKey(u, y1, ThirdSecret(u, ResponderAt2(u, k, y), u.pub(k.si), v).value);
    var (y2, c2) := EncryptAndHash(u, zi, k.p3);
    DecryptFollows(u, zi, k.p3);
    var m := c1 + c2;
    assert m[..KEY_LEN + TAG_LEN] == c1 && m[KEY_LEN + TAG_LEN..] == c2;
    assert y1.ck == y.ck;
    if zi != zr {
      KeysStayApart(u, zi, zr, c2);
    }
    hide EncryptAndHash, DecryptAndHash;
  }

  /** Decrypting keeps chaining key and cipher key, so states that differ in them stay different. */
  lemma KeysStayApart(u: Suite, zi: Sym, zr: Sym, c: seq<byte>)
    ensures var d := DecryptAndHash(u, zr, c); d.Some? ==> d.value.0.ck == zr.ck && d.value.0.key == zr.key
    ensures forall pt :: EncryptAndHash(u, zi, pt).0.ck == zi.ck && EncryptAndHash(u, zi, pt).0.key == zi.key
  {
  }

  // ----- Whole handshakes -----

  /** The initiator after writing the third message, and what the responder makes of it. */
  datatype Outcome = Outcome(i: State, r: Result<(State, seq<byte>), Error>)

  /** Three messages, each handed to the other end as it was written. */
  function Handshake(u: Suite, k: Keys, v: Variant): Option<Outcome> {
    match WriteMessage(u, Start(u, Initiator, k.si), k.p1, k.ei)
    case Err(_) => None
    case Ok((i1, m1)) =>
      match ReadMessage(u, Start(u, Responder, k.sr), m1, v)
      case Err(_) => None
      case Ok((r1, _)) =>
        match WriteMessage(u, r1, k.p2, k.er)
        case Err(_) => None
        case Ok((r2, m2)) =>
          match ReadMessage(u, i1, m2, v)
          case Err(_) => None
          case Ok((i2, _)) =>
            match WriteMessage(u, i2, k.p3, [])
            case Err(_) => None
            case Ok((i3, m3)) => Some(Outcome(i3, ReadMessage(u, r2, m3, v)))
  }

  /** Both ends reach the third message with equal symmetric states, whatever the variant. */
  lemma ReachesThird(u: Suite, k: Keys, v: Variant) returns (y: Sym)
    requires Lawful(u)
    ensures y.key.Some?
    ensures var w := WriteMessage(u, InitiatorAt2(u, k, y), k.p3, []);
            w.Ok? && Handshake(u, k, v) == Some(Outcome(w.value.0, ReadMessage(u, ResponderAt2(u, k, y), w.value.1, v)))
  {
    FirstMessage(u, k);
    var y1 := WriteMessage(u, Start(u, Initiator, k.si), k.p1, k.ei).value.0.sym;
    SecondMessage(u, k, y1);
    y := WriteMessage(u, State(Responder, k.sr, y1, None, Some(u.pub(k.ei)), None, 1, false), k.p2, k.er).value.0.sym;
    ThirdMessage(u, k, y, v);
    OnlyThirdDiffers(u, Start(u, Responder, k.sr), v);
    hide WriteMessage, ReadFirst, ReadSecond, ReadThird, Lawful;
  }

  lemma OnlyThirdDiffers(u: Suite, st: State, v: Variant)
    ensures st.step < 2 ==> forall m :: ReadMessage(u, st, m, v) == ReadMessage(u, st, m, AsWritten)
  {
  }

  /**
   * With `se` as section 7.5 has it, the handshake always succeeds: both ends complete, with the same
   * hash, the same transport keys, and each other's static key.
   */
  lemma RepairedAgrees(u: Suite, k: Keys)
    requires Lawful(u)
    ensures var h := Handshake(u, k, Repaired);
            && h.Some? && Agreed(u, k, h.value.i, h.value.r)
            && h.value.i.complete && h.value.r.value.0.complete
            && Split(u, h.value.i).Some? && Split(u, h.value.i) == Split(u, h.value.r.value.0)
            && h.value.i.sym.h == h.value.r.value.0.sym.h
  {
    var y := ReachesThird(u, k, Repaired);
    ThirdMessage(u, k, y, Repaired);
    hide WriteMessage, ReadMessage, Handshake;
    assert u.dh(k.er, u.pub(k.si)) == u.dh(k.si, u.pub(k.er));
  }

  /** Different Diffie-Hellman results give different keys. */
  ghost predicate KdfSeparates(u: Suite) {
    forall ck: Key, a: seq<byte>, b: seq<byte> ::
      |a| == |b| == KEY_LEN && u.kdf(ck, a) == u.kdf(ck, b) ==> a == b
  }

  /**
   * As the file has it, the third message works exactly when two unrelated secrets coincide: the
   * initiator's DH(s, re) and the responder's own DH(s, re). Even then the responder never completes.
   */
  lemma {:induction false} AsWrittenAgreesExactly(u: Suite, k: Keys)
    requires Lawful(u) && KdfSeparates(u)
    ensures var h := Handshake(u, k, AsWritten);
            && h.Some? && h.value.i.complete
            && (Agreed(u, k, h.value.i, h.value.r) <==> u.dh(k.si, u.pub(k.er)) == u.dh(k.sr, u.pub(k.ei)))
            && (h.value.r.Ok? ==> Split(u, h.value.r.value.0).None?)
  {
    var y := ReachesThird(u, k, AsWritten);
    ThirdMessage(u, k, y, AsWritten);
    hide WriteMessage, ReadMessage, Handshake, Agreed;
  }

  // ----- Completion -----

  /** A call; `left` stands for whatever a call that fails half-way leaves in the other fields. */
  datatype Call = Write(payload: seq<byte>, newKey: Key, left: State) | ReadM(m: seq<byte>, left: State)

  function Failed(st: State, left: State): State {
    st.(sym := left.sym, e := left.e, re := left.re, rs := left.rs)
  }

  /** The state after a list of calls; a call that fails leaves step and completion as they were. */
  function RunCalls(u: Suite, st: State, calls: seq<Call>): State {
    if calls == [] then st
    else
      var t := RunCalls(u, st, calls[..|calls| - 1]);
      match calls[|calls| - 1]
      case Write(p, e, left) => (match WriteMessage(u, t, p, e) case Ok((n, _)) => n case Err(_) => Failed(t, left))
      case ReadM(m, left) => (match ReadMessage(u, t, m, AsWritten) case Ok((n, _)) => n case Err(_) => Failed(t, left))
  }

  /** A responder never completes, whatever is called in whatever order, so `split` always refuses it. */
  lemma {:induction false} ResponderNeverCompletes(u: Suite, s: Key, calls: seq<Call>)
    ensures var st := RunCalls(u, Start(u, Responder, s), calls);
            st.role == Responder && !st.complete && Split(u, st).None?
    decreases |calls|
  {
    if calls != [] {
      ResponderNeverCompletes(u, s, calls[..|calls| - 1]);
      var t := RunCalls(u, Start(u, Responder, s), calls[..|calls| - 1]);
      OneCallNeverCompletes(u, t, calls[|calls| - 1]);
      hide WriteMessage, ReadMessage;
    }
  }

  lemma OneCallNeverCompletes(u: Suite, t: State, call: Call)
    requires t.role == Responder && !t.complete
    ensures call.Write? && WriteMessage(u, t, call.payload, call.newKey).Ok? ==>
              var n := WriteMessage(u, t, call.payload, call.newKey).value.0; n.role == Responder && !n.complete
    ensures call.ReadM? && ReadMessage(u, t, call.m, AsWritten).Ok? ==>
              var n := ReadMessage(u, t, call.m, AsWritten).value.0; n.role == Responder && !n.complete
  {
    hide EncryptAndHash, DecryptAndHash;
  }

  // ----- A suite on which the deviation shows -----

  function Zeros(n: nat): (z: seq<byte>)
    ensures |z| == n
  {
    seq(n, _ => 0 as byte)
  }

  function ToyPub(a: Key): (p: Key)
    ensures |p| == KEY_LEN
  {
    if |a| == KEY_LEN then a else Zeros(KEY_LEN)
  }

  function ToyTag(k: Key): (t: seq<byte>)
    ensures |t| == TAG_LEN
  {
    seq(TAG_LEN, _ => if k == [] then 0 else k[0])
  }

  /** The sum of first bytes for a Diffie-Hellman function, a tag that names the key for a cipher. */
  function ToySuite(): Suite {
    Suite(
      [],
      x => x,
      (ck, x) => (ck + x, x),
      (a, b) => Zeros(KEY_LEN)[0 := (ToyPub(a)[0] as int + (if b == [] then 0 else b[0] as int)) % 256],
      ToyPub,
      (k, n, ad, pt) => pt + ToyTag(k),
      (k, n, ad, ct) =>
        if |ct| >= TAG_LEN && ct[|ct| - TAG_LEN..] == ToyTag(k) then Some(ct[..|ct| - TAG_LEN]) else None)
  }

  lemma ToyIsLawful()
    ensures Lawful(ToySuite()) && KdfSeparates(ToySuite())
  {
    var u := ToySuite();
    forall k: Key, n: nat, ad: seq<byte>, pt: seq<byte>
      ensures |u.enc(k, n, ad, pt)| == |pt| + TAG_LEN && u.dec(k, n, ad, u.enc(k, n, ad, pt)) == Some(pt)
    {
      var ct := u.enc(k, n, ad, pt);
      assert ct[|pt|..] == ToyTag(k) && ct[..|pt|] == pt;
    }
  }

  lemma ToyDh(a: Key, b: Key)
    requires |a| == KEY_LEN && |b| == KEY_LEN
    ensures ToySuite().dh(a, ToySuite().pub(b)) != []
    ensures ToySuite().dh(a, ToySuite().pub(b))[0] == (a[0] as int + b[0]) % 256
  {
  }

  /** The third message as written fails on a lawful suite with four different keys. */
  lemma {:induction false} AsWrittenFailsSomewhere() returns (k: Keys)
    ensures Lawful(ToySuite())
    ensures var h := Handshake(ToySuite(), k, AsWritten); h.Some? && !Agreed(ToySuite(), k, h.value.i, h.value.r)
  {
    hide Handshake, ToySuite, Agreed, Lawful;
    ToyIsLawful();
    k := Keys(Zeros(KEY_LEN)[0 := 1], Zeros(KEY_LEN)[0 := 2], Zeros(KEY_LEN)[0 := 3], Zeros(KEY_LEN)[0 := 5], [], [], []);
    ToyDh(k.si, k.er);
    ToyDh(k.sr, k.ei);
    AsWrittenAgreesExactly(ToySuite(), k);
  }
}
