/**
 * A whole XX handshake written out: what is on the wire, what has been hashed, and which keys come out,
 * as one chain of hash, key derivation, Diffie-Hellman and cipher (sections 5.2 and 7.5 of the Noise
 * Protocol Framework). The file mixes no prologue, so the chain begins with the protocol name alone.
 */
module NoiseTranscript {
  import opened Bytes
  import opened NoiseXX

  datatype Transcript = Transcript(m1: seq<byte>, m2: seq<byte>, m3: seq<byte>, hash: seq<byte>, keys: (Key, Key))

  /** -> e; <- e, ee, s, es; -> s, se. */
  function Chain(u: Suite, k: Keys): Transcript {
    var (ei, er, si, sr) := (u.pub(k.ei), u.pub(k.er), u.pub(k.si), u.pub(k.sr));
    var h0 := u.hash(u.name);
    var h1 := u.hash(h0 + ei);
    var h2 := u.hash(h1 + k.p1);
    var h3 := u.hash(h2 + er);
    var (ck1, k1) := u.kdf(h0, u.dh(k.er, ei));
    var c1 := u.enc(k1, 0, h3, sr);
    var h4 := u.hash(h3 + c1);
    var (ck2, k2) := u.kdf(ck1, u.dh(k.sr, ei));
    var c2 := u.enc(k2, 0, h4, k.p2);
    var h5 := u.hash(h4 + c2);
    var c3 := u.enc(k2, 1, h5, si);
    var h6 := u.hash(h5 + c3);
    var (ck3, k3) := u.kdf(ck2, u.dh(k.si, er));
    var c4 := u.enc(k3, 0, h6, k.p3);
    Transcript(ei + k.p1, er + c1 + c2, c3 + c4, u.hash(h6 + c4), u.kdf(ck3, []))
  }

  /** An encryption under a known key. */
  lemma Encrypts(u: Suite, h: seq<byte>, ck: Key, key: Key, nonce: nat, pt: seq<byte>)
    ensures var ct := u.enc(key, nonce, h, pt);
            EncryptAndHash(u, Sym(h, ck, Some(key), nonce), pt) == (Sym(u.hash(h + ct), ck, Some(key), nonce + 1), ct)
  {
  }

  lemma FirstWritten(u: Suite, k: Keys)
    ensures var w := WriteMessage(u, Start(u, Initiator, k.si), k.p1, k.ei);
            var h0 := u.hash(u.name); var h1 := u.hash(h0 + u.pub(k.ei));
            w.Ok? && w.value.1 == u.pub(k.ei) + k.p1 && w.value.0.sym == Sym(u.hash(h1 + k.p1), h0, None, 0)
  {
  }

  lemma SecondWritten(u: Suite, k: Keys, h2: seq<byte>, h0: Key)
    ensures var w := WriteMessage(u, State(Responder, k.sr, Sym(h2, h0, None, 0), None, Some(u.pub(k.ei)), None, 1, false), k.p2, k.er);
            var h3 := u.hash(h2 + u.pub(k.er));
            var (ck1, k1) := u.kdf(h0, u.dh(k.er, u.pub(k.ei)));
            var c1 := u.enc(k1, 0, h3, u.pub(k.sr));
            var h4 := u.hash(h3 + c1);
            var (ck2, k2) := u.kdf(ck1, u.dh(k.sr, u.pub(k.ei)));
            var c2 := u.enc(k2, 0, h4, k.p2);
            w.Ok? && w.value.1 == u.pub(k.er) + c1 + c2 && w.value.0.sym == Sym(u.hash(h4 + c2), ck2, Some(k2), 1)
  {
    var h3 := u.hash(h2 + u.pub(k.er));
    var (ck1, k1) := u.kdf(h0, u.dh(k.er, u.pub(k.ei)));
    var c1 := u.enc(k1, 0, h3, u.pub(k.sr));
    var h4 := u.hash(h3 + c1);
    var (ck2, k2) := u.kdf(ck1, u.dh(k.sr, u.pub(k.ei)));
    Encrypts(u, h3, ck1, k1, 0, u.pub(k.sr));
    Encrypts(u, h4, ck2, k2, 0, k.p2);
    hide EncryptAndHash;
  }

  lemma ThirdWritten(u: Suite, k: Keys, h5: seq<byte>, ck2: Key, k2: Key)
    ensures var w := WriteMessage(u, InitiatorAt2(u, k, Sym(h5, ck2, Some(k2), 1)), k.p3, []);
            var c3 := u.enc(k2, 1, h5, u.pub(k.si));
            var h6 := u.hash(h5 + c3);
            var (ck3, k3) := u.kdf(ck2, u.dh(k.si, u.pub(k.er)));
            var c4 := u.enc(k3, 0, h6, k.p3);
            && w.Ok? && w.value.1 == c3 + c4 && w.value.0.sym.h == u.hash(h6 + c4)
            && Split(u, w.value.0) == Some(u.kdf(ck3, []))
  {
    var c3 := u.enc(k2, 1, h5, u.pub(k.si));
    var h6 := u.hash(h5 + c3);
    var (ck3, k3) := u.kdf(ck2, u.dh(k.si, u.pub(k.er)));
    Encrypts(u, h5, ck2, k2, 1, u.pub(k.si));
    Encrypts(u, h6, ck3, k3, 0, k.p3);
    hide EncryptAndHash;
  }

  /** The initiator's writes and the responder's are those of the chain. */
  lemma MessagesAreTheChain(u: Suite, k: Keys)
    ensures var t := Chain(u, k);
            var w1 := WriteMessage(u, Start(u, Initiator, k.si), k.p1, k.ei);
            && w1.Ok? && w1.value.1 == t.m1
            && var w2 := WriteMessage(u, State(Responder, k.sr, w1.value.0.sym, None, Some(u.pub(k.ei)), None, 1, false), k.p2, k.er);
            && w2.Ok? && w2.value.1 == t.m2
            && var w3 := WriteMessage(u, InitiatorAt2(u, k, w2.value.0.sym), k.p3, []);
            && w3.Ok? && w3.value.1 == t.m3 && w3.value.0.sym.h == t.hash
            && Split(u, w3.value.0) == Some(t.keys)
  {
    FirstWritten(u, k);
    var y1 := WriteMessage(u, Start(u, Initiator, k.si), k.p1, k.ei).value.0.sym;
    SecondWritten(u, k, y1.h, y1.ck);
    var w2 := WriteMessage(u, State(Responder, k.sr, y1, None, Some(u.pub(k.ei)), None, 1, false), k.p2, k.er);
    var y2 := w2.value.0.sym;
    ThirdWritten(u, k, y2.h, y2.ck, y2.key.value);
    hide WriteMessage, Split;
  }

  /**
   * The repaired handshake is the chain: both ends finish with its hash, and the first of its two keys is
   * the one for what the initiator sends.
   */
  lemma {:induction false} HandshakeIsTheChain(u: Suite, k: Keys)
    requires Lawful(u)
    ensures var t := Chain(u, k); var h := Handshake(u, k, Repaired);
            && h.Some? && h.value.r.Ok?
            && h.value.i.sym.h == t.hash && h.value.r.value.0.sym.h == t.hash
            && Split(u, h.value.i) == Some(t.keys)
            && Split(u, h.value.r.value.0) == Some(t.keys)
  {
    RepairedAgrees(u, k);
    MessagesAreTheChain(u, k);
    FirstMessage(u, k);
    var y1 := WriteMessage(u, Start(u, Initiator, k.si), k.p1, k.ei).value.0.sym;
    SecondMessage(u, k, y1);
    hide Chain, WriteMessage, ReadFirst, ReadSecond, ReadThird, Lawful, Split, Agreed;
  }
}
