/** The handshake object of the Kotlin client, changed in place message by message. */
module NoiseObject {
  import opened Bytes
  import N = NoiseXX

  class NoiseHandshake {
    const suite: N.Suite
    const role: N.Role
    const staticPriv: N.Key
    var handshakeHash: seq<byte>
    var chainingKey: N.Key
    var key: Option<N.Key>
    var nonce: nat
    var ephemeralPriv: Option<N.Key>
    var remoteEphemeral: Option<N.Key>
    var remoteStatic: Option<N.Key>
    var complete: bool
    var step: nat

    ghost function SymView(): N.Sym
      reads this
    {
      N.Sym(handshakeHash, chainingKey, key, nonce)
    }

    ghost function View(): N.State
      reads this
    {
      N.State(role, staticPriv, SymView(), ephemeralPriv, remoteEphemeral, remoteStatic, step, complete)
    }

    constructor (suite: N.Suite, role: N.Role, staticPriv: N.Key)
      requires |staticPriv| == N.KEY_LEN
      ensures View() == N.Start(suite, role, staticPriv) && this.suite == suite
    {
      this.suite, this.role, this.staticPriv := suite, role, staticPriv;
      handshakeHash, chainingKey, key, nonce := suite.hash(suite.name), suite.hash(suite.name), None, 0;
      ephemeralPriv, remoteEphemeral, remoteStatic, complete, step := None, None, None, false, 0;
    }

    method MixHash(data: seq<byte>)
      modifies this`handshakeHash
      ensures SymView() == N.MixHash(suite, old(SymView()), data)
    {
      handshakeHash := suite.hash(handshakeHash + data);
    }

    method MixKey(secret: seq<byte>)
      modifies this`chainingKey, this`key, this`nonce
      ensures SymView() == N.MixKey(suite, old(SymView()), secret)
    {
      var (newChain, tempKey) := suite.kdf(chainingKey, secret);
      chainingKey, key, nonce := newChain, Some(tempKey), 0;
    }

    method EncryptAndHash(pt: seq<byte>) returns (ct: seq<byte>)
      modifies this`handshakeHash, this`nonce
      ensures (SymView(), ct) == N.EncryptAndHash(suite, old(SymView()), pt)
    {
      if key.None? {
        MixHash(pt);
        return pt;
      }
      ct := suite.enc(key.value, nonce, handshakeHash, pt);
      MixHash(ct);
      nonce := nonce + 1;
    }

    method DecryptAndHash(ct: seq<byte>) returns (pt: Option<seq<byte>>)
      modifies this`handshakeHash, this`nonce
      ensures pt.None? <==> N.DecryptAndHash(suite, old(SymView()), ct).None?
      ensures pt.Some? ==> N.DecryptAndHash(suite, old(SymView()), ct) == Some((SymView(), pt.value))
    {
      if key.None? {
        MixHash(ct);
        return Some(ct);
      }
      pt := suite.dec(key.value, nonce, handshakeHash, ct);
      if pt.Some? {
        MixHash(ct);
        nonce := nonce + 1;
      }
    }

    method WriteAsInitiator(payload: seq<byte>, newKey: N.Key) returns (r: Result<seq<byte>, N.Error>)
      requires role == N.Initiator && (step == 0 || step == 2)
      modifies this`handshakeHash, this`chainingKey, this`key, this`nonce, this`ephemeralPriv
      ensures var w := N.WriteMessage(suite, old(View()), payload, newKey);
              && (r.Ok? <==> w.Ok?) && (r.Err? ==> r.error == w.error)
              && (r.Ok? ==> w.value == (N.Written(View(), SymView()), r.value))
    {
      hide N.MixHash, N.MixKey, N.EncryptAndHash;
      if step == 0 {
        ephemeralPriv := Some(newKey);
        var pub := suite.pub(newKey);
        MixHash(pub);
        var c := EncryptAndHash(payload);
        return Ok(pub + c);
      }
      if remoteEphemeral.None? {
        return Err(N.Missing);
      }
      var c1 := EncryptAndHash(suite.pub(staticPriv));
      MixKey(suite.dh(staticPriv, remoteEphemeral.value));
      var c2 := EncryptAndHash(payload);
      return Ok(c1 + c2);
    }

    method WriteAsResponder(payload: seq<byte>, newKey: N.Key) returns (r: Result<seq<byte>, N.Error>)
      requires role == N.Responder && step == 1
      modifies this`handshakeHash, this`chainingKey, this`key, this`nonce, this`ephemeralPriv
      ensures var w := N.WriteMessage(suite, old(View()), payload, newKey);
              && (r.Ok? <==> w.Ok?) && (r.Err? ==> r.error == w.error)
              && (r.Ok? ==> w.value == (N.Written(View(), SymView()), r.value))
    {
      hide N.MixHash, N.MixKey, N.EncryptAndHash;
      ephemeralPriv := Some(newKey);
      var pub := suite.pub(newKey);
      MixHash(pub);
      if remoteEphemeral.None? {
        return Err(N.Missing);
      }
      MixKey(suite.dh(newKey, remoteEphemeral.value));
      var c1 := EncryptAndHash(suite.pub(staticPriv));
      MixKey(suite.dh(staticPriv, remoteEphemeral.value));
      var c2 := EncryptAndHash(payload);
      return Ok(pub + c1 + c2);
    }

    /** A message is written as `WriteMessage` says; a call out of turn changes nothing. */
    method Write(payload: seq<byte>, newKey: N.Key) returns (r: Result<seq<byte>, N.Error>)
      modifies this
      ensures var w := N.WriteMessage(suite, old(View()), payload, newKey);
              && (r.Ok? <==> w.Ok?)
              && (r.Ok? ==> w.value == (View(), r.value))
              && (r.Err? ==> r.error == w.error && step == old(step) && complete == old(complete))
    {
      if !(if role == N.Initiator then step == 0 || step == 2 else step == 1) {
        return Err(N.OutOfTurn);
      }
      hide N.WriteMessage;
      if role == N.Initiator {
        r := WriteAsInitiator(payload, newKey);
      } else {
        r := WriteAsResponder(payload, newKey);
      }
      if r.Err? {
        return;
      }
      step := step + 1;
      if step == 3 {
        complete := true;
      }
    }

    method ReadAsInitiator(m: seq<byte>) returns (r: Result<seq<byte>, N.Error>)
      requires role == N.Initiator && step == 1
      modifies this`handshakeHash, this`chainingKey, this`key, this`nonce, this`remoteEphemeral, this`remoteStatic
      ensures var w := N.ReadSecond(suite, old(View()), m);
              && (r.Ok? <==> w.Ok?) && (r.Err? ==> r.error == w.error)
              && (r.Ok? ==> w.value == (View().(step := 2), r.value))
    {
      hide N.MixHash, N.MixKey, N.DecryptAndHash;
      if |m| < 2 * N.KEY_LEN + N.TAG_LEN {
        return Err(N.Truncated);
      }
      if ephemeralPriv.None? {
        return Err(N.Missing);
      }
      var re := m[..N.KEY_LEN];
      MixHash(re);
      remoteEphemeral := Some(re);
      MixKey(suite.dh(ephemeralPriv.value, re));
      var rs := DecryptAndHash(m[N.KEY_LEN..2 * N.KEY_LEN + N.TAG_LEN]);
      if rs.None? {
        return Err(N.BadTag);
      }
      remoteStatic := rs;
      MixKey(suite.dh(ephemeralPriv.value, rs.value));
      var p := DecryptAndHash(m[2 * N.KEY_LEN + N.TAG_LEN..]);
      if p.None? {
        return Err(N.BadTag);
      }
      return Ok(p.value);
    }

    method ReadAsResponder(m: seq<byte>) returns (r: Result<seq<byte>, N.Error>)
      requires role == N.Responder && (step == 0 || step == 2)
      modifies this`handshakeHash, this`chainingKey, this`key, this`nonce, this`remoteEphemeral, this`remoteStatic
      ensures var w := if step == 0 then N.ReadFirst(suite, old(View()), m) else N.ReadThird(suite, old(View()), m, N.AsWritten);
              && (r.Ok? <==> w.Ok?) && (r.Err? ==> r.error == w.error)
              && (r.Ok? ==> w.value == (View().(step := old(step) + 1), r.value))
    {
      hide N.MixHash, N.MixKey, N.DecryptAndHash;
      if step == 0 {
        if |m| < N.KEY_LEN {
          return Err(N.Truncated);
        }
        var re := m[..N.KEY_LEN];
        MixHash(re);
        remoteEphemeral := Some(re);
        var p := DecryptAndHash(m[N.KEY_LEN..]);
        return if p.None? then Err(N.BadTag) else Ok(p.value);
      }
      if |m| < N.KEY_LEN + N.TAG_LEN {
        return Err(N.Truncated);
      }
      var rs := DecryptAndHash(m[..N.KEY_LEN + N.TAG_LEN]);
      if rs.None? {
        return Err(N.BadTag);
      }
      remoteStatic := rs;
      if remoteEphemeral.None? {
        return Err(N.Missing);
      }
      MixKey(suite.dh(staticPriv, remoteEphemeral.value));
      var p := DecryptAndHash(m[N.KEY_LEN + N.TAG_LEN..]);
      return if p.None? then Err(N.BadTag) else Ok(p.value);
    }

    /** A message is read as `ReadMessage` says; a failed read does not move the step. */
    method ReadMessage(m: seq<byte>) returns (r: Result<seq<byte>, N.Error>)
      modifies this
      ensures var w := N.ReadMessage(suite, old(View()), m, N.AsWritten);
              && (r.Ok? <==> w.Ok?) && (r.Err? ==> r.error == w.error)
              && (r.Ok? ==> w.value == (View(), r.value))
              && (r.Err? ==> step == old(step)) && complete == old(complete)
    {
      hide N.ReadFirst, N.ReadSecond, N.ReadThird;
      if role == N.Initiator {
        if step != 1 {
          return Err(N.OutOfTurn);
        }
        r := ReadAsInitiator(m);
      } else {
        if step != 0 && step != 2 {
          return Err(N.OutOfTurn);
        }
        r := ReadAsResponder(m);
      }
      if r.Ok? {
        step := step + 1;
      }
    }
  }
}
