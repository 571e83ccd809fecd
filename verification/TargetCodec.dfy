/** The address block of a SYN frame: the Go codec and its Kotlin twin. */
module TargetCodec {
  import opened Bytes

  const NET_TCP: byte := 1
  const NET_UDP: byte := 2
  const ATYP_IPV4: byte := 1
  const ATYP_FQDN: byte := 3
  const ATYP_IPV6: byte := 4

  type u16 = x: int | 0 <= x < U16

  datatype Target = Target(network: byte, atyp: byte, address: seq<byte>, port: u16)

  /** TCP to 0.0.0.0:0, the least of the well-formed targets. */
  const UNSPECIFIED := Target(NET_TCP, ATYP_IPV4, [0, 0, 0, 0], 0)

  datatype TargetError = Truncated | BadNetwork | ShortAddress | BadFqdn | BadAtyp

  /** The targets that survive the wire: exactly those, see `RoundTripExact`. */
  predicate WellFormed(t: Target) {
    && (t.network == NET_TCP || t.network == NET_UDP)
    && (t.atyp == ATYP_IPV4 || t.atyp == ATYP_IPV6 || t.atyp == ATYP_FQDN)
    && (t.atyp == ATYP_IPV4 ==> |t.address| == 4)
    && (t.atyp == ATYP_IPV6 ==> |t.address| == 16)
    && (t.atyp == ATYP_FQDN ==> 1 <= |t.address| <= 255)
  }

  /** The address part alone; an FQDN length is cut to one byte, an unknown type writes nothing. */
  function EncodeAddress(t: Target): seq<byte> {
    if t.atyp == ATYP_FQDN then [|t.address| % 256] + t.address
    else if t.atyp == ATYP_IPV4 || t.atyp == ATYP_IPV6 then t.address
    else []
  }

  function Encode(t: Target): seq<byte> {
    [t.network, t.atyp] + EncodeAddress(t) + Be16(t.port)
  }

  /** Go: grows the buffer piece by piece and never refuses. */
  method AppendTarget(dst: seq<byte>, t: Target) returns (out: seq<byte>)
    ensures out == dst + Encode(t)
  {
    out := dst + [t.network, t.atyp];
    if t.atyp == ATYP_FQDN {
      out := out + [|t.address| % 256];
      out := out + t.address;
    } else if t.atyp == ATYP_IPV4 || t.atyp == ATYP_IPV6 {
      out := out + t.address;
    }
    out := out + Be16(t.port);
  }

  function Parse(b: seq<byte>): Result<Target, TargetError> {
    if |b| < 4 then Err(Truncated)
    else if b[0] != NET_TCP && b[0] != NET_UDP then Err(BadNetwork)
    else
      var rest := b[2..];
      if b[1] == ATYP_IPV4 then
        if |rest| < 6 then Err(ShortAddress)
        else Ok(Target(b[0], b[1], rest[..4], PortOf(rest[4..6])))
      else if b[1] == ATYP_IPV6 then
        if |rest| < 18 then Err(ShortAddress)
        else Ok(Target(b[0], b[1], rest[..16], PortOf(rest[16..18])))
      else if b[1] == ATYP_FQDN then
        var n: int := rest[0];
        if n == 0 || |rest| < 1 + n + 2 then Err(BadFqdn)
        else Ok(Target(b[0], b[1], rest[1..1 + n], PortOf(rest[1 + n..3 + n])))
      else Err(BadAtyp)
  }

  function PortOf(b: seq<byte>): u16
    requires |b| == 2
  {
    Be16Range(b);
    FromBe16(b)
  }

  /**
   * The bytes of an address block: network (1 TCP, 2 UDP), type (1 for four bytes, 4 for sixteen, 3 for a
   * length byte and a name that is not empty), address, port with the high byte first. Anything after
   * that is not looked at; anything else is refused.
   */
  lemma TargetLayout(b: seq<byte>)
    requires |b| >= 4
    ensures var start := if b[1] == 3 then 3 else 2;
            var n: int := if b[1] == 1 then 4 else if b[1] == 4 then 16 else b[2];
            && (Parse(b).Ok? <==>
                  (b[0] == 1 || b[0] == 2) && (b[1] == 1 || b[1] == 3 || b[1] == 4) && n > 0 && start + n + 2 <= |b|)
            && (Parse(b).Ok? ==>
                  Parse(b).value == Target(b[0], b[1], b[start..start + n], b[start + n] as int * 256 + b[start + n + 1]))
  {
    var rest := b[2..];
    if b[1] == 3 {
      var n: int := b[2];
      if n > 0 && n + 5 <= |b| {
        assert rest[1..1 + n] == b[3..3 + n];
        assert rest[1 + n..3 + n] == b[3 + n..5 + n];
      }
    } else if b[1] == 1 && |b| >= 8 {
      assert rest[..4] == b[2..6] && rest[4..6] == b[6..8];
    } else if b[1] == 4 && |b| >= 20 {
      assert rest[..16] == b[2..18] && rest[16..18] == b[18..20];
    }
  }

  /** A target comes back unchanged exactly when it is well formed. */
  lemma RoundTripExact(t: Target)
    ensures Parse(Encode(t)) == Ok(t) <==> WellFormed(t)
  {
    hide Be16, FromBe16;
    Be16RoundTrip(t.port);
    var b := Encode(t);
    var rest := b[2..];
    assert rest == EncodeAddress(t) + Be16(t.port);
    if WellFormed(t) {
      var n := |EncodeAddress(t)|;
      assert rest[n..n + 2] == Be16(t.port);
      if t.atyp == ATYP_FQDN {
        assert rest[1..n] == t.address;
      } else {
        assert rest[..n] == t.address;
      }
    }
  }

  /** Whatever parses is the encoding of the parsed target, with trailing bytes ignored. */
  lemma ParseIsCanonical(b: seq<byte>)
    requires Parse(b).Ok?
    ensures WellFormed(Parse(b).value)
    ensures Encode(Parse(b).value) <= b
  {
    hide Be16, FromBe16;
    var t := Parse(b).value;
    var rest := b[2..];
    var n := |EncodeAddress(t)|;
    Be16Inverse(rest[n..n + 2]);
    assert EncodeAddress(t) == rest[..n];
    assert Encode(t) == b[..2] + rest[..n] + rest[n..n + 2] == b[..n + 4];
  }

  /** No well-formed target needs more than 260 bytes. */
  lemma EncodedSize(t: Target)
    requires WellFormed(t)
    ensures |Encode(t)| <= 260
  {
  }

  // ----- Kotlin twin -----

  /** Kotlin: moves an offset over the block. It accepts the same blocks and yields the same target. */
  method ParseTargetKt(b: seq<byte>) returns (r: Result<Target, TargetError>)
    ensures r == Parse(b)
  {
    hide Be16, FromBe16, PortOf;
    if |b| < 4 {
      return Err(Truncated);
    }
    var network, atyp := b[0], b[1];
    if network != NET_TCP && network != NET_UDP {
      return Err(BadNetwork);
    }
    var off := 2;
    var address: seq<byte>;
    if atyp == ATYP_IPV4 {
      if |b| < off + 4 + 2 {
        return Err(ShortAddress);
      }
      address := b[off..off + 4];
      off := off + 4;
      SliceOfDrop(b, 2, 0, 4);
      SliceOfDrop(b, 2, 4, 6);
    } else if atyp == ATYP_IPV6 {
      if |b| < off + 16 + 2 {
        return Err(ShortAddress);
      }
      address := b[off..off + 16];
      off := off + 16;
      SliceOfDrop(b, 2, 0, 16);
      SliceOfDrop(b, 2, 16, 18);
    } else if atyp == ATYP_FQDN {
      var n: int := b[off];
      if n == 0 || |b| < off + 1 + n + 2 {
        return Err(BadFqdn);
      }
      address := b[off + 1..off + 1 + n];
      off := off + 1 + n;
      SliceOfDrop(b, 2, 1, 1 + n);
      SliceOfDrop(b, 2, 1 + n, 3 + n);
    } else {
      return Err(BadAtyp);
    }
    var port := PortOf(b[off..off + 2]);
    r := Ok(Target(network, atyp, address, port));
  }

  /** The Kotlin target: network, address type and port are of type `Int`. */
  datatype TargetKt = TargetKt(network: int, atyp: int, address: seq<byte>, port: int)

  /** What is left of it in the fields of the wire. */
  function OnWire(t: TargetKt): Target {
    Target(t.network % 256, t.atyp % 256, t.address, t.port % U16)
  }

  /** The fields fit the wire, so nothing is cut off. */
  predicate Fits(t: TargetKt) {
    0 <= t.network < 256 && 0 <= t.atyp < 256 && 0 <= t.port < U16
  }

  /** What Kotlin encodes is read back as the target it was given exactly if that fits and is well-formed. */
  lemma KotlinTargetExact(t: TargetKt)
    ensures (match Parse(Encode(OnWire(t)))
             case Err(_) => false
             case Ok(u) => TargetKt(u.network, u.atyp, u.address, u.port) == t)
            <==> Fits(t) && WellFormed(OnWire(t))
  {
    var u := OnWire(t);
    RoundTripExact(u);
    hide Encode, Parse, Be16;
    assert Parse(Encode(u)) == Ok(u) || !WellFormed(u);
    if Fits(t) {
      assert TargetKt(u.network, u.atyp, u.address, u.port) == t;
    }
  }

  lemma PortBytes(port: int)
    ensures Be16(port % U16) == [port / 256 % 256, port % 256]
  {
    var a, b := port / 256 % 256, port % 256;
    Remainder(port, U16, port / 256 / 256, a * 256 + b);
    assert (a * 256 + b) / 256 == a && (a * 256 + b) % 256 == b;
  }

  /** Kotlin checks what Go does not: a name of 1 to 255 bytes, and a known address type. */
  method AppendTargetKt(dst: seq<byte>, t: TargetKt) returns (r: Result<seq<byte>, TargetError>)
    ensures r.Ok? <==> t.atyp in {ATYP_IPV4 as int, ATYP_IPV6 as int} || (t.atyp == ATYP_FQDN as int && 1 <= |t.address| <= 255)
    ensures r.Ok? ==> r.value == dst + Encode(OnWire(t))
    ensures Fits(t) && WellFormed(OnWire(t)) ==> r.Ok?
  {
    ghost var u := OnWire(t);
    PortBytes(t.port);
    hide Be16, Parse;
    var out := dst + [t.network % 256, t.atyp % 256];
    ghost var start := out;
    if t.atyp == ATYP_FQDN as int {
      if |t.address| == 0 || |t.address| > 255 {
        return Err(BadFqdn);
      }
      out := out + [|t.address| % 256];
      out := out + t.address;
    } else if t.atyp == ATYP_IPV4 as int || t.atyp == ATYP_IPV6 as int {
      out := out + t.address;
    } else {
      return Err(BadAtyp);
    }
    assert out == start + EncodeAddress(u);
    out := out + [t.port / 256 % 256, t.port % 256];
    assert out == dst + [u.network, u.atyp] + EncodeAddress(u) + Be16(u.port);
    ConcatAssoc(dst, [u.network, u.atyp], EncodeAddress(u));
    ConcatAssoc(dst, [u.network, u.atyp] + EncodeAddress(u), Be16(u.port));
    r := Ok(out);
  }
}
