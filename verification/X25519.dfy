/**
 * X25519 (section 5 of RFC 7748) over integers: the ladder with deferred swaps, and the encodings of
 * scalar, coordinate and result. That the curve formulas add points is a hypothesis.
 */
module X25519 {
  import opened Bytes

  const P := 0x7FFF_FFFF_FFFF_FFFF_FFFF_FFFF_FFFF_FFFF_FFFF_FFFF_FFFF_FFFF_FFFF_FFFF_FFFF_FFED
  const A24 := 121665

  /** A point by projective coordinates. */
  datatype Pt = Pt(x: int, z: int)

  predicate Reduced(p: Pt) {
    0 <= p.x < P && 0 <= p.z < P
  }

  // ----- Residues -----

  predicate Apart(a: int, b: int, k: int) {
    a == b + P * k
  }

  /** The same residue modulo P. */
  ghost predicate Same(a: int, b: int) {
    exists k :: Apart(a, b, k)
  }

  lemma SameBy(a: int, b: int, k: int)
    requires a == b + P * k
    ensures Same(a, b)
  {
    assert Apart(a, b, k);
  }

  lemma SameMod(a: int)
    ensures Same(a % P, a)
  {
    SameBy(a % P, a, -(a / P));
  }

  /** That is to say, the same remainder. */
  lemma SameMeans(a: int, b: int)
    ensures Same(a, b) <==> a % P == b % P
  {
    if Same(a, b) {
      var k :| Apart(a, b, k);
      Remainder(a, P, b / P + k, b % P);
    } else if a % P == b % P {
      SameBy(a, b, a / P - b / P);
    }
  }

  lemma SameSum(a: int, b: int, c: int, d: int)
    requires Same(a, b) && Same(c, d)
    ensures Same(a + c, b + d) && Same(a - c, b - d)
  {
    var k :| Apart(a, b, k);
    var l :| Apart(c, d, l);
    SameBy(a + c, b + d, k + l);
    SameBy(a - c, b - d, k - l);
  }

  lemma ProductSplits(m: int, b: int, d: int, k: int, l: int)
    ensures (b + m * k) * (d + m * l) == b * d + m * (b * l + k * d + m * k * l)
  {
    calc {
      (b + m * k) * (d + m * l);
      b * (d + m * l) + m * k * (d + m * l);
      b * d + b * (m * l) + (m * k) * d + (m * k) * (m * l);
      b * d + m * (b * l) + m * (k * d) + m * (m * k * l);
      b * d + m * (b * l + k * d + m * k * l);
    }
  }

  lemma SameProduct(a: int, b: int, c: int, d: int)
    requires Same(a, b) && Same(c, d)
    ensures Same(a * c, b * d)
  {
    var k :| Apart(a, b, k);
    var l :| Apart(c, d, l);
    ProductSplits(P, b, d, k, l);
    SameBy(a * c, b * d, b * l + k * d + P * k * l);
  }

  lemma SameChain(a: int, b: int, c: int)
    requires Same(a, b) && Same(b, c)
    ensures Same(a, c)
  {
    var k :| Apart(a, b, k);
    var l :| Apart(b, c, l);
    SameBy(a, c, k + l);
  }

  /** A product of two numbers and of others of the same residues. */
  lemma ProductChain(r: int, a: int, b: int, c: int, d: int)
    requires Same(r, a * c) && Same(a, b) && Same(c, d)
    ensures Same(r, b * d)
  {
    hide Same;
    SameProduct(a, b, c, d);
    SameChain(r, a * c, b * d);
  }

  // ----- One step of the ladder -----

  /**
   * `dbl` is the double of `p` on the curve v^2 = u^3 + 486662 u^2 + u: for (x, z) its coordinates are
   * (x^2 - z^2)^2 and 4xz(x^2 + 486662xz + z^2).
   */
  ghost predicate IsDouble(p: Pt, dbl: Pt) {
    var (x, z) := (p.x, p.z);
    && Same(dbl.x, (x * x - z * z) * (x * x - z * z))
    && Same(dbl.z, 4 * (x * z) * (x * x + 486662 * (x * z) + z * z))
  }

  /**
   * `sum` is the sum of `p` and `q` whose difference has coordinate `x1`: for (x, z) and (u, w) its
   * coordinates are 4(xu - zw)^2 and 4 x1 (xw - zu)^2.
   */
  ghost predicate IsSum(x1: int, p: Pt, q: Pt, sum: Pt) {
    var (s, t) := (p.x * q.x - p.z * q.z, p.x * q.z - p.z * q.x);
    Same(sum.x, 4 * (s * s)) && Same(sum.z, 4 * (x1 * (t * t)))
  }

  lemma SquaresOfSumAndDifference(x: int, z: int)
    ensures (x + z) * (x - z) == x * x - z * z
    ensures (x + z) * (x + z) - (x - z) * (x - z) == 4 * (x * z)
    ensures (x + z) * (x + z) == x * x + 2 * (x * z) + z * z
  {
  }

  lemma CrossProducts(x: int, z: int, u: int, w: int)
    ensures (u - w) * (x + z) + (u + w) * (x - z) == 2 * (x * u - z * w)
    ensures (u - w) * (x + z) - (u + w) * (x - z) == -2 * (x * w - z * u)
  {
  }

  lemma SquareOfProduct(a: int, b: int, ab: int)
    requires ab == a * b
    ensures a * a * (b * b) == ab * ab
  {
    calc {
      a * a * (b * b);
      a * (a * (b * b));
      a * ((a * b) * b);
      ab * ab;
    }
  }

  lemma QuarterTurns(xx: int, xz: int, zz: int, g: int, h: int)
    requires g == xx + 2 * xz + zz && g - h == 4 * xz
    ensures g + 121665 * (g - h) == xx + 486662 * xz + zz
  {
  }

  /** 121665 is a quarter of 486662 - 2. */
  lemma Quarter(r: int, e: int, u: int, f: int, aa: int, g: int)
    requires Same(e, f) && Same(aa, g) && Same(u, aa + A24 * e) && Same(r, e * u)
    ensures Same(r, f * (g + 121665 * f))
  {
    SameBy(121665, 121665, 0);
    hide Same;
    SameProduct(121665, 121665, e, f);
    SameSum(aa, g, 121665 * e, 121665 * f);
    SameChain(u, aa + 121665 * e, g + 121665 * f);
    ProductChain(r, e, f, u, g + 121665 * f);
  }

  /** The double, from the squares of sum and difference. */
  lemma DoubleBySquares(p: Pt, aa: int, bb: int, e: int, u: int, dbl: Pt)
    requires Same(aa, (p.x + p.z) * (p.x + p.z)) && Same(bb, (p.x - p.z) * (p.x - p.z))
    requires Same(e, aa - bb) && Same(u, aa + A24 * e) && Same(dbl.x, aa * bb) && Same(dbl.z, e * u)
    ensures IsDouble(p, dbl)
  {
    hide Same;
    var x, z := p.x, p.z;
    var g, h := (x + z) * (x + z), (x - z) * (x - z);
    ProductChain(dbl.x, aa, g, bb, h);
    SameSum(aa, g, bb, h);
    SameChain(e, aa - bb, g - h);
    Quarter(dbl.z, e, u, g - h, aa, g);
    SquaresOfSumAndDifference(x, z);
    SquareOfProduct(x + z, x - z, x * x - z * z);
    QuarterTurns(x * x, x * z, z * z, g, h);
  }

  /** The sum, from the two mixed products. */
  lemma SumByProducts(x1: int, p: Pt, q: Pt, da: int, cb: int, sum: Pt)
    requires Same(da, (q.x - q.z) * (p.x + p.z)) && Same(cb, (q.x + q.z) * (p.x - p.z))
    requires Same(sum.x, (da + cb) * (da + cb)) && Same(sum.z, x1 * (da - cb) * (da - cb))
    ensures IsSum(x1, p, q, sum)
  {
    hide Same;
    var s, t := p.x * q.x - p.z * q.z, p.x * q.z - p.z * q.x;
    SameSum(da, (q.x - q.z) * (p.x + p.z), cb, (q.x + q.z) * (p.x - p.z));
    CrossProducts(p.x, p.z, q.x, q.z);
    EndOfSum(x1, da + cb, da - cb, s, t);
    SameChain(sum.x, (da + cb) * (da + cb), 4 * (s * s));
    SameChain(sum.z, x1 * (da - cb) * (da - cb), 4 * (x1 * (t * t)));
  }

  lemma EndOfSum(x1: int, v: int, w: int, s: int, t: int)
    requires Same(v, 2 * s) && Same(w, -2 * t)
    ensures Same(v * v, 4 * (s * s)) && Same(x1 * w * w, 4 * (x1 * (t * t)))
  {
    SameBy(x1, x1, 0);
    hide Same;
    SameProduct(v, 2 * s, v, 2 * s);
    SameProduct(x1, x1, w, -2 * t);
    SameProduct(x1 * w, x1 * (-2 * t), w, -2 * t);
    assert 2 * s * (2 * s) == 4 * (s * s);
    assert x1 * (-2 * t) * (-2 * t) == 4 * (x1 * (t * t));
  }

  /** Doubles `p` and adds `p` and `q`, whose difference has coordinate `x1`, with reduced coordinates. */
  function DoubleAdd(x1: int, p: Pt, q: Pt): (r: (Pt, Pt))
    ensures Reduced(r.0) && Reduced(r.1)
    ensures IsDouble(p, r.0) && IsSum(x1, p, q, r.1)
  {
    hide IsDouble, IsSum, Same;
    var a, b := (p.x + p.z) % P, (p.x - p.z) % P;
    var aa, bb := a * a % P, b * b % P;
    var e := (aa - bb) % P;
    var c, d := (q.x + q.z) % P, (q.x - q.z) % P;
    var da, cb := d * a % P, c * b % P;
    var u := (aa + A24 * e) % P;
    var dbl := Pt(aa * bb % P, e * u % P);
    var sum := Pt((da + cb) * (da + cb) % P, x1 * (da - cb) * (da - cb) % P);
    SameMod(p.x + p.z);
    SameMod(p.x - p.z);
    SameMod(q.x + q.z);
    SameMod(q.x - q.z);
    SameMod(a * a);
    SameMod(b * b);
    SameMod(d * a);
    SameMod(c * b);
    SameMod(aa - bb);
    SameMod(aa + A24 * e);
    SameMod(aa * bb);
    SameMod(e * u);
    SameMod((da + cb) * (da + cb));
    SameMod(x1 * (da - cb) * (da - cb));
    ProductChain(aa, a, p.x + p.z, a, p.x + p.z);
    ProductChain(bb, b, p.x - p.z, b, p.x - p.z);
    ProductChain(da, d, q.x - q.z, a, p.x + p.z);
    ProductChain(cb, c, q.x + q.z, b, p.x - p.z);
    DoubleBySquares(p, aa, bb, e, u, dbl);
    SumByProducts(x1, p, q, da, cb, sum);
    (dbl, sum)
  }

  /** The textbook step: R0 is doubled on a zero bit, R1 on a one bit; the other becomes the sum. */
  function TextbookStep(x1: int, r: (Pt, Pt), bit: bool): (Pt, Pt) {
    if bit then
      var (dbl, sum) := DoubleAdd(x1, r.1, r.0);
      (sum, dbl)
    else DoubleAdd(x1, r.0, r.1)
  }

  // ----- Scalars by their bits -----

  /** The scalar without its last `t` bits. */
  function Lead(k: nat, t: nat): nat {
    if t == 0 then k else Lead(k, t - 1) / 2
  }

  predicate Bit(k: nat, t: nat) {
    Lead(k, t) % 2 == 1
  }

  /** A scalar of at most 255 bits. */
  predicate Fits255(k: nat) {
    Lead(k, 255) == 0
  }

  /** The textbook ladder after the bits 254 down to `t`. */
  function Ladder(x1: int, k: nat, t: nat): (Pt, Pt)
    requires t <= 255
    decreases 255 - t
  {
    if t == 255 then (Pt(1, 0), Pt(x1, 1)) else TextbookStep(x1, Ladder(x1, k, t + 1), Bit(k, t))
  }

  function Swapped(r: (Pt, Pt), swap: bool): (Pt, Pt) {
    if swap then (r.1, r.0) else r
  }

  /**
   * The loop with deferred swaps computes what the textbook ladder computes, and keeps all four
   * coordinates reduced after each turn.
   */
  method DeferredLadder(x1: int, k: nat) returns (p2: Pt)
    ensures p2 == Ladder(x1, k, 0).0 && Reduced(p2)
  {
    hide DoubleAdd;
    p2 := Pt(1, 0);
    var p3 := Pt(x1, 1);
    var swap := false;
    var t := 255;
    while t > 0
      invariant 0 <= t <= 255
      invariant Swapped((p2, p3), swap) == Ladder(x1, k, t)
      invariant t < 255 ==> Reduced(p2) && Reduced(p3)
    {
      t := t - 1;
      var kt := Lead(k, t) % 2 == 1;
      if swap != kt {
        p2, p3 := p3, p2;
      }
      swap := kt;
      assert Ladder(x1, k, t) == TextbookStep(x1, Ladder(x1, k, t + 1), kt);
      var (dbl, sum) := DoubleAdd(x1, p2, p3);
      p2, p3 := dbl, sum;
    }
    if swap {
      p2, p3 := p3, p2;
    }
  }

  // ----- What the ladder computes -----

  /** `rep(m, p)`: the point `p` stands for m times the base point. */
  datatype Curve = Curve(rep: (nat, Pt) -> bool)

  /** Doubling m and adding neighbours m and n. */
  predicate StepLaw(c: Curve, x1: int, m: nat, n: nat, p: Pt, q: Pt) {
    c.rep(m, p) && c.rep(n, q) && (n == m + 1 || m == n + 1) ==>
      c.rep(2 * m, DoubleAdd(x1, p, q).0) && c.rep(m + n, DoubleAdd(x1, p, q).1)
  }

  /** The differential-addition law: the formulas double and add neighbouring multiples. */
  ghost predicate AddsMultiples(c: Curve, x1: int) {
    && c.rep(0, Pt(1, 0)) && c.rep(1, Pt(x1, 1))
    && forall m: nat, n: nat, p: Pt, q: Pt :: StepLaw(c, x1, m, n, p, q)
  }

  /** After the bits down to `t` the pair stands for m and m + 1, where m is the scalar's leading bits. */
  lemma {:induction false} LadderMultiplies(c: Curve, x1: int, k: nat, t: nat)
    requires AddsMultiples(c, x1) && Fits255(k) && t <= 255
    ensures c.rep(Lead(k, t), Ladder(x1, k, t).0) && c.rep(Lead(k, t) + 1, Ladder(x1, k, t).1)
    decreases 255 - t
  {
    hide DoubleAdd;
    if t < 255 {
      LadderMultiplies(c, x1, k, t + 1);
      var m, r := Lead(k, t + 1), Ladder(x1, k, t + 1);
      assert Lead(k, t) == 2 * m + (if Bit(k, t) then 1 else 0);
      if Bit(k, t) {
        assert StepLaw(c, x1, m + 1, m, r.1, r.0);
      } else {
        assert StepLaw(c, x1, m, m + 1, r.0, r.1);
      }
    }
  }

  /** The loop returns the scalar multiple itself. */
  lemma LadderIsScalarMultiple(c: Curve, x1: int, k: nat)
    requires AddsMultiples(c, x1) && Fits255(k)
    ensures c.rep(k, Ladder(x1, k, 0).0)
  {
    LadderMultiplies(c, x1, k, 0);
  }

  // ----- Little-endian numbers -----

  function FromLe(b: seq<byte>): nat {
    if b == [] then 0 else b[0] as int + 256 * FromLe(b[1..])
  }

  /** The value without its last `n` bytes. */
  function Dropped(v: nat, n: nat): nat {
    if n == 0 then v else Dropped(v, n - 1) / 256
  }

  /** The `n` low bytes of a value, low byte first. */
  function LeBytes(v: nat, n: nat): (b: seq<byte>)
    ensures |b| == n
  {
    seq(n, i requires 0 <= i => (Dropped(v, i) % 256) as byte)
  }

  lemma {:induction false} DroppedFirst(v: nat, n: nat)
    ensures Dropped(v / 256, n) == Dropped(v, n + 1)
  {
    if n > 0 {
      DroppedFirst(v, n - 1);
    }
  }

  /** Encoding and decoding again gives the value, if it has at most `n` bytes. */
  lemma {:induction false} LeRoundTrip(v: nat, n: nat)
    requires Dropped(v, n) == 0
    ensures FromLe(LeBytes(v, n)) == v
    decreases n
  {
    if n > 0 {
      DroppedFirst(v, n - 1);
      LeRoundTrip(v / 256, n - 1);
      assert LeBytes(v, n)[1..] == LeBytes(v / 256, n - 1) by {
        forall i | 0 <= i < n - 1 ensures LeBytes(v, n)[1..][i] == LeBytes(v / 256, n - 1)[i] {
          DroppedFirst(v, i);
        }
      }
      assert Dropped(v, 0) == v;
    }
  }

  function Pow256(n: nat): nat {
    if n == 0 then 1 else 256 * Pow256(n - 1)
  }

  lemma {:induction false} SmallIsDropped(v: nat, n: nat)
    requires v < Pow256(n)
    ensures Dropped(v, n) == 0
  {
    if n > 0 {
      SmallIsDropped(v / 256, n - 1);
      DroppedFirst(v, n - 1);
    }
  }

  lemma PrimeHas32Bytes()
    ensures P < Pow256(32)
  {
    assert Pow256(8) == 0x1_0000_0000_0000_0000;
    assert Pow256(16) == 0x1_0000_0000_0000_0000_0000_0000_0000_0000;
    assert Pow256(24) == 0x1_0000_0000_0000_0000_0000_0000_0000_0000_0000_0000_0000_0000;
  }

  /** The prime is 2^255 - 19. */
  lemma PrimeIsRight()
    ensures 2 * (P + 19) == Pow256(32)
  {
    assert Pow256(8) == 0x1_0000_0000_0000_0000;
    assert Pow256(16) == 0x1_0000_0000_0000_0000_0000_0000_0000_0000;
    assert Pow256(24) == 0x1_0000_0000_0000_0000_0000_0000_0000_0000_0000_0000_0000_0000;
  }

  /** `BigInteger.toByteArray` of a non-negative value: shortest, high byte first, top bit clear. */
  function BigEndian(v: nat): (b: seq<byte>)
    ensures |b| > 0
  {
    if v < 128 then [v] else BigEndian(v / 256) + [v % 256]
  }

  /** Counted from the end, its bytes are the little-endian ones, and there are no more. */
  lemma {:induction false} BigEndianDigits(v: nat, j: nat)
    ensures j < |BigEndian(v)| ==> BigEndian(v)[|BigEndian(v)| - 1 - j] == Dropped(v, j) % 256
    ensures j >= |BigEndian(v)| ==> Dropped(v, j) == 0
    decreases j
  {
    if j == 0 {
      assert Dropped(v, 0) == v;
    } else {
      DroppedFirst(v, j - 1);
      if v < 128 {
        ZeroDropped(j - 1);
      } else {
        BigEndianDigits(v / 256, j - 1);
      }
    }
  }

  lemma {:induction false} ZeroDropped(n: nat)
    ensures Dropped(0, n) == 0
  {
    if n > 0 {
      ZeroDropped(n - 1);
    }
  }

  /** The result encoding: the bytes of a shortest big-endian array copied from its end, padded with zeros. */
  method To32LE(value: int) returns (out: array<byte>)
    ensures fresh(out) && out[..] == LeBytes(value % P, 32) && FromLe(out[..]) == value % P
  {
    var v := value % P;
    var be := BigEndian(v);
    out := new byte[32](_ => 0);
    var i, j := |be| - 1, 0;
    while i >= 0 && j < 32
      invariant 0 <= j <= 32 && j <= |be| && i == |be| - 1 - j && out.Length == 32
      invariant forall k :: 0 <= k < 32 ==> out[k] == if k < j then be[|be| - 1 - k] else 0
      decreases 32 - j
    {
      out[j] := be[i];
      i := i - 1;
      j := j + 1;
    }
    forall k | 0 <= k < 32 ensures out[k] == LeBytes(v, 32)[k] {
      BigEndianDigits(v, k);
    }
    assert out[..] == LeBytes(v, 32);
    PrimeHas32Bytes();
    SmallIsDropped(v, 32);
    LeRoundTrip(v, 32);
  }

  // ----- Decoding scalar and coordinate -----

  /** Clamping: the low three bits cleared, the top bit cleared, the next one set. */
  function Clamped(raw: seq<byte>): (b: seq<byte>)
    requires |raw| == 32
    ensures |b| == 32
  {
    var low, top := raw[0] as int - raw[0] % 8, raw[31] % 128;
    raw[0 := low][31 := if top < 64 then top + 64 else top]
  }

  function DecodeScalar(raw: seq<byte>): nat
    requires |raw| == 32
  {
    FromLe(Clamped(raw))
  }

  function DecodeU(raw: seq<byte>): nat
    requires |raw| == 32
  {
    FromLe(raw[31 := raw[31] % 128])
  }

  /** Clamping leaves the other 250 bits alone. */
  lemma ClampedKeeps(raw: seq<byte>)
    requires |raw| == 32
    ensures var b := Clamped(raw);
            && (forall i :: 1 <= i < 31 ==> b[i] == raw[i])
            && b[0] / 8 == raw[0] / 8 && b[31] % 64 == raw[31] % 64
            && b[0] % 8 == 0 && 64 <= b[31] < 128
  {
    LowBitsCut(raw[0]);
  }

  lemma LowBitsCut(v: int)
    ensures (v - v % 8) / 8 == v / 8 && (v - v % 8) % 8 == 0
  {
  }

  lemma {:induction false} TopByteCounts(a: seq<byte>, v: byte)
    ensures FromLe(a + [v]) == FromLe(a) + Pow256(|a|) * v
  {
    if a == [] {
      assert [v][1..] == [] && a + [v] == [v];
    } else {
      assert (a + [v])[1..] == a[1..] + [v];
      TopByteCounts(a[1..], v);
      NestedProduct(Pow256(|a| - 1), v);
    }
  }

  lemma NestedProduct(m: int, v: int)
    ensures 256 * (m * v) == 256 * m * v
  {
  }

  lemma {:induction false} LeIsSmall(b: seq<byte>)
    ensures FromLe(b) < Pow256(|b|)
  {
    if b != [] {
      LeIsSmall(b[1..]);
    }
  }

  lemma MaskedParts(raw: seq<byte>)
    requires |raw| == 32
    ensures var low := FromLe(raw[..31]);
            && FromLe(raw) == low + Pow256(31) * raw[31] && DecodeU(raw) == low + Pow256(31) * (raw[31] % 128) && low < Pow256(31)
  {
    var low, top := raw[..31], raw[31];
    TopByteCounts(low, top);
    TopByteCounts(low, top % 128);
    LeIsSmall(low);
    hide FromLe, Pow256;
    assert raw == low + [top];
    assert raw[31 := top % 128] == low + [top % 128];
  }

  lemma TopBitCounts(m: nat, top: byte)
    ensures m * top == m * (top % 128) + top / 128 * (128 * m) && m * (top % 128) <= 127 * m
  {
    var r, q := top % 128, top / 128;
    assert top as int == r + 128 * q;
    assert m * (r + 128 * q) == m * r + q * (128 * m);
  }

  lemma HalfOfTop(p: nat, m: nat)
    requires 2 * (p + 19) == 256 * m
    ensures p + 19 == 128 * m
  {
  }

  /** The coordinate is the number the bytes encode without its 256th bit. */
  lemma DecodeUMasks(raw: seq<byte>)
    requires |raw| == 32
    ensures FromLe(raw) == DecodeU(raw) + (raw[31] / 128) * (P + 19) && DecodeU(raw) < P + 19
  {
    var m := Pow256(31);
    assert Pow256(32) == 256 * m;
    PrimeIsRight();
    MaskedParts(raw);
    hide FromLe, Pow256, DecodeU;
    HalfOfTop(P, m);
    TopBitCounts(m, raw[31]);
  }

  lemma {:induction false} LeadAdds(k: nat, s: nat, t: nat)
    ensures Lead(Lead(k, s), t) == Lead(k, s + t)
  {
    if t > 0 {
      LeadAdds(k, s, t - 1);
    }
  }

  lemma LeadOfByte(b: byte, rest: nat)
    ensures Lead(b + 256 * rest, 8) == rest
  {
    var v := b + 256 * rest;
    assert Lead(v, 1) == v / 2 && Lead(v, 2) == v / 4 && Lead(v, 3) == v / 8 && Lead(v, 4) == v / 16;
    assert Lead(v, 5) == v / 32 && Lead(v, 6) == v / 64 && Lead(v, 7) == v / 128;
  }

  lemma LeadOfNumber(b: seq<byte>)
    requires b != []
    ensures Lead(FromLe(b), 8) == FromLe(b[1..])
  {
    var rest := FromLe(b[1..]);
    assert FromLe(b) == b[0] as int + 256 * rest;
    hide FromLe;
    LeadOfByte(b[0], rest);
  }

  /** Eight bits for each byte dropped. */
  lemma {:induction false} LeadDropsBytes(b: seq<byte>, n: nat)
    requires n <= |b|
    ensures Lead(FromLe(b), 8 * n) == FromLe(b[n..])
    decreases n
  {
    hide FromLe;
    if n == 0 {
      assert b[0..] == b;
    } else {
      hide Lead;
      var tail := b[n - 1..];
      assert tail[1..] == b[n..];
      LeadDropsBytes(b, n - 1);
      LeadOfNumber(tail);
      LeadAdds(FromLe(b), 8 * (n - 1), 8);
    }
  }

  /** A number whose top byte, the 32nd, is between 64 and 127 has exactly 255 bits. */
  lemma TopByteBits(k: nat, top: nat)
    requires Lead(k, 248) == top && 64 <= top < 128
    ensures Fits255(k) && Bit(k, 254)
  {
    assert Lead(k, 249) == top / 2;
    assert Lead(k, 250) == top / 4;
    assert Lead(k, 251) == top / 8;
    assert Lead(k, 252) == top / 16;
    assert Lead(k, 253) == top / 32;
    assert Lead(k, 254) == 1;
  }

  lemma LowByteBits(b: seq<byte>)
    requires b != [] && b[0] % 8 == 0
    ensures FromLe(b) % 8 == 0
  {
    var rest := FromLe(b[1..]);
    assert FromLe(b) == b[0] as int + 256 * rest;
    hide FromLe;
  }

  /** Every scalar is a multiple of 8 with exactly 255 bits, whatever the 32 raw bytes are. */
  lemma ScalarShape(raw: seq<byte>)
    requires |raw| == 32
    ensures var k := DecodeScalar(raw); k % 8 == 0 && Fits255(k) && Bit(k, 254)
  {
    var b := Clamped(raw);
    LeadDropsBytes(b, 31);
    assert b[31..] == [b[31]] && FromLe([b[31]]) == b[31];
    LowByteBits(b);
    hide Lead, FromLe;
    TopByteBits(FromLe(b), b[31] as int);
  }

  // ----- The whole function -----

  /** `b` to the power `e` modulo P, as `modPow` computes it. */
  function ModPow(b: int, e: nat): int {
    if e == 0 then 1 else ModPow(b, e - 1) * b % P
  }

  /** The affine coordinate: the quotient, by Fermat's little theorem. */
  function Affine(p: Pt): (a: int)
    ensures 0 <= a < P
  {
    p.x * ModPow(p.z, P - 2) % P
  }

  /** Where Fermat's little theorem holds for the second coordinate, it is the quotient of the two. */
  lemma AffineIsQuotient(p: Pt)
    requires ModPow(p.z, P - 1) == 1
    ensures Same(Affine(p) * p.z, p.x)
  {
    var i := ModPow(p.z, P - 2);
    assert ModPow(p.z, P - 1) == i * p.z % P;
    hide ModPow;
    hide Same;
    SameMod(p.x * i);
    SameBy(p.z, p.z, 0);
    SameProduct(p.x * i % P, p.x * i, p.z, p.z);
    SameBy(i * p.z, 1, i * p.z / P);
    SameBy(p.x, p.x, 0);
    SameProduct(p.x, p.x, i * p.z, 1);
    assert p.x * i * p.z == p.x * (i * p.z);
    SameChain(Affine(p) * p.z, p.x * i * p.z, p.x);
  }

  /** The 32 bytes of the affine coordinate of the clamped scalar times the masked peer coordinate. */
  function Shared(privRaw: seq<byte>, peerPubRaw: seq<byte>): (out: seq<byte>)
    requires |privRaw| == 32 && |peerPubRaw| == 32
    ensures |out| == 32
  {
    LeBytes(Affine(Ladder(DecodeU(peerPubRaw), DecodeScalar(privRaw), 0).0), 32)
  }

  method Dh(privRaw: seq<byte>, peerPubRaw: seq<byte>) returns (out: seq<byte>)
    requires |privRaw| == 32 && |peerPubRaw| == 32
    ensures out == Shared(privRaw, peerPubRaw)
    ensures |out| == 32 && FromLe(out) == Affine(Ladder(DecodeU(peerPubRaw), DecodeScalar(privRaw), 0).0)
  {
    hide Ladder, LeBytes, FromLe, DecodeU, DecodeScalar, Affine;
    var p2 := DeferredLadder(DecodeU(peerPubRaw), DecodeScalar(privRaw));
    var a := Affine(p2);
    assert a % P == a;
    var bytes := To32LE(a);
    out := bytes[..];
    SharedDecodes(privRaw, peerPubRaw);
  }

  lemma SharedDecodes(privRaw: seq<byte>, peerPubRaw: seq<byte>)
    requires |privRaw| == 32 && |peerPubRaw| == 32
    ensures FromLe(Shared(privRaw, peerPubRaw)) == Affine(Ladder(DecodeU(peerPubRaw), DecodeScalar(privRaw), 0).0)
  {
    hide Ladder, Affine, FromLe, LeBytes, Dropped, DecodeU, DecodeScalar;
    var a := Affine(Ladder(DecodeU(peerPubRaw), DecodeScalar(privRaw), 0).0);
    PrimeHas32Bytes();
    hide Pow256;
    SmallIsDropped(a, 32);
    LeRoundTrip(a, 32);
  }

  /** All coordinate pairs that stand for one multiple have the same affine coordinate. */
  ghost predicate OneCoordinate(c: Curve) {
    forall m: nat, p: Pt, q: Pt :: c.rep(m, p) && c.rep(m, q) ==> Affine(p) == Affine(q)
  }

  /**
   * Under the addition law the output bytes are the coordinate of the scalar multiple of the peer's
   * point, however that multiple is represented; the scalar is a multiple of 8 with exactly 255 bits.
   */
  lemma DhIsScalarMultiple(c: Curve, privRaw: seq<byte>, peerPubRaw: seq<byte>, p: Pt)
    requires |privRaw| == 32 && |peerPubRaw| == 32
    requires AddsMultiples(c, DecodeU(peerPubRaw)) && OneCoordinate(c) && c.rep(DecodeScalar(privRaw), p)
    ensures var k := DecodeScalar(privRaw); k % 8 == 0 && Fits255(k) && Bit(k, 254)
    ensures FromLe(Shared(privRaw, peerPubRaw)) == Affine(p)
    ensures ModPow(p.z, P - 1) == 1 ==> Same(FromLe(Shared(privRaw, peerPubRaw)) * p.z, p.x)
  {
    if ModPow(p.z, P - 1) == 1 {
      AffineIsQuotient(p);
    }
    var u, k := DecodeU(peerPubRaw), DecodeScalar(privRaw);
    ScalarShape(privRaw);
    SharedDecodes(privRaw, peerPubRaw);
    hide Ladder, Affine, AddsMultiples, Fits255, FromLe, Shared, DecodeU, DecodeScalar;
    LadderIsScalarMultiple(c, u, k);
    assert Affine(Ladder(u, k, 0).0) == Affine(p);
  }
}
