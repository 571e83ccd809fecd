/** Bytes, big- and little-endian integers, and the result types the other modules share. */
module Bytes {

  type byte = x: int | 0 <= x < 256

  const U16 := 0x1_0000
  const U24 := 0x100_0000
  const U31 := 0x8000_0000
  const U32 := 0x1_0000_0000

  datatype Option<+T> = None | Some(value: T)

  datatype Result<+T, +E> = Ok(value: T) | Err(error: E)

  function Min(a: int, b: int): int {
    if a <= b then a else b
  }

  /** `byte(v >> 8), byte(v)`: the high bits of a larger v are cut off. */
  function Be16(v: nat): (b: seq<byte>)
    ensures |b| == 2
  {
    [v / 256 % 256, v % 256]
  }

  function Be24(v: nat): (b: seq<byte>)
    ensures |b| == 3
  {
    [v / 256 / 256 % 256, v / 256 % 256, v % 256]
  }

  function Be32(v: nat): (b: seq<byte>)
    ensures |b| == 4
  {
    [v / 256 / 256 / 256 % 256, v / 256 / 256 % 256, v / 256 % 256, v % 256]
  }

  function FromBe16(b: seq<byte>): nat
    requires |b| >= 2
  {
    b[0] as int * 0x100 + b[1]
  }

  function FromBe24(b: seq<byte>): nat
    requires |b| >= 3
  {
    (b[0] as int * 0x100 + b[1]) * 0x100 + b[2]
  }

  function FromBe32(b: seq<byte>): nat
    requires |b| >= 4
  {
    ((b[0] as int * 0x100 + b[1]) * 0x100 + b[2]) * 0x100 + b[3]
  }

  lemma Remainder(v: int, m: int, q: int, r: int)
    requires 0 < m && v == m * q + r && 0 <= r < m
    ensures v % m == r
  {
    var d := v / m - q;
    assert m * d == r - v % m;
    assert d >= 1 ==> m * d >= m;
    assert d <= -1 ==> m * d <= -m;
  }

  /** Decoding what was encoded gives the value back, up to the width of the field. */
  lemma Be16RoundTrip(v: nat)
    ensures FromBe16(Be16(v)) == v % U16
  {
    Remainder(v, U16, v / 256 / 256, FromBe16(Be16(v)));
  }

  lemma Be24RoundTrip(v: nat)
    ensures FromBe24(Be24(v)) == v % U24
  {
    var q3 := v / 256 / 256 / 256;
    assert v == U24 * q3 + FromBe24(Be24(v));
    Remainder(v, U24, q3, FromBe24(Be24(v)));
  }

  lemma Be32RoundTrip(v: nat)
    ensures FromBe32(Be32(v)) == v % U32
  {
    var q4 := v / 256 / 256 / 256 / 256;
    assert v == U32 * q4 + FromBe32(Be32(v));
    Remainder(v, U32, q4, FromBe32(Be32(v)));
  }

  lemma Be16Range(b: seq<byte>)
    requires |b| >= 2
    ensures FromBe16(b) < U16
  {
  }

  lemma Be32Range(b: seq<byte>)
    requires |b| >= 4
    ensures FromBe32(b) < U32
  {
  }

  lemma Be32Inverse(b: seq<byte>)
    requires |b| == 4
    ensures FromBe32(b) < U32 && Be32(FromBe32(b)) == b
  {
    var v := FromBe32(b);
    assert v / 256 == (b[0] as int * 0x100 + b[1]) * 0x100 + b[2];
    assert v / 256 / 256 == b[0] as int * 0x100 + b[1];
    assert v / 256 / 256 / 256 == b[0];
  }

  lemma Be16Inverse(b: seq<byte>)
    requires |b| == 2
    ensures FromBe16(b) < U16 && Be16(FromBe16(b)) == b
  {
  }

  /** Is bit `bit` (a power of two) of the flag byte set? */
  predicate Has(flags: byte, bit: nat)
    requires bit in {1, 2, 4, 8, 16, 32, 64, 128}
  {
    (flags / bit) % 2 == 1
  }

  lemma ConcatAssoc<T>(a: seq<T>, b: seq<T>, c: seq<T>)
    ensures a + (b + c) == a + b + c
  {
  }

  lemma TakeCons<T>(s: seq<T>, n: nat)
    requires 0 < n <= |s|
    ensures [s[0]] + s[1..][..n - 1] == s[..n]
  {
  }

  lemma CutOfDrop<T>(s: seq<T>, from: nat, n: nat)
    requires from + n <= |s|
    ensures s[from..][..n] == s[from..from + n] && s[from..][n..] == s[from + n..]
  {
  }

  lemma SliceOfTake<T>(s: seq<T>, h: nat, i: nat, j: nat)
    requires i <= j <= h <= |s|
    ensures s[..h][i..j] == s[i..j]
  {
  }

  lemma SliceOfDrop<T>(s: seq<T>, from: nat, i: nat, j: nat)
    requires i <= j && from + j <= |s|
    ensures s[from..][i..j] == s[from + i..from + j]
  {
  }
}
