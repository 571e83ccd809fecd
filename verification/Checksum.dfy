/** The internet checksum (section 1 of RFC 1071): the summing and folding loops against ones-complement addition. */
module Checksum {
  import opened Bytes

  const ONES := 0xFFFF

  /** The plain sum of the 16-bit words; an odd last byte counts as a high byte. */
  function Words(b: seq<byte>): nat {
    if b == [] then 0
    else if |b| == 1 then b[0] as int * 256
    else b[0] as int * 256 + b[1] + Words(b[2..])
  }

  /** Adding the carries back in until there are none. */
  function Fold(sum: nat): (r: nat)
    ensures r <= ONES
    decreases sum
  {
    if sum <= ONES then sum else Fold(sum % 0x1_0000 + sum / 0x1_0000)
  }

  /** Ones-complement addition: one end-around carry. */
  function EndAround(a: nat, w: nat): nat {
    if a + w > ONES then a + w - ONES else a + w
  }

  /** The ones-complement sum, word by word. */
  function OnesSum(b: seq<byte>): (r: nat)
    ensures r <= ONES
  {
    if b == [] then 0
    else if |b| == 1 then EndAround(b[0] as int * 256, 0)
    else EndAround(OnesSum(b[2..]), b[0] as int * 256 + b[1])
  }

  // ----- Folding is arithmetic modulo 2^16 - 1 -----

  /** `r` stands for `s`: same residue, and zero only for zero. */
  predicate Stands(r: nat, s: nat) {
    r <= ONES && r % ONES == s % ONES && (r == 0 <==> s == 0)
  }

  lemma StandsUnique(r: nat, q: nat, s: nat)
    requires Stands(r, s) && Stands(q, s)
    ensures r == q
  {
  }

  lemma SameResidue(x: nat, y: nat, k: int)
    requires x == y + ONES * k
    ensures x % ONES == y % ONES
  {
    Remainder(x, ONES, y / ONES + k, y % ONES);
  }

  lemma {:induction false} FoldStands(sum: nat)
    ensures Stands(Fold(sum), sum)
    decreases sum
  {
    if sum > ONES {
      var t := sum % 0x1_0000 + sum / 0x1_0000;
      FoldStands(t);
      SameResidue(sum, t, sum / 0x1_0000);
    }
  }

  lemma EndAroundStands(a: nat, s: nat, w: nat)
    requires Stands(a, s) && w <= ONES
    ensures Stands(EndAround(a, w), s + w)
  {
    var k := s / ONES - a / ONES;
    assert s == a + ONES * k;
    SameResidue(s + w, a + w, k);
    if a + w > ONES {
      SameResidue(a + w, a + w - ONES, 1);
    }
  }

  lemma {:induction false} OnesSumStands(b: seq<byte>)
    ensures Stands(OnesSum(b), Words(b))
  {
    if |b| == 1 {
    } else if b != [] {
      OnesSumStands(b[2..]);
      EndAroundStands(OnesSum(b[2..]), Words(b[2..]), b[0] as int * 256 + b[1]);
    }
  }

  /** Summing in a wide register and folding at the end is the ones-complement sum. */
  lemma FoldedSumIsOnesSum(b: seq<byte>)
    ensures Fold(Words(b)) == OnesSum(b)
  {
    FoldStands(Words(b));
    OnesSumStands(b);
    StandsUnique(Fold(Words(b)), OnesSum(b), Words(b));
  }

  /** The checksum of a range: the complement of its ones-complement sum. */
  method InternetChecksum(data: array<byte>, offset: nat, length: nat) returns (r: nat)
    requires offset + length <= data.Length
    ensures r == ONES - OnesSum(data[..][offset..offset + length])
  {
    hide OnesSum;
    ghost var b := data[..][offset..offset + length];
    var sum: nat := 0;
    var i := offset;
    var end := offset + length;
    assert b[0..] == b;
    while i + 1 < end
      invariant offset <= i <= end && Words(b) == sum + Words(b[i - offset..])
    {
      assert b[i - offset..][2..] == b[i + 2 - offset..];
      sum := sum + data[i] as int * 256 + data[i + 1];
      i := i + 2;
    }
    if i < end {
      sum := sum + data[i] as int * 256;
    }
    assert Words(b) == sum;
    FoldedSumIsOnesSum(b);
    hide Words;
    while sum > ONES
      invariant Fold(sum) == OnesSum(b)
    {
      sum := sum % 0x1_0000 + sum / 0x1_0000;
    }
    return ONES - sum;
  }

  // ----- A checksum field inside the range -----

  /** The 16-bit value at an index. */
  function WordAt(b: seq<byte>, at: nat): (v: nat)
    requires at + 2 <= |b|
    ensures v <= ONES
  {
    b[at] as int * 256 + b[at + 1]
  }

  /** The bytes with the field set to `v`. */
  function WithWord(b: seq<byte>, at: nat, v: nat): (r: seq<byte>)
    requires at + 2 <= |b| && v <= ONES
    ensures |r| == |b|
  {
    b[at := v / 256][at + 1 := v % 256]
  }

  lemma {:induction false} FieldCounts(b: seq<byte>, at: nat, v: nat)
    requires at + 2 <= |b| && at % 2 == 0 && v <= ONES
    ensures Words(WithWord(b, at, v)) + WordAt(b, at) == Words(b) + v
    decreases at
  {
    var w := WithWord(b, at, v);
    if at == 0 {
      assert w[2..] == b[2..];
    } else {
      FieldCounts(b[2..], at - 2, v);
      assert w[2..] == WithWord(b[2..], at - 2, v);
    }
  }

  /** The checksum the field should hold: the complement of the sum with the field zeroed. */
  function FieldChecksum(b: seq<byte>, at: nat): (c: nat)
    requires at + 2 <= |b|
    ensures c <= ONES
  {
    ONES - OnesSum(WithWord(b, at, 0))
  }

  /** Folding after an addition is ones-complement addition. */
  lemma FoldAdds(s: nat, v: nat)
    requires v <= ONES
    ensures Fold(s + v) == EndAround(Fold(s), v)
  {
    FoldStands(s);
    FoldStands(s + v);
    EndAroundStands(Fold(s), s, v);
    StandsUnique(Fold(s + v), EndAround(Fold(s), v), s + v);
  }

  lemma ComplementCancels(s: nat, v: nat)
    requires v <= ONES
    ensures Fold(s + v) == ONES <==> v == ONES - Fold(s) || (v == ONES && Fold(s) == ONES)
  {
    FoldAdds(s, v);
    hide Fold;
  }

  /**
   * A range sums to all ones exactly when its field holds its checksum, or when the field is all ones
   * and the rest already sums to all ones. (Then the checksum would be zero, and the two differ.)
   */
  lemma SumsToOnes(b: seq<byte>, at: nat)
    requires at + 2 <= |b| && at % 2 == 0
    ensures OnesSum(b) == ONES <==>
            WordAt(b, at) == FieldChecksum(b, at) || (WordAt(b, at) == ONES && FieldChecksum(b, at) == 0)
  {
    hide Words, Fold, OnesSum, WithWord, WordAt;
    var z := WithWord(b, at, 0);
    FieldCounts(b, at, 0);
    FoldedSumIsOnesSum(b);
    FoldedSumIsOnesSum(z);
    ComplementCancels(Words(z), WordAt(b, at));
  }

  /** Storing the checksum makes the range sum to all ones. */
  lemma StoredChecksumSums(b: seq<byte>, at: nat)
    requires at + 2 <= |b| && at % 2 == 0
    ensures OnesSum(WithWord(b, at, FieldChecksum(b, at))) == ONES
  {
    var c := FieldChecksum(b, at);
    var w := WithWord(b, at, c);
    assert WithWord(w, at, 0) == WithWord(b, at, 0);
    assert WordAt(w, at) == c;
    hide OnesSum, WithWord, WordAt;
    SumsToOnes(w, at);
  }

  /** Checks a stored checksum on a copy of the range with the field zeroed. */
  method Verify(data: array<byte>, offset: nat, length: nat, checksumOffset: nat) returns (ok: bool)
    requires offset <= checksumOffset && checksumOffset + 2 <= offset + length <= data.Length
    ensures var b := data[..][offset..offset + length]; var at := checksumOffset - offset;
            ok <==> WordAt(b, at) == FieldChecksum(b, at)
  {
    ghost var b := data[..][offset..offset + length];
    var work := new byte[length](i requires 0 <= i < length reads data => data[offset + i]);
    assert work[..] == b;
    var field := checksumOffset - offset;
    hide OnesSum;
    work[field] := 0;
    assert work[..] == b[field := 0];
    work[field + 1] := 0;
    assert work[..] == b[field := 0][field + 1 := 0];
    assert WithWord(b, field, 0) == b[field := 0][field + 1 := 0];
    hide WithWord;
    assert work[..][0..length] == work[..];
    var computed := InternetChecksum(work, 0, work.Length);
    var stored := data[checksumOffset] as int * 256 + data[checksumOffset + 1];
    return computed == stored;
  }
}
