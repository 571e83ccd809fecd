/**
 * The growable ring that the Kotlin stream keeps its received bytes in, against the plain byte sequence
 * of the Go stream. The ring tells its size from head and tail alone, so a full ring reads as empty.
 */
module RingBuffer {
  import opened Bytes

  /** What a caller can observe of a ring: its capacity and its bytes in order. */
  datatype Ring = Ring(cap: nat, content: seq<byte>)

  /** Doubling until the need is met; a capacity that is already enough stays. */
  function Grown(cap: nat, need: nat): (r: nat)
    requires 0 < cap
    ensures need <= r && cap <= r && (need <= cap ==> r == cap) && (cap < need ==> r < 2 * need)
    decreases need - cap
  {
    if need <= cap then cap else Grown(2 * cap, need)
  }

  /** Positions wrap around at most once. */
  function Wrap(x: nat, cap: nat): (r: nat)
    requires x < 2 * cap
    ensures r == if x < cap then x else x - cap
  {
    WrapIsSubtract(x, cap);
    x % cap
  }

  lemma WrapIsSubtract(x: nat, cap: nat)
    requires x < 2 * cap
    ensures x % cap == if x < cap then x else x - cap
  {
    if x < cap {
      assert x / cap == 0;
    } else {
      assert x / cap == 1;
    }
  }

  /** The push that exactly fills the ring. */
  predicate Fills(r: Ring, b: seq<byte>)
    requires 0 < r.cap
  {
    |r.content| + |b| == Grown(r.cap, |r.content| + |b|)
  }

  /** What a push really does: a push that exactly fills the ring empties it. */
  function AfterPush(r: Ring, b: seq<byte>): Ring
    requires 0 < r.cap
  {
    Ring(Grown(r.cap, |r.content| + |b|), if Fills(r, b) then [] else r.content + b)
  }

  function AfterDrain(r: Ring, n: nat): Ring {
    r.(content := r.content[Min(n, |r.content|)..])
  }

  /** A stretch of `n` elements of a circular buffer from `head` on. */
  function Window(b: seq<byte>, head: nat, n: nat): (w: seq<byte>)
    requires head < |b| && n <= |b|
    ensures |w| == n
  {
    if head + n <= |b| then b[head..head + n] else b[head..] + b[..head + n - |b|]
  }

  /** A sequence with `s` written over it from `pos` on. */
  function Splice(d: seq<byte>, pos: nat, s: seq<byte>): (r: seq<byte>)
    requires pos + |s| <= |d|
    ensures |r| == |d|
  {
    d[..pos] + s + d[pos + |s|..]
  }

  lemma SpliceTwice(d: seq<byte>, pos: nat, s: seq<byte>, t: seq<byte>)
    requires pos + |s| + |t| <= |d|
    ensures Splice(Splice(d, pos, s), pos + |s|, t) == Splice(d, pos, s + t)
  {
  }

  lemma SpliceAt(d: seq<byte>, pos: nat, s: seq<byte>, k: nat)
    requires pos + |s| <= |d| && k < |d|
    ensures Splice(d, pos, s)[k] == if pos <= k < pos + |s| then s[k - pos] else d[k]
  {
  }

  lemma WindowAt(b: seq<byte>, head: nat, n: nat, k: nat)
    requires head < |b| && k < n <= |b|
    ensures Window(b, head, n)[k] == b[if head + k < |b| then head + k else head + k - |b|]
  {
  }

  /** Taking `n` elements from the front of a window. */
  lemma WindowFront(b: seq<byte>, head: nat, size: nat, n: nat)
    requires head < |b| && n <= size <= |b|
    ensures Window(b, head, n) == Window(b, head, size)[..n]
    ensures Window(b, Wrap(head + n, |b|), size - n) == Window(b, head, size)[n..]
  {
    hide Window;
    forall k | 0 <= k < size
      ensures k < n ==> Window(b, head, n)[k] == Window(b, head, size)[k]
      ensures k >= n ==> Window(b, Wrap(head + n, |b|), size - n)[k - n] == Window(b, head, size)[k]
    {
      WindowAt(b, head, size, k);
      if k < n {
        WindowAt(b, head, n, k);
      } else {
        WindowAt(b, Wrap(head + n, |b|), size - n, k - n);
      }
    }
    forall k | 0 <= k < size - n ensures Window(b, Wrap(head + n, |b|), size - n)[k] == Window(b, head, size)[n..][k] {
      assert Window(b, head, size)[n..][k] == Window(b, head, size)[n + k];
    }
  }

  /** Writing behind a window that does not reach the end of the array: first to the end, then from the start. */
  lemma WindowGrowsWrapped(b: seq<byte>, head: nat, size: nat, s: seq<byte>, first: nat)
    requires head < |b| && head + size < |b| && size + |s| <= |b| && first == Min(|s|, |b| - (head + size))
    ensures Window(Splice(Splice(b, head + size, s[..first]), 0, s[first..]), head, size + |s|) == Window(b, head, size) + s
  {
    hide Splice, Window;
    var c, n := Splice(Splice(b, head + size, s[..first]), 0, s[first..]), size + |s|;
    forall k | 0 <= k < n ensures Window(c, head, n)[k] == (Window(b, head, size) + s)[k] {
      WindowAt(c, head, n, k);
      var at := if head + k < |b| then head + k else head + k - |b|;
      SpliceAt(Splice(b, head + size, s[..first]), 0, s[first..], at);
      SpliceAt(b, head + size, s[..first], at);
      if k < size {
        WindowAt(b, head, size, k);
      }
    }
  }

  /** Writing behind a window that has wrapped around: one piece. */
  lemma WindowGrowsPlain(b: seq<byte>, head: nat, size: nat, s: seq<byte>)
    requires head < |b| && |b| <= head + size && size + |s| <= |b|
    ensures Window(Splice(b, head + size - |b|, s), head, size + |s|) == Window(b, head, size) + s
  {
    hide Splice, Window;
    var c, n := Splice(b, head + size - |b|, s), size + |s|;
    forall k | 0 <= k < n ensures Window(c, head, n)[k] == (Window(b, head, size) + s)[k] {
      WindowAt(c, head, n, k);
      SpliceAt(b, head + size - |b|, s, if head + k < |b| then head + k else head + k - |b|);
      if k < size {
        WindowAt(b, head, size, k);
      }
    }
  }

  lemma CutSlice(t: seq<byte>, off: nat, len: nat, first: nat)
    requires off + len <= |t| && first <= len
    ensures t[off..off + len][..first] == t[off..off + first]
    ensures t[off..off + len][first..] == t[off + first..off + first + (len - first)]
  {
  }

  class ByteBufferQueue {
    var buf: array<byte>
    var head: nat
    var tail: nat

    ghost predicate Valid()
      reads this
    {
      16 <= buf.Length && head < buf.Length && tail < buf.Length
    }

    function Size(): (n: nat)
      requires Valid()
      reads this
      ensures n < buf.Length && n == if head <= tail then tail - head else tail - head + buf.Length
    {
      Wrap(tail - head + buf.Length, buf.Length)
    }

    ghost function View(): Ring
      requires Valid()
      reads this, buf
    {
      Ring(buf.Length, Window(buf[..], head, Size()))
    }

    constructor (initialCapacity: nat)
      ensures Valid() && fresh(buf) && View() == Ring(if initialCapacity < 16 then 16 else initialCapacity, [])
    {
      buf := new byte[if initialCapacity < 16 then 16 else initialCapacity];
      head, tail := 0, 0;
    }

    /** Copies the first `n` bytes of the ring out, in one piece or two. */
    method CopyOut(dst: array<byte>, off: nat, n: nat)
      requires Valid() && dst != buf && off + n <= dst.Length && n <= Size()
      modifies dst
      ensures dst[..] == Splice(old(dst[..]), off, Window(buf[..], head, n))
    {
      hide Splice;
      ghost var b, d := buf[..], dst[..];
      if head + n <= buf.Length {
        ArrayCopy(buf, head, dst, off, n);
      } else {
        var first := buf.Length - head;
        ArrayCopy(buf, head, dst, off, first);
        ArrayCopy(buf, 0, dst, off + first, n - first);
        assert b[head..head + first] == b[head..] && b[0..n - first] == b[..n - first];
        SpliceTwice(d, off, b[head..], b[..n - first]);
      }
    }

    /** Moves up to `len` bytes from the front of the ring to `dst`. */
    method Drain(dst: array<byte>, off: nat, len: nat) returns (n: nat)
      requires Valid() && dst != buf && off + len <= dst.Length
      modifies this`head, dst
      ensures Valid() && n == Min(len, |old(View().content)|) && View() == AfterDrain(old(View()), len)
      ensures dst[..] == Splice(old(dst[..]), off, old(View().content)[..n])
    {
      hide Splice, Window;
      n := Min(len, Size());
      WindowFront(buf[..], head, Size(), n);
      CopyOut(dst, off, n);
      head := Wrap(head + n, buf.Length);
    }

    /** Makes room for `extra` more bytes, or for exactly as many as that. */
    method EnsureCapacity(extra: nat)
      requires Valid()
      modifies this
      ensures Valid() && View() == Ring(Grown(old(buf.Length), old(Size()) + extra), old(View().content))
      ensures buf == old(buf) || fresh(buf)
    {
      if Size() + extra <= buf.Length {
        return;
      }
      var newCap := buf.Length;
      while newCap < Size() + extra
        invariant 0 < newCap && Grown(newCap, Size() + extra) == Grown(buf.Length, Size() + extra)
        decreases Size() + extra - newCap
      {
        newCap := newCap * 2;
      }
      var grown := new byte[newCap];
      var n := Size();
      var tmp := new byte[n];
      ghost var content := View().content;
      var _ := Drain(tmp, 0, n);
      assert tmp[..] == content;
      ArrayCopy(tmp, 0, grown, 0, n);
      assert tmp[0..n] == content && grown[..n] == content;
      buf := grown;
      head := 0;
      tail := n;
    }

    /** Copies a stretch of `src` behind the bytes of the ring, in one piece or two. */
    method CopyIn(src: array<byte>, off: nat, len: nat)
      requires Valid() && src != buf && off + len <= src.Length && Size() + len <= buf.Length
      modifies buf
      ensures Window(buf[..], head, Size() + len) == old(Window(buf[..], head, Size())) + src[off..off + len]
    {
      hide Splice, Window;
      ghost var b, s := buf[..], src[..][off..off + len];
      assert s == src[off..off + len];
      if head <= tail {
        var first := Min(len, buf.Length - tail);
        ArrayCopy(src, off, buf, tail, first);
        ArrayCopy(src, off + first, buf, 0, len - first);
        CutSlice(src[..], off, len, first);
        WindowGrowsWrapped(b, head, Size(), s, first);
      } else {
        ArrayCopy(src, off, buf, tail, len);
        WindowGrowsPlain(b, head, Size(), s);
      }
    }

    /**
     * Appends a stretch of `src`. The bytes are always copied into place; but if they fill the ring
     * exactly, the ring reads as empty afterwards.
     */
    method Push(src: array<byte>, off: nat, len: nat)
      requires Valid() && src != buf && off + len <= src.Length
      modifies this, buf
      ensures Valid() && View() == AfterPush(old(View()), src[off..off + len])
      ensures buf == old(buf) || fresh(buf)
    {
      hide Window, Grown;
      EnsureCapacity(len);
      CopyIn(src, off, len);
      tail := Wrap(tail + len, buf.Length);
    }
  }

  method ArrayCopy(src: array<byte>, srcPos: nat, dst: array<byte>, dstPos: nat, len: nat)
    requires src != dst && srcPos + len <= src.Length && dstPos + len <= dst.Length
    modifies dst
    ensures dst[..] == Splice(old(dst[..]), dstPos, src[..][srcPos..srcPos + len])
  {
    forall k | 0 <= k < len {
      dst[dstPos + k] := src[srcPos + k];
    }
  }

  // ----- Histories -----

  datatype Op = Push(bytes: seq<byte>) | Drain(n: nat)

  /** The ring after a history. */
  function RingAfter(r: Ring, ops: seq<Op>): (t: Ring)
    requires 0 < r.cap
    ensures 0 < t.cap
  {
    if ops == [] then r
    else
      var t := RingAfter(r, ops[..|ops| - 1]);
      match ops[|ops| - 1]
      case Push(b) => AfterPush(t, b)
      case Drain(n) => AfterDrain(t, n)
  }

  /** The plain byte sequence of the Go stream after the same history. */
  function BytesAfter(s: seq<byte>, ops: seq<Op>): seq<byte> {
    if ops == [] then s
    else
      var t := BytesAfter(s, ops[..|ops| - 1]);
      match ops[|ops| - 1]
      case Push(b) => t + b
      case Drain(n) => t[Min(n, |t|)..]
  }

  /** No push of the history brings the size to exactly the capacity the ring then has. */
  predicate NeverFull(r: Ring, ops: seq<Op>)
    requires 0 < r.cap
  {
    ops != [] ==>
      && NeverFull(r, ops[..|ops| - 1])
      && (ops[|ops| - 1].Push? ==> !Fills(RingAfter(r, ops[..|ops| - 1]), ops[|ops| - 1].bytes))
  }

  /** The ring holds what the sequence holds after every part of the history. */
  ghost predicate AlwaysAgrees(r: Ring, ops: seq<Op>)
    requires 0 < r.cap
  {
    forall k :: 0 <= k <= |ops| ==> RingAfter(r, ops[..k]).content == BytesAfter(r.content, ops[..k])
  }

  lemma {:induction false} NeverFullAgrees(r: Ring, ops: seq<Op>)
    requires 0 < r.cap && NeverFull(r, ops)
    ensures RingAfter(r, ops).content == BytesAfter(r.content, ops)
    decreases |ops|
  {
    if ops != [] {
      NeverFullAgrees(r, ops[..|ops| - 1]);
    }
  }

  lemma {:induction false} NeverFullPrefix(r: Ring, ops: seq<Op>, k: nat)
    requires 0 < r.cap && NeverFull(r, ops) && k <= |ops|
    ensures NeverFull(r, ops[..k])
    decreases |ops|
  {
    if k == |ops| {
      assert ops[..k] == ops;
    } else {
      NeverFullPrefix(r, ops[..|ops| - 1], k);
      assert ops[..|ops| - 1][..k] == ops[..k];
    }
  }

  lemma {:induction false} AgreesNeverFull(r: Ring, ops: seq<Op>)
    requires 0 < r.cap && |r.content| < r.cap && AlwaysAgrees(r, ops)
    ensures NeverFull(r, ops)
    decreases |ops|
  {
    if ops != [] {
      var pre := ops[..|ops| - 1];
      forall k | 0 <= k <= |pre| ensures RingAfter(r, pre[..k]).content == BytesAfter(r.content, pre[..k]) {
        assert pre[..k] == ops[..k];
      }
      AgreesNeverFull(r, pre);
      assert ops[..|ops|] == ops && ops[..|pre|] == pre;
      NeverOver(r, pre);
    }
  }

  /** A ring always has a free place, as far as its size shows. */
  lemma {:induction false} NeverOver(r: Ring, ops: seq<Op>)
    requires 0 < r.cap && |r.content| < r.cap
    ensures |RingAfter(r, ops).content| < RingAfter(r, ops).cap
    decreases |ops|
  {
    if ops != [] {
      NeverOver(r, ops[..|ops| - 1]);
    }
  }

  /**
   * The ring refines the byte sequence over a history exactly when no push fills it: the size after
   * each push must differ from the capacity. The first push that fills it loses everything.
   */
  lemma RingRefinesBytes(r: Ring, ops: seq<Op>)
    requires 0 < r.cap && |r.content| < r.cap
    ensures AlwaysAgrees(r, ops) <==> NeverFull(r, ops)
  {
    if NeverFull(r, ops) {
      forall k | 0 <= k <= |ops| ensures RingAfter(r, ops[..k]).content == BytesAfter(r.content, ops[..k]) {
        NeverFullPrefix(r, ops, k);
        NeverFullAgrees(r, ops[..k]);
      }
    }
    if AlwaysAgrees(r, ops) {
      AgreesNeverFull(r, ops);
    }
  }

  /** A push of 4096 bytes into a fresh default ring fills it: the ring reads as empty, the byte sequence does not. */
  lemma DefaultRingLosesFirst4096(b: seq<byte>)
    requires |b| == 4096
    ensures AfterPush(Ring(4096, []), b) == Ring(4096, []) && BytesAfter([], [Push(b)]) == b
  {
    assert [Push(b)][..0] == [];
  }
}
