/**
 * DNS messages (sections 3.1 and 4.1 of RFC 1035): queries built and responses parsed by `DnsWire`,
 * queries read and responses built by `DnsShield`.
 */
module Dns {
  import opened Bytes

  const HEADER_LEN := 12
  const TYPE_A := 1
  const TYPE_AAAA := 28
  const CLASS_IN := 1
  const TTL := 60

  // ----- Names -----

  /** `split('.')`: always at least one label, possibly empty. */
  function Split(s: string): (ls: seq<string>)
    ensures |ls| > 0
  {
    if s == [] then [[]]
    else
      var rest := Split(s[1..]);
      if s[0] == '.' then [[]] + rest else [[s[0]] + rest[0]] + rest[1..]
  }

  function Join(ls: seq<string>): string
    requires |ls| > 0
  {
    if |ls| == 1 then ls[0] else ls[0] + "." + Join(ls[1..])
  }

  /** The pieces are without dots, and joined by dots they are the whole. */
  lemma {:induction false} JoinSplit(s: string)
    ensures Join(Split(s)) == s
    ensures forall i, j :: 0 <= i < |Split(s)| && 0 <= j < |Split(s)[i]| ==> Split(s)[i][j] != '.'
  {
    if s != [] {
      JoinSplit(s[1..]);
      var rest := Split(s[1..]);
      if s[0] == '.' {
        assert ([[]] + rest)[1..] == rest;
        assert s == "." + s[1..];
      } else {
        assert ([[s[0]] + rest[0]] + rest[1..])[1..] == rest[1..];
        assert s == [s[0]] + s[1..];
      }
    }
  }

  predicate IsAscii(s: string) {
    forall i :: 0 <= i < |s| ==> s[i] as int < 128
  }

  /** US-ASCII encoding; anything else becomes a question mark. */
  function ToAscii(s: string): (b: seq<byte>)
    ensures |b| == |s|
  {
    seq(|s|, i requires 0 <= i < |s| => if s[i] as int < 128 then s[i] as int else 63)
  }

  /** US-ASCII decoding; bytes above 127 become the replacement character. */
  function FromAscii(b: seq<byte>): (s: string)
    ensures |s| == |b|
  {
    seq(|b|, i requires 0 <= i < |b| => if b[i] < 128 then b[i] as char else '\U{FFFD}')
  }

  /** What of a string survives the encoding. */
  function Kept(s: string): (k: string)
    ensures |k| == |s| && (k == s <==> IsAscii(s))
  {
    var k := seq(|s|, i requires 0 <= i < |s| => if s[i] as int < 128 then s[i] else '?');
    assert IsAscii(s) ==> forall i :: 0 <= i < |s| ==> k[i] == s[i];
    assert k == s ==> forall i :: 0 <= i < |s| ==> k[i] == s[i] && k[i] as int < 128;
    k
  }

  lemma AsciiRoundTrip(s: string)
    ensures FromAscii(ToAscii(s)) == Kept(s)
  {
  }

  predicate GoodLabels(ls: seq<string>) {
    forall i :: 0 <= i < |ls| ==> 1 <= |ls[i]| <= 63
  }

  /** Labels as length and bytes, then the root. */
  function WireName(ls: seq<string>): seq<byte>
    requires GoodLabels(ls)
  {
    if ls == [] then [0] else [|ls[0]|] + ToAscii(ls[0]) + WireName(ls[1..])
  }

  // ----- Queries -----

  function Header(id: nat, flags: nat, questions: nat, answers: nat): (h: seq<byte>)
    ensures |h| == HEADER_LEN
  {
    Be16(id) + Be16(flags) + Be16(questions) + Be16(answers) + Be16(0) + Be16(0)
  }

  /** The query message; none if a label is empty or too long. */
  function BuildQuery(id: nat, name: string, qtype: nat): Option<seq<byte>> {
    var ls := Split(name);
    if !GoodLabels(ls) then None
    else Some(Header(id, 0x0100, 1, 0) + WireName(ls) + Be16(qtype) + Be16(CLASS_IN))
  }

  method BuildQueryLoop(id: nat, name: string, qtype: nat) returns (out: Option<seq<byte>>)
    ensures out == BuildQuery(id, name, qtype)
  {
    hide Be16, ToAscii;
    var b := Header(id, 0x0100, 1, 0);
    var ls := Split(name);
    ghost var start := b;
    assert ls[0..] == ls;
    for i := 0 to |ls|
      invariant GoodLabels(ls[..i])
      invariant GoodLabels(ls) ==> b + WireName(ls[i..]) == start + WireName(ls)
    {
      var lab := ls[i];
      if lab == [] || |lab| > 63 {
        return None;
      }
      assert ls[..i + 1] == ls[..i] + [lab];
      assert ls[i..][1..] == ls[i + 1..];
      b := b + [|lab|] + ToAscii(lab);
    }
    assert ls[..|ls|] == ls && ls[|ls|..] == [];
    b := b + [0];
    out := Some(b + Be16(qtype) + Be16(CLASS_IN));
  }

  // ----- Reading the question -----

  /** The labels of an uncompressed name at `pos`. */
  function LabelsAt(q: seq<byte>, pos: nat): Option<seq<string>>
    decreases |q| - pos
  {
    if pos >= |q| then None
    else if q[pos] == 0 then Some([])
    else if q[pos] >= 64 || pos + 1 + q[pos] as int > |q| then None
    else
      match LabelsAt(q, pos + 1 + q[pos] as int)
      case None => None
      case Some(ls) => Some([FromAscii(q[pos + 1..pos + 1 + q[pos] as int])] + ls)
  }

  function QueryName(q: seq<byte>): Option<string> {
    if |q| < HEADER_LEN then None
    else
      match LabelsAt(q, HEADER_LEN)
      case None => None
      case Some(ls) => if ls == [] then None else Some(Join(ls))
  }

  function Dotted(sb: string, ls: seq<string>): string
    decreases |ls|
  {
    if ls == [] then sb else Dotted(if sb == [] then ls[0] else sb + "." + ls[0], ls[1..])
  }

  lemma {:induction false} DottedIsJoin(sb: string, ls: seq<string>)
    requires ls != [] && forall i :: 0 <= i < |ls| ==> ls[i] != []
    ensures Dotted(sb, ls) == if sb == [] then Join(ls) else sb + "." + Join(ls)
    decreases |ls|
  {
    if |ls| > 1 {
      DottedIsJoin(if sb == [] then ls[0] else sb + "." + ls[0], ls[1..]);
    }
  }

  lemma DottedStep(sb: string, first: string, rest: seq<string>)
    ensures Dotted(sb, [first] + rest) == Dotted((if sb == [] then first else sb + "." + first), rest)
  {
    assert ([first] + rest)[1..] == rest;
  }

  lemma {:induction false} LabelsNotEmpty(q: seq<byte>, pos: nat)
    requires LabelsAt(q, pos).Some?
    ensures forall i :: 0 <= i < |LabelsAt(q, pos).value| ==> LabelsAt(q, pos).value[i] != []
    decreases |q| - pos
  {
    if q[pos] != 0 {
      LabelsNotEmpty(q, pos + 1 + q[pos] as int);
    }
  }

  method QueryNameLoop(q: seq<byte>) returns (name: Option<string>)
    ensures name == QueryName(q)
  {
    hide FromAscii;
    if |q| < HEADER_LEN {
      return None;
    }
    var pos, sb := HEADER_LEN, "";
    ghost var all := LabelsAt(q, HEADER_LEN);
    if all.Some? {
      LabelsNotEmpty(q, HEADER_LEN);
      if all.value != [] {
        DottedIsJoin([], all.value);
      }
    }
    hide Dotted, Join;
    while true
      invariant HEADER_LEN <= pos && (LabelsAt(q, pos).Some? <==> all.Some?)
      invariant all.Some? ==> Dotted(sb, LabelsAt(q, pos).value) == Dotted([], all.value)
      invariant sb == [] ==> pos == HEADER_LEN
      decreases |q| - pos
    {
      if pos >= |q| {
        return None;
      }
      var len := q[pos] as int;
      if len == 0 {
        break;
      }
      if len >= 64 {
        return None;
      }
      if pos + 1 + len > |q| {
        return None;
      }
      ghost var first, rest := FromAscii(q[pos + 1..pos + 1 + len]), LabelsAt(q, pos + 1 + len);
      if rest.Some? {
        DottedStep(sb, first, rest.value);
      }
      assert [] + first == first;
      if sb != [] {
        sb := sb + ".";
      }
      sb := sb + FromAscii(q[pos + 1..pos + 1 + len]);
      pos := pos + 1 + len;
    }
    return if sb == [] then None else Some(sb);
  }

  function KeptAll(ls: seq<string>): (ks: seq<string>)
    ensures |ks| == |ls| && forall i :: 0 <= i < |ls| ==> ks[i] == Kept(ls[i])
  {
    if ls == [] then [] else [Kept(ls[0])] + KeptAll(ls[1..])
  }

  /** Every label comes back as far as it is ASCII. */
  lemma {:induction false} LabelsComeBack(pre: seq<byte>, ls: seq<string>, post: seq<byte>)
    requires GoodLabels(ls)
    ensures LabelsAt(pre + WireName(ls) + post, |pre|) == Some(KeptAll(ls))
    decreases |ls|
  {
    var q := pre + WireName(ls) + post;
    if ls == [] {
      assert q[|pre|] == 0;
    } else {
      var n := |ls[0]|;
      var pre1 := pre + [n] + ToAscii(ls[0]);
      assert q == pre1 + WireName(ls[1..]) + post;
      assert q[|pre|] == n && q[|pre| + 1..|pre| + 1 + n] == ToAscii(ls[0]);
      AsciiRoundTrip(ls[0]);
      LabelsComeBack(pre1, ls[1..], post);
    }
  }

  lemma KeptCons(c: char, s: string)
    ensures Kept([c] + s) == Kept([c]) + Kept(s) && (Kept([c]) == "." <==> c == '.')
  {
  }

  /** Dots are ASCII, so a name keeps its labels. */
  lemma {:induction false} KeptJoins(s: string)
    ensures Join(KeptAll(Split(s))) == Kept(s)
  {
    hide Kept;
    if s == [] {
      assert KeptAll([[]]) == [Kept([])];
    } else {
      var rest := Split(s[1..]);
      KeptJoins(s[1..]);
      KeptCons(s[0], s[1..]);
      assert s == [s[0]] + s[1..];
      if s[0] == '.' {
        assert KeptAll([[]] + rest) == [Kept([])] + KeptAll(rest);
        assert ([Kept([])] + KeptAll(rest))[1..] == KeptAll(rest);
        assert Kept([]) == [];
      } else {
        var ls := [[s[0]] + rest[0]] + rest[1..];
        KeptCons(s[0], rest[0]);
        assert KeptAll(ls)[1..] == KeptAll(rest)[1..];
        assert KeptAll(ls)[0] == Kept([s[0]]) + KeptAll(rest)[0];
        JoinGrows(Kept([s[0]]), KeptAll(rest), KeptAll(ls));
      }
    }
  }

  lemma JoinGrows(head: string, ks: seq<string>, ls: seq<string>)
    requires |ks| == |ls| > 0 && ls[0] == head + ks[0] && ls[1..] == ks[1..]
    ensures Join(ls) == head + Join(ks)
  {
  }

  lemma QueryParts(id: nat, name: string, qtype: nat)
    requires BuildQuery(id, name, qtype).Some?
    ensures var q := BuildQuery(id, name, qtype).value; var h := Header(id, 0x0100, 1, 0);
            q == h + WireName(Split(name)) + (Be16(qtype) + Be16(CLASS_IN)) && |h| == HEADER_LEN
  {
  }

  /** A name is refused exactly if a label is empty or longer than 63 characters. */
  lemma QueryRefused(id: nat, name: string, qtype: nat)
    ensures BuildQuery(id, name, qtype).None? <==>
              exists i :: 0 <= i < |Split(name)| && !(1 <= |Split(name)[i]| <= 63)
  {
    var ls := Split(name);
    assert BuildQuery(id, name, qtype).None? <==> !GoodLabels(ls);
    assert GoodLabels(ls) <==> forall i :: 0 <= i < |ls| ==> 1 <= |ls[i]| <= 63;
  }

  /** The fixed bytes of a query: recursion desired, one question, class IN, nothing else. */
  lemma QueryLayout(id: nat, name: string, qtype: nat)
    requires BuildQuery(id, name, qtype).Some?
    ensures var q := BuildQuery(id, name, qtype).value; var n := |q|;
            && 17 <= n && q[0] == id / 256 % 256 && q[1] == id % 256
            && q[2..12] == [1, 0, 0, 1, 0, 0, 0, 0, 0, 0]
            && q[12..n - 4] == WireName(Split(name))
            && q[n - 4..] == [qtype / 256 % 256, qtype % 256, 0, 1]
  {
    QueryParts(id, name, qtype);
    assert Be16(0x0100) == [1, 0] && Be16(1) == [0, 1] && Be16(0) == [0, 0];
    hide WireName, BuildQuery;
  }

  /** The name of a built query is read back exactly when it is ASCII; other characters become question marks. */
  lemma QueryNameRoundTrip(id: nat, name: string, qtype: nat)
    requires BuildQuery(id, name, qtype).Some?
    ensures QueryName(BuildQuery(id, name, qtype).value) == Some(Kept(name))
    ensures QueryName(BuildQuery(id, name, qtype).value) == Some(name) <==> IsAscii(name)
  {
    QueryParts(id, name, qtype);
    hide Kept, WireName, Be16, BuildQuery;
    LabelsComeBack(Header(id, 0x0100, 1, 0), Split(name), Be16(qtype) + Be16(CLASS_IN));
    KeptJoins(name);
  }
}
