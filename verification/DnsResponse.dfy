/** Responses: built by the shield for a query, parsed by the relay for their addresses. */
module DnsResponse {
  import opened Bytes
  import opened Dns

  type Address = seq<byte>

  // ----- Building -----

  /** End of the question section: name, type and class; none if the name runs past the end. */
  function QuestionEnd(q: seq<byte>, pos: nat): Option<nat>
    decreases |q| - pos
  {
    if pos >= |q| then None
    else if q[pos] == 0 then Some(pos + 5)
    else QuestionEnd(q, pos + 1 + q[pos] as int)
  }

  method QuestionEndLoop(q: seq<byte>) returns (end: int)
    ensures end == match QuestionEnd(q, HEADER_LEN) case None => -1 case Some(e) => e
  {
    var pos: nat := HEADER_LEN;
    while pos < |q|
      invariant QuestionEnd(q, pos) == QuestionEnd(q, HEADER_LEN)
      decreases |q| - pos
    {
      if q[pos] == 0 {
        return pos + 5;
      }
      pos := pos + 1 + q[pos] as int;
    }
    return -1;
  }

  function V4(addrs: seq<Address>): (v: seq<Address>)
    ensures forall i :: 0 <= i < |v| ==> |v[i]| == 4
  {
    if addrs == [] then [] else (if |addrs[0]| == 4 then [addrs[0]] else []) + V4(addrs[1..])
  }

  /** Name pointer to offset 12, type A, class IN, time to live, length, address. */
  function ARecord(a: Address): seq<byte> {
    [0xC0, 0x0C] + Be16(TYPE_A) + Be16(CLASS_IN) + Be16(0) + Be16(TTL) + Be16(4) + a
  }

  function Records(v4: seq<Address>): seq<byte> {
    if v4 == [] then [] else ARecord(v4[0]) + Records(v4[1..])
  }

  function ResponseHeader(q: seq<byte>, answers: nat): (h: seq<byte>)
    ensures |h| == HEADER_LEN
  {
    (if |q| >= 2 then q[..2] else Be16(0)) + Be16(0x8180) + Be16(1) + Be16(answers) + Be16(0) + Be16(0)
  }

  /** The question of the query; a default one if it has none; none at all if it is cut off after its name. */
  function Question(q: seq<byte>): Option<seq<byte>> {
    match QuestionEnd(q, HEADER_LEN)
    case None => Some([0] + Be16(TYPE_A) + Be16(1))
    case Some(e) => if HEADER_LEN <= e <= |q| then Some(q[HEADER_LEN..e]) else None
  }

  function BuildResponse(q: seq<byte>, addrs: seq<Address>): Option<seq<byte>> {
    match Question(q)
    case None => None
    case Some(s) => Some(ResponseHeader(q, |V4(addrs)|) + s + Records(V4(addrs)))
  }

  method BuildResponseLoop(q: seq<byte>, addrs: seq<Address>) returns (out: Option<seq<byte>>)
    ensures out == BuildResponse(q, addrs)
  {
    hide Be16;
    var v4 := V4(addrs);
    var end := QuestionEndLoop(q);
    var b := ResponseHeader(q, |v4|);
    if end > HEADER_LEN {
      if end > |q| {
        return None;
      }
      b := b + q[HEADER_LEN..end];
    } else {
      QuestionEndIsPast(q, HEADER_LEN);
      b := b + ([0] + Be16(TYPE_A) + Be16(1));
    }
    hide ARecord;
    ghost var start := b;
    assert v4[0..] == v4;
    for i := 0 to |v4|
      invariant b + Records(v4[i..]) == start + Records(v4)
    {
      assert v4[i..][1..] == v4[i + 1..];
      b := b + ARecord(v4[i]);
    }
    assert v4[|v4|..] == [] && b + [] == b;
    out := Some(b);
  }

  lemma {:induction false} QuestionEndIsPast(q: seq<byte>, pos: nat)
    ensures QuestionEnd(q, pos).Some? ==> QuestionEnd(q, pos).value >= pos + 5
    decreases |q| - pos
  {
    if pos < |q| && q[pos] != 0 {
      QuestionEndIsPast(q, pos + 1 + q[pos] as int);
    }
  }

  // ----- Parsing -----

  datatype ParseError = Truncated | PastEnd | CutPointer

  /** The position after a name; a compression pointer ends it. */
  function SkipName(m: seq<byte>, pos: nat): (r: Result<nat, ParseError>)
    ensures r.Ok? ==> pos < r.value
    decreases |m| - pos
  {
    if pos >= |m| then Err(PastEnd)
    else if m[pos] == 0 then Ok(pos + 1)
    else if m[pos] >= 192 then (if pos + 1 >= |m| then Err(CutPointer) else Ok(pos + 2))
    else SkipName(m, pos + 1 + m[pos] as int)
  }

  method SkipNameLoop(m: seq<byte>, start: nat) returns (r: Result<nat, ParseError>)
    ensures r == SkipName(m, start)
  {
    var pos := start;
    while true
      invariant SkipName(m, pos) == SkipName(m, start)
      decreases |m| - pos
    {
      if pos >= |m| {
        return Err(PastEnd);
      }
      var len := m[pos] as int;
      if len == 0 {
        return Ok(pos + 1);
      }
      if len >= 192 {
        if pos + 1 >= |m| {
          return Err(CutPointer);
        }
        return Ok(pos + 2);
      }
      pos := pos + 1 + len;
    }
  }

  function U16At(m: seq<byte>, pos: nat): nat
    requires pos + 2 <= |m|
  {
    m[pos] as int * 256 + m[pos + 1]
  }

  function SkipQuestions(m: seq<byte>, pos: nat, n: nat): Result<nat, ParseError>
    decreases n
  {
    if n == 0 then Ok(pos)
    else
      match SkipName(m, pos)
      case Err(e) => Err(e)
      case Ok(p) => SkipQuestions(m, p + 4, n - 1)
  }

  /** The address of a record whose data starts at `pos`, if it is one that counts. */
  function AddressAt(m: seq<byte>, rtype: nat, len: nat, pos: nat): seq<Address> {
    if rtype == TYPE_A && len == 4 && pos + 4 <= |m| then [m[pos..pos + 4]]
    else if rtype == TYPE_AAAA && len == 16 && pos + 16 <= |m| then [m[pos..pos + 16]]
    else []
  }

  function ParseAnswers(m: seq<byte>, pos: nat, n: nat): Result<seq<Address>, ParseError>
    decreases n
  {
    if n == 0 || pos >= |m| then Ok([])
    else
      match SkipName(m, pos)
      case Err(e) => Err(e)
      case Ok(p) =>
        if p + 10 > |m| then Ok([])
        else
          match ParseAnswers(m, p + 10 + U16At(m, p + 8), n - 1)
          case Err(e) => Err(e)
          case Ok(rest) => Ok(AddressAt(m, U16At(m, p), U16At(m, p + 8), p + 10) + rest)
  }

  function ParseResponse(m: seq<byte>): Result<seq<Address>, ParseError> {
    if |m| < HEADER_LEN then Err(Truncated)
    else
      match SkipQuestions(m, HEADER_LEN, U16At(m, 4))
      case Err(e) => Err(e)
      case Ok(p) => ParseAnswers(m, p, U16At(m, 6))
  }

  method ParseResponseLoop(m: seq<byte>) returns (r: Result<seq<Address>, ParseError>)
    ensures r == ParseResponse(m)
  {
    hide AddressAt;
    if |m| < HEADER_LEN {
      return Err(Truncated);
    }
    var questions, answers := U16At(m, 4), U16At(m, 6);
    var pos: nat := HEADER_LEN;
    for i := 0 to questions
      invariant SkipQuestions(m, pos, questions - i) == SkipQuestions(m, HEADER_LEN, questions)
    {
      var p := SkipNameLoop(m, pos);
      if p.Err? {
        return Err(p.error);
      }
      pos := p.value + 4;
    }
    var addresses: seq<Address> := [];
    ghost var all := ParseAnswers(m, pos, answers);
    assert all.Ok? ==> [] + all.value == all.value;
    for i := 0 to answers
      invariant match ParseAnswers(m, pos, answers - i)
                case Err(e) => all == Err(e)
                case Ok(rest) => all == Ok(addresses + rest)
    {
      if pos >= |m| {
        assert addresses + [] == addresses;
        return Ok(addresses);
      }
      var p := SkipNameLoop(m, pos);
      if p.Err? {
        return Err(p.error);
      }
      pos := p.value;
      if pos + 10 > |m| {
        assert addresses + [] == addresses;
        return Ok(addresses);
      }
      var rtype := U16At(m, pos);
      pos := pos + 8;
      var rdLength := U16At(m, pos);
      pos := pos + 2;
      ghost var here := AddressAt(m, rtype, rdLength, pos);
      assert forall rest: seq<Address> :: addresses + (here + rest) == addresses + here + rest;
      addresses := addresses + AddressAt(m, rtype, rdLength, pos);
      pos := pos + rdLength;
    }
    assert addresses + [] == addresses;
    return Ok(addresses);
  }

  // ----- The round trip -----

  lemma {:induction false} SkipsWireName(pre: seq<byte>, ls: seq<string>, post: seq<byte>)
    requires GoodLabels(ls)
    ensures SkipName(pre + WireName(ls) + post, |pre|) == Ok(|pre| + |WireName(ls)|)
    ensures QuestionEnd(pre + WireName(ls) + post, |pre|) == Some(|pre| + |WireName(ls)| + 4)
    decreases |ls|
  {
    var q := pre + WireName(ls) + post;
    if ls == [] {
      assert q[|pre|] == 0;
    } else {
      var n := |ls[0]|;
      var pre1 := pre + [n] + ToAscii(ls[0]);
      assert q == pre1 + WireName(ls[1..]) + post;
      assert q[|pre|] == n;
      SkipsWireName(pre1, ls[1..], post);
    }
  }

  /** One record at the end of `pre` is skipped over and gives its address. */
  lemma RecordParses(pre: seq<byte>, a: Address, post: seq<byte>)
    requires |a| == 4
    ensures var m := pre + ARecord(a) + post; var p := |pre| + 2;
            && SkipName(m, |pre|) == Ok(p) && p + 10 <= |m|
            && U16At(m, p) == TYPE_A && U16At(m, p + 8) == 4
            && AddressAt(m, TYPE_A, 4, p + 10) == [a] && p + 14 == |pre + ARecord(a)|
  {
    var m, p := pre + ARecord(a) + post, |pre| + 2;
    assert ARecord(a) == [0xC0, 0x0C, 0, 1, 0, 1, 0, 0, 0, 60, 0, 4] + a;
    assert m[|pre|] == 0xC0 && m[p] == 0 && m[p + 1] == 1 && m[p + 8] == 0 && m[p + 9] == 4;
    assert m[p + 10..p + 14] == a;
  }

  lemma AnswerStep(m: seq<byte>, pos: nat, p: nat, n: nat, rest: seq<Address>)
    requires n > 0 && pos < |m| && SkipName(m, pos) == Ok(p) && p + 10 <= |m|
    requires ParseAnswers(m, p + 10 + U16At(m, p + 8), n - 1) == Ok(rest)
    ensures ParseAnswers(m, pos, n) == Ok(AddressAt(m, U16At(m, p), U16At(m, p + 8), p + 10) + rest)
  {
    hide SkipName, AddressAt, U16At;
  }

  lemma RecordStep(pre: seq<byte>, a: Address, post: seq<byte>, n: nat, rest: seq<Address>)
    requires |a| == 4 && 0 < n && ParseAnswers(pre + ARecord(a) + post, |pre + ARecord(a)|, n - 1) == Ok(rest)
    ensures ParseAnswers(pre + ARecord(a) + post, |pre|, n) == Ok([a] + rest)
  {
    RecordParses(pre, a, post);
    hide ARecord, AddressAt, U16At, SkipName, ParseAnswers;
    AnswerStep(pre + ARecord(a) + post, |pre|, |pre| + 2, n, rest);
  }

  lemma {:induction false} RecordsParse(pre: seq<byte>, v4: seq<Address>, n: nat)
    requires n <= |v4| && forall i :: 0 <= i < |v4| ==> |v4[i]| == 4
    ensures ParseAnswers(pre + Records(v4), |pre|, n) == Ok(v4[..n])
    decreases n
  {
    if n > 0 {
      var a, rest := v4[0], v4[1..];
      assert Records(v4) == ARecord(a) + Records(rest);
      hide Records, ARecord, ParseAnswers;
      ConcatAssoc(pre, ARecord(a), Records(rest));
      TakeCons(v4, n);
      RecordsParse(pre + ARecord(a), rest, n - 1);
      RecordStep(pre, a, Records(rest), n, rest[..n - 1]);
    }
  }

  lemma U16OfBe16(pre: seq<byte>, v: nat, post: seq<byte>)
    ensures U16At(pre + Be16(v) + post, |pre|) == v % U16
  {
    Be16RoundTrip(v);
    var m := pre + Be16(v) + post;
    assert m[|pre|] == Be16(v)[0] && m[|pre| + 1] == Be16(v)[1];
  }

  /** The response to a built query: new header, same question, one record per address. */
  lemma ResponseParts(id: nat, name: string, qtype: nat, addrs: seq<Address>)
    requires BuildQuery(id, name, qtype).Some?
    ensures var q := BuildQuery(id, name, qtype).value; var s := WireName(Split(name)) + Be16(qtype) + Be16(CLASS_IN);
            BuildResponse(q, addrs) == Some(ResponseHeader(q, |V4(addrs)|) + s + Records(V4(addrs)))
  {
    QueryParts(id, name, qtype);
    var q, h, w := BuildQuery(id, name, qtype).value, Header(id, 0x0100, 1, 0), WireName(Split(name));
    var t := Be16(qtype) + Be16(CLASS_IN);
    SkipsWireName(h, Split(name), t);
    hide WireName, BuildQuery, QuestionEnd, Be16, Header, ResponseHeader, V4, Records;
    assert q == h + w + t && |q| == HEADER_LEN + |w| + 4;
    assert q[HEADER_LEN..|q|] == w + t;
    assert w + t == w + Be16(qtype) + Be16(CLASS_IN);
  }

  lemma HeaderCounts(q: seq<byte>, n: nat, rest: seq<byte>)
    ensures var m := ResponseHeader(q, n) + rest; U16At(m, 4) == 1 && U16At(m, 6) == n % U16
  {
    var id := if |q| >= 2 then q[..2] else Be16(0);
    var m := ResponseHeader(q, n) + rest;
    assert m == (id + Be16(0x8180)) + Be16(1) + (Be16(n) + Be16(0) + Be16(0) + rest);
    U16OfBe16(id + Be16(0x8180), 1, Be16(n) + Be16(0) + Be16(0) + rest);
    assert m == (id + Be16(0x8180) + Be16(1)) + Be16(n) + (Be16(0) + Be16(0) + rest);
    U16OfBe16(id + Be16(0x8180) + Be16(1), n, Be16(0) + Be16(0) + rest);
  }

  lemma OneQuestion(m: seq<byte>, p: nat)
    requires SkipName(m, HEADER_LEN) == Ok(p)
    ensures SkipQuestions(m, HEADER_LEN, 1) == Ok(p + 4)
  {
    assert SkipQuestions(m, p + 4, 0) == Ok(p + 4);
  }

  /** A message of header, one question and records parses to as many addresses as the count says. */
  lemma MessageParses(h: seq<byte>, q: seq<byte>, ls: seq<string>, t: seq<byte>, v4: seq<Address>)
    requires GoodLabels(ls) && |t| == 4 && h == ResponseHeader(q, |v4|) && forall i :: 0 <= i < |v4| ==> |v4[i]| == 4
    ensures ParseResponse(h + (WireName(ls) + t) + Records(v4)) == Ok(v4[..|v4| % U16])
    ensures QueryName(h + (WireName(ls) + t) + Records(v4)) == QueryName(h + WireName(ls) + t)
  {
    hide WireName, ResponseHeader, Be16, ParseAnswers, SkipName, SkipQuestions, U16At, LabelsAt, QuestionEnd, Records, Join, KeptAll;
    var w, r := WireName(ls), Records(v4);
    var m := h + (w + t) + r;
    assert m == h + (w + t + r) && m == h + w + (t + r);
    HeaderCounts(q, |v4|, w + t + r);
    SkipsWireName(h, ls, t + r);
    OneQuestion(m, HEADER_LEN + |w|);
    assert |h + (w + t)| == HEADER_LEN + |w| + 4;
    RecordsParse(h + (w + t), v4, |v4| % U16);
    LabelsComeBack(h, ls, t + r);
    LabelsComeBack(h, ls, t);
  }

  /** Neither what precedes the name nor what follows it changes the name that is read. */
  lemma SameName(h: seq<byte>, g: seq<byte>, ls: seq<string>, t: seq<byte>)
    requires GoodLabels(ls) && |h| == |g| == HEADER_LEN
    ensures QueryName(h + WireName(ls) + t) == QueryName(g + WireName(ls) + t)
  {
    hide WireName, LabelsAt, Join, KeptAll;
    LabelsComeBack(h, ls, t);
    LabelsComeBack(g, ls, t);
  }

  lemma CountExact(v4: seq<Address>)
    ensures |v4| % U16 <= |v4| && (v4[..|v4| % U16] == v4 <==> |v4| <= 65535)
  {
    if |v4| <= 65535 {
      assert v4[..|v4|] == v4;
    }
  }

  /** The response to a built query, cut into the parts it was put together from. */
  lemma ResponseShape(id: nat, name: string, qtype: nat, addrs: seq<Address>)
    returns (h: seq<byte>, g: seq<byte>, ls: seq<string>, t: seq<byte>)
    requires BuildQuery(id, name, qtype).Some?
    ensures GoodLabels(ls) && |t| == 4 && |h| == |g| == HEADER_LEN
    ensures h == ResponseHeader(BuildQuery(id, name, qtype).value, |V4(addrs)|)
    ensures BuildQuery(id, name, qtype).value == g + WireName(ls) + t
    ensures BuildResponse(BuildQuery(id, name, qtype).value, addrs) == Some(h + (WireName(ls) + t) + Records(V4(addrs)))
  {
    assert GoodLabels(Split(name));
    ResponseParts(id, name, qtype, addrs);
    QueryParts(id, name, qtype);
    hide Split, WireName, BuildQuery, BuildResponse, ResponseHeader, Header, Records, V4, Be16;
    t := Be16(qtype) + Be16(CLASS_IN);
    h, g, ls := ResponseHeader(BuildQuery(id, name, qtype).value, |V4(addrs)|), Header(id, 0x0100, 1, 0), Split(name);
    assert WireName(ls) + Be16(qtype) + Be16(CLASS_IN) == WireName(ls) + t;
  }

  /**
   * The relay reads back the IPv4 addresses the shield put into its response to a query, in order: as
   * many as the 16-bit answer count says, which is all of them exactly if there are at most 65535.
   */
  lemma {:induction false} ResponseRoundTrip(id: nat, name: string, qtype: nat, addrs: seq<Address>)
    requires BuildQuery(id, name, qtype).Some?
    ensures var q := BuildQuery(id, name, qtype).value; var v4 := V4(addrs); var r := BuildResponse(q, addrs);
            && r.Some?
            && |v4| % U16 <= |v4| && ParseResponse(r.value) == Ok(v4[..|v4| % U16])
            && (ParseResponse(r.value) == Ok(v4) <==> |v4| <= 65535)
            && QueryName(r.value) == QueryName(q)
  {
    hide WireName, BuildQuery, BuildResponse, ResponseHeader, Records, ParseResponse, V4, QueryName;
    var q, v4 := BuildQuery(id, name, qtype).value, V4(addrs);
    var h, g, ls, t := ResponseShape(id, name, qtype, addrs);
    CountExact(v4);
    MessageParses(h, q, ls, t, v4);
    SameName(h, g, ls, t);
  }
}
