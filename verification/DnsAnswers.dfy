/**
 * Responses as other servers send them: resource records of any type (section 4.1.3 of RFC 1035), with
 * names in full or compressed (section 4.1.4), and what the relay takes from them.
 */
module DnsAnswers {
  import opened Bytes
  import opened Dns
  import opened DnsResponse

  /** A name: labels, then the root or a pointer to an earlier name. */
  datatype Name = Name(labels: seq<seq<byte>>, pointer: Option<nat>)

  datatype Record = Record(owner: Name, rtype: nat, rclass: nat, ttl: nat, rdata: seq<byte>)

  predicate GoodName(n: Name) {
    && (forall i :: 0 <= i < |n.labels| ==> 1 <= |n.labels[i]| < 192)
    && (n.pointer.Some? ==> n.pointer.value < 0x4000)
  }

  predicate GoodRecord(r: Record) {
    GoodName(r.owner) && r.rtype < U16 && |r.rdata| < U16
  }

  predicate GoodRecords(rs: seq<Record>) {
    forall i :: 0 <= i < |rs| ==> GoodRecord(rs[i])
  }

  function NameBytes(n: Name): (b: seq<byte>)
    requires GoodName(n)
    ensures |b| > 0
    decreases |n.labels|
  {
    if n.labels != [] then [|n.labels[0]|] + n.labels[0] + NameBytes(n.(labels := n.labels[1..]))
    else if n.pointer.None? then [0]
    else [192 + n.pointer.value / 256, n.pointer.value % 256]
  }

  /** What follows the owner's name. */
  function Fixed(r: Record): (b: seq<byte>)
    ensures |b| == 10 + |r.rdata|
  {
    Be16(r.rtype) + Be16(r.rclass) + Be32(r.ttl) + Be16(|r.rdata|) + r.rdata
  }

  function RecordBytes(r: Record): seq<byte>
    requires GoodRecord(r)
  {
    NameBytes(r.owner) + Fixed(r)
  }

  function AllBytes(rs: seq<Record>): seq<byte>
    requires GoodRecords(rs)
  {
    if rs == [] then [] else RecordBytes(rs[0]) + AllBytes(rs[1..])
  }

  /** What one record is worth: the data of an address record. */
  function Taken(r: Record): seq<Address> {
    if (r.rtype == 1 && |r.rdata| == 4) || (r.rtype == 28 && |r.rdata| == 16) then [r.rdata] else []
  }

  /** The data of the IPv4 and IPv6 address records, in order. */
  function Addresses(rs: seq<Record>): seq<Address> {
    if rs == [] then []
    else Taken(rs[0]) + Addresses(rs[1..])
  }

  // ----- Pieces of a message -----

  /** The message has these bytes at this position. */
  predicate At(m: seq<byte>, pos: nat, b: seq<byte>) {
    pos + |b| <= |m| && m[pos..pos + |b|] == b
  }

  lemma AtSplits(m: seq<byte>, pos: nat, b: seq<byte>, c: seq<byte>)
    requires At(m, pos, b + c)
    ensures At(m, pos, b) && At(m, pos + |b|, c)
  {
    var w := m[pos..pos + |b + c|];
    assert w[..|b|] == b && w[|b|..] == c;
    assert m[pos..pos + |b|] == w[..|b|] && m[pos + |b|..pos + |b| + |c|] == w[|b|..];
  }

  lemma AtByte(m: seq<byte>, pos: nat, b: seq<byte>, i: nat)
    requires At(m, pos, b) && i < |b|
    ensures m[pos + i] == b[i]
  {
    assert m[pos..pos + |b|][i] == b[i];
  }

  lemma AtWord(m: seq<byte>, pos: nat, v: nat)
    requires At(m, pos, Be16(v)) && v < U16
    ensures U16At(m, pos) == v
  {
    AtByte(m, pos, Be16(v), 0);
    AtByte(m, pos, Be16(v), 1);
    Be16RoundTrip(v);
  }

  lemma {:induction false} SkipsName(m: seq<byte>, pos: nat, n: Name)
    requires GoodName(n) && At(m, pos, NameBytes(n))
    ensures SkipName(m, pos) == Ok(pos + |NameBytes(n)|)
    decreases |n.labels|
  {
    AtByte(m, pos, NameBytes(n), 0);
    if n.labels != [] {
      var l, rest := n.labels[0], n.(labels := n.labels[1..]);
      AtSplits(m, pos, [|l|] + l, NameBytes(rest));
      SkipsName(m, pos + 1 + |l|, rest);
      hide At, NameBytes;
    }
  }

  /** The fields of a record behind its owner's name. */
  lemma FieldsRead(m: seq<byte>, p: nat, r: Record)
    requires r.rtype < U16 && |r.rdata| < U16 && At(m, p, Fixed(r))
    ensures p + 10 + |r.rdata| <= |m| && U16At(m, p) == r.rtype && U16At(m, p + 8) == |r.rdata|
    ensures m[p + 10..p + 10 + |r.rdata|] == r.rdata
  {
    var a, b, c, d := Be16(r.rtype), Be16(r.rclass), Be32(r.ttl), Be16(|r.rdata|);
    hide Be16, Be32;
    AtSplits(m, p, a + b + c + d, r.rdata);
    AtSplits(m, p, a + b + c, d);
    AtSplits(m, p, a + b, c);
    AtSplits(m, p, a, b);
    AtWord(m, p, r.rtype);
    AtWord(m, p + 8, |r.rdata|);
    hide U16At;
  }

  /** They say whether the record is taken. */
  lemma FieldsTaken(m: seq<byte>, p: nat, r: Record)
    requires r.rtype < U16 && |r.rdata| < U16 && At(m, p, Fixed(r))
    ensures p + 10 <= |m| && U16At(m, p + 8) == |r.rdata|
    ensures AddressAt(m, U16At(m, p), U16At(m, p + 8), p + 10) == Taken(r)
  {
    FieldsRead(m, p, r);
    hide At, Fixed, U16At;
  }

  lemma NameThenFields(m: seq<byte>, pos: nat, r: Record)
    requires GoodRecord(r) && At(m, pos, RecordBytes(r))
    ensures var p := pos + |NameBytes(r.owner)|;
            SkipName(m, pos) == Ok(p) && At(m, p, Fixed(r)) && p + 10 + |r.rdata| == pos + |RecordBytes(r)|
  {
    AtSplits(m, pos, NameBytes(r.owner), Fixed(r));
    SkipsName(m, pos, r.owner);
    hide NameBytes, Fixed, SkipName, At;
  }

  /** `more` is what the parser makes of the rest. */
  function Joined(taken: seq<Address>, more: Result<seq<Address>, ParseError>): Result<seq<Address>, ParseError> {
    match more
    case Err(e) => Err(e)
    case Ok(rest) => Ok(taken + rest)
  }

  lemma AnswerTaken(m: seq<byte>, pos: nat, p: nat, n: nat, taken: seq<Address>, more: Result<seq<Address>, ParseError>)
    requires 0 < n && pos < p && pos < |m| && p + 10 <= |m| && SkipName(m, pos) == Ok(p)
    requires AddressAt(m, U16At(m, p), U16At(m, p + 8), p + 10) == taken
    requires ParseAnswers(m, p + 10 + U16At(m, p + 8), n - 1) == more
    ensures ParseAnswers(m, pos, n) == Joined(taken, more)
  {
    hide SkipName, AddressAt, U16At;
  }

  /** One record is read, and taken exactly if it is an address. */
  lemma RecordRead(m: seq<byte>, pos: nat, r: Record, n: nat)
    requires GoodRecord(r) && 0 < n && At(m, pos, RecordBytes(r))
    ensures ParseAnswers(m, pos, n) == Joined(Taken(r), ParseAnswers(m, pos + |RecordBytes(r)|, n - 1))
  {
    var p := pos + |NameBytes(r.owner)|;
    NameThenFields(m, pos, r);
    hide NameBytes, RecordBytes, Fixed, Taken, At, SkipName, AddressAt, U16At, ParseAnswers, Joined;
    FieldsTaken(m, p, r);
    AnswerTaken(m, pos, p, n, Taken(r), ParseAnswers(m, pos + |RecordBytes(r)|, n - 1));
  }

  lemma JoinedTwice(a: seq<Address>, b: seq<Address>, more: Result<seq<Address>, ParseError>)
    ensures Joined(a, Joined(b, more)) == Joined(a + b, more)
  {
    if more.Ok? {
      assert a + (b + more.value) == a + b + more.value;
    }
  }

  lemma FirstAndRest(rs: seq<Record>)
    requires GoodRecords(rs) && rs != []
    ensures GoodRecord(rs[0]) && GoodRecords(rs[1..])
    ensures AllBytes(rs) == RecordBytes(rs[0]) + AllBytes(rs[1..]) && Addresses(rs) == Taken(rs[0]) + Addresses(rs[1..])
  {
    hide RecordBytes, Taken, GoodRecord;
  }

  lemma NoRecords(more: Result<seq<Address>, ParseError>)
    ensures AllBytes([]) == [] && Addresses([]) == [] && Joined([], more) == more
  {
    assert more.Ok? ==> [] + more.value == more.value;
  }

  /** Records are read one after the other, whatever follows them. */
  lemma {:induction false} AnswersRead(m: seq<byte>, pos: nat, rs: seq<Record>, n: nat)
    requires GoodRecords(rs) && At(m, pos, AllBytes(rs)) && |rs| <= n
    ensures ParseAnswers(m, pos, n) == Joined(Addresses(rs), ParseAnswers(m, pos + |AllBytes(rs)|, n - |rs|))
    decreases |rs|
  {
    hide *;
    var more := ParseAnswers(m, pos + |AllBytes(rs)|, n - |rs|);
    if rs == [] {
      NoRecords(more);
    } else {
      var r, rest := rs[0], rs[1..];
      FirstAndRest(rs);
      AtSplits(m, pos, RecordBytes(r), AllBytes(rest));
      AnswersRead(m, pos + |RecordBytes(r)|, rest, n - 1);
      RecordRead(m, pos, r, n);
      JoinedTwice(Taken(r), Addresses(rest), more);
    }
  }

  /** Everything before the answers: header, name, type and class of the question. */
  predicate IsFront(front: seq<byte>, h: seq<byte>, asked: Name, t: seq<byte>, answers: nat) {
    && |h| == 12 && h[4] == 0 && h[5] == 1 && h[6] as int * 256 + h[7] == answers
    && GoodName(asked) && |t| == 4 && front == h + NameBytes(asked) + t
  }

  /** The answers begin behind the question. */
  lemma BeginsBehindQuestion(front: seq<byte>, h: seq<byte>, asked: Name, t: seq<byte>, answers: nat, post: seq<byte>)
    requires IsFront(front, h, asked, t, answers)
    ensures ParseResponse(front + post) == ParseAnswers(front + post, |front|, answers)
  {
    var q, m := NameBytes(asked), front + post;
    assert At(m, 12, q);
    assert m[4] == h[4] && m[5] == h[5] && m[6] == h[6] && m[7] == h[7];
    hide NameBytes, At;
    SkipsName(m, 12, asked);
    OneQuestion(m, 12 + |q|);
    hide SkipName, ParseAnswers, SkipQuestions;
  }

  lemma Placed(front: seq<byte>, b: seq<byte>, post: seq<byte>)
    ensures var m := front + (b + post); At(m, |front|, b) && m[|front| + |b|..] == post
  {
  }

  lemma NoneLeft(m: seq<byte>, pos: nat, taken: seq<Address>)
    ensures Joined(taken, ParseAnswers(m, pos, 0)) == Ok(taken) == Joined(taken, Ok([]))
  {
    assert taken + [] == taken;
  }

  /**
   * From a response with one question and any list of records the relay takes exactly the data of the
   * address records: type 1 with four bytes and type 28 with sixteen, in order. All others are skipped,
   * and so is whatever follows the answers.
   */
  lemma {:induction false} ResponseRead(front: seq<byte>, h: seq<byte>, asked: Name, t: seq<byte>, rs: seq<Record>, post: seq<byte>)
    requires IsFront(front, h, asked, t, |rs|) && GoodRecords(rs)
    ensures ParseResponse(front + (AllBytes(rs) + post)) == Ok(Addresses(rs))
  {
    hide *;
    var all := AllBytes(rs);
    BeginsBehindQuestion(front, h, asked, t, |rs|, all + post);
    Placed(front, all, post);
    var m := front + (all + post);
    AnswersRead(m, |front|, rs, |rs|);
    NoneLeft(m, |front| + |all|, Addresses(rs));
  }

  // ----- Responses that are cut off -----

  lemma {:induction false} CutName(m: seq<byte>, pos: nat, n: Name)
    requires GoodName(n) && pos <= |m| < pos + |NameBytes(n)| && m[pos..] == NameBytes(n)[..|m| - pos]
    ensures SkipName(m, pos).Err?
    decreases |n.labels|
  {
    if pos < |m| {
      assert m[pos] == m[pos..][0] == NameBytes(n)[0];
      if n.labels != [] {
        var l, rest := n.labels[0], n.(labels := n.labels[1..]);
        var next := pos + 1 + |l|;
        if next < |m| {
          assert m[next..] == m[pos..][1 + |l|..];
          assert NameBytes(n)[1 + |l|..] == NameBytes(rest);
          assert NameBytes(n)[..|m| - pos][1 + |l|..] == NameBytes(n)[1 + |l|..][..|m| - next];
          CutName(m, next, rest);
        }
      }
    }
  }

  /** A record cut off inside its owner's name makes the parser fail; cut off later it is left out. */
  lemma CutRecord(m: seq<byte>, pos: nat, r: Record, n: nat)
    requires GoodRecord(r) && 0 < n && pos <= |m| < pos + |RecordBytes(r)| && m[pos..] == RecordBytes(r)[..|m| - pos]
    ensures if pos < |m| < pos + |NameBytes(r.owner)| then ParseAnswers(m, pos, n).Err? else ParseAnswers(m, pos, n) == Ok([])
  {
    var k, name := |m| - pos, NameBytes(r.owner);
    if 0 < k < |name| {
      assert RecordBytes(r)[..k] == name[..k];
      CutName(m, pos, r.owner);
    } else if |name| <= k {
      var p := pos + |name|;
      assert m[pos..p] == m[pos..][..|name|] == RecordBytes(r)[..|name|] == name;
      SkipsName(m, pos, r.owner);
      assert m[p..] == m[pos..][|name|..] && RecordBytes(r)[..k][|name|..] == Fixed(r)[..|m| - p];
      if p + 10 <= |m| {
        CutData(m, p, pos, r, n);
      }
    }
  }

  /** The fields can be read if only data is missing. */
  lemma FieldsOfCut(m: seq<byte>, p: nat, r: Record)
    requires r.rtype < U16 && |r.rdata| < U16
    requires p + 10 <= |m| < p + 10 + |r.rdata| && m[p..] == Fixed(r)[..|m| - p]
    ensures U16At(m, p) == r.rtype && U16At(m, p + 8) == |r.rdata|
  {
    var b := Fixed(r);
    hide Fixed;
    var whole := m + b[|m| - p..];
    assert whole[p..p + |b|] == m[p..] + b[|m| - p..] == b;
    FieldsRead(whole, p, r);
    assert whole[p] == m[p] && whole[p + 1] == m[p + 1] && whole[p + 8] == m[p + 8] && whole[p + 9] == m[p + 9];
  }

  lemma CutData(m: seq<byte>, p: nat, pos: nat, r: Record, n: nat)
    requires r.rtype < U16 && |r.rdata| < U16 && 0 < n && pos < p
    requires p + 10 <= |m| < p + 10 + |r.rdata| && m[p..] == Fixed(r)[..|m| - p] && SkipName(m, pos) == Ok(p)
    ensures ParseAnswers(m, pos, n) == Ok([])
  {
    FieldsOfCut(m, p, r);
    hide Fixed, U16At, SkipName;
    var end := p + 10 + |r.rdata|;
    assert AddressAt(m, r.rtype, |r.rdata|, p + 10) == [];
    hide AddressAt;
    assert ParseAnswers(m, end, n - 1) == Ok([]);
    AnswerTaken(m, pos, p, n, [], Ok([]));
    NoneLeft(m, end, []);
    hide ParseAnswers, Joined;
  }

  /**
   * A response cut off inside a record gives the addresses of the records before it, unless the cut is inside
   * that record's name; then the relay gets nothing at all.
   */
  lemma {:induction false} CutResponseRead(
    front: seq<byte>, h: seq<byte>, asked: Name, t: seq<byte>, rs: seq<Record>, r: Record, k: nat, n: nat)
    requires IsFront(front, h, asked, t, n) && |rs| < n && GoodRecords(rs) && GoodRecord(r) && k < |RecordBytes(r)|
    ensures var answer := ParseResponse(front + (AllBytes(rs) + RecordBytes(r)[..k]));
            if 0 < k < |NameBytes(r.owner)| then answer.Err? else answer == Ok(Addresses(rs))
  {
    hide *;
    var all, cut := AllBytes(rs), RecordBytes(r)[..k];
    BeginsBehindQuestion(front, h, asked, t, n, all + cut);
    Placed(front, all, cut);
    var m := front + (all + cut);
    AnswersRead(m, |front|, rs, n);
    CutRecord(m, |front| + |all|, r, n - |rs|);
    NoneLeft(m, |m|, Addresses(rs));
    JoinedErr(Addresses(rs), ParseAnswers(m, |front| + |all|, n - |rs|));
  }

  lemma JoinedErr(taken: seq<Address>, more: Result<seq<Address>, ParseError>)
    ensures Joined(taken, more).Err? <==> more.Err?
  {
  }

  // ----- The shield's own response -----

  /** An IPv4 address of the name asked for, good for a minute. */
  function Answer(a: Address): Record {
    Record(Name([], Some(12)), 1, 1, 60, a)
  }

  /** One answer for each address of four bytes, in order. */
  function Answers(addrs: seq<Address>): (rs: seq<Record>)
    ensures GoodRecords(rs)
  {
    if addrs == [] then []
    else (if |addrs[0]| == 4 then [Answer(addrs[0])] else []) + Answers(addrs[1..])
  }

  lemma AnswerBytes(a: Address)
    requires |a| == 4
    ensures RecordBytes(Answer(a)) == ARecord(a)
  {
    assert NameBytes(Name([], Some(12))) == [0xC0, 0x0C];
    assert Be32(60) == Be16(0) + Be16(60);
    hide NameBytes, Be16, Be32;
  }

  lemma AllBytesCons(r: Record, rs: seq<Record>)
    requires GoodRecord(r) && GoodRecords(rs)
    ensures GoodRecords([r] + rs) && AllBytes([r] + rs) == RecordBytes(r) + AllBytes(rs)
  {
    assert ([r] + rs)[1..] == rs;
    hide RecordBytes, GoodRecord;
  }

  lemma {:induction false} RecordsAreAnswers(addrs: seq<Address>)
    ensures Records(V4(addrs)) == AllBytes(Answers(addrs)) && |V4(addrs)| == |Answers(addrs)|
  {
    if addrs != [] {
      var rest := addrs[1..];
      RecordsAreAnswers(rest);
      if |addrs[0]| == 4 {
        AnswerBytes(addrs[0]);
        AllBytesCons(Answer(addrs[0]), Answers(rest));
        hide AllBytes, RecordBytes, ARecord, Answer;
        assert V4(addrs)[1..] == V4(rest);
      } else {
        assert [] + Answers(rest) == Answers(rest) && [] + V4(rest) == V4(rest);
      }
    }
  }

  lemma {:induction false} EndOfQuestion(q: seq<byte>, pos: nat, n: Name)
    requires GoodName(n) && n.pointer.None? && At(q, pos, NameBytes(n))
    ensures QuestionEnd(q, pos) == Some(pos + |NameBytes(n)| + 4)
    decreases |n.labels|
  {
    AtByte(q, pos, NameBytes(n), 0);
    if n.labels != [] {
      var l, rest := n.labels[0], n.(labels := n.labels[1..]);
      AtSplits(q, pos, [|l|] + l, NameBytes(rest));
      EndOfQuestion(q, pos + 1 + |l|, rest);
      hide At, NameBytes;
    }
  }

  /** The id of a query, or zero if it is too short to have one. */
  function IdBytes(q: seq<byte>): seq<byte> {
    if |q| >= 2 then q[..2] else [0, 0]
  }

  /** A response: the id, the flags of an answer without error, one question, as many answers as there are. */
  function Reply(q: seq<byte>, question: seq<byte>, rs: seq<Record>): seq<byte>
    requires GoodRecords(rs)
  {
    IdBytes(q) + [0x81, 0x80, 0, 1] + Be16(|rs|) + [0, 0, 0, 0] + question + AllBytes(rs)
  }

  lemma ReplyTo(q: seq<byte>, addrs: seq<Address>, question: seq<byte>)
    requires Question(q) == Some(question)
    ensures BuildResponse(q, addrs) == Some(Reply(q, question, Answers(addrs)))
  {
    RecordsAreAnswers(addrs);
    var rs := Answers(addrs);
    assert Be16(0x8180) == [0x81, 0x80] && Be16(1) == [0, 1] && Be16(0) == [0, 0];
    hide Be16, Question, Records, V4, AllBytes, Answers;
    assert ResponseHeader(q, |rs|) == IdBytes(q) + [0x81, 0x80, 0, 1] + Be16(|rs|) + [0, 0, 0, 0];
    hide ResponseHeader, IdBytes;
  }

  /**
   * The shield's response to a query with a question: the question comes back as it was, and there is one
   * answer for each IPv4 address. There is no response exactly if type and class are cut off.
   */
  lemma ShieldResponse(h: seq<byte>, n: Name, rest: seq<byte>, addrs: seq<Address>)
    requires |h| == 12 && GoodName(n) && n.pointer.None?
    ensures var q := h + NameBytes(n) + rest;
            BuildResponse(q, addrs)
            == if |rest| < 4 then None else Some(Reply(q, NameBytes(n) + rest[..4], Answers(addrs)))
  {
    var b := NameBytes(n);
    var q := h + b + rest;
    assert At(q, 12, b);
    hide NameBytes, Answers;
    EndOfQuestion(q, 12, n);
    hide At, QuestionEnd;
    if |rest| >= 4 {
      assert q[12..12 + |b| + 4] == b + rest[..4];
      ReplyTo(q, addrs, b + rest[..4]);
    }
    hide Reply, Records, ResponseHeader, V4;
  }

  /** A message that ends with its header is answered as if it had asked for the root's address. */
  lemma ShieldResponseToHeader(q: seq<byte>, addrs: seq<Address>)
    requires |q| <= 12
    ensures BuildResponse(q, addrs) == Some(Reply(q, [0, 0, 1, 0, 1], Answers(addrs)))
  {
    assert [0] + Be16(TYPE_A) + Be16(1) == [0, 0, 1, 0, 1];
    ReplyTo(q, addrs, [0, 0, 1, 0, 1]);
    hide BuildResponse;
  }

  // ----- The name asked for -----

  /** Labels of a plain name, none of them longer than 63 bytes. */
  predicate Plain(n: Name) {
    n.pointer.None? && forall i :: 0 <= i < |n.labels| ==> 1 <= |n.labels[i]| <= 63
  }

  function Texts(ls: seq<seq<byte>>): (ts: seq<string>)
    ensures |ts| == |ls|
  {
    if ls == [] then [] else [FromAscii(ls[0])] + Texts(ls[1..])
  }

  lemma {:induction false} PlainIsRead(q: seq<byte>, pos: nat, n: Name)
    requires Plain(n) && At(q, pos, NameBytes(n))
    ensures LabelsAt(q, pos) == Some(Texts(n.labels))
    decreases |n.labels|
  {
    AtByte(q, pos, NameBytes(n), 0);
    if n.labels != [] {
      var l, rest := n.labels[0], n.(labels := n.labels[1..]);
      AtSplits(q, pos, [|l|] + l, NameBytes(rest));
      AtSplits(q, pos, [|l|], l);
      PlainIsRead(q, pos + 1 + |l|, rest);
      hide NameBytes;
    }
  }

  /** A length, that many bytes, and then the rest. */
  lemma AtJoins(q: seq<byte>, pos: nat, l: seq<byte>, b: seq<byte>)
    requires pos < |q| && q[pos] as int == |l| && At(q, pos + 1, l) && At(q, pos + 1 + |l|, b)
    ensures |l| < 256 && At(q, pos, [|l|] + l + b)
  {
    assert q[pos..pos + 1 + |l| + |b|] == [q[pos]] + q[pos + 1..pos + 1 + |l|] + q[pos + 1 + |l|..pos + 1 + |l| + |b|];
  }

  lemma PlainCons(l: seq<byte>, n: Name)
    requires Plain(n) && 1 <= |l| <= 63
    ensures var m := n.(labels := [l] + n.labels); Plain(m) && NameBytes(m) == [|l|] + l + NameBytes(n)
  {
    var m := n.(labels := [l] + n.labels);
    assert m.labels[1..] == n.labels && m.(labels := m.labels[1..]) == n;
  }

  lemma {:induction false} ReadIsPlain(q: seq<byte>, pos: nat) returns (n: Name)
    requires LabelsAt(q, pos).Some?
    ensures Plain(n) && At(q, pos, NameBytes(n))
    decreases |q| - pos
  {
    if q[pos] == 0 {
      n := Name([], None);
    } else {
      var l := q[pos + 1..pos + 1 + q[pos] as int];
      assert LabelsAt(q, pos + 1 + |l|).Some? && 1 <= |l| <= 63 && At(q, pos + 1, l);
      hide LabelsAt, NameBytes, At, Plain, GoodName;
      var rest := ReadIsPlain(q, pos + 1 + |l|);
      PlainCons(l, rest);
      AtJoins(q, pos, l, NameBytes(rest));
      n := rest.(labels := [l] + rest.labels);
    }
  }

  /**
   * A query has a name exactly when a plain name of at least one label stands behind its header, and then
   * the name is its labels, as text, joined by dots.
   */
  lemma QueryNameExact(q: seq<byte>)
    ensures QueryName(q).Some? <==> exists n :: Plain(n) && n.labels != [] && At(q, 12, NameBytes(n))
    ensures forall n :: Plain(n) && n.labels != [] && At(q, 12, NameBytes(n)) ==> QueryName(q) == Some(Join(Texts(n.labels)))
  {
    hide NameBytes, Join, LabelsAt;
    forall n | Plain(n) && n.labels != [] && At(q, 12, NameBytes(n)) ensures QueryName(q) == Some(Join(Texts(n.labels))) {
      PlainIsRead(q, 12, n);
    }
    if QueryName(q).Some? {
      var n := ReadIsPlain(q, 12);
      PlainIsRead(q, 12, n);
    }
  }
}
