/**
 * The plain-HTTP head rewriter: the first request head written on a connection is held back until its
 * blank line has come, rewritten line by line, and everything else passes through untouched.
 */
module HeadRewriter {
  import opened Bytes

  const CR: byte := 13
  const LF: byte := 10
  const CRLF: seq<byte> := [CR, LF]
  const BLANK: seq<byte> := [CR, LF, CR, LF]
  const MAX_HEAD_HOLD := 16384

  function Text(s: string): (b: seq<byte>)
    ensures |b| == |s|
  {
    seq(|s|, i requires 0 <= i < |s| => s[i] as int % 256)
  }

  const HTTP_METHODS := ["GET ", "POST ", "PUT ", "DELETE ", "HEAD ", "OPTIONS ", "PATCH "]
  const FORWARDED := ["forwarded:", "x-forwarded-for:", "x-forwarded-host:", "via:"]

  /** `lower` is the lower-casing of a line, which is left open. */
  datatype Config = Config(userAgent: seq<byte>, stripForwarded: bool, lower: seq<byte> -> seq<byte>)

  // ----- Lines -----

  /** The pieces between line ends; always at least one. */
  function Lines(s: seq<byte>): (ls: seq<seq<byte>>)
    ensures |ls| > 0
  {
    if |s| < 2 then [s]
    else if s[0] == CR && s[1] == LF then [[]] + Lines(s[2..])
    else
      var rest := Lines(s[1..]);
      [[s[0]] + rest[0]] + rest[1..]
  }

  /** Lines put together again, each with a line end after it. */
  function Ended(ls: seq<seq<byte>>): seq<byte> {
    if ls == [] then [] else ls[0] + CRLF + Ended(ls[1..])
  }

  lemma FirstLineGrows(c: byte, ls: seq<seq<byte>>)
    requires |ls| > 0
    ensures Ended([[c] + ls[0]] + ls[1..]) == [c] + Ended(ls)
  {
    var glued := [[c] + ls[0]] + ls[1..];
    assert glued[0] == [c] + ls[0] && glued[1..] == ls[1..];
    var rest := Ended(ls[1..]);
    assert Ended(glued) == [c] + ls[0] + CRLF + rest && Ended(ls) == ls[0] + CRLF + rest;
    hide Ended;
    ConcatAssoc([c], ls[0], CRLF);
    ConcatAssoc([c], ls[0] + CRLF, rest);
  }

  /** Ending every piece gives the text and one line end more than it had. */
  lemma {:induction false} EndedLines(s: seq<byte>)
    ensures Ended(Lines(s)) == s + CRLF
  {
    if |s| < 2 {
      assert [s][1..] == [];
    } else if s[0] == CR && s[1] == LF {
      EndedLines(s[2..]);
      assert ([[]] + Lines(s[2..]))[1..] == Lines(s[2..]);
      assert s == CRLF + s[2..];
    } else {
      EndedLines(s[1..]);
      FirstLineGrows(s[0], Lines(s[1..]));
      hide Ended;
      assert s + CRLF == [s[0]] + (s[1..] + CRLF);
    }
  }

  // ----- Rewriting -----

  predicate IsUserAgent(line: seq<byte>, cfg: Config) {
    Text("user-agent:") <= cfg.lower(line)
  }

  predicate IsForwarded(line: seq<byte>, cfg: Config) {
    exists i :: 0 <= i < |FORWARDED| && Text(FORWARDED[i]) <= cfg.lower(line)
  }

  predicate Matched(line: seq<byte>, cfg: Config) {
    IsUserAgent(line, cfg) || (cfg.stripForwarded && IsForwarded(line, cfg))
  }

  /** Does one of the first `n` lines match? */
  predicate AnyMatched(ls: seq<seq<byte>>, n: nat, cfg: Config)
    requires n <= |ls|
  {
    exists i :: 0 <= i < n && Matched(ls[i], cfg)
  }

  /** The lines that are kept, in order, with the user agent replaced. */
  function Rewrite(ls: seq<seq<byte>>, cfg: Config): seq<seq<byte>> {
    if ls == [] then []
    else
      (if IsUserAgent(ls[0], cfg) then [Text("User-Agent: ") + cfg.userAgent]
       else if cfg.stripForwarded && IsForwarded(ls[0], cfg) then []
       else [ls[0]]) + Rewrite(ls[1..], cfg)
  }

  predicate StartsHttp(head: seq<byte>) {
    exists i :: 0 <= i < |HTTP_METHODS| && Text(HTTP_METHODS[i]) <= head
  }

  function Sanitize(head: seq<byte>, cfg: Config): seq<byte> {
    if !StartsHttp(head) then head else Ended(Rewrite(Lines(head), cfg))
  }

  method DetectHttp(head: seq<byte>) returns (b: bool)
    ensures b <==> StartsHttp(head)
  {
    hide Text;
    for i := 0 to |HTTP_METHODS|
      invariant forall k :: 0 <= k < i ==> !(Text(HTTP_METHODS[k]) <= head)
    {
      if Text(HTTP_METHODS[i]) <= head {
        return true;
      }
    }
    return false;
  }

  method RewriteLines(ls: seq<seq<byte>>, cfg: Config) returns (out: seq<byte>, changed: bool)
    ensures out == Ended(Rewrite(ls, cfg))
    ensures changed <==> AnyMatched(ls, |ls|, cfg)
  {
    hide Text, Rewrite, Ended, IsUserAgent, IsForwarded;
    out, changed := [], false;
    assert ls[0..] == ls && [] + Ended(Rewrite(ls, cfg)) == Ended(Rewrite(ls, cfg));
    for i := 0 to |ls|
      invariant out + Ended(Rewrite(ls[i..], cfg)) == Ended(Rewrite(ls, cfg))
      invariant changed <==> AnyMatched(ls, i, cfg)
    {
      RewriteStep(ls, i, cfg);
      ghost var matched := Matched(ls[i], cfg);
      if IsUserAgent(ls[i], cfg) {
        out := out + (Text("User-Agent: ") + cfg.userAgent + CRLF);
        changed := true;
      } else if cfg.stripForwarded && HasForwardedPrefix(ls[i], cfg) {
        changed := true;
      } else {
        out := out + (ls[i] + CRLF);
      }
    }
    NothingLeft(ls, cfg);
    assert out + [] == out;
  }

  lemma NothingLeft(ls: seq<seq<byte>>, cfg: Config)
    ensures Ended(Rewrite(ls[|ls|..], cfg)) == []
  {
  }

  method SanitizeRequestHead(head: seq<byte>, cfg: Config) returns (out: seq<byte>, changed: bool)
    ensures out == Sanitize(head, cfg)
    ensures changed <==> StartsHttp(head) && AnyMatched(Lines(head), |Lines(head)|, cfg)
  {
    hide StartsHttp, Rewrite, Ended, Lines, AnyMatched;
    var startsHttp := DetectHttp(head);
    if !startsHttp {
      return head, false;
    }
    out, changed := RewriteLines(Lines(head), cfg);
  }

  /** The four prefixes one by one. */
  function HasForwardedPrefix(line: seq<byte>, cfg: Config): (b: bool)
    ensures b <==> IsForwarded(line, cfg)
  {
    var l := cfg.lower(line);
    assert FORWARDED[0] == "forwarded:" && FORWARDED[1] == "x-forwarded-for:" && FORWARDED[2] == "x-forwarded-host:" && FORWARDED[3] == "via:";
    Text("forwarded:") <= l || Text("x-forwarded-for:") <= l || Text("x-forwarded-host:") <= l || Text("via:") <= l
  }

  lemma RewriteStep(ls: seq<seq<byte>>, i: nat, cfg: Config)
    requires i < |ls|
    ensures var now := (if IsUserAgent(ls[i], cfg) then Text("User-Agent: ") + cfg.userAgent + CRLF
                        else if cfg.stripForwarded && IsForwarded(ls[i], cfg) then [] else ls[i] + CRLF);
            Ended(Rewrite(ls[i..], cfg)) == now + Ended(Rewrite(ls[i + 1..], cfg))
  {
    assert ls[i..][1..] == ls[i + 1..];
    var rest := Rewrite(ls[i + 1..], cfg);
    assert forall x: seq<byte> :: ([x] + rest)[1..] == rest;
    assert [] + rest == rest;
  }

  /** Lines are rewritten one by one: each is kept, replaced or dropped in its place, whatever stands around it. */
  lemma {:induction false} RewriteIsLinewise(a: seq<seq<byte>>, b: seq<seq<byte>>, cfg: Config)
    ensures Rewrite(a + b, cfg) == Rewrite(a, cfg) + Rewrite(b, cfg)
  {
    hide IsUserAgent, IsForwarded;
    if a == [] {
      assert a + b == b;
    } else {
      assert (a + b)[0] == a[0] && (a + b)[1..] == a[1..] + b;
      RewriteIsLinewise(a[1..], b, cfg);
    }
  }

  /** A head without a matching line comes out with one line end too many if it is HTTP, and as it was if it is not. */
  lemma UnmatchedHeadGrows(head: seq<byte>, cfg: Config)
    requires !AnyMatched(Lines(head), |Lines(head)|, cfg)
    ensures Sanitize(head, cfg) == (if StartsHttp(head) then head + CRLF else head)
    ensures Sanitize(head, cfg) == head <==> !StartsHttp(head)
  {
    KeepsUnmatched(Lines(head), cfg);
    EndedLines(head);
  }

  lemma {:induction false} KeepsUnmatched(ls: seq<seq<byte>>, cfg: Config)
    requires !AnyMatched(ls, |ls|, cfg)
    ensures Rewrite(ls, cfg) == ls
  {
    hide IsUserAgent, IsForwarded;
    if ls != [] {
      assert !Matched(ls[0], cfg);
      assert forall i :: 0 <= i < |ls| - 1 ==> ls[1..][i] == ls[i + 1] && !Matched(ls[i + 1], cfg);
      KeepsUnmatched(ls[1..], cfg);
    }
  }

  // ----- What comes out, in terms of the lines that go in -----

  /** No line end inside. */
  predicate OneLine(l: seq<byte>) {
    forall i :: 0 <= i < |l| - 1 ==> !(l[i] == CR && l[i + 1] == LF)
  }

  lemma {:induction false} LinesAreOne(s: seq<byte>)
    ensures forall i :: 0 <= i < |Lines(s)| ==> OneLine(Lines(s)[i])
    ensures |s| > 0 && |Lines(s)[0]| > 0 ==> Lines(s)[0][0] == s[0]
  {
    if |s| < 2 {
    } else if s[0] == CR && s[1] == LF {
      LinesAreOne(s[2..]);
    } else {
      LinesAreOne(s[1..]);
      var rest := Lines(s[1..]);
      assert OneLine([s[0]] + rest[0]);
      assert forall i :: 1 <= i < |Lines(s)| ==> Lines(s)[i] == rest[1..][i - 1];
    }
  }

  lemma OneLineTail(l: seq<byte>)
    requires OneLine(l) && l != []
    ensures OneLine(l[1..])
  {
  }

  /** A line and its end in front of a text is one line more. */
  lemma {:induction false} LineInFront(l: seq<byte>, rest: seq<byte>)
    requires OneLine(l)
    ensures Lines(l + CRLF + rest) == [l] + Lines(rest)
  {
    var s := l + CRLF + rest;
    if l == [] {
      assert s[2..] == rest;
    } else {
      var m := l[1..];
      OneLineTail(l);
      LineInFront(m, rest);
      assert s[1..] == m + CRLF + rest;
      assert !(s[0] == CR && s[1] == LF);
      assert [s[0]] + m == l;
      assert ([m] + Lines(rest))[1..] == Lines(rest);
    }
  }

  /** Splitting what was put together gives the lines back, and an empty one for the last line end. */
  lemma {:induction false} LinesOfEnded(ls: seq<seq<byte>>)
    requires forall i :: 0 <= i < |ls| ==> OneLine(ls[i])
    ensures Lines(Ended(ls)) == ls + [[]]
  {
    if ls != [] {
      LinesOfEnded(ls[1..]);
      LineInFront(ls[0], Ended(ls[1..]));
      assert [ls[0]] + (ls[1..] + [[]]) == ls + [[]];
    }
  }

  /** The request begins with one of the methods the rewriter knows. */
  predicate IsRequest(head: seq<byte>) {
    || Text("GET ") <= head || Text("POST ") <= head || Text("PUT ") <= head || Text("DELETE ") <= head
    || Text("HEAD ") <= head || Text("OPTIONS ") <= head || Text("PATCH ") <= head
  }

  predicate AgentLine(l: seq<byte>, cfg: Config) {
    Text("user-agent:") <= cfg.lower(l)
  }

  predicate ForwardingLine(l: seq<byte>, cfg: Config) {
    || Text("forwarded:") <= cfg.lower(l) || Text("x-forwarded-for:") <= cfg.lower(l)
    || Text("x-forwarded-host:") <= cfg.lower(l) || Text("via:") <= cfg.lower(l)
  }

  /** The lines that are nobody's business. */
  function Others(ls: seq<seq<byte>>, cfg: Config): seq<seq<byte>> {
    if ls == [] then []
    else
      (if AgentLine(ls[0], cfg) || (cfg.stripForwarded && ForwardingLine(ls[0], cfg)) then [] else [ls[0]])
      + Others(ls[1..], cfg)
  }

  function AgentLines(ls: seq<seq<byte>>, cfg: Config): nat {
    if ls == [] then 0 else (if AgentLine(ls[0], cfg) then 1 else 0) + AgentLines(ls[1..], cfg)
  }

  /** Lower-casing does to the header it writes, and to nothing at all, what lower-casing does. */
  ghost predicate LowersHeader(cfg: Config) {
    (forall x: seq<byte> :: Text("user-agent:") <= cfg.lower(Text("User-Agent: ") + x)) && cfg.lower([]) == []
  }

  lemma MethodsAreKnown(head: seq<byte>)
    ensures StartsHttp(head) <==> IsRequest(head)
  {
    assert HTTP_METHODS[0] == "GET " && HTTP_METHODS[1] == "POST " && HTTP_METHODS[2] == "PUT " && HTTP_METHODS[3] == "DELETE ";
    assert HTTP_METHODS[4] == "HEAD " && HTTP_METHODS[5] == "OPTIONS " && HTTP_METHODS[6] == "PATCH ";
    hide Text;
  }

  lemma PrefixesAreKnown(l: seq<byte>, cfg: Config)
    ensures IsUserAgent(l, cfg) <==> AgentLine(l, cfg)
    ensures IsForwarded(l, cfg) <==> ForwardingLine(l, cfg)
    ensures !(AgentLine(l, cfg) && ForwardingLine(l, cfg))
  {
    assert FORWARDED[0] == "forwarded:" && FORWARDED[1] == "x-forwarded-for:" && FORWARDED[2] == "x-forwarded-host:" && FORWARDED[3] == "via:";
    if AgentLine(l, cfg) {
      assert cfg.lower(l)[0] == Text("user-agent:")[0];
      assert Text("forwarded:")[0] != 'u' as int && Text("x-forwarded-for:")[0] != 'u' as int;
      assert Text("x-forwarded-host:")[0] != 'u' as int && Text("via:")[0] != 'u' as int;
    }
    hide Text;
  }

  predicate RewrittenWell(ls: seq<seq<byte>>, out: seq<seq<byte>>, cfg: Config) {
    && (forall i :: 0 <= i < |out| && AgentLine(out[i], cfg) ==> out[i] == Text("User-Agent: ") + cfg.userAgent)
    && (cfg.stripForwarded ==> forall i :: 0 <= i < |out| ==> !ForwardingLine(out[i], cfg))
    && Others(out, cfg) == Others(ls, cfg) && AgentLines(out, cfg) == AgentLines(ls, cfg)
  }

  /** What becomes of one line. */
  predicate RewrittenLine(l: seq<byte>, piece: seq<seq<byte>>, cfg: Config) {
    var agent := Text("User-Agent: ") + cfg.userAgent;
    if AgentLine(l, cfg) then piece == [agent] && AgentLine(agent, cfg) && !ForwardingLine(agent, cfg)
    else if cfg.stripForwarded && ForwardingLine(l, cfg) then piece == []
    else piece == [l]
  }

  lemma WellAdds(l: seq<byte>, ls: seq<seq<byte>>, piece: seq<seq<byte>>, out: seq<seq<byte>>, cfg: Config)
    requires RewrittenWell(ls, out, cfg) && RewrittenLine(l, piece, cfg)
    ensures RewrittenWell([l] + ls, piece + out, cfg)
  {
    hide Text, AgentLine, ForwardingLine;
    assert ([l] + ls)[1..] == ls;
    if piece == [] {
      assert piece + out == out;
    } else {
      assert piece == [piece[0]] && (piece + out)[1..] == out;
    }
  }

  lemma LineRewritten(l: seq<byte>, cfg: Config)
    requires LowersHeader(cfg)
    ensures RewrittenLine(l, if IsUserAgent(l, cfg) then [Text("User-Agent: ") + cfg.userAgent]
                             else if cfg.stripForwarded && IsForwarded(l, cfg) then [] else [l], cfg)
  {
    var agent := Text("User-Agent: ") + cfg.userAgent;
    PrefixesAreKnown(l, cfg);
    PrefixesAreKnown(agent, cfg);
    assert AgentLine(agent, cfg);
    hide Text, IsUserAgent, IsForwarded, AgentLine, ForwardingLine;
  }

  lemma {:induction false} RewriteIsWell(ls: seq<seq<byte>>, cfg: Config)
    requires LowersHeader(cfg)
    ensures RewrittenWell(ls, Rewrite(ls, cfg), cfg)
  {
    if ls != [] {
      RewriteIsWell(ls[1..], cfg);
      LineRewritten(ls[0], cfg);
      hide Text, IsUserAgent, IsForwarded, LowersHeader, RewrittenLine, RewrittenWell;
      var piece := if IsUserAgent(ls[0], cfg) then [Text("User-Agent: ") + cfg.userAgent]
                   else if cfg.stripForwarded && IsForwarded(ls[0], cfg) then [] else [ls[0]];
      WellAdds(ls[0], ls[1..], piece, Rewrite(ls[1..], cfg), cfg);
      assert [ls[0]] + ls[1..] == ls;
    }
  }

  lemma {:induction false} RewriteKeepsLines(ls: seq<seq<byte>>, cfg: Config)
    requires OneLine(cfg.userAgent) && forall i :: 0 <= i < |ls| ==> OneLine(ls[i])
    ensures forall i :: 0 <= i < |Rewrite(ls, cfg)| ==> OneLine(Rewrite(ls, cfg)[i])
  {
    if ls != [] {
      AgentIsOneLine(cfg.userAgent);
      RewriteKeepsLines(ls[1..], cfg);
      hide Text, IsUserAgent, IsForwarded, OneLine;
    }
  }

  lemma AgentIsOneLine(x: seq<byte>)
    requires OneLine(x)
    ensures OneLine(Text("User-Agent: ") + x)
  {
    var t := Text("User-Agent: ");
    assert forall i :: 0 <= i < |t| ==> t[i] != CR;
    assert forall i :: 0 <= i < |x| ==> (t + x)[|t| + i] == x[i];
  }

  /** Appending the empty line. */
  lemma {:induction false} OthersSnoc(ls: seq<seq<byte>>, cfg: Config)
    requires cfg.lower([]) == []
    ensures Others(ls + [[]], cfg) == Others(ls, cfg) + [[]] && AgentLines(ls + [[]], cfg) == AgentLines(ls, cfg)
  {
    hide AgentLine, ForwardingLine;
    if ls == [] {
      EmptyIsOther(cfg);
      var one: seq<seq<byte>> := [[]];
      assert ls + one == one && one[1..] == [];
    } else {
      assert (ls + [[]])[0] == ls[0] && (ls + [[]])[1..] == ls[1..] + [[]];
      OthersSnoc(ls[1..], cfg);
    }
  }

  lemma EmptyIsOther(cfg: Config)
    requires cfg.lower([]) == []
    ensures !AgentLine([], cfg) && !ForwardingLine([], cfg)
  {
  }

  /**
   * A sanitized request, line by line: every user-agent line is the configured one, and there are as many
   * as before; with stripping no forwarding line is left; all other lines are there, in order, and an
   * empty one more. What is not a request comes out as it was.
   */
  lemma SanitizedLines(head: seq<byte>, cfg: Config)
    requires LowersHeader(cfg) && OneLine(cfg.userAgent)
    ensures !IsRequest(head) ==> Sanitize(head, cfg) == head
    ensures IsRequest(head) ==>
              var ls, out := Lines(head), Lines(Sanitize(head, cfg));
              && (forall i :: 0 <= i < |out| && AgentLine(out[i], cfg) ==> out[i] == Text("User-Agent: ") + cfg.userAgent)
              && (cfg.stripForwarded ==> forall i :: 0 <= i < |out| ==> !ForwardingLine(out[i], cfg))
              && Others(out, cfg) == Others(ls, cfg) + [[]] && AgentLines(out, cfg) == AgentLines(ls, cfg)
  {
    MethodsAreKnown(head);
    if IsRequest(head) {
      var ls := Lines(head);
      var kept := Rewrite(ls, cfg);
      LinesAreOne(head);
      RewriteIsWell(ls, cfg);
      RewriteKeepsLines(ls, cfg);
      LinesOfEnded(kept);
      OthersSnoc(kept, cfg);
      EmptyIsOther(cfg);
      hide Lines, Rewrite, Ended, Text, AgentLine, ForwardingLine, IsRequest, StartsHttp, Others, AgentLines;
    }
  }

  // ----- The connection -----

  /** Where the first blank line begins. */
  function BlankAt(data: seq<byte>): (r: Option<nat>)
    ensures r.Some? ==> r.value + 4 <= |data| && data[r.value..r.value + 4] == BLANK
  {
    if |data| < 4 then None
    else if data[..4] == BLANK then Some(0)
    else
      match BlankAt(data[1..])
      case None => None
      case Some(i) =>
        assert data[1..][i..i + 4] == data[i + 1..i + 5];
        Some(i + 1)
  }

  /** Two line ends side by side. */
  predicate TwoLineEnds(data: seq<byte>, i: nat) {
    i + 4 <= |data| && data[i] == 13 && data[i + 1] == 10 && data[i + 2] == 13 && data[i + 3] == 10
  }

  /** It is the first such place, and none if there is no such place. */
  lemma {:induction false} BlankIsFirst(data: seq<byte>)
    ensures match BlankAt(data)
            case Some(h) => TwoLineEnds(data, h) && forall i: nat :: i < h ==> !TwoLineEnds(data, i)
            case None => forall i: nat :: !TwoLineEnds(data, i)
  {
    if |data| >= 4 {
      assert data[..4] == BLANK <==> TwoLineEnds(data, 0);
      assert forall i: nat :: 1 <= i ==> TwoLineEnds(data, i) == TwoLineEnds(data[1..], i - 1);
      BlankIsFirst(data[1..]);
    }
  }

  /** Bytes held back, whether the head is dealt with, and everything sent on. */
  datatype Conn = Conn(buf: seq<byte>, done: bool, out: seq<byte>)

  const FRESH := Conn([], false, [])

  function WriteStep(c: Conn, b: seq<byte>, cfg: Config): Conn {
    if c.done then c.(out := c.out + b)
    else
      var data := c.buf + b;
      match BlankAt(data)
      case Some(h) => Conn(data, true, c.out + Sanitize(data[..h + 4], cfg) + data[h + 4..])
      case None => if |data| < MAX_HEAD_HOLD then c.(buf := data) else Conn(data, true, c.out + data)
  }

  function From(i: nat, r: Option<nat>): Option<nat> {
    match r
    case None => None
    case Some(k) => Some(i + k)
  }

  lemma BlankNext(data: seq<byte>, i: nat)
    requires i + 4 <= |data|
    ensures if data[i..i + 4] == BLANK then BlankAt(data[i..]) == Some(0) else From(i, BlankAt(data[i..])) == From(i + 1, BlankAt(data[i + 1..]))
  {
    assert data[i..][..4] == data[i..i + 4] && data[i..][1..] == data[i + 1..];
  }

  lemma TooShort(data: seq<byte>)
    requires |data| < 4
    ensures BlankAt(data).None?
  {
  }

  class SanitizedConn {
    const cfg: Config
    var buf: seq<byte>
    var done: bool
    var out: seq<byte>

    ghost function View(): Conn
      reads this
    {
      Conn(buf, done, out)
    }

    constructor (cfg: Config)
      ensures View() == FRESH && this.cfg == cfg
    {
      this.cfg, buf, done, out := cfg, [], false, [];
    }

    method Index(data: seq<byte>) returns (r: Option<nat>)
      ensures r == BlankAt(data)
    {
      hide BlankAt;
      var i := 0;
      assert data[0..] == data;
      while i + 4 <= |data|
        invariant i <= |data|
        invariant BlankAt(data) == From(i, BlankAt(data[i..]))
      {
        BlankNext(data, i);
        if data[i..i + 4] == BLANK {
          return Some(i);
        }
        i := i + 1;
      }
      TooShort(data[i..]);
      return None;
    }

    method Write(b: seq<byte>)
      modifies this
      ensures View() == WriteStep(old(View()), b, cfg)
    {
      if done {
        out := out + b;
        return;
      }
      buf := buf + b;
      var headEnd := Index(buf);
      if headEnd.None? && |buf| < MAX_HEAD_HOLD {
        return;
      }
      done := true;
      if headEnd.None? {
        out := out + buf;
        return;
      }
      var head, rest := buf[..headEnd.value + 4], buf[headEnd.value + 4..];
      var sanitized, _ := SanitizeRequestHead(head, cfg);
      out := out + sanitized;
      if |rest| > 0 {
        out := out + rest;
      }
    }
  }

  // ----- Splitting the data into writes -----

  function Concat(bs: seq<seq<byte>>): seq<byte> {
    if bs == [] then [] else Concat(bs[..|bs| - 1]) + bs[|bs| - 1]
  }

  function Writes(bs: seq<seq<byte>>, cfg: Config): Conn {
    if bs == [] then FRESH else WriteStep(Writes(bs[..|bs| - 1], cfg), bs[|bs| - 1], cfg)
  }

  /** What should come out for the data written so far: the rewritten head and the rest, or nothing yet, or all of it. */
  function Expected(data: seq<byte>, cfg: Config): seq<byte> {
    match BlankAt(data)
    case Some(h) => Sanitize(data[..h + 4], cfg) + data[h + 4..]
    case None => if |data| < MAX_HEAD_HOLD then [] else data
  }

  /** A blank line in the front part is the first in the whole. */
  lemma {:induction false} BlankInFront(a: seq<byte>, b: seq<byte>)
    ensures BlankAt(a).Some? ==> BlankAt(a + b) == BlankAt(a)
    ensures BlankAt(a).None? && BlankAt(a + b).Some? ==> BlankAt(a + b).value + 4 > |a|
    decreases |a|
  {
    if |a| >= 4 {
      assert (a + b)[..4] == a[..4] && (a + b)[1..] == a[1..] + b;
      BlankInFront(a[1..], b);
    }
  }

  /** The head of some data ends late: beyond what is held back. */
  predicate LateHead(data: seq<byte>) {
    BlankAt(data).Some? && BlankAt(data).value + 4 > 16384
  }

  /** Given up on the head: everything went out raw. */
  predicate GaveUp(c: Conn, data: seq<byte>) {
    c.done && c.out == data && |data| >= MAX_HEAD_HOLD && (BlankAt(data).Some? ==> LateHead(data))
  }

  /** What the connection is like after some data: dealt with as expected, given up, or held back. */
  predicate Outcome(c: Conn, data: seq<byte>, cfg: Config) {
    if c.done then (c.out == Expected(data, cfg) && BlankAt(data).Some?) || GaveUp(c, data)
    else c.buf == data && c.out == [] && BlankAt(data).None? && |data| < MAX_HEAD_HOLD
  }

  lemma StepOutcome(c: Conn, data: seq<byte>, b: seq<byte>, cfg: Config)
    requires Outcome(c, data, cfg)
    ensures Outcome(WriteStep(c, b, cfg), data + b, cfg)
  {
    hide BlankAt, Sanitize;
    BlankInFront(data, b);
    var all := data + b;
    if c.done && BlankAt(data).Some? {
      var h := BlankAt(data).value;
      assert all[..h + 4] == data[..h + 4] && all[h + 4..] == data[h + 4..] + b;
      assert Sanitize(data[..h + 4], cfg) + data[h + 4..] + b == Sanitize(data[..h + 4], cfg) + (data[h + 4..] + b);
    } else if !c.done && BlankAt(all).Some? {
      var h := BlankAt(all).value;
      assert [] + Sanitize(all[..h + 4], cfg) + all[h + 4..] == Sanitize(all[..h + 4], cfg) + all[h + 4..];
    } else {
      assert [] + all == all;
    }
  }

  lemma {:induction false} WritesOutcome(bs: seq<seq<byte>>, cfg: Config)
    ensures Outcome(Writes(bs, cfg), Concat(bs), cfg)
    decreases |bs|
  {
    hide Outcome, WriteStep;
    if bs == [] {
      FreshOutcome(cfg);
    } else {
      WritesOutcome(bs[..|bs| - 1], cfg);
      StepOutcome(Writes(bs[..|bs| - 1], cfg), Concat(bs[..|bs| - 1]), bs[|bs| - 1], cfg);
    }
  }

  lemma FreshOutcome(cfg: Config)
    ensures Outcome(FRESH, [], cfg)
  {
  }

  /** Until the blank line has come, and while the data is short enough, nothing is sent on. */
  lemma NothingEarly(bs: seq<seq<byte>>, cfg: Config)
    requires BlankAt(Concat(bs)).None? && |Concat(bs)| < 16384
    ensures Writes(bs, cfg).out == [] && Writes(bs, cfg).buf == Concat(bs)
  {
    WritesOutcome(bs, cfg);
  }

  /** The condition under which it does not matter how the data is cut. */
  predicate CutDoesNotMatter(data: seq<byte>, cfg: Config) {
    BlankAt(data).Some? ==>
      BlankAt(data).value + 4 <= 16384 || Sanitize(data[..BlankAt(data).value + 4], cfg) == data[..BlankAt(data).value + 4]
  }

  lemma AnyCut(bs: seq<seq<byte>>, cfg: Config)
    requires CutDoesNotMatter(Concat(bs), cfg)
    ensures Writes(bs, cfg).out == Expected(Concat(bs), cfg)
  {
    WritesOutcome(bs, cfg);
    var data := Concat(bs);
    hide BlankAt, Sanitize, Writes, Concat;
    if BlankAt(data).Some? {
      var h := BlankAt(data).value;
      assert data == data[..h + 4] + data[h + 4..];
    }
  }

  /** A cut in the held-back part of a late head makes everything go out raw. */
  lemma BadCut(data: seq<byte>, cfg: Config) returns (bs: seq<seq<byte>>)
    requires LateHead(data)
    ensures Concat(bs) == data && Writes(bs, cfg).out == data
  {
    var a, b := data[..MAX_HEAD_HOLD], data[MAX_HEAD_HOLD..];
    bs := [a, b];
    assert data == a + b && bs[..1] == [a] && bs[..1][..0] == [];
    assert Concat(bs[..1]) == [] + a && Concat(bs) == Concat(bs[..1]) + b && [] + a == a;
    BlankInFront(a, b);
    hide BlankAt, Sanitize;
    assert [] + a == a;
    assert Writes([], cfg) == FRESH;
    assert Writes(bs[..1], cfg) == Conn(a, true, a);
  }

  lemma DifferentHeads(data: seq<byte>, head: seq<byte>, n: nat)
    requires n <= |data| && head != data[..n]
    ensures head + data[n..] != data
  {
    if |head| == n {
      assert (head + data[n..])[..n] == head;
    }
  }

  lemma SomeCutDiffers(data: seq<byte>, cfg: Config) returns (bs: seq<seq<byte>>)
    requires !CutDoesNotMatter(data, cfg)
    ensures Concat(bs) == data && Writes(bs, cfg).out != Expected(data, cfg)
  {
    hide BlankAt, Sanitize, Writes, Concat;
    bs := BadCut(data, cfg);
    var h := BlankAt(data).value;
    DifferentHeads(data, Sanitize(data[..h + 4], cfg), h + 4);
  }

  /**
   * Chunking independence. However the data is cut into writes, the bytes sent on are the same, namely
   * the rewritten head and the untouched rest, exactly when there is no blank line, or the head ends
   * within the first 16384 bytes, or rewriting would not change it.
   */
  lemma ChunkingIndependence(data: seq<byte>, cfg: Config)
    ensures (forall bs: seq<seq<byte>> :: Concat(bs) == data ==> Writes(bs, cfg).out == Expected(data, cfg))
            <==> CutDoesNotMatter(data, cfg)
  {
    hide CutDoesNotMatter, Writes, Concat, Expected;
    if CutDoesNotMatter(data, cfg) {
      forall bs: seq<seq<byte>> | Concat(bs) == data ensures Writes(bs, cfg).out == Expected(data, cfg) {
        AnyCut(bs, cfg);
      }
    } else {
      var bs := SomeCutDiffers(data, cfg);
    }
  }
}
