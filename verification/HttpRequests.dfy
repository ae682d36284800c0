/** Whole requests as text: what the parser tells of a request that is well formed, and that
    it accepts no other. */
module HttpRequests {
  import opened Common
  import opened HttpMessage
  import opened HttpText
  import HttpParser

  // ------------------------------------------------------------ what headers say

  predicate IsLength(h: Header)
  {
    SameIgnoringCase(h.name, "Content-Length")
  }

  predicate SaysClose(h: Header)
  {
    SameIgnoringCase(h.name, "Connection") && SameIgnoringCase(h.value, "close")
  }

  predicate SaysKeepAlive(h: Header)
  {
    SameIgnoringCase(h.name, "Connection") && SameIgnoringCase(h.value, "keep-alive")
  }

  function Lengths(hs: seq<Header>): seq<Header>
  {
    if hs == [] then [] else (if IsLength(hs[0]) then [hs[0]] else []) + Lengths(hs[1..])
  }

  /** The body's length: what the Content-Length header says, and nothing without one. */
  function LengthOf(hs: seq<Header>, number: Numbers, default: nat): nat
  {
    if Lengths(hs) == [] || number(Lengths(hs)[0].value).None? then default else number(Lengths(hs)[0].value).value
  }

  /** The last header that says close or keep-alive decides. */
  function KeepAliveAfter(hs: seq<Header>, default: bool): bool
  {
    if hs == [] then default
    else
      var last := hs[|hs| - 1];
      if SaysClose(last) then false
      else if SaysKeepAlive(last) then true
      else KeepAliveAfter(hs[..|hs| - 1], default)
  }

  /** At most one length, and it is a number. */
  predicate LengthsOk(hs: seq<Header>, saw: bool, number: Numbers)
  {
    |Lengths(hs)| <= (if saw then 0 else 1) && forall i :: 0 <= i < |Lengths(hs)| ==> number(Lengths(hs)[i].value).Some?
  }

  /** The request after the given headers. */
  function After(hs: seq<Header>, p: Progress, number: Numbers): Progress
  {
    Progress(p.request.(headers := p.request.headers + hs,
                        contentLength := LengthOf(hs, number, p.request.contentLength),
                        keepAlive := KeepAliveAfter(hs, p.request.keepAlive)),
             p.saw || Lengths(hs) != [], true)
  }

  lemma {:induction false} FirstWish(hs: seq<Header>, default: bool)
    requires hs != []
    ensures KeepAliveAfter(hs, default) ==
            KeepAliveAfter(hs[1..], if SaysClose(hs[0]) then false else if SaysKeepAlive(hs[0]) then true else default)
    decreases |hs|
  {
    if |hs| == 1 {
      assert hs[..0] == [];
    } else {
      var n := |hs| - 1;
      assert hs[1..][|hs[1..]| - 1] == hs[n] && hs[1..][..n - 1] == hs[..n][1..] && hs[..n][0] == hs[0];
      FirstWish(hs[..n], default);
    }
  }

  lemma TopicIs(h: Header)
    ensures TopicOf(h) == if IsLength(h) then Length else if SaysClose(h) then Close
                          else if SaysKeepAlive(h) then KeepAlive else Other
    ensures IsLength(h) ==> !SaysClose(h) && !SaysKeepAlive(h)
    ensures SaysClose(h) ==> !SaysKeepAlive(h)
  {
  }

  lemma FirstLength(hs: seq<Header>)
    requires hs != []
    ensures Lengths(hs) == if IsLength(hs[0]) then [hs[0]] + Lengths(hs[1..]) else Lengths(hs[1..])
  {
  }

  lemma LengthFirst(hs: seq<Header>, saw: bool, number: Numbers)
    requires hs != [] && IsLength(hs[0])
    ensures LengthsOk(hs, saw, number) <==>
            !saw && number(hs[0].value).Some? && LengthsOk(hs[1..], true, number)
    ensures LengthsOk(hs, saw, number) ==>
              Lengths(hs[1..]) == [] && forall d :: LengthOf(hs, number, d) == number(hs[0].value).value
  {
    FirstLength(hs);
    if LengthsOk(hs, saw, number) {
      assert Lengths(hs)[0] == hs[0];
    }
  }

  lemma HeadersJoin(before: seq<Header>, hs: seq<Header>)
    requires hs != []
    ensures before + hs == (before + [hs[0]]) + hs[1..]
  {
  }

  /** One header, then the others. */
  lemma AfterOne(hs: seq<Header>, p: Progress, number: Numbers)
    requires hs != [] && p.ok
    ensures var next := Apply(p, hs[0], TopicOf(hs[0]), number);
            && (LengthsOk(hs, p.saw, number) <==> next.ok && LengthsOk(hs[1..], next.saw, number))
            && (LengthsOk(hs, p.saw, number) ==> After(hs, p, number) == After(hs[1..], next, number))
  {
    TopicIs(hs[0]);
    FirstWish(hs, p.request.keepAlive);
    HeadersJoin(p.request.headers, hs);
    if IsLength(hs[0]) {
      LengthFirst(hs, p.saw, number);
    } else {
      FirstLength(hs);
    }
  }

  // ------------------------------------------------------------------ header lines

  function LinesText(lines: seq<string>): string
  {
    if lines == [] then "" else lines[0] + CRLF + LinesText(lines[1..])
  }

  /** Each line reads as the header at its place. */
  predicate Reads(lines: seq<string>, hs: seq<Header>)
  {
    && |lines| == |hs|
    && forall i :: 0 <= i < |lines| ==> OneLine(lines[i]) && lines[i] != "" && HeaderLine(lines[i]) == Some(hs[i])
  }

  /** The request after one header. */
  function One(p: Progress, h: Header, number: Numbers): Progress
  {
    Apply(p, h, TopicOf(h), number)
  }

  lemma OneAdds(p: Progress, h: Header, number: Numbers)
    ensures |One(p, h, number).request.headers| == |p.request.headers| + 1
  {
  }

  lemma HeaderStep(line: string, h: Header, rest: string, p: Progress, number: Numbers)
    requires OneLine(line) && line != "" && HeaderLine(line) == Some(h) && |p.request.headers| < MAX_HEADERS
    ensures var next := One(p, h, number);
            HeaderLines(line + CRLF + rest, p, Taking(number)) ==
            if next.ok then HeaderLines(rest, next, Taking(number)) else next
  {
    var s := line + CRLF + rest;
    LineEndReads(line, rest);
    assert s[..|line|] == line && s[|line| + 2..] == rest;
  }

  lemma ReadsFewer(lines: seq<string>, hs: seq<Header>)
    requires Reads(lines, hs) && lines != []
    ensures Reads(lines[1..], hs[1..])
  {
  }

  lemma TextMore(line: string, lines: seq<string>, more: string)
    ensures LinesText([line] + lines) + CRLF + more == line + CRLF + (LinesText(lines) + CRLF + more)
  {
    assert ([line] + lines)[1..] == lines;
  }

  lemma ReadNone(p: Progress, number: Numbers, more: string)
    requires p.ok
    ensures HeaderLines(LinesText([]) + CRLF + more, p, Taking(number)) == p == After([], p, number)
  {
    LineEndReads("", more);
    assert LinesText([]) + CRLF + more == "" + CRLF + more;
    assert p.request.headers + [] == p.request.headers;
  }

  lemma ReadOne(lines: seq<string>, hs: seq<Header>, p: Progress, number: Numbers, more: string)
    requires Reads(lines, hs) && lines != [] && |p.request.headers| < MAX_HEADERS
    requires One(p, hs[0], number).ok
    ensures HeaderLines(LinesText(lines) + CRLF + more, p, Taking(number)) ==
            HeaderLines(LinesText(lines[1..]) + CRLF + more, One(p, hs[0], number), Taking(number))
  {
    assert [lines[0]] + lines[1..] == lines;
    TextMore(lines[0], lines[1..], more);
    HeaderStep(lines[0], hs[0], LinesText(lines[1..]) + CRLF + more, p, number);
  }

  /** Header lines read as their headers, in order, and as what these say together. */
  lemma {:induction false} HeadersRead(lines: seq<string>, hs: seq<Header>, p: Progress, number: Numbers, more: string)
    requires Reads(lines, hs) && p.ok && |p.request.headers| + |hs| <= MAX_HEADERS && LengthsOk(hs, p.saw, number)
    ensures HeaderLines(LinesText(lines) + CRLF + more, p, Taking(number)) == After(hs, p, number)
    decreases |lines|
  {
    if lines == [] {
      ReadNone(p, number, more);
    } else {
      var next := One(p, hs[0], number);
      AfterOne(hs, p, number);
      ReadOne(lines, hs, p, number, more);
      ReadsFewer(lines, hs);
      OneAdds(p, hs[0], number);
      HeadersRead(lines[1..], hs[1..], next, number, more);
    }
  }

  lemma ReadsMore(line: string, h: Header, lines: seq<string>, hs: seq<Header>)
    requires Reads(lines, hs) && OneLine(line) && line != "" && HeaderLine(line) == Some(h)
    ensures Reads([line] + lines, [h] + hs)
  {
  }

  predicate Accepts(s: string, p: Progress, number: Numbers)
    ensures Accepts(s, p, number) ==> LineEnd(s).Some?
  {
    HeaderLines(s, p, Taking(number)).ok
  }

  /** Reading s after p is reading t after q. */
  predicate Alike(s: string, p: Progress, t: string, q: Progress, number: Numbers)
  {
    HeaderLines(s, p, Taking(number)) == HeaderLines(t, q, Taking(number))
  }

  /** What accepting a first header line takes. */
  lemma AcceptedStep(s: string, p: Progress, number: Numbers) returns (h: Header)
    requires p.ok && Accepts(s, p, number) && LineEnd(s).value > 0
    ensures HeaderLine(s[..LineEnd(s).value]) == Some(h) && |p.request.headers| < MAX_HEADERS && One(p, h, number).ok
    ensures Alike(s, p, s[LineEnd(s).value + 2..], One(p, h, number), number)
    ensures Accepts(s[LineEnd(s).value + 2..], One(p, h, number), number)
  {
    h := HeaderLine(s[..LineEnd(s).value]).value;
  }

  lemma AfterMore(h: Header, hs: seq<Header>, p: Progress, number: Numbers)
    requires p.ok && One(p, h, number).ok && LengthsOk(hs, One(p, h, number).saw, number)
    ensures LengthsOk([h] + hs, p.saw, number)
    ensures After([h] + hs, p, number) == After(hs, One(p, h, number), number)
  {
    assert ([h] + hs)[1..] == hs;
    AfterOne([h] + hs, p, number);
  }

  /** The text s is these header lines, for these headers. */
  ghost predicate TextOf(s: string, p: Progress, number: Numbers, lines: seq<string>, hs: seq<Header>, more: string)
  {
    && s == LinesText(lines) + CRLF + more && Reads(lines, hs) && LengthsOk(hs, p.saw, number)
    && HeaderLines(s, p, Taking(number)) == After(hs, p, number)
    && (hs != [] ==> |p.request.headers| + |hs| <= MAX_HEADERS)
  }

  lemma NoHeaders(s: string, p: Progress, number: Numbers)
    requires p.ok && LineEnd(s) == Some(0)
    ensures TextOf(s, p, number, [], [], s[2..])
  {
    LineEndText(s);
    assert s == LinesText([]) + CRLF + s[2..];
    ReadNone(p, number, s[2..]);
  }

  lemma OneHeader(s: string, p: Progress, number: Numbers, h: Header, lines: seq<string>, hs: seq<Header>, more: string)
    requires p.ok && LineEnd(s).Some? && LineEnd(s).value > 0 && HeaderLine(s[..LineEnd(s).value]) == Some(h)
    requires |p.request.headers| < MAX_HEADERS && One(p, h, number).ok
    requires Alike(s, p, s[LineEnd(s).value + 2..], One(p, h, number), number)
    requires TextOf(s[LineEnd(s).value + 2..], One(p, h, number), number, lines, hs, more)
    ensures TextOf(s, p, number, [s[..LineEnd(s).value]] + lines, [h] + hs, more)
  {
    var line := s[..LineEnd(s).value];
    LineEndText(s);
    ReadsMore(line, h, lines, hs);
    AfterMore(h, hs, p, number);
    TextMore(line, lines, more);
    OneAdds(p, h, number);
  }

  /** And header lines that are accepted are such lines. */
  lemma {:induction false} HeadersText(s: string, p: Progress, number: Numbers)
    returns (lines: seq<string>, hs: seq<Header>, more: string)
    requires p.ok && Accepts(s, p, number)
    ensures TextOf(s, p, number, lines, hs, more)
    decreases |s|
  {
    var n := LineEnd(s).value;
    if n == 0 {
      NoHeaders(s, p, number);
      return [], [], s[2..];
    }
    var h := AcceptedStep(s, p, number);
    var rest, heads, tail := HeadersText(s[n + 2..], One(p, h, number), number);
    OneHeader(s, p, number, h, rest, heads, tail);
    return [s[..n]] + rest, [h] + heads, tail;
  }

  // ----------------------------------------------------------------- where the head ends

  /** Where the first empty line is: nowhere before a line's own end. */
  lemma {:induction false} EndsLater(line: string, more: string)
    requires OneLine(line) && !(|more| >= 2 && more[0] == '\r' && more[1] == '\n')
    ensures HeaderEnd(line + CRLF + more) ==
            if HeaderEnd(more).None? then None else Some(|line| + 2 + HeaderEnd(more).value)
  {
    var s := line + CRLF + more;
    if line == "" {
      assert s == CRLF + more && s[1..] == "\n" + more && s[1..][1..] == more;
    } else {
      assert s[1..] == line[1..] + CRLF + more && s[0] == line[0];
      assert s[1] == if |line| > 1 then line[1] else '\r';
      EndsLater(line[1..], more);
    }
  }

  lemma {:induction false} EndsHere(line: string, more: string)
    requires OneLine(line)
    ensures HeaderEnd(line + CRLF + (CRLF + more)) == Some(|line| + 4)
  {
    var s := line + CRLF + (CRLF + more);
    if line != "" {
      assert s[1..] == line[1..] + CRLF + (CRLF + more) && s[0] == line[0];
      assert s[1] == if |line| > 1 then line[1] else '\r';
      EndsHere(line[1..], more);
    }
  }

  lemma {:induction false} HeadEnds(first: string, lines: seq<string>, more: string)
    requires OneLine(first) && forall i :: 0 <= i < |lines| ==> OneLine(lines[i]) && lines[i] != ""
    ensures HeaderEnd(first + CRLF + (LinesText(lines) + CRLF + more)) == Some(|first| + |LinesText(lines)| + 4)
    decreases |lines|
  {
    var rest := LinesText(lines) + CRLF + more;
    if lines == [] {
      assert rest == CRLF + more;
      EndsHere(first, more);
    } else {
      assert rest == lines[0] + CRLF + (LinesText(lines[1..]) + CRLF + more);
      assert rest[0] == lines[0][0] && rest[1] == (if |lines[0]| > 1 then lines[0][1] else '\r');
      HeadEnds(lines[0], lines[1..], more);
      EndsLater(first, rest);
    }
  }

  // ------------------------------------------------------------------ whole requests

  function FirstLine(r: Request): string
  {
    LineText(r.method_, r.path, r.minor)
  }

  /** A request and the header lines it was written with. */
  predicate HeadOk(r: Request, lines: seq<string>, cfg: Config, number: Numbers)
  {
    && LineOk(r.method_, r.path, r.minor, cfg.maxRequestLine) && OneLine(r.path)
    && |FirstLine(r)| <= cfg.maxRequestLine
    && Reads(lines, r.headers) && |r.headers| <= MAX_HEADERS && LengthsOk(r.headers, false, number)
    && r.contentLength == LengthOf(r.headers, number, 0)
    && r.keepAlive == KeepAliveAfter(r.headers, r.minor == 1)
  }

  function HeadText(r: Request, lines: seq<string>): string
  {
    FirstLine(r) + CRLF + (LinesText(lines) + CRLF)
  }

  lemma JoinedLine(a: string, b: string)
    requires OneLine(a) && OneLine(b) && (a == "" || b == "" || a[|a| - 1] != '\r' || b[0] != '\n')
    ensures OneLine(a + b)
  {
    var s := a + b;
    assert forall i :: 0 <= i < |a| ==> s[i] == a[i];
    assert forall i :: |a| <= i < |s| ==> s[i] == b[i - |a|];
  }

  lemma FixedLines(name: string, minor: nat)
    requires name == "GET" || name == "POST" || name == "HEAD"
    ensures OneLine(name + " ") && OneLine(" " + Version(minor))
  {
  }

  lemma LineTextIsLine(name: string, path: string, minor: nat)
    requires (name == "GET" || name == "POST" || name == "HEAD") && OneLine(path) && path != ""
    ensures OneLine(LineText(name, path, minor))
  {
    var head, tail := name + " ", " " + Version(minor);
    FixedLines(name, minor);
    assert tail[0] == ' ' && head[|head| - 1] == ' ';
    JoinedLine(path, tail);
    JoinedLine(head, path + tail);
    assert LineText(name, path, minor) == head + (path + tail);
  }

  lemma HeadParsed(first: string, rest: string, cfg: Config, number: Numbers)
    requires OneLine(first) && |first| <= cfg.maxRequestLine && RequestLine(first, cfg.maxRequestLine).Some?
    ensures var line := RequestLine(first, cfg.maxRequestLine).value;
            ParseHead(first + CRLF + rest, cfg, number) ==
            Bounded(HeaderLines(rest, Progress(line, false, true), Taking(number)), cfg.maxBody)
  {
    var head := first + CRLF + rest;
    LineEndReads(first, rest);
    assert head[..|first|] == first && head[|first| + 2..] == rest;
  }

  /** A request before its headers. */
  function Bare(r: Request): Request
  {
    Request(r.method_, r.path, r.minor, [], 0, r.minor == 1)
  }

  lemma AfterBare(r: Request, number: Numbers)
    requires r.contentLength == LengthOf(r.headers, number, 0)
    requires r.keepAlive == KeepAliveAfter(r.headers, r.minor == 1)
    ensures After(r.headers, Progress(Bare(r), false, true), number) == Progress(r, Lengths(r.headers) != [], true)
  {
    assert [] + r.headers == r.headers;
  }

  /** The head of a well-formed request reads as that request. */
  lemma HeadReads(r: Request, lines: seq<string>, cfg: Config, number: Numbers)
    requires HeadOk(r, lines, cfg, number)
    ensures ParseHead(HeadText(r, lines), cfg, number)
         == Bounded(Progress(r, Lengths(r.headers) != [], true), cfg.maxBody)
  {
    LineTextIsLine(r.method_, r.path, r.minor);
    RequestLineReads(r.method_, r.path, r.minor, cfg.maxRequestLine);
    HeadParsed(FirstLine(r), LinesText(lines) + CRLF, cfg, number);
    HeadersRead(lines, r.headers, Progress(Bare(r), false, true), number, "");
    assert LinesText(lines) + CRLF + "" == LinesText(lines) + CRLF;
    AfterBare(r, number);
  }

  lemma Regroup(a: string, b: string, c: string)
    ensures (a + CRLF + (b + CRLF)) + c == a + CRLF + (b + CRLF + c)
    ensures |a + CRLF + (b + CRLF)| == |a| + |b| + 4
  {
  }

  lemma HeadEndsWhole(r: Request, lines: seq<string>, rest: string)
    requires OneLine(FirstLine(r)) && Reads(lines, r.headers)
    ensures HeaderEnd(HeadText(r, lines) + rest) == Some(|HeadText(r, lines)|)
  {
    HeadEnds(FirstLine(r), lines, rest);
    Regroup(FirstLine(r), LinesText(lines), rest);
  }

  /** The outcome for bytes behind a head that reads as p. */
  lemma MeaningOf(head: string, rest: string, p: Progress, cfg: Config, parse: string -> Progress)
    requires HeaderEnd(head + rest) == Some(|head|) && |head| <= cfg.maxHeader && parse(head) == p
    ensures Meaning(head + rest, cfg, parse) ==
            if !p.ok then Failed(if p.request.contentLength > cfg.maxBody then PayloadTooLarge else BadRequest)
            else if |rest| < p.request.contentLength then NeedMore
            else Complete(p.request, rest[..p.request.contentLength])
  {
    var data, n := head + rest, p.request.contentLength;
    assert data[..|head|] == head;
    if |rest| >= n {
      assert data[|head|..|head| + n] == rest[..n];
    }
  }

  /** What the parser tells of a well-formed request and the bytes behind its head: it waits
      for the rest of the body, and then gives request and body; a body that is announced
      too long is refused. */
  lemma RequestReads(r: Request, lines: seq<string>, rest: string, cfg: Config, number: Numbers)
    requires HeadOk(r, lines, cfg, number) && |HeadText(r, lines)| <= cfg.maxHeader
    ensures Meaning(HeadText(r, lines) + rest, cfg, Parsing(cfg, number)) ==
            if r.contentLength > cfg.maxBody then Failed(PayloadTooLarge)
            else if |rest| < r.contentLength then NeedMore
            else Complete(r, rest[..r.contentLength])
  {
    LineTextIsLine(r.method_, r.path, r.minor);
    HeadEndsWhole(r, lines, rest);
    HeadReads(r, lines, cfg, number);
    MeaningOf(HeadText(r, lines), rest, ParseHead(HeadText(r, lines), cfg, number), cfg, Parsing(cfg, number));
  }

  // ------------------------------------------------------------ nothing else is accepted

  /** What accepting a head takes. */
  lemma AcceptedHead(head: string, cfg: Config, number: Numbers) returns (first: string, rest: string)
    requires ParseHead(head, cfg, number).ok
    ensures head == first + CRLF + rest && OneLine(first) && |first| <= cfg.maxRequestLine
    ensures RequestLine(first, cfg.maxRequestLine).Some?
    ensures var line := RequestLine(first, cfg.maxRequestLine).value;
            var p := HeaderLines(rest, Progress(line, false, true), Taking(number));
            p.ok && ParseHead(head, cfg, number) == p
  {
    var n := LineEnd(head).value;
    first, rest := head[..n], head[n + 2..];
    LineEndText(head);
  }

  lemma PathIsLine(name: string, path: string, minor: nat)
    requires OneLine(LineText(name, path, minor))
    ensures OneLine(path)
  {
    assert LineText(name, path, minor) == (name + " ") + path + (" " + Version(minor));
    Inner(LineText(name, path, minor), name + " ", path, " " + Version(minor));
  }

  /** A head that is accepted is that of a well-formed request. */
  lemma HeadIsText(head: string, cfg: Config, number: Numbers) returns (lines: seq<string>, more: string)
    requires ParseHead(head, cfg, number).ok
    ensures HeadOk(ParseHead(head, cfg, number).request, lines, cfg, number)
    ensures head == HeadText(ParseHead(head, cfg, number).request, lines) + more
  {
    var first, rest := AcceptedHead(head, cfg, number);
    var line := RequestLine(first, cfg.maxRequestLine).value;
    RequestLineText(first, cfg.maxRequestLine);
    PathIsLine(line.method_, line.path, line.minor);
    var hs;
    lines, hs, more := HeadersText(rest, Progress(line, false, true), number);
    assert [] + hs == hs;
    Regroup(first, LinesText(lines), more);
  }

  lemma CompleteParts(data: string, cfg: Config, parse: string -> Progress) returns (head: string, rest: string)
    requires Meaning(data, cfg, parse).Complete?
    ensures data == head + rest && HeaderEnd(data) == Some(|head|) && |head| <= cfg.maxHeader
    ensures var p := parse(head);
            && p.ok && p.request.contentLength <= |rest|
            && Meaning(data, cfg, parse) == Complete(p.request, rest[..p.request.contentLength])
  {
    var end := HeaderEnd(data).value;
    head, rest := data[..end], data[end..];
    var n := parse(head).request.contentLength;
    assert data[end..end + n] == rest[..n];
  }

  lemma NothingBetween(r: Request, lines: seq<string>, more: string, rest: string)
    requires OneLine(FirstLine(r)) && Reads(lines, r.headers)
    requires HeaderEnd((HeadText(r, lines) + more) + rest) == Some(|HeadText(r, lines) + more|)
    ensures more == "" && HeadText(r, lines) + more == HeadText(r, lines)
  {
    HeadEndsWhole(r, lines, more + rest);
    assert (HeadText(r, lines) + more) + rest == HeadText(r, lines) + (more + rest);
  }

  /** Whatever the parser accepts is a well-formed request: its own method, path, version
      and headers are in the bytes, and the body is what follows. */
  lemma AcceptedIsText(data: string, cfg: Config, number: Numbers) returns (lines: seq<string>, rest: string)
    requires Meaning(data, cfg, Parsing(cfg, number)).Complete?
    ensures var Complete(r, body) := Meaning(data, cfg, Parsing(cfg, number));
            && HeadOk(r, lines, cfg, number) && data == HeadText(r, lines) + rest
            && |HeadText(r, lines)| <= cfg.maxHeader && r.contentLength <= cfg.maxBody
            && r.contentLength <= |rest| && body == rest[..r.contentLength]
  {
    var head, more;
    head, rest := CompleteParts(data, cfg, Parsing(cfg, number));
    ParsingBounds(cfg, number);
    lines, more := HeadIsText(head, cfg, number);
    var r := ParseHead(head, cfg, number).request;
    LineTextIsLine(r.method_, r.path, r.minor);
    NothingBetween(r, lines, more, rest);
  }

  // -------------------------------------------------------------------- the parser

  /** The headers, each written as "name: value". */
  function Written(hs: seq<Header>): (lines: seq<string>)
    ensures |lines| == |hs| && forall i :: 0 <= i < |hs| ==> lines[i] == HeaderText(hs[i])
  {
    seq(|hs|, i requires 0 <= i < |hs| => HeaderText(hs[i]))
  }

  /** Headers so written read as themselves. */
  lemma WrittenReads(hs: seq<Header>)
    requires forall i :: 0 <= i < |hs| ==> HeaderFine(hs[i])
    ensures Reads(Written(hs), hs)
  {
    forall i | 0 <= i < |hs|
      ensures OneLine(Written(hs)[i]) && Written(hs)[i] != "" && HeaderLine(Written(hs)[i]) == Some(hs[i])
    {
      HeaderTextIsLine(hs[i]);
      HeaderLineReads(hs[i]);
    }
  }

  /** A parser that is fed a well-formed request, in whatever pieces, tells that request and
      its body. */
  method ReadRequest(chunks: seq<string>, given: Option<Config>, number: Numbers, ghost r: Request,
                     ghost lines: seq<string>)
    returns (p: HttpParser.Parser)
    requires HeadOk(r, lines, Kept(given), number) && |HeadText(r, lines)| <= Kept(given).maxHeader
    requires HeadText(r, lines) <= Concat(chunks) && |Concat(chunks)| == |HeadText(r, lines)| + r.contentLength
    requires r.contentLength <= Kept(given).maxBody
    ensures fresh(p) && p.Valid() && p.Told() == Complete(r, Concat(chunks)[|HeadText(r, lines)|..])
  {
    p := HttpParser.ParsePieces(chunks, given, number);
    ghost var head, data := HeadText(r, lines), Concat(chunks);
    assert data == head + data[|head|..] && data[|head|..][..r.contentLength] == data[|head|..];
    RequestReads(r, lines, data[|head|..], Kept(given), number);
    assert START.data + data == data;
  }
}
