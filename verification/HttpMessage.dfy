/** What an HTTP request means: the parser's result as a function of the bytes
    received, with no regard to how they arrived. */
module HttpMessage {
  import opened Common

  const NUL: char := '\0'
  const MAX_PATH := 256
  const MAX_HEADERS := 32
  const MAX_HEADER_NAME := 64
  const MAX_HEADER_VALUE := 256
  const CONTENT_LENGTH: string := "Content-Length"
  const CONNECTION: string := "Connection"
  const CLOSE: string := "close"
  const KEEP_ALIVE: string := "keep-alive"

  datatype Config = Config(maxRequestLine: nat, maxHeader: nat, maxBody: nat)

  const DEFAULTS := Config(1024, 8192, 64 * 1024)

  /** The limits a parser keeps of those it is given: a missing or excessive one is
      replaced. */
  function Kept(given: Option<Config>): (cfg: Config)
    ensures 0 < cfg.maxRequestLine <= DEFAULTS.maxHeader
    ensures 0 < cfg.maxHeader <= DEFAULTS.maxHeader && cfg.maxBody <= DEFAULTS.maxBody
    ensures given.Some? && 0 < given.value.maxRequestLine <= DEFAULTS.maxHeader
            && 0 < given.value.maxHeader <= DEFAULTS.maxHeader && given.value.maxBody <= DEFAULTS.maxBody
            ==> cfg == given.value
  {
    var c := if given.Some? then given.value else DEFAULTS;
    Config(if c.maxRequestLine == 0 || c.maxRequestLine > DEFAULTS.maxHeader then DEFAULTS.maxRequestLine
           else c.maxRequestLine,
           if c.maxHeader == 0 || c.maxHeader > DEFAULTS.maxHeader then DEFAULTS.maxHeader else c.maxHeader,
           if c.maxBody > DEFAULTS.maxBody then DEFAULTS.maxBody else c.maxBody)
  }

  datatype Header = Header(name: string, value: string)

  datatype Request = Request(
    method_: string,
    path: string,
    minor: nat,
    headers: seq<Header>,
    contentLength: nat,
    keepAlive: bool)

  const BLANK := Request("", "", 0, [], 0, false)

  /** How a decimal number is read from a header value, if it is one. */
  type Numbers = string -> Option<nat>

  // ----------------------------------------------------- C strings in a buffer

  /** The first line end of the string that starts at s and ends at its first NUL. */
  function LineEnd(s: string): (r: Option<nat>)
    ensures r.Some? ==> r.value + 2 <= |s| && s[r.value] == '\r' && s[r.value + 1] == '\n'
    ensures r.Some? ==> forall i :: 0 <= i < r.value ==> s[i] != NUL
  {
    if s == "" || s[0] == NUL then None
    else if |s| >= 2 && s[0] == '\r' && s[1] == '\n' then Some(0)
    else
      var r := LineEnd(s[1..]);
      if r.None? then None else Some(r.value + 1)
  }

  /** The first c in the string that starts at s and ends at its first NUL. */
  function IndexOf(s: string, c: char): (r: Option<nat>)
    ensures r.Some? ==> r.value < |s| && s[r.value] == c && forall i :: 0 <= i < r.value ==> s[i] != NUL && s[i] != c
  {
    if s == "" || s[0] == NUL then None
    else if s[0] == c then Some(0)
    else
      var r := IndexOf(s[1..], c);
      if r.None? then None else Some(r.value + 1)
  }

  predicate EmptyLine(s: string)
  {
    |s| >= 4 && s[0] == '\r' && s[1] == '\n' && s[2] == '\r' && s[3] == '\n'
  }

  /** Where the first empty line ends, if there is one. */
  function HeaderEnd(s: string): (r: Option<nat>)
    ensures r.Some? ==> 4 <= r.value <= |s|
  {
    if EmptyLine(s) then Some(4)
    else if s == "" then None
    else
      var r := HeaderEnd(s[1..]);
      if r.None? then None else Some(r.value + 1)
  }

  // ---------------------------------------------------------------- characters

  predicate IsSpace(c: char)
  {
    c == ' ' || '\t' <= c <= '\r'
  }

  function Lower(c: char): char
  {
    if 'A' <= c <= 'Z' then (c as int + 32) as char else c
  }

  predicate SameIgnoringCase(a: string, b: string)
  {
    |a| == |b| && forall i :: 0 <= i < |a| ==> Lower(a[i]) == Lower(b[i])
  }

  function TrimLeft(s: string): string
  {
    if s != "" && IsSpace(s[0]) then TrimLeft(s[1..]) else s
  }

  function TrimRight(s: string): string
  {
    if s != "" && IsSpace(s[|s| - 1]) then TrimRight(s[..|s| - 1]) else s
  }

  function Trim(s: string): string
  {
    TrimRight(TrimLeft(s))
  }

  predicate Fits(s: string, size: nat)
  {
    0 < |s| < size
  }

  // ------------------------------------------------------------------ grammar

  predicate KnownMethod(s: string)
  {
    s == "GET" || s == "POST" || s == "HEAD"
  }

  /** The three parts of a request line. */
  function Judged(name: string, path: string, version: string): Option<Request>
  {
    if (version != "HTTP/1.0" && version != "HTTP/1.1") || !KnownMethod(name) then None
    else if path == "" || path[0] != '/' || !Fits(path, MAX_PATH) then None
    else
      var minor := if version == "HTTP/1.1" then 1 else 0;
      Some(Request(name, path, minor, [], 0, minor == 1))
  }

  /** The request line, up to its line end: method, path and version. */
  function RequestLine(line: string, max: nat): Option<Request>
  {
    var i := IndexOf(line, ' ');
    if i.None? || i.value > max then None
    else
      var rest := line[i.value + 1..];
      var j := IndexOf(rest, ' ');
      if j.None? then None else Judged(line[..i.value], rest[..j.value], rest[j.value + 1..])
  }

  /** One header line, without its line end. */
  function HeaderLine(line: string): Option<Header>
  {
    var colon := IndexOf(line, ':');
    if colon.None? || colon.value == 0 then None
    else
      HeaderOf(Trim(line[..colon.value]), Trim(line[colon.value + 1..]))
  }

  function HeaderOf(name: string, value: string): Option<Header>
  {
    if !Fits(name, MAX_HEADER_NAME) || !Fits(value, MAX_HEADER_VALUE) then None else Some(Header(name, value))
  }

  /** A request after some headers; saw tells whether its length has been given. */
  datatype Progress = Progress(request: Request, saw: bool, ok: bool)

  /** What a header is about, and for Connection what it asks for. */
  datatype Topic = Length | Close | KeepAlive | Other

  function TopicOf(h: Header): Topic
  {
    if SameIgnoringCase(h.name, CONTENT_LENGTH) then Length
    else if SameIgnoringCase(h.name, CONNECTION) then
      if SameIgnoringCase(h.value, CLOSE) then Close
      else if SameIgnoringCase(h.value, KEEP_ALIVE) then KeepAlive
      else Other
    else Other
  }

  /** What one header means for the request. */
  function Apply(p: Progress, h: Header, topic: Topic, number: Numbers): Progress
  {
    var r := p.request.(headers := p.request.headers + [h]);
    match topic
    case Length =>
      if p.saw || number(h.value).None? then Progress(r, p.saw, false)
      else Progress(r.(contentLength := number(h.value).value), true, true)
    case Close => Progress(r.(keepAlive := false), p.saw, true)
    case KeepAlive => Progress(r.(keepAlive := true), p.saw, true)
    case Other => Progress(r, p.saw, true)
  }

  /** What one header line does to the request so far. */
  type Taker = (string, Progress) -> Progress

  function Taking(number: Numbers): Taker
  {
    (line: string, p: Progress) =>
      var h := HeaderLine(line);
      if h.None? then p.(ok := false) else Apply(p, h.value, TopicOf(h.value), number)
  }

  /** The header lines, up to and with the empty one. */
  function HeaderLines(s: string, p: Progress, take: Taker): Progress
    decreases |s|
  {
    var end := LineEnd(s);
    if end.None? then p.(ok := false)
    else if end.value == 0 then p
    else if |p.request.headers| >= MAX_HEADERS then p.(ok := false)
    else
      var next := take(s[..end.value], p);
      if !next.ok then next else HeaderLines(s[end.value + 2..], next, take)
  }

  /** The whole head.  A request that fails may already have its length. */
  function ParseHead(head: string, cfg: Config, number: Numbers): Progress
  {
    var end := LineEnd(head);
    if end.None? || end.value > cfg.maxRequestLine then Progress(BLANK, false, false)
    else
      var line := RequestLine(head[..end.value], cfg.maxRequestLine);
      if line.None? then Progress(BLANK, false, false)
      else
        Bounded(HeaderLines(head[end.value + 2..], Progress(line.value, false, true), Taking(number)), cfg.maxBody)
  }

  /** A request that announces too long a body fails. */
  function Bounded(p: Progress, max: nat): Progress
  {
    if p.ok && p.request.contentLength > max then p.(ok := false) else p
  }

  // ------------------------------------------------------------------- outcome

  datatype Error = BadRequest | PayloadTooLarge | HeaderTooLarge

  datatype Outcome = NeedMore | Complete(request: Request, body: string) | Failed(error: Error)

  /** The outcome once the head, which ends at end, has been parsed to p. */
  function Judge(data: string, end: nat, p: Progress, cfg: Config): Outcome
    requires end <= |data|
  {
    if !p.ok then
      Failed(if p.request.contentLength > cfg.maxBody then PayloadTooLarge else BadRequest)
    else if |data| - end < p.request.contentLength then NeedMore
    else Complete(p.request, data[end..end + p.request.contentLength])
  }

  /** What the bytes received so far amount to, given what their head means. */
  function Meaning(data: string, cfg: Config, parse: string -> Progress): Outcome
  {
    var end := HeaderEnd(data);
    if end.None? then if |data| > cfg.maxHeader then Failed(HeaderTooLarge) else NeedMore
    else if end.value > cfg.maxHeader then Failed(HeaderTooLarge)
    else Judge(data, end.value, parse(data[..end.value]), cfg)
  }

  function Parsing(cfg: Config, number: Numbers): string -> Progress
  {
    head => ParseHead(head, cfg, number)
  }

  // ----------------------------------------------------------------- more bytes

  lemma {:induction false} HeaderEndStays(s: string, more: string)
    requires HeaderEnd(s).Some?
    ensures HeaderEnd(s + more) == HeaderEnd(s)
  {
    assert EmptyLine(s + more) == EmptyLine(s);
    if !EmptyLine(s) {
      assert (s + more)[1..] == s[1..] + more;
      HeaderEndStays(s[1..], more);
    }
  }

  lemma {:induction false} HeaderEndLater(s: string, more: string)
    requires HeaderEnd(s).None? && HeaderEnd(s + more).Some?
    ensures HeaderEnd(s + more).value > |s|
  {
    if |s| >= 4 {
      assert (s + more)[1..] == s[1..] + more;
      HeaderEndLater(s[1..], more);
    }
  }

  lemma JudgeStays(data: string, more: string, end: nat, p: Progress, cfg: Config)
    requires end <= |data| && !Judge(data, end, p, cfg).NeedMore?
    ensures Judge(data + more, end, p, cfg) == Judge(data, end, p, cfg)
  {
    var n := p.request.contentLength;
    if |data| - end >= n {
      assert (data + more)[end..end + n] == data[end..end + n];
    }
  }

  /** Once the outcome is known, more bytes do not change it. */
  lemma MeaningStays(data: string, more: string, cfg: Config, parse: string -> Progress)
    requires !Meaning(data, cfg, parse).NeedMore?
    ensures Meaning(data + more, cfg, parse) == Meaning(data, cfg, parse)
  {
    var end := HeaderEnd(data);
    if end.Some? && end.value > cfg.maxHeader {
      HeaderEndStays(data, more);
    } else if end.Some? {
      HeaderEndStays(data, more);
      assert (data + more)[..end.value] == data[..end.value];
      JudgeStays(data, more, end.value, parse(data[..end.value]), cfg);
    } else if HeaderEnd(data + more).Some? {
      HeaderEndLater(data, more);
    }
  }

  // ------------------------------------------------------------------- sessions

  /** The bytes a parser has taken and what it has concluded from them. */
  datatype Session = Session(data: string, outcome: Outcome)

  const START := Session("", NeedMore)

  /** A concluded parser takes nothing more; bytes beyond the capacity are too many. */
  function Feed(s: Session, chunk: string, cfg: Config, parse: string -> Progress): Session
  {
    if !s.outcome.NeedMore? then s
    else if |s.data| + |chunk| > cfg.maxHeader + cfg.maxBody then s.(outcome := Failed(PayloadTooLarge))
    else Session(s.data + chunk, Meaning(s.data + chunk, cfg, parse))
  }

  function FeedAll(s: Session, chunks: seq<string>, cfg: Config, parse: string -> Progress): Session
    decreases |chunks|
  {
    if chunks == [] then s else FeedAll(Feed(s, chunks[0], cfg, parse), chunks[1..], cfg, parse)
  }

  function Concat(chunks: seq<string>): string
  {
    if chunks == [] then "" else chunks[0] + Concat(chunks[1..])
  }

  lemma {:induction false} ConcludedStays(s: Session, chunks: seq<string>, cfg: Config, parse: string -> Progress)
    requires !s.outcome.NeedMore?
    ensures FeedAll(s, chunks, cfg, parse) == s
    decreases |chunks|
  {
    if chunks != [] {
      ConcludedStays(s, chunks[1..], cfg, parse);
    }
  }

  lemma {:induction false} FeedsAdd(s: Session, chunks: seq<string>, cfg: Config, parse: string -> Progress)
    requires s.outcome.NeedMore? && s.outcome == Meaning(s.data, cfg, parse)
    requires |s.data| + |Concat(chunks)| <= cfg.maxHeader + cfg.maxBody
    ensures FeedAll(s, chunks, cfg, parse).outcome == Meaning(s.data + Concat(chunks), cfg, parse)
    decreases |chunks|
  {
    if chunks == [] {
      assert s.data + Concat(chunks) == s.data;
    } else {
      var next := Feed(s, chunks[0], cfg, parse);
      var rest := Concat(chunks[1..]);
      assert s.data + Concat(chunks) == (s.data + chunks[0]) + rest;
      if next.outcome.NeedMore? {
        FeedsAdd(next, chunks[1..], cfg, parse);
      } else {
        ConcludedStays(next, chunks[1..], cfg, parse);
        MeaningStays(s.data + chunks[0], rest, cfg, parse);
      }
    }
  }

  /** However the bytes are split, feeding the pieces one after the other ends as
      feeding them all at once does: the same status, error, request and body. */
  lemma FragmentationIndependence(chunks: seq<string>, cfg: Config, number: Numbers)
    requires |Concat(chunks)| <= cfg.maxHeader + cfg.maxBody
    ensures FeedAll(START, chunks, cfg, Parsing(cfg, number)).outcome
         == Feed(START, Concat(chunks), cfg, Parsing(cfg, number)).outcome
  {
    var parse := Parsing(cfg, number);
    assert START.data + Concat(chunks) == Concat(chunks);
    assert HeaderEnd("").None?;
    FeedsAdd(START, chunks, cfg, parse);
  }

  /** The bytes of the pieces up to the first that does not fit into the room. */
  function Fitting(chunks: seq<string>, room: int): string
    decreases |chunks|
  {
    if chunks == [] || |chunks[0]| > room then "" else chunks[0] + Fitting(chunks[1..], room - |chunks[0]|)
  }

  /** What the bytes that fit amount to, when others did not fit. */
  function Cut(m: Outcome): Outcome
  {
    if m.NeedMore? then Failed(PayloadTooLarge) else m
  }

  lemma {:induction false} FeedsOver(s: Session, chunks: seq<string>, cfg: Config, parse: string -> Progress)
    requires s.outcome.NeedMore? && s.outcome == Meaning(s.data, cfg, parse)
    requires |s.data| + |Concat(chunks)| > cfg.maxHeader + cfg.maxBody >= |s.data|
    ensures FeedAll(s, chunks, cfg, parse).outcome
         == Cut(Meaning(s.data + Fitting(chunks, cfg.maxHeader + cfg.maxBody - |s.data|), cfg, parse))
    decreases |chunks|
  {
    var room := cfg.maxHeader + cfg.maxBody - |s.data|;
    var next := Feed(s, chunks[0], cfg, parse);
    if |chunks[0]| > room {
      assert s.data + Fitting(chunks, room) == s.data;
      ConcludedStays(next, chunks[1..], cfg, parse);
    } else {
      var rest := Fitting(chunks[1..], room - |chunks[0]|);
      assert s.data + Fitting(chunks, room) == (s.data + chunks[0]) + rest;
      if next.outcome.NeedMore? {
        FeedsOver(next, chunks[1..], cfg, parse);
      } else {
        ConcludedStays(next, chunks[1..], cfg, parse);
        MeaningStays(s.data + chunks[0], rest, cfg, parse);
      }
    }
  }

  /** What pieces of any length amount to. */
  lemma PiecesMean(chunks: seq<string>, cfg: Config, number: Numbers)
    ensures var capacity, parse := cfg.maxHeader + cfg.maxBody, Parsing(cfg, number);
            FeedAll(START, chunks, cfg, parse).outcome ==
            if |Concat(chunks)| <= capacity then Feed(START, Concat(chunks), cfg, parse).outcome
            else Cut(Meaning(Fitting(chunks, capacity), cfg, parse))
  {
    var capacity, parse := cfg.maxHeader + cfg.maxBody, Parsing(cfg, number);
    if |Concat(chunks)| <= capacity {
      FragmentationIndependence(chunks, cfg, number);
    } else {
      assert HeaderEnd("").None?;
      assert START.data + Fitting(chunks, capacity) == Fitting(chunks, capacity);
      FeedsOver(START, chunks, cfg, parse);
    }
  }

  // -------------------------------------------------------- bytes that do not fit

  lemma {:induction false} FittingIsPrefix(chunks: seq<string>, room: nat)
    ensures |Fitting(chunks, room)| <= room && Fitting(chunks, room) <= Concat(chunks)
    decreases |chunks|
  {
    if chunks != [] && |chunks[0]| <= room {
      FittingIsPrefix(chunks[1..], room - |chunks[0]|);
    }
  }

  /** The first bytes and then the others. */
  lemma TwoPieces(data: string, n: nat)
    requires n < |data|
    ensures Concat([data[..n], data[n..]]) == data && Fitting([data[..n], data[n..]], n) == data[..n]
  {
    var chunks := [data[..n], data[n..]];
    assert chunks[1..] == [data[n..]] && [data[n..]][1..] == [];
    assert Concat([data[n..]]) == data[n..] + Concat([]) == data[n..];
    assert Fitting([data[n..]], 0) == "";
  }

  /** Every way of splitting the bytes ends as feeding them at once does. */
  ghost predicate SplitsAgree(data: string, cfg: Config, parse: string -> Progress)
  {
    forall chunks :: Concat(chunks) == data ==>
      FeedAll(START, chunks, cfg, parse).outcome == Feed(START, data, cfg, parse).outcome
  }

  /** What the bytes up to the header limit say: there is no head among them and a body
      is not allowed, or their head announces too long a body. */
  predicate TooLargeAnyway(data: string, cfg: Config, parse: string -> Progress)
    requires cfg.maxHeader <= |data|
  {
    var end := HeaderEnd(data[..cfg.maxHeader]);
    if end.None? then cfg.maxBody == 0 else parse(data[..end.value]).request.contentLength > cfg.maxBody
  }

  /** A head that parses announces a body that is allowed. */
  ghost predicate Bounds(cfg: Config, parse: string -> Progress)
  {
    forall head :: parse(head).ok ==> parse(head).request.contentLength <= cfg.maxBody
  }

  lemma ParsingBounds(cfg: Config, number: Numbers)
    ensures Bounds(cfg, Parsing(cfg, number))
  {
    forall head
      ensures Parsing(cfg, number)(head).ok ==> Parsing(cfg, number)(head).request.contentLength <= cfg.maxBody
    {
      assert Parsing(cfg, number)(head) == ParseHead(head, cfg, number);
    }
  }

  /** A prefix that fits settles on too large a payload, or on nothing. */
  lemma PrefixUnsettled(data: string, n: nat, cfg: Config, parse: string -> Progress)
    requires n <= cfg.maxHeader + cfg.maxBody < |data| && TooLargeAnyway(data, cfg, parse) && Bounds(cfg, parse)
    ensures Cut(Meaning(data[..n], cfg, parse)) == Failed(PayloadTooLarge)
  {
    var end := HeaderEnd(data[..cfg.maxHeader]);
    if n <= cfg.maxHeader {
      assert data[..cfg.maxHeader] == data[..n] + data[n..cfg.maxHeader];
      if HeaderEnd(data[..n]).Some? {
        HeaderEndStays(data[..n], data[n..cfg.maxHeader]);
        assert data[..n][..end.value] == data[..end.value];
      }
    } else {
      assert data[..n] == data[..cfg.maxHeader] + data[cfg.maxHeader..n];
      HeaderEndStays(data[..cfg.maxHeader], data[cfg.maxHeader..n]);
      assert data[..n][..end.value] == data[..end.value];
    }
  }

  /** Otherwise the prefix that just fits settles on something else. */
  lemma PrefixSettles(data: string, cfg: Config, parse: string -> Progress)
    requires cfg.maxHeader + cfg.maxBody < |data| && !TooLargeAnyway(data, cfg, parse)
    ensures Cut(Meaning(data[..cfg.maxHeader + cfg.maxBody], cfg, parse)) != Failed(PayloadTooLarge)
  {
    var n := cfg.maxHeader + cfg.maxBody;
    var end := HeaderEnd(data[..cfg.maxHeader]);
    assert data[..n] == data[..cfg.maxHeader] + data[cfg.maxHeader..n];
    if end.Some? {
      HeaderEndStays(data[..cfg.maxHeader], data[cfg.maxHeader..n]);
      assert data[..n][..end.value] == data[..end.value];
    } else if HeaderEnd(data[..n]).Some? {
      HeaderEndLater(data[..cfg.maxHeader], data[cfg.maxHeader..n]);
    }
  }

  lemma FittingUnsettled(data: string, chunks: seq<string>, cfg: Config, parse: string -> Progress)
    requires Concat(chunks) == data && cfg.maxHeader + cfg.maxBody < |data|
    requires TooLargeAnyway(data, cfg, parse) && Bounds(cfg, parse)
    ensures Cut(Meaning(Fitting(chunks, cfg.maxHeader + cfg.maxBody), cfg, parse)) == Failed(PayloadTooLarge)
  {
    var fitting := Fitting(chunks, cfg.maxHeader + cfg.maxBody);
    FittingIsPrefix(chunks, cfg.maxHeader + cfg.maxBody);
    assert fitting == data[..|fitting|];
    PrefixUnsettled(data, |fitting|, cfg, parse);
  }

  lemma PiecesOver(data: string, chunks: seq<string>, cfg: Config, number: Numbers)
    requires Concat(chunks) == data && cfg.maxHeader + cfg.maxBody < |data|
    requires TooLargeAnyway(data, cfg, Parsing(cfg, number))
    ensures FeedAll(START, chunks, cfg, Parsing(cfg, number)).outcome == Failed(PayloadTooLarge)
  {
    ParsingBounds(cfg, number);
    FittingUnsettled(data, chunks, cfg, Parsing(cfg, number));
    PiecesMean(chunks, cfg, number);
  }

  /** Exactly when the way bytes are split does not matter, for input of any length:
      they fit, or the bytes up to the header limit already make them too many. */
  lemma SplitMattersIff(data: string, cfg: Config, number: Numbers)
    ensures SplitsAgree(data, cfg, Parsing(cfg, number)) <==>
            |data| <= cfg.maxHeader + cfg.maxBody || TooLargeAnyway(data, cfg, Parsing(cfg, number))
  {
    var capacity, parse := cfg.maxHeader + cfg.maxBody, Parsing(cfg, number);
    if |data| <= capacity {
      forall chunks | Concat(chunks) == data
        ensures FeedAll(START, chunks, cfg, parse).outcome == Feed(START, data, cfg, parse).outcome
      {
        FragmentationIndependence(chunks, cfg, number);
      }
    } else if TooLargeAnyway(data, cfg, parse) {
      forall chunks | Concat(chunks) == data
        ensures FeedAll(START, chunks, cfg, parse).outcome == Feed(START, data, cfg, parse).outcome
      {
        PiecesOver(data, chunks, cfg, number);
      }
    } else {
      var chunks := [data[..capacity], data[capacity..]];
      TwoPieces(data, capacity);
      PiecesMean(chunks, cfg, number);
      PrefixSettles(data, cfg, parse);
    }
  }

  /** Three bytes for a parser that can hold two, one of them head. */
  lemma SplitMatters(number: Numbers)
    ensures var cfg := Config(1, 1, 1);
            && Kept(Some(cfg)) == cfg && Concat(["ab", "c"]) == "abc"
            && FeedAll(START, ["ab", "c"], cfg, Parsing(cfg, number)).outcome == Failed(HeaderTooLarge)
            && Feed(START, "abc", cfg, Parsing(cfg, number)).outcome == Failed(PayloadTooLarge)
  {
    var cfg := Config(1, 1, 1);
    var two := Session("ab", Failed(HeaderTooLarge));
    assert HeaderEnd("ab").None? && "" + "ab" == "ab";
    assert Feed(START, "ab", cfg, Parsing(cfg, number)) == two;
    assert ["ab", "c"][1..] == ["c"] && ["c"][1..] == [];
    ConcludedStays(two, ["c"], cfg, Parsing(cfg, number));
    assert Concat(["c"]) == "c" + Concat([]) == "c";
  }

  // --------------------------------------------------------- searching in a head

  /** The bytes after a line end do not matter for finding a line end. */
  lemma {:induction false} LineEndLocal(s: string, more: string)
    requires |s| >= 2 && s[|s| - 2] == '\r' && s[|s| - 1] == '\n'
    ensures LineEnd(s + more) == LineEnd(s)
  {
    if s[0] != NUL && !(s[0] == '\r' && s[1] == '\n') {
      assert (s + more)[1..] == s[1..] + more;
      LineEndLocal(s[1..], more);
    }
  }

  lemma {:induction false} LineEndFirst(s: string, k: nat)
    requires k + 2 <= |s| && s[k] == '\r' && s[k + 1] == '\n' && LineEnd(s).Some?
    ensures LineEnd(s).value <= k
  {
    if k > 0 && !(s[0] == '\r' && s[1] == '\n') {
      LineEndFirst(s[1..], k - 1);
    }
  }

  predicate NoNul(s: string)
  {
    forall i :: 0 <= i < |s| ==> s[i] != NUL
  }

  /** A search ends at the NUL that ends the string. */
  lemma {:induction false} IndexOfLocal(s: string, more: string, c: char)
    requires NoNul(s) && more != "" && more[0] == NUL
    ensures IndexOf(s + more, c) == IndexOf(s, c)
  {
    if s == "" {
      assert s + more == more;
    } else if s[0] != c {
      assert (s + more)[1..] == s[1..] + more;
      IndexOfLocal(s[1..], more, c);
    }
  }
}
