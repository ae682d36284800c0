/** The parser itself: one buffer that grows with every feed, parsed in place by
    writing NULs over separators as soon as the head is complete. */
module HttpParser {
  import opened Common
  import opened HttpMessage

  // ------------------------------------------------------- C string operations

  function Shift(r: Option<nat>, n: int): Option<nat>
    requires n >= 0
  {
    if r.None? then None else Some(r.value + n)
  }

  predicate EndsLine(s: string, i: nat)
  {
    i + 1 < |s| && s[i] == '\r' && s[i + 1] == '\n'
  }

  /** The search passes over everything before i that is neither NUL nor a line end. */
  lemma {:induction false} LineEndIs(s: string, i: nat)
    requires i <= |s| && forall j :: 0 <= j < i ==> s[j] != NUL && !EndsLine(s, j)
    ensures i < |s| && s[i] != NUL && EndsLine(s, i) ==> LineEnd(s) == Some(i)
    ensures i == |s| || s[i] == NUL ==> LineEnd(s) == None
    decreases |s|
  {
    if i > 0 {
      assert !EndsLine(s, 0);
      forall j | 0 <= j < i - 1
        ensures s[1..][j] != NUL && !EndsLine(s[1..], j)
      {
        assert s[j + 1] != NUL && !EndsLine(s, j + 1);
      }
      LineEndIs(s[1..], i - 1);
    }
  }

  /** Finds the next line end in the string that starts at from and ends at the
      first NUL. */
  method FindLineEnd(b: array<char>, from: nat, length: nat) returns (r: Option<nat>)
    requires from <= length < b.Length && b[length] == NUL
    ensures r == LineEnd(b[from..length])
  {
    ghost var s := b[from..length];
    var i := 0;
    while b[from + i] != NUL
      invariant 0 <= i <= |s|
      invariant forall j :: 0 <= j < i ==> s[j] != NUL && !EndsLine(s, j)
      decreases |s| - i
    {
      assert s[i] == b[from + i] && (i + 1 < |s| ==> s[i + 1] == b[from + i + 1]);
      LineEndIs(s, i);
      if b[from + i] == '\r' && b[from + i + 1] == '\n' {
        return Some(i);
      }
      i := i + 1;
    }
    assert i < |s| ==> s[i] == b[from + i];
    LineEndIs(s, i);
    r := None;
  }

  lemma {:induction false} IndexOfIs(s: string, i: nat, c: char)
    requires i <= |s| && forall j :: 0 <= j < i ==> s[j] != NUL && s[j] != c
    ensures i < |s| && s[i] != NUL && s[i] == c ==> IndexOf(s, c) == Some(i)
    ensures i == |s| || s[i] == NUL ==> IndexOf(s, c) == None
    decreases |s|
  {
    if i > 0 {
      IndexOfIs(s[1..], i - 1, c);
    }
  }

  method FindChar(b: array<char>, from: nat, length: nat, c: char) returns (r: Option<nat>)
    requires from <= length < b.Length && b[length] == NUL && c != NUL
    ensures r == IndexOf(b[from..length], c)
  {
    ghost var s := b[from..length];
    var i := 0;
    while b[from + i] != NUL
      invariant 0 <= i <= |s|
      invariant forall j :: 0 <= j < i ==> s[j] != NUL && s[j] != c
      decreases |s| - i
    {
      assert s[i] == b[from + i];
      IndexOfIs(s, i, c);
      if b[from + i] == c {
        return Some(i);
      }
      i := i + 1;
    }
    assert i < |s| ==> s[i] == b[from + i];
    IndexOfIs(s, i, c);
    r := None;
  }

  /** Whether the text is at from; a NUL ends the comparison. */
  method StartsWith(b: array<char>, from: nat, to: nat, text: string) returns (r: bool)
    requires from <= to < b.Length && b[to] == NUL && NoNul(text)
    ensures r <==> from + |text| <= to && b[from..from + |text|] == text
  {
    var i := 0;
    while i < |text| && b[from + i] == text[i]
      invariant i <= |text| && from + i <= to && b[from..from + i] == text[..i]
    {
      assert b[from..from + i + 1] == b[from..from + i] + [b[from + i]];
      i := i + 1;
    }
    r := i == |text|;
    if i < |text| && from + |text| <= to {
      assert b[from..from + |text|][i] == b[from + i];
    }
  }

  /** Compares the string from from to its NUL at to. */
  method Equals(b: array<char>, from: nat, to: nat, text: string) returns (r: bool)
    requires from <= to < b.Length && b[to] == NUL && NoNul(text) && NoNul(b[from..to])
    ensures r <==> b[from..to] == text
  {
    r := StartsWith(b, from, to, text);
    if r {
      r := b[from + |text|] == NUL;
      if from + |text| < to {
        assert b[from..to][|text|] == b[from + |text|];
      }
    } else {
      assert b[from..to] == text ==> |text| == to - from;
    }
  }

  /** Narrows a range to leave out the spaces at both ends. */
  method TrimRange(b: array<char>, from: nat, to: nat) returns (start: nat, end: nat)
    requires from <= to <= b.Length
    ensures from <= start <= end <= to && b[start..end] == Trim(b[from..to])
  {
    start, end := from, to;
    while start < end && IsSpace(b[start])
      invariant from <= start <= end == to
      invariant TrimLeft(b[start..end]) == TrimLeft(b[from..to])
    {
      assert b[start..end][1..] == b[start + 1..end];
      start := start + 1;
    }
    assert TrimLeft(b[start..end]) == b[start..end];
    while end > start && IsSpace(b[end - 1])
      invariant start <= end <= to
      invariant TrimRight(b[start..end]) == Trim(b[from..to])
    {
      assert b[start..end][..end - 1 - start] == b[start..end - 1];
      end := end - 1;
    }
  }

  method EqualsIgnoringCase(a: string, b: string) returns (r: bool)
    ensures r <==> SameIgnoringCase(a, b)
  {
    var i := 0;
    while i < |a| && i < |b|
      invariant i <= |a| && i <= |b|
      invariant forall j :: 0 <= j < i ==> Lower(a[j]) == Lower(b[j])
    {
      if Lower(a[i]) != Lower(b[i]) {
        return false;
      }
      i := i + 1;
    }
    r := i == |a| && i == |b|;
  }

  method FindHeaderEnd(b: array<char>, length: nat) returns (r: Option<nat>)
    requires length <= b.Length
    ensures r == HeaderEnd(b[..length])
    ensures r.Some? ==> 4 <= r.value <= length && EndsHead(b[..r.value])
  {
    var i := 0;
    while i + 3 < length
      invariant i <= length
      invariant HeaderEnd(b[..length]) == Shift(HeaderEnd(b[i..length]), i)
    {
      if b[i] == '\r' && b[i + 1] == '\n' && b[i + 2] == '\r' && b[i + 3] == '\n' {
        return Some(i + 4);
      }
      assert b[i..length][1..] == b[i + 1..length];
      i := i + 1;
    }
    Short(b[i..length]);
    r := None;
  }

  lemma {:induction false} Short(s: string)
    requires |s| < 4
    ensures HeaderEnd(s).None?
  {
    if s != "" {
      Short(s[1..]);
    }
  }

  // --------------------------------------------------------------- request line

  /** Finds c in the string that ends at the NUL at end and ends the string there. */
  method CutAt(b: array<char>, from: nat, end: nat, length: nat, c: char) returns (r: Option<nat>)
    requires from <= end < length < b.Length && b[end] == NUL && b[length] == NUL
    requires NoNul(b[from..end]) && c != NUL
    modifies b
    ensures r == IndexOf(old(b[from..end]), c)
    ensures b[..] == if r.Some? then old(b[..])[from + r.value := NUL] else old(b[..])
  {
    r := FindChar(b, from, length, c);
    assert b[from..length][..end - from] == b[from..end];
    SearchInLine(b[from..length], end - from, c);
    if r.Some? {
      b[from + r.value] := NUL;
    }
  }

  /** Ends the method and the path of the line with NULs, where its spaces are. */
  method CutLine(b: array<char>, end: nat, length: nat, max: nat) returns (i: Option<nat>, j: Option<nat>)
    requires end < length < b.Length && b[end] == NUL && b[length] == NUL && NoNul(b[..end])
    modifies b
    ensures i == Within(IndexOf(old(b[..end]), ' '), max)
    ensures j == if i.None? then None else IndexOf(old(b[..end])[i.value + 1..], ' ')
    ensures i.Some? && j.Some? ==>
              i.value + 1 + j.value < end && b[..] == old(b[..])[i.value := NUL][i.value + 1 + j.value := NUL]
    ensures b[end..] == old(b[end..])
  {
    ghost var line := b[..end];
    j := None;
    assert b[0..end] == line;
    i := CutAt(b, 0, end, length, ' ');
    if i.None? || i.value > max {
      return None, None;
    }
    assert b[i.value + 1..end] == line[i.value + 1..];
    j := CutAt(b, i.value + 1, end, length, ' ');
  }

  function Within(r: Option<nat>, max: nat): Option<nat>
  {
    if r.Some? && r.value > max then None else r
  }

  /** Parses the line that ends at the NUL at end, overwriting its two spaces. */
  method ParseRequestLine(b: array<char>, end: nat, length: nat, max: nat) returns (r: Option<Request>)
    requires end < length < b.Length && b[end] == NUL && b[length] == NUL && NoNul(b[..end])
    modifies b
    ensures r == RequestLine(old(b[..end]), max)
    ensures b[end..] == old(b[end..])
  {
    ghost var before := b[..];
    assert before[..end] == b[..end];
    var i, j := CutLine(b, end, length, max);
    if i.None? || j.None? {
      return None;
    }
    r := JudgeLine(b, before, i.value, j.value, end, max);
  }

  /** Judges the line that was there before it was cut at its two spaces. */
  method JudgeLine(b: array<char>, ghost before: string, i: nat, j: nat, end: nat, max: nat)
    returns (r: Option<Request>)
    requires i + 1 + j < end < |before| && before[end] == NUL && NoNul(before[..end])
    requires b[..] == before[i := NUL][i + 1 + j := NUL]
    requires Within(IndexOf(before[..end], ' '), max) == Some(i) && IndexOf(before[..end][i + 1..], ' ') == Some(j)
    ensures r == RequestLine(before[..end], max)
  {
    CutTwice(before, b[..], end, i, j);
    RequestLineIs(before[..end], max, i, j);
    r := JudgeCut(b, b[..], i, j, end);
  }

  lemma RequestLineIs(line: string, max: nat, i: nat, j: nat)
    requires Within(IndexOf(line, ' '), max) == Some(i) && i < |line|
    requires IndexOf(line[i + 1..], ' ') == Some(j) && j < |line[i + 1..]|
    ensures RequestLine(line, max) == Judged(line[..i], line[i + 1..][..j], line[i + 1..][j + 1..])
  {
  }

  /** Judges the line that has been cut at i and behind that at j. */
  method JudgeCut(b: array<char>, ghost s: string, i: nat, j: nat, end: nat) returns (r: Option<Request>)
    requires s == b[..] && i + 1 + j < end < b.Length && s[i] == NUL && s[i + 1 + j] == NUL && s[end] == NUL
    requires NoNul(s[..i]) && NoNul(s[i + 1..i + 1 + j]) && NoNul(s[i + j + 2..end])
    ensures r == Judged(s[..i], s[i + 1..i + 1 + j], s[i + j + 2..end])
  {
    assert b[..i] == s[..i] && b[i + 1..i + 1 + j] == s[i + 1..i + 1 + j] && b[i + j + 2..end] == s[i + j + 2..end];
    r := JudgeRequestLine(b, i, i + 1, j, i + j + 2, end);
  }

  lemma CutTwice(before: string, after: string, end: nat, i: nat, j: nat)
    requires end < |before| && i + 1 + j < end && before[end] == NUL && NoNul(before[..end])
    requires after == before[i := NUL][i + 1 + j := NUL]
    ensures after[i] == NUL && after[i + 1 + j] == NUL && after[end] == NUL && after[end..] == before[end..]
    ensures after[..i] == before[..end][..i] && NoNul(after[..i])
    ensures var rest := before[..end][i + 1..];
            && after[i + 1..i + 1 + j] == rest[..j] && NoNul(after[i + 1..i + 1 + j])
            && after[i + j + 2..end] == rest[j + 1..] && NoNul(after[i + j + 2..end])
  {
  }

  lemma SearchInLine(s: string, end: nat, c: char)
    requires end < |s| && s[end] == NUL && NoNul(s[..end])
    ensures IndexOf(s, c) == IndexOf(s[..end], c)
  {
    assert s == s[..end] + s[end..];
    IndexOfLocal(s[..end], s[end..], c);
  }

  /** Judges the three strings of the request line where they stand. */
  method JudgeRequestLine(b: array<char>, n: nat, path: nat, m: nat, version: nat, end: nat)
    returns (r: Option<Request>)
    requires path == n + 1 && version == path + m + 1 && version <= end < b.Length
    requires b[n] == NUL && b[path + m] == NUL && b[end] == NUL
    requires NoNul(b[..n]) && NoNul(b[path..path + m]) && NoNul(b[version..end])
    ensures r == Judged(b[..n], b[path..path + m], b[version..end])
  {
    var minor := ReadVersion(b, version, end);
    if minor.None? {
      return None;
    }
    var get := Equals(b, 0, n, "GET");
    var post := Equals(b, 0, n, "POST");
    var head := Equals(b, 0, n, "HEAD");
    assert b[0..n] == b[..n];
    if !get && !post && !head {
      return None;
    }
    if b[path] != '/' || m == 0 || m >= MAX_PATH {
      return None;
    }
    r := Some(Request(b[..n], b[path..path + m], minor.value, [], 0, minor.value == 1));
  }

  method ReadVersion(b: array<char>, from: nat, to: nat) returns (minor: Option<nat>)
    requires from <= to < b.Length && b[to] == NUL && NoNul(b[from..to])
    ensures minor == (if b[from..to] == "HTTP/1.0" then Some(0)
                      else if b[from..to] == "HTTP/1.1" then Some(1) else None)
  {
    ghost var s := b[from..to];
    assert forall k :: 0 <= k < |s| ==> s[k] == b[from + k];
    assert "HTTP/1.0"[..7] == "HTTP/1.1"[..7] == "HTTP/1.";
    var ok := StartsWith(b, from, to, "HTTP/1.");
    if !ok {
      return None;
    }
    assert s[..7] == "HTTP/1.";
    if (b[from + 7] != '0' && b[from + 7] != '1') || b[from + 8] != NUL {
      return None;
    }
    assert |s| == 8;
    assert s == s[..7] + [s[7]];
    minor := Some(if b[from + 7] == '1' then 1 else 0);
  }

  // -------------------------------------------------------------------- headers

  /** Searches the line that ends at the NUL at end. */
  method FindInLine(b: array<char>, from: nat, end: nat, length: nat, c: char) returns (r: Option<nat>)
    requires from <= end < length < b.Length && b[end] == NUL && b[length] == NUL && NoNul(b[from..end]) && c != NUL
    ensures r == IndexOf(b[from..end], c)
  {
    r := FindChar(b, from, length, c);
    ghost var s := b[from..length];
    assert s[..end - from] == b[from..end] && s[end - from] == NUL;
    SearchInLine(s, end - from, c);
  }

  /** Parses the header line that ends at the NUL at end. */
  method ParseHeaderLine(b: array<char>, from: nat, end: nat, length: nat) returns (h: Option<Header>)
    requires from < end < length < b.Length && b[end] == NUL && b[length] == NUL && NoNul(b[from..end])
    ensures h == HeaderLine(b[from..end])
  {
    ghost var line := b[from..end];
    var colon := FindInLine(b, from, end, length, ':');
    HeaderLineIs(line, colon);
    if colon.None? || colon.value == 0 {
      return None;
    }
    var k := from + colon.value;
    assert b[from..k] == line[..colon.value] && b[k + 1..end] == line[colon.value + 1..];
    h := TrimHeader(b, from, k, end);
  }

  lemma HeaderLineIs(line: string, colon: Option<nat>)
    requires IndexOf(line, ':') == colon
    ensures HeaderLine(line) == if colon.None? || colon.value == 0 then None
                                else HeaderOf(Trim(line[..colon.value]), Trim(line[colon.value + 1..]))
  {
  }

  /** The header whose colon is at k. */
  method TrimHeader(b: array<char>, from: nat, k: nat, end: nat) returns (h: Option<Header>)
    requires from <= k < end <= b.Length
    ensures h == HeaderOf(Trim(b[from..k]), Trim(b[k + 1..end]))
  {
    var nameStart, nameEnd := TrimRange(b, from, k);
    var valueStart, valueEnd := TrimRange(b, k + 1, end);
    if nameEnd - nameStart == 0 || nameEnd - nameStart >= MAX_HEADER_NAME
       || valueEnd - valueStart == 0 || valueEnd - valueStart >= MAX_HEADER_VALUE {
      return None;
    }
    h := Some(Header(b[nameStart..nameEnd], b[valueStart..valueEnd]));
  }

  method FindTopic(h: Header) returns (topic: Topic)
    ensures topic == TopicOf(h)
  {
    topic := Other;
    var isLength := EqualsIgnoringCase(h.name, CONTENT_LENGTH);
    if isLength {
      return Length;
    }
    var isConnection := EqualsIgnoringCase(h.name, CONNECTION);
    if isConnection {
      var close := EqualsIgnoringCase(h.value, CLOSE);
      var keep := EqualsIgnoringCase(h.value, KEEP_ALIVE);
      topic := if close then Close else if keep then KeepAlive else Other;
    }
  }

  method ApplyHeader(p: Progress, h: Header, topic: Topic, number: Numbers) returns (q: Progress)
    ensures q == Apply(p, h, topic, number)
  {
    var r := p.request.(headers := p.request.headers + [h]);
    q := Progress(r, p.saw, true);
    match topic {
      case Length =>
        if p.saw || number(h.value).None? {
          q := Progress(r, p.saw, false);
        } else {
          q := Progress(r.(contentLength := number(h.value).value), true, true);
        }
      case Close => q := Progress(r.(keepAlive := false), p.saw, true);
      case KeepAlive => q := Progress(r.(keepAlive := true), p.saw, true);
      case Other =>
    }
  }

  /** A head ends with an empty line. */
  predicate EndsHead(head: string)
  {
    && |head| >= 4
    && head[|head| - 4] == head[|head| - 2] == '\r' && head[|head| - 3] == head[|head| - 1] == '\n'
  }

  /** A line of the head starts here: before the last line end, or at the empty line. */
  predicate LineStart(head: string, cursor: int)
  {
    0 <= cursor <= |head| - 4 || (cursor == |head| - 2 && cursor >= 0)
  }

  /** The next line end is found within the head, and the next line starts after it. */
  lemma NextLine(head: string, more: string, cursor: nat)
    requires EndsHead(head) && LineStart(head, cursor)
    ensures LineEnd((head + more)[cursor..]) == LineEnd(head[cursor..])
    ensures var end := LineEnd(head[cursor..]);
            end.Some? ==> cursor + end.value <= |head| - 2 &&
                          (end.value > 0 ==>
                             cursor + end.value <= |head| - 4 && LineStart(head, cursor + end.value + 2))
  {
    var s := head[cursor..];
    assert (head + more)[cursor..] == s + more;
    LineEndLocal(s, more);
    var end := LineEnd(s);
    if end.Some? && cursor <= |head| - 4 {
      LineEndFirst(s, |head| - 4 - cursor);
    }
  }

  /** Ends the header line at cursor with a NUL and parses it. */
  method TakeHeader(b: array<char>, cursor: nat, end: nat, length: nat, p: Progress, number: Numbers)
    returns (q: Progress)
    requires cursor < end < length < b.Length && b[length] == NUL && NoNul(b[cursor..end])
    modifies b
    ensures b[..] == old(b[..])[end := NUL]
    ensures q == Taking(number)(old(b[cursor..end]), p)
  {
    ghost var line := b[cursor..end];
    b[end] := NUL;
    assert b[cursor..end] == line;
    var h := ParseHeaderLine(b, cursor, end, length);
    if h.None? {
      return p.(ok := false);
    }
    var topic := FindTopic(h.value);
    q := ApplyHeader(p, h.value, topic, number);
  }

  /** From cursor on, the buffer still holds the bytes as they came. */
  ghost predicate Intact(buffer: string, data: string, cursor: int)
  {
    |data| < |buffer| && 0 <= cursor <= |data| && buffer[cursor..|data|] == data[cursor..] && buffer[|data|] == NUL
  }

  lemma LineIs(buffer: string, data: string, head: string, cursor: nat, n: nat)
    requires Intact(buffer, data, cursor) && |head| <= |data| && head == data[..|head|] && cursor + n <= |head|
    ensures buffer[cursor..cursor + n] == head[cursor..][..n]
  {
    assert buffer[cursor..cursor + n] == buffer[cursor..|data|][..n];
    assert head[cursor..][..n] == data[cursor..][..n];
  }

  lemma StillIntact(buffer: string, data: string, cursor: nat, end: nat)
    requires Intact(buffer, data, cursor) && cursor <= end && end + 2 <= |data|
    ensures Intact(buffer[end := NUL], data, end + 2)
  {
    assert buffer[end + 2..|data|] == buffer[cursor..|data|][end + 2 - cursor..];
    assert data[end + 2..] == data[cursor..][end + 2 - cursor..];
    assert buffer[end := NUL][end + 2..|data|] == buffer[end + 2..|data|];
  }

  lemma SameSearch(buffer: string, data: string, head: string, cursor: nat)
    requires Intact(buffer, data, cursor) && |head| <= |data| && head == data[..|head|]
    requires EndsHead(head) && LineStart(head, cursor)
    ensures LineEnd(buffer[cursor..|data|]) == LineEnd(head[cursor..])
  {
    assert data == head + data[|head|..];
    NextLine(head, data[|head|..], cursor);
  }

  /** One pass of the loop over the header lines: stop, or go on after a line. */
  datatype Pass = Stop(result: Progress) | GoOn(cursor: nat, soFar: Progress)

  function LinePass(s: string, cursor: nat, p: Progress, take: Taker): Pass
  {
    var end := LineEnd(s);
    if end.None? then Stop(p.(ok := false))
    else if end.value == 0 then Stop(p)
    else if |p.request.headers| >= MAX_HEADERS then Stop(p.(ok := false))
    else
      var next := take(s[..end.value], p);
      if !next.ok then Stop(next) else GoOn(cursor + end.value + 2, next)
  }

  lemma PassIs(head: string, cursor: nat, p: Progress, take: Taker)
    requires cursor <= |head|
    ensures var pass := LinePass(head[cursor..], cursor, p, take);
            && (pass.GoOn? ==> cursor < pass.cursor <= |head| && pass.soFar.ok)
            && HeaderLines(head[cursor..], p, take) ==
               if pass.Stop? then pass.result else HeaderLines(head[pass.cursor..], pass.soFar, take)
  {
    var end := LineEnd(head[cursor..]);
    if end.Some? {
      assert head[cursor..][end.value + 2..] == head[cursor + end.value + 2..];
    }
  }

  /** The header line of n characters at cursor. */
  method StepHeader(b: array<char>, cursor: nat, n: nat, ghost data: string, ghost head: string,
                    length: nat, p: Progress, number: Numbers)
    returns (q: Progress)
    requires length == |data| && |head| <= |data| && head == data[..|head|] && Intact(b[..], data, cursor)
    requires cursor + n + 2 <= |head| && LineEnd(head[cursor..]) == Some(n) && n > 0
    modifies b
    ensures Intact(b[..], data, cursor + n + 2) && b[|head|..] == old(b[|head|..])
    ensures q == Taking(number)(head[cursor..][..n], p)
  {
    var end := cursor + n;
    LineIs(b[..], data, head, cursor, n);
    StillIntact(b[..], data, cursor, end);
    assert b[..][cursor..end] == b[cursor..end];
    q := TakeHeader(b, cursor, end, length, p, number);
  }

  /** Finds the line end without looking beyond the head. */
  method FindInHead(b: array<char>, cursor: nat, ghost data: string, ghost head: string, length: nat)
    returns (r: Option<nat>)
    requires length == |data| && |head| <= |data| && head == data[..|head|] && Intact(b[..], data, cursor)
    requires EndsHead(head) && LineStart(head, cursor)
    ensures r == LineEnd(head[cursor..])
    ensures r.Some? && r.value > 0 ==> cursor + r.value + 4 <= |head| && LineStart(head, cursor + r.value + 2)
  {
    assert b[..][cursor..length] == b[cursor..length] && b[..][length] == b[length];
    SameSearch(b[..], data, head, cursor);
    NextLine(head, "", cursor);
    r := FindLineEnd(b, cursor, length);
  }

  /** One line of the headers: the line end found, or the end of the search. */
  method NextHeader(b: array<char>, cursor: nat, ghost data: string, ghost head: string,
                    length: nat, p: Progress, number: Numbers)
    returns (pass: Pass)
    requires length == |data| && |head| <= |data| && head == data[..|head|] && Intact(b[..], data, cursor)
    requires EndsHead(head) && LineStart(head, cursor)
    modifies b
    ensures pass == LinePass(head[cursor..], cursor, p, Taking(number))
    ensures pass.GoOn? ==> LineStart(head, pass.cursor) && Intact(b[..], data, pass.cursor)
    ensures b[|head|..] == old(b[|head|..])
  {
    var r := FindInHead(b, cursor, data, head, length);
    if r.None? {
      return Stop(p.(ok := false));
    }
    if r.value == 0 {
      return Stop(p);
    }
    if |p.request.headers| >= MAX_HEADERS {
      return Stop(p.(ok := false));
    }
    var q := StepHeader(b, cursor, r.value, data, head, length, p, number);
    pass := if q.ok then GoOn(cursor + r.value + 2, q) else Stop(q);
  }

  /** Parses the header lines of a head in place, up to the empty line. */
  method ParseHeaders(b: array<char>, start: nat, ghost data: string, ghost head: string,
                    length: nat, p0: Progress, number: Numbers)
    returns (p: Progress)
    requires length == |data| && |head| <= |data| && head == data[..|head|] && Intact(b[..], data, start) && p0.ok
    requires EndsHead(head) && LineStart(head, start)
    modifies b
    ensures p == HeaderLines(head[start..], p0, Taking(number))
    ensures b[|head|..] == old(b[|head|..])
  {
    ghost var goal := HeaderLines(head[start..], p0, Taking(number));
    var pass := GoOn(start, p0);
    while pass.GoOn?
      invariant pass.GoOn? ==> LineStart(head, pass.cursor) && Intact(b[..], data, pass.cursor)
      invariant goal == if pass.Stop? then pass.result else HeaderLines(head[pass.cursor..], pass.soFar, Taking(number))
      invariant b[|head|..] == old(b[|head|..])
      decreases pass.GoOn?, if pass.GoOn? then |head| - pass.cursor else 0
    {
      PassIs(head, pass.cursor, pass.soFar, Taking(number));
      pass := NextHeader(b, pass.cursor, data, head, length, pass.soFar, number);
    }
    p := pass.result;
  }

  // ----------------------------------------------------------------------- head

  lemma HeadStart(buffer: string, data: string, head: string)
    requires |data| < |buffer| && buffer[..|data|] == data && buffer[|data|] == NUL
    requires |head| <= |data| && head == data[..|head|] && EndsHead(head)
    ensures Intact(buffer, data, 0) && LineStart(head, 0)
  {
    assert buffer[0..|data|] == data[0..];
  }

  /** Ends the request line with a NUL and parses it. */
  method TakeRequestLine(b: array<char>, ghost data: string, ghost head: string, length: nat, max: nat)
    returns (end: Option<nat>, line: Option<Request>)
    requires length == |data| < b.Length && b[..length] == data && b[length] == NUL
    requires |head| <= |data| && head == data[..|head|] && EndsHead(head)
    modifies b
    ensures end == Within(LineEnd(head), max)
    ensures end.Some? ==>
              && end.value + 2 <= |head| && LineStart(head, end.value + 2) && Intact(b[..], data, end.value + 2)
              && line == RequestLine(head[..end.value], max)
    ensures b[|head|..] == old(b[|head|..])
  {
    ghost var before := b[..];
    line := None;
    HeadStart(b[..], data, head);
    assert head[0..] == head;
    end := FindInHead(b, 0, data, head, length);
    if end.None? || end.value > max {
      return None, None;
    }
    if end.value == 0 {
      FirstLineEmpty(head);
    }
    StillIntact(b[..], data, 0, end.value);
    b[end.value] := NUL;
    assert b[..end.value] == head[..end.value];
    ghost var cut := b[..];
    assert cut == before[end.value := NUL];
    line := ParseRequestLine(b, end.value, length, max);
    KeptTail(cut, b[..], data, end.value, |head|);
  }

  lemma FirstLineEmpty(head: string)
    requires EndsHead(head) && LineEnd(head) == Some(0)
    ensures LineStart(head, 2)
  {
  }

  lemma KeptTail(cut: string, after: string, data: string, end: nat, headEnd: nat)
    requires |cut| == |after| && end + 2 <= headEnd <= |data| && Intact(cut, data, end + 2)
    requires after[end..] == cut[end..]
    ensures Intact(after, data, end + 2) && after[headEnd..] == cut[headEnd..]
  {
    forall k | end <= k < |after|
      ensures after[k] == cut[k]
    {
      assert after[k] == after[end..][k - end] && cut[k] == cut[end..][k - end];
    }
    assert after[end + 2..|data|] == cut[end + 2..|data|];
  }

  lemma HeadIs(head: string, cfg: Config, number: Numbers, end: Option<nat>, line: Option<Request>)
    requires end == Within(LineEnd(head), cfg.maxRequestLine)
    requires end.Some? ==> line == RequestLine(head[..end.value], cfg.maxRequestLine)
    ensures ParseHead(head, cfg, number) ==
            if end.None? || line.None? then Progress(BLANK, false, false)
            else Bounded(HeaderLines(head[end.value + 2..],
                         Progress(line.value, false, true), Taking(number)), cfg.maxBody)
  {
  }

  /** Parses the head in place; nothing beyond the head is looked at or changed. */
  method ParseHeadInPlace(b: array<char>, ghost data: string, headerEnd: nat, length: nat, cfg: Config, number: Numbers)
    returns (p: Progress)
    requires length == |data| < b.Length && b[..length] == data && b[length] == NUL
    requires 4 <= headerEnd <= length && EndsHead(data[..headerEnd])
    modifies b
    ensures p == ParseHead(data[..headerEnd], cfg, number)
    ensures b[headerEnd..] == old(b[headerEnd..])
  {
    ghost var head := data[..headerEnd];
    var end, line := TakeRequestLine(b, data, head, length, cfg.maxRequestLine);
    HeadIs(head, cfg, number, end, line);
    if end.None? || line.None? {
      return Progress(BLANK, false, false);
    }
    p := ParseHeaders(b, end.value + 2, data, head, length, Progress(line.value, false, true), number);
    if p.ok {
      b[headerEnd - 4] := '\r';
      if p.request.contentLength > cfg.maxBody {
        p := p.(ok := false);
      }
    }
  }

  // --------------------------------------------------------------------- parser

  class Parser {
    const cfg: Config
    const number: Numbers
    const buffer: array<char>
    var length: nat
    var headerEnd: nat
    var request: Request
    var error: Option<Error>
    var complete: bool
    ghost var data: string       // the bytes taken, as they came

    ghost const parse: string -> Progress

    /** parse is what heads mean under the configuration. */
    ghost predicate Standard()
    {
      forall head {:trigger ParseHead(head, cfg, number)} :: parse(head) == ParseHead(head, cfg, number)
    }

    /** What the parser tells its caller. */
    ghost function Told(): Outcome
      requires headerEnd <= buffer.Length
      requires complete ==> headerEnd + request.contentLength <= buffer.Length
      reads this, buffer
    {
      if error.Some? then Failed(error.value)
      else if complete then Complete(request, buffer[headerEnd..headerEnd + request.contentLength])
      else NeedMore
    }

    ghost predicate Valid()
      reads this, buffer
    {
      && buffer.Length == cfg.maxHeader + cfg.maxBody + 1
      && length == |data| < buffer.Length && headerEnd <= length
      && (complete ==> headerEnd + request.contentLength <= buffer.Length)
      && (error.None? && headerEnd == 0 ==>
            !complete && buffer[..length] == data && HeaderEnd(data).None?)
      && (error.None? && headerEnd > 0 ==>
            && HeaderEnd(data) == Some(headerEnd) && headerEnd <= cfg.maxHeader
            && buffer[headerEnd..length] == data[headerEnd..]
            && parse(data[..headerEnd]).ok && parse(data[..headerEnd]).request == request)
    }

    /** The parser has concluded what its bytes mean, or the bytes were too many. */
    ghost predicate Honest()
      reads this, buffer
      requires Valid()
    {
      Told() == Meaning(data, cfg, parse) || Told() == Failed(PayloadTooLarge)
    }

    constructor (given: Option<Config>, number: Numbers)
      ensures Valid() && Honest() && data == "" && Told() == NeedMore && fresh(buffer)
      ensures cfg == Kept(given) && this.number == number && parse == Parsing(cfg, number) && Standard()
    {
      var cfg := Kept(given);
      this.cfg, this.number, parse := cfg, number, Parsing(cfg, number);
      buffer := new char[cfg.maxHeader + cfg.maxBody + 1];
      length, headerEnd, request, error, complete, data := 0, 0, BLANK, None, false, "";
    }

    /** Puts the chunk behind the bytes already there, and a NUL behind it. */
    method Append(chunk: string)
      requires headerEnd <= length == |data| && length + |chunk| < buffer.Length
      modifies buffer, `length, `data
      ensures length == |data| && data == old(data) + chunk && buffer[length] == NUL
      ensures buffer[headerEnd..length] == old(buffer[headerEnd..length]) + chunk
    {
      forall i | 0 <= i < |chunk| {
        buffer[length + i] := chunk[i];
      }
      assert buffer[headerEnd..length + |chunk|] == old(buffer[headerEnd..length]) + chunk;
      length := length + |chunk|;
      buffer[length] := NUL;
      data := data + chunk;
    }

    /** Parses the head, which is complete and not too long. */
    method ReadHead()
      requires length == |data| < buffer.Length && buffer[..length] == data && buffer[length] == NUL
      requires 4 <= headerEnd <= length && EndsHead(data[..headerEnd]) && error.None? && Standard()
      modifies buffer, `error, `request
      ensures buffer[headerEnd..length] == data[headerEnd..] && request == parse(data[..headerEnd]).request
      ensures error == if parse(data[..headerEnd]).ok then None
                       else Some(if request.contentLength > cfg.maxBody then PayloadTooLarge else BadRequest)
    {
      ghost var tail := buffer[headerEnd..];
      assert tail[..length - headerEnd] == data[headerEnd..];
      var p := ParseHeadInPlace(buffer, data, headerEnd, length, cfg, number);
      assert buffer[headerEnd..length] == buffer[headerEnd..][..length - headerEnd];
      request := p.request;
      if !p.ok {
        error := Some(if p.request.contentLength > cfg.maxBody then PayloadTooLarge else BadRequest);
      }
    }

    method LookForEnd() returns (end: Option<nat>)
      requires length == |data| < buffer.Length && buffer[..length] == data
      ensures end == HeaderEnd(data)
      ensures end.Some? ==> 4 <= end.value <= length && EndsHead(data[..end.value])
    {
      end := FindHeaderEnd(buffer, length);
      if end.Some? {
        assert buffer[..end.value] == data[..end.value];
      }
    }

    /** Looks for the end of the head and parses it once it is there. */
    method TakeHead()
      requires length == |data| < buffer.Length == cfg.maxHeader + cfg.maxBody + 1
      requires headerEnd == 0 && error.None? && !complete && buffer[..length] == data && buffer[length] == NUL
      requires Standard()
      modifies buffer, `headerEnd, `error, `request
      ensures Valid()
      ensures error.None? && headerEnd == 0 ==> Meaning(data, cfg, parse).NeedMore?
      ensures error.Some? ==> Meaning(data, cfg, parse) == Failed(error.value)
    {
      var end := LookForEnd();
      if end.None? {
        if length > cfg.maxHeader {
          error := Some(HeaderTooLarge);
        }
        return;
      }
      headerEnd := end.value;
      if headerEnd > cfg.maxHeader {
        error := Some(HeaderTooLarge);
        return;
      }
      ReadHead();
    }

    /** Takes more bytes once the head has been parsed. */
    method TakeMore(chunk: string)
      requires Valid() && error.None? && headerEnd > 0 && !complete && length + |chunk| < buffer.Length
      modifies buffer, `length, `data
      ensures Valid() && data == old(data) + chunk
    {
      HeaderEndStays(data, chunk);
      assert (data + chunk)[..headerEnd] == data[..headerEnd];
      assert (data + chunk)[headerEnd..] == data[headerEnd..] + chunk;
      Append(chunk);
    }

    /** Takes the first bytes, up to and with the end of the head. */
    method TakeFirst(chunk: string)
      requires Valid() && error.None? && headerEnd == 0 && length + |chunk| < buffer.Length && Standard()
      modifies buffer, `length, `data, `headerEnd, `error, `request
      ensures Valid() && data == old(data) + chunk
      ensures error.None? && headerEnd == 0 ==> Meaning(data, cfg, parse).NeedMore?
      ensures error.Some? ==> Meaning(data, cfg, parse) == Failed(error.value)
    {
      assert buffer[0..length] == data;
      Append(chunk);
      assert buffer[..length] == buffer[0..length];
      TakeHead();
    }

    /** The body is complete when it is as long as the head said. */
    method Conclude()
      requires Valid() && error.None? && headerEnd > 0 && !complete
      modifies `complete
      ensures Valid() && Told() == Meaning(data, cfg, parse)
    {
      if length - headerEnd >= request.contentLength {
        complete := true;
        var n := request.contentLength;
        assert buffer[headerEnd..length][..n] == buffer[headerEnd..headerEnd + n];
        assert data[headerEnd..][..n] == data[headerEnd..headerEnd + n];
      }
    }

    /** Takes more bytes.  The parser tells what all the bytes it has taken mean, just
        as a session does. */
    method FeedBytes(chunk: string)
      requires Valid() && Honest() && Standard()
      modifies this, buffer
      ensures Valid() && Honest()
      ensures Session(data, Told()) == Feed(Session(old(data), old(Told())), chunk, cfg, parse)
    {
      if complete || error.Some? {
        return;
      }
      if |chunk| > buffer.Length - 1 - length {
        error := Some(PayloadTooLarge);
        return;
      }
      if headerEnd == 0 {
        TakeFirst(chunk);
        if error.Some? || headerEnd == 0 {
          return;
        }
      } else {
        TakeMore(chunk);
      }
      Conclude();
    }

    /** Feeds the pieces one after the other. */
    method FeedPieces(chunks: seq<string>)
      requires Valid() && Honest() && Standard()
      modifies this, buffer
      ensures Valid() && Honest()
      ensures Session(data, Told()) == FeedAll(Session(old(data), old(Told())), chunks, cfg, parse)
    {
      ghost var goal := FeedAll(Session(data, Told()), chunks, cfg, parse);
      var i := 0;
      while i < |chunks|
        invariant 0 <= i <= |chunks|
        invariant Valid() && Honest()
        invariant FeedAll(Session(data, Told()), chunks[i..], cfg, parse) == goal
      {
        assert chunks[i..][0] == chunks[i] && chunks[i..][1..] == chunks[i + 1..];
        FeedBytes(chunks[i]);
        i := i + 1;
      }
    }
  }

  /** However the bytes are split, a parser that is fed the pieces, and writes NULs into
      its buffer between them, tells what one fed all the bytes at once would tell. */
  method ParsePieces(chunks: seq<string>, given: Option<Config>, number: Numbers) returns (p: Parser)
    ensures fresh(p) && p.Valid()
    ensures var cfg := Kept(given);
            p.Told() ==
            if |Concat(chunks)| <= cfg.maxHeader + cfg.maxBody
            then Feed(START, Concat(chunks), cfg, Parsing(cfg, number)).outcome
            else Cut(Meaning(Fitting(chunks, cfg.maxHeader + cfg.maxBody), cfg, Parsing(cfg, number)))
  {
    p := new Parser(given, number);
    p.FeedPieces(chunks);
    PiecesMean(chunks, Kept(given), number);
  }
}
