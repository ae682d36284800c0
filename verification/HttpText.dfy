/** Requests as text: what a well-formed request reads as, and that nothing else is
    accepted. */
module HttpText {
  import opened Common
  import opened HttpMessage

  // ------------------------------------------------------------------ one line

  /** No byte that ends a C string, and no line end. */
  predicate OneLine(s: string)
  {
    && (forall i :: 0 <= i < |s| ==> s[i] != NUL)
    && forall i :: 0 <= i < |s| - 1 ==> !(s[i] == '\r' && s[i + 1] == '\n')
  }

  const CRLF: string := "\r\n"

  lemma {:induction false} LineEndReads(line: string, more: string)
    requires OneLine(line)
    ensures LineEnd(line + CRLF + more) == Some(|line|)
  {
    var s := line + CRLF + more;
    if line != "" {
      assert s[1..] == line[1..] + CRLF + more;
      assert line[0] != NUL && s[0] == line[0] && s[1] == (if |line| > 1 then line[1] else '\r');
      LineEndReads(line[1..], more);
    }
  }

  lemma {:induction false} LineEndText(s: string)
    requires LineEnd(s).Some?
    ensures OneLine(s[..LineEnd(s).value]) && s == s[..LineEnd(s).value] + CRLF + s[LineEnd(s).value + 2..]
  {
    var n := LineEnd(s).value;
    if n > 0 {
      LineEndText(s[1..]);
      assert s[1..][..n - 1] == s[1..n];
      forall i | 0 <= i < n - 1
        ensures !(s[i] == '\r' && s[i + 1] == '\n')
      {
        if i > 0 {
          assert s[1..][..n - 1][i - 1] == s[i] && s[1..][..n - 1][i] == s[i + 1];
        }
      }
    }
  }

  lemma {:induction false} IndexOfReads(a: string, c: char, b: string)
    requires c != NUL && forall i :: 0 <= i < |a| ==> a[i] != NUL && a[i] != c
    ensures IndexOf(a + [c] + b, c) == Some(|a|)
  {
    var s := a + [c] + b;
    if a != "" {
      assert s[1..] == a[1..] + [c] + b && s[0] == a[0];
      IndexOfReads(a[1..], c, b);
    }
  }

  // ---------------------------------------------------------------- request line

  function Version(minor: nat): string
  {
    if minor == 0 then "HTTP/1.0" else "HTTP/1.1"
  }

  function LineText(name: string, path: string, minor: nat): string
  {
    name + " " + (path + " " + Version(minor))
  }

  predicate Clean(s: string)
  {
    forall i :: 0 <= i < |s| ==> s[i] != ' ' && s[i] != NUL
  }

  /** The request lines there are. */
  predicate LineOk(name: string, path: string, minor: nat, max: nat)
  {
    && (name == "GET" || name == "POST" || name == "HEAD") && |name| <= max
    && 0 < |path| < 256 && path[0] == '/' && Clean(path)
    && minor <= 1
  }

  lemma SplitReads(a: string, c: char, b: string)
    requires c != NUL && forall i :: 0 <= i < |a| ==> a[i] != NUL && a[i] != c
    ensures var s := a + [c] + b;
            IndexOf(s, c) == Some(|a|) && s[..|a|] == a && s[|a| + 1..] == b
  {
    IndexOfReads(a, c, b);
  }

  lemma PartsRead(name: string, path: string, version: string, max: nat)
    requires Clean(name) && Clean(path) && |name| <= max
    ensures RequestLine(name + " " + (path + " " + version), max) == Judged(name, path, version)
  {
    SplitReads(name, ' ', path + " " + version);
    SplitReads(path, ' ', version);
  }

  /** Every well-formed request line reads as its method, path and version. */
  lemma RequestLineReads(name: string, path: string, minor: nat, max: nat)
    requires LineOk(name, path, minor, max)
    ensures RequestLine(LineText(name, path, minor), max) == Some(Request(name, path, minor, [], 0, minor == 1))
  {
    PartsRead(name, path, Version(minor), max);
  }

  lemma SplitText(s: string, c: char)
    requires IndexOf(s, c).Some?
    ensures var n := IndexOf(s, c).value;
            s == s[..n] + [c] + s[n + 1..] && forall i :: 0 <= i < n ==> s[..n][i] != NUL && s[..n][i] != c
  {
  }

  lemma JudgedText(name: string, path: string, version: string, max: nat)
    requires Judged(name, path, version).Some? && |name| <= max && Clean(path)
    ensures var r := Judged(name, path, version).value;
            && r == Request(name, path, r.minor, [], 0, r.minor == 1) && LineOk(name, path, r.minor, max)
            && version == Version(r.minor)
  {
  }

  /** And no other line is accepted. */
  lemma RequestLineText(line: string, max: nat)
    requires RequestLine(line, max).Some?
    ensures var r := RequestLine(line, max).value;
            && LineOk(r.method_, r.path, r.minor, max) && line == LineText(r.method_, r.path, r.minor)
            && r == Request(r.method_, r.path, r.minor, [], 0, r.minor == 1)
  {
    var i := IndexOf(line, ' ').value;
    var rest := line[i + 1..];
    var j := IndexOf(rest, ' ').value;
    SplitText(line, ' ');
    SplitText(rest, ' ');
    JudgedText(line[..i], rest[..j], rest[j + 1..], max);
  }

  // -------------------------------------------------------------------- trimming

  predicate AllSpace(s: string)
  {
    forall i :: 0 <= i < |s| ==> IsSpace(s[i])
  }

  /** Neither end is white space. */
  predicate Tight(s: string)
  {
    s != "" && !IsSpace(s[0]) && !IsSpace(s[|s| - 1])
  }

  lemma {:induction false} TrimLeftReads(pad: string, s: string)
    requires AllSpace(pad) && (s == "" || !IsSpace(s[0]))
    ensures TrimLeft(pad + s) == s
  {
    if pad != "" {
      assert (pad + s)[1..] == pad[1..] + s && (pad + s)[0] == pad[0];
      TrimLeftReads(pad[1..], s);
    } else {
      assert pad + s == s;
    }
  }

  lemma {:induction false} TrimRightReads(s: string, pad: string)
    requires AllSpace(pad) && (s == "" || !IsSpace(s[|s| - 1]))
    ensures TrimRight(s + pad) == s
  {
    if pad != "" {
      var n := |pad| - 1;
      assert (s + pad)[..|s| + n] == s + pad[..n] && (s + pad)[|s| + n] == pad[n];
      TrimRightReads(s, pad[..n]);
    } else {
      assert s + pad == s;
    }
  }

  lemma TrimReads(left: string, s: string, right: string)
    requires AllSpace(left) && AllSpace(right) && Tight(s)
    ensures Trim(left + s + right) == s
  {
    assert left + s + right == left + (s + right) && (s + right)[0] == s[0];
    TrimLeftReads(left, s + right);
    TrimRightReads(s, right);
  }

  lemma {:induction false} TrimLeftText(s: string) returns (pad: string)
    ensures AllSpace(pad) && s == pad + TrimLeft(s) && (TrimLeft(s) == "" || !IsSpace(TrimLeft(s)[0]))
  {
    if s != "" && IsSpace(s[0]) {
      var p := TrimLeftText(s[1..]);
      pad := [s[0]] + p;
      assert s == [s[0]] + s[1..];
    } else {
      pad := "";
    }
  }

  lemma {:induction false} TrimRightText(s: string) returns (pad: string)
    ensures AllSpace(pad) && s == TrimRight(s) + pad
    ensures TrimRight(s) == "" || (!IsSpace(TrimRight(s)[|TrimRight(s)| - 1]) && TrimRight(s)[0] == s[0])
  {
    if s != "" && IsSpace(s[|s| - 1]) {
      var p := TrimRightText(s[..|s| - 1]);
      pad := p + [s[|s| - 1]];
      assert s == s[..|s| - 1] + [s[|s| - 1]];
    } else {
      pad := "";
    }
  }

  lemma TrimText(s: string) returns (left: string, right: string)
    ensures AllSpace(left) && AllSpace(right) && s == left + Trim(s) + right && (Trim(s) == "" || Tight(Trim(s)))
  {
    left := TrimLeftText(s);
    right := TrimRightText(TrimLeft(s));
  }

  // ---------------------------------------------------------------- header lines

  /** A header that can be written as "name: value". */
  predicate HeaderFine(h: Header)
  {
    && Tight(h.name) && |h.name| < 64 && OneLine(h.name) && (forall i :: 0 <= i < |h.name| ==> h.name[i] != ':')
    && Tight(h.value) && |h.value| < 256 && OneLine(h.value)
  }

  function HeaderText(h: Header): string
  {
    h.name + ":" + (" " + h.value)
  }

  lemma HeaderTextIsLine(h: Header)
    requires HeaderFine(h)
    ensures OneLine(HeaderText(h)) && HeaderText(h) != ""
  {
    var text, n := HeaderText(h), |h.name|;
    assert forall i :: 0 <= i < n ==> text[i] == h.name[i];
    assert text[n] == ':' && text[n + 1] == ' ';
    assert forall i :: n + 2 <= i < |text| ==> text[i] == h.value[i - n - 2];
  }

  /** Every well-formed header line reads as its name and value. */
  lemma HeaderLineReads(h: Header)
    requires HeaderFine(h)
    ensures HeaderLine(HeaderText(h)) == Some(h)
  {
    SplitReads(h.name, ':', " " + h.value);
    TrimReads("", h.name, "");
    assert "" + h.name + "" == h.name;
    TrimReads(" ", h.value, "");
    assert " " + h.value + "" == " " + h.value;
  }

  lemma Inner(line: string, a: string, s: string, b: string)
    requires OneLine(line) && line == a + s + b
    ensures OneLine(s)
  {
    assert forall i :: 0 <= i < |s| ==> s[i] == line[|a| + i];
  }

  /** What is trimmed off a part of a line is white space. */
  lemma PartText(part: string) returns (left: string, right: string)
    requires OneLine(part) && Trim(part) != ""
    ensures AllSpace(left) && AllSpace(right) && part == left + Trim(part) + right
    ensures Tight(Trim(part)) && OneLine(Trim(part))
    ensures forall c :: c !in part ==> c !in Trim(part)
  {
    left, right := TrimText(part);
    Inner(part, left, Trim(part), right);
    assert forall i :: 0 <= i < |Trim(part)| ==> Trim(part)[i] == part[|left| + i];
  }

  /** An accepted header line is a name and a value around a colon, with white space. */
  lemma HeaderLineText(line: string) returns (a: string, b: string, c: string, d: string)
    requires HeaderLine(line).Some? && OneLine(line)
    ensures AllSpace(a) && AllSpace(b) && AllSpace(c) && AllSpace(d) && HeaderFine(HeaderLine(line).value)
    ensures var h := HeaderLine(line).value;
            line == (a + h.name + b) + ":" + (c + h.value + d)
  {
    var n := IndexOf(line, ':').value;
    var l, r := line[..n], line[n + 1..];
    SplitText(line, ':');
    assert ':' !in l;
    Inner(line, "", l, ":" + r);
    Inner(line, l + ":", r, "");
    a, b := PartText(l);
    c, d := PartText(r);
  }
}
