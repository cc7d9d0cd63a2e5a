/** The TCP read loop: a byte stream cut into messages by Content-Length. */
module Framing {
  import opened Wrappers
  import opened Text
  import opened Message
  import opened Codec

  /** How the loop ends: the peer closes, a body is cut short, or a negative length makes the
      body allocation panic. */
  datatype Ending = Eof | ShortBody | NegativeLength

  datatype Framed = Framed(messages: seq<string>, ending: Ending)

  /** Length of the header block up to and including the first line that is only CRLF. */
  function HeadLength(s: string): (n: Option<nat>)
    ensures n.Some? ==> 0 < n.value <= |s|
    decreases |s|
  {
    var i := Index(s, "\n");
    if i < 0 then None
    else if s[..i + 1] == CRLF then Some(i + 1)
    else match HeadLength(s[i + 1..])
      case None => None
      case Some(n) => Some(i + 1 + n)
  }

  predicate LengthLike(line: string) {
    "content-length:" <= ToLower(line) || "l:" <= ToLower(line)
  }

  /** The number after the first colon of a line. */
  function LineNumber(line: string): Option<int> {
    var parts := SplitN(line, ":", 2);
    if |parts| == 2 then Atoi(TrimSpace(parts[1])) else None
  }

  function FirstLength(lines: seq<string>): int {
    if lines == [] then 0
    else if LengthLike(lines[0]) && LineNumber(lines[0]).Some? then LineNumber(lines[0]).value
    else FirstLength(lines[1..])
  }

  /** The first line that names the length and carries a number decides, whatever follows. */
  lemma {:induction false} FirstReadableDecides(a: seq<string>, line: string, b: seq<string>)
    requires forall i :: 0 <= i < |a| ==> !LengthLike(a[i]) || LineNumber(a[i]).None?
    requires LengthLike(line) && LineNumber(line).Some?
    ensures FirstLength(a + [line] + b) == LineNumber(line).value
    decreases |a|
  {
    if a != [] {
      FirstReadableDecides(a[1..], line, b);
      assert (a + [line] + b)[1..] == a[1..] + [line] + b;
    }
  }

  /** Both spellings of the header, in any case, are read with blanks around the number. */
  lemma LengthLineRead(name: string, n: int)
    requires ToLower(name) == "content-length" || ToLower(name) == "l"
    ensures var line := name + ":" + (" " + Itoa(n)); LengthLike(line) && LineNumber(line) == Some(n)
  {
    var x := " " + Itoa(n);
    NameLacksColon(name);
    SplitCons(name, x, ":");
    ItoaIsPlain(n);
    TrimmedIsFixed(Itoa(n));
    AtoiUndoesItoa(n);
    LowerHead(name, x);
  }

  lemma LowerHead(name: string, x: string)
    requires ToLower(name) == "content-length" || ToLower(name) == "l"
    ensures LengthLike(name + ":" + x)
  {
    var low := ToLower(name + ":" + x);
    assert low[..|name| + 1] == ToLower(name) + ":";
    assert "content-length" + ":" == "content-length:" && "l" + ":" == "l:";
  }

  lemma NameLacksColon(name: string)
    requires ToLower(name) == "content-length" || ToLower(name) == "l"
    ensures ':' !in name
  {
    var long, short := "content-length", "l";
    assert forall i :: 0 <= i < |long| ==> long[i] != ':';
    assert forall i :: 0 <= i < |name| ==> Lower(name[i]) == ToLower(name)[i];
  }

  method ParseContentLength(head: string) returns (n: int)
    ensures n == FirstLength(Split(head, CRLF))
  {
    var lines := Split(head, CRLF);
    for i := 0 to |lines|
      invariant FirstLength(lines[i..]) == FirstLength(lines)
    {
      assert lines[i..][1..] == lines[i + 1..];
      var lower := ToLower(lines[i]);
      if "content-length:" <= lower || "l:" <= lower {
        var parts := SplitN(lines[i], ":", 2);
        if |parts| == 2 {
          var length := Atoi(TrimSpace(parts[1]));
          if length.Some? { return length.value; }
        }
      }
    }
    n := 0;
  }

  /** What the loop dispatches for a whole stream. */
  function Frames(s: string): Framed
    decreases |s|
  {
    match HeadLength(s)
    case None => Framed([], Eof)
    case Some(n) =>
      var length := FirstLength(Split(s[..n], CRLF));
      if length < 0 then Framed([], NegativeLength)
      else if |s| - n < length then Framed([], ShortBody)
      else
        var rest := Frames(s[n + length..]);
        Framed([s[..n + length]] + rest.messages, rest.ending)
  }

  lemma Divide(s: string, size: nat)
    requires size <= |s|
    ensures s == s[..size] + s[size..]
  {}

  /** The head of a stream, line by line. */
  lemma HeadCut(s: string, line: string, rest: string)
    requires s == line + rest && Index(s, "\n") == |line| - 1 >= 0
    ensures HeadLength(s) == if line == CRLF then Some(|line|) else match HeadLength(rest)
      case None => None
      case Some(n) => Some(|line| + n)
  {
    assert s[..|line|] == line && s[|line|..] == rest;
  }

  /** Reads header lines until the blank one; `ok` is false at the end of the stream. */
  method ReadHead(s: string) returns (ok: bool, n: nat)
    ensures ok == HeadLength(s).Some?
    ensures ok ==> n == HeadLength(s).value
  {
    n := 0;
    var rest := s;
    while true
      invariant HeadLength(rest).Some? == HeadLength(s).Some?
      invariant HeadLength(s).Some? ==> HeadLength(s).value == n + HeadLength(rest).value
      decreases |rest|
    {
      var i := Index(rest, "\n");
      if i < 0 { return false, n; }
      var line, next := rest[..i + 1], rest[i + 1..];
      Divide(rest, i + 1);
      HeadCut(rest, line, next);
      n := n + |line|;
      if line == CRLF { return true, n; }
      rest := next;
    }
  }

  function After(messages: seq<string>, f: Framed): Framed { Framed(messages + f.messages, f.ending) }

  lemma FrameCut(s: string, n: nat, m: string, tail: string)
    requires HeadLength(s) == Some(n) && s == m + tail && n <= |m| && FirstLength(Split(s[..n], CRLF)) == |m| - n
    ensures Frames(s) == After([m], Frames(tail))
  {
    assert s[..|m|] == m && s[|m|..] == tail;
  }

  /** One message read off the stream: header lines to the blank one, then the body. */
  method ReadFrame(s: string) returns (stop: bool, ending: Ending, size: nat)
    ensures stop ==> Frames(s) == Framed([], ending)
    ensures !stop ==> 0 < size <= |s| && Frames(s) == After([s[..size]], Frames(s[size..]))
  {
    var ok, n := ReadHead(s);
    if !ok { return true, Eof, 0; }
    var length := ParseContentLength(s[..n]);
    if length < 0 { return true, NegativeLength, 0; }
    if |s| - n < length { return true, ShortBody, 0; }
    size := n + length;
    Divide(s, size);
    FrameCut(s, n, s[..size], s[size..]);
    return false, Eof, size;
  }

  method HandleConnection(s: string) returns (dispatched: seq<string>, ending: Ending)
    ensures Framed(dispatched, ending) == Frames(s)
  {
    dispatched := [];
    var rest := s;
    while true
      invariant Frames(s) == After(dispatched, Frames(rest))
      decreases |rest|
    {
      var stop, e, size := ReadFrame(rest);
      if stop { return dispatched, e; }
      AfterOne(dispatched, rest[..size], Frames(rest[size..]));
      dispatched := dispatched + [rest[..size]];
      rest := rest[size..];
    }
  }

  lemma AfterOne(messages: seq<string>, m: string, f: Framed)
    ensures After(messages, After([m], f)) == After(messages + [m], f)
  {}

  // ----- whole messages, and how a stream ends -----

  /** Header lines up to the blank one and exactly the body they announce. */
  predicate Complete(m: string) {
    && HeadLength(m).Some?
    && var n := HeadLength(m).value;
    && FirstLength(Split(m[..n], CRLF)) >= 0 && |m| == n + FirstLength(Split(m[..n], CRLF))
  }

  /** A header block that announces a negative length. */
  predicate NegativeHead(s: string) {
    HeadLength(s).Some? && FirstLength(Split(s[..HeadLength(s).value], CRLF)) < 0
  }

  lemma HeadPastLineEnd(s: string)
    requires HeadLength(s).Some?
    ensures 0 <= Index(s, "\n") < HeadLength(s).value
  {}

  /** One line with its end, which is the only line feed in it. */
  predicate IsLine(l: string) { l != "" && l[|l| - 1] == '\n' && '\n' !in l[..|l| - 1] }

  /** Lines of which only the last is blank. */
  predicate HeadLines(ls: seq<string>) {
    && ls != [] && ls[|ls| - 1] == CRLF
    && (forall i :: 0 <= i < |ls| ==> IsLine(ls[i]))
    && forall i :: 0 <= i < |ls| - 1 ==> ls[i] != CRLF
  }

  lemma LineEnd(l: string, x: string)
    requires IsLine(l)
    ensures Index(l + x, "\n") == |l| - 1
  {
    var p := l[..|l| - 1];
    assert l + x == p + "\n" + x;
    IndexFound(p, x, "\n");
  }

  lemma {:induction false} LinesMakeHead(ls: seq<string>, x: string)
    requires HeadLines(ls)
    ensures HeadLength(Concat(ls) + x) == Some(|Concat(ls)|)
  {
    var line, more := ls[0], ls[1..];
    assert ls == [line] + more;
    ConcatFirst(line, more, x);
    LineEnd(line, Concat(more) + x);
    HeadCut(line + (Concat(more) + x), line, Concat(more) + x);
    if more != [] { LinesMakeHead(more, x); }
  }

  lemma LastLine(line: string, more: seq<string>)
    requires HeadLines(more) && IsLine(line) && line != CRLF
    ensures HeadLines([line] + more)
  {}

  lemma BlankAlone(line: string, more: string)
    requires line == CRLF
    ensures HeadLines([line]) && line + more == Concat([line]) + more
  {
    assert line + "" == line;
  }

  /** A head consists of such lines. */
  lemma {:induction false} HeadHasLines(s: string) returns (ls: seq<string>, rest: string)
    requires HeadLength(s).Some?
    ensures HeadLines(ls) && s == Concat(ls) + rest && HeadLength(s) == Some(|Concat(ls)|)
    decreases |s|
  {
    HeadPastLineEnd(s);
    var line, more := FirstLine(s);
    HeadCut(s, line, more);
    if line == CRLF {
      ls, rest := [line], more;
      BlankAlone(line, more);
    } else {
      var after;
      after, rest := HeadHasLines(more);
      LastLine(line, after);
      ConcatFirst(line, after, rest);
      ls := [line] + after;
    }
  }

  lemma HeadLengthStays(m: string, rest: string)
    requires HeadLength(m).Some?
    ensures HeadLength(m + rest) == HeadLength(m)
  {
    var ls, more := HeadHasLines(m);
    LinesMakeHead(ls, more + rest);
    LineFirst(Concat(ls), more, rest);
  }

  /** A head that ends within `p` is found in `p` alone. */
  lemma HeadLengthOfPrefix(p: string, q: string)
    requires HeadLength(p + q).Some? && HeadLength(p + q).value <= |p|
    ensures HeadLength(p) == HeadLength(p + q)
  {
    var ls, rest := HeadHasLines(p + q);
    var n := |Concat(ls)|;
    PrefixOf(p, q, Concat(ls), rest);
    LinesMakeHead(ls, p[n..]);
  }

  lemma PrefixOf(p: string, q: string, h: string, rest: string)
    requires p + q == h + rest && |h| <= |p|
    ensures p == h + p[|h|..]
  {
    assert (p + q)[..|h|] == p[..|h|] && (h + rest)[..|h|] == h;
  }

  lemma FirstLine(m: string) returns (line: string, more: string)
    requires Index(m, "\n") >= 0
    ensures m == line + more && Index(m, "\n") == |line| - 1 && IsLine(line)
  {
    var i := Index(m, "\n");
    line, more := m[..i + 1], m[i + 1..];
    Divide(m, i + 1);
    IndexOfChar(m, '\n');
    assert line[..i] == m[..i] && line[i] == '\n' by { assert m == m[..i] + ['\n'] + m[i + 1..]; }
  }

  lemma LineFirst(line: string, more: string, rest: string)
    ensures (line + more) + rest == line + (more + rest)
  {}

  lemma LineKept(m: string, rest: string, n: nat)
    requires n <= |m|
    ensures (m + rest)[..n] == m[..n] && (m + rest)[n..] == m[n..] + rest
  {}

  lemma HeadStays(m: string, rest: string)
    requires Complete(m)
    ensures HeadLength(m + rest) == HeadLength(m)
    ensures var n := HeadLength(m).value; FirstLength(Split((m + rest)[..n], CRLF)) == |m| - n
  {
    HeadLengthStays(m, rest);
    LineKept(m, rest, HeadLength(m).value);
  }

  /** A complete message in front of anything is read off whole. */
  lemma CompleteFirst(m: string, rest: string)
    requires Complete(m)
    ensures Frames(m + rest) == After([m], Frames(rest))
  {
    HeadStays(m, rest);
    FrameCut(m + rest, HeadLength(m).value, m, rest);
  }

  lemma NegativeStays(s: string)
    requires NegativeHead(s)
    ensures Frames(s) == Framed([], NegativeLength)
  {}

  function Concat(texts: seq<string>): string {
    if texts == [] then "" else texts[0] + Concat(texts[1..])
  }

  predicate AllComplete(ms: seq<string>) { forall i :: 0 <= i < |ms| ==> Complete(ms[i]) }

  /** How many bytes the first message takes, if the stream starts with one. */
  lemma FirstSize(s: string) returns (n: nat, size: nat)
    requires Frames(s).messages != []
    ensures HeadLength(s) == Some(n) && n <= size <= |s| && FirstLength(Split(s[..n], CRLF)) == size - n
  {
    n := HeadLength(s).value;
    size := n + FirstLength(Split(s[..n], CRLF));
  }

  lemma PrefixComplete(s: string, n: nat, m: string, tail: string)
    requires HeadLength(s) == Some(n) && s == m + tail && n <= |m| && FirstLength(Split(s[..n], CRLF)) == |m| - n
    ensures Complete(m)
  {
    HeadLengthOfPrefix(m, tail);
    LineKept(m, tail, n);
  }

  /** The first message is complete, and the rest of the stream follows. */
  lemma FirstFrame(s: string) returns (m: string, tail: string)
    requires Frames(s).messages != []
    ensures m != "" && s == m + tail && Complete(m) && Frames(s) == After([m], Frames(tail))
  {
    var n, size := FirstSize(s);
    m, tail := s[..size], s[size..];
    assert s == m + tail;
    PrefixComplete(s, n, m, tail);
    FrameCut(s, n, m, tail);
  }

  /** A stream is its complete messages and what is left over. */
  lemma {:induction false} FramesSplit(s: string) returns (ms: seq<string>, rest: string)
    ensures AllComplete(ms) && s == Concat(ms) + rest
    ensures Frames(s).messages == ms && Frames(rest) == Framed([], Frames(s).ending)
    decreases |s|
  {
    if Frames(s).messages == [] {
      ms, rest := [], s;
      assert Concat(ms) + rest == s;
    } else {
      var m, tail := FirstFrame(s);
      var more;
      more, rest := FramesSplit(tail);
      ms := [m] + more;
      ConcatFirst(m, more, rest);
    }
  }

  lemma ConcatFirst(m: string, ms: seq<string>, rest: string)
    ensures Concat([m] + ms) + rest == m + (Concat(ms) + rest)
  {
    assert ([m] + ms)[1..] == ms;
  }

  lemma {:induction false} CompleteAll(ms: seq<string>, rest: string)
    requires AllComplete(ms)
    ensures Frames(Concat(ms) + rest) == After(ms, Frames(rest))
  {
    if ms == [] {
      assert Concat(ms) + rest == rest;
    } else {
      var m, more := ms[0], ms[1..];
      assert ms == [m] + more;
      ConcatFirst(m, more, rest);
      CompleteAll(more, rest);
      CompleteFirst(m, Concat(more) + rest);
      AfterTwo(m, more, Frames(rest));
    }
  }

  lemma AfterTwo(m: string, more: seq<string>, f: Framed)
    ensures After([m], After(more, f)) == After([m] + more, f)
  {}

  ghost predicate NegativeAfter(s: string, ms: seq<string>, rest: string) {
    AllComplete(ms) && s == Concat(ms) + rest && NegativeHead(rest)
  }

  /** The loop stops on a negative length if and only if the stream is complete messages followed
      by a header block that announces one. */
  lemma NegativeLengthExactly(s: string)
    ensures Frames(s).ending == NegativeLength <==> exists ms, rest :: NegativeAfter(s, ms, rest)
  {
    if Frames(s).ending == NegativeLength {
      var ms, rest := FramesSplit(s);
      assert NegativeAfter(s, ms, rest);
    }
    if ms, rest :| NegativeAfter(s, ms, rest) {
      CompleteAll(ms, rest);
      NegativeStays(rest);
    }
  }

  const NEGATIVE: string := "l:-1\r\n\r\n"

  /** Such a stream exists. */
  lemma NegativeWitness()
    ensures Frames(NEGATIVE) == Framed([], NegativeLength)
  {
    NegativeLine();
    NegativeHeadLength();
    NegativeSplits();
    assert NEGATIVE[..8] == NEGATIVE;
    NegativeStays(NEGATIVE);
  }

  lemma NegativeSplits()
    ensures Split(NEGATIVE, CRLF) == ["l:-1", "", ""]
  {
    var line := "l:-1";
    NegativeLine();
    assert NEGATIVE == line + CRLF + CRLF && CRLF == "" + CRLF + "";
    SplitCons(line, CRLF, CRLF);
    SplitCons("", "", CRLF);
    SplitOne("", CRLF);
  }

  lemma NegativeLine()
    ensures '\r' !in "l:-1" && LengthLike("l:-1") && LineNumber("l:-1") == Some(-1)
  {
    var line := "l:-1";
    assert forall i :: 0 <= i < |line| ==> line[i] != '\r';
    assert ToLower(line)[0] == 'l' && ToLower(line)[1] == ':';
    assert SplitN(line, ":", 2) == ["l", "-1"] by {
      assert line == "l" + ":" + "-1";
      SplitCons("l", "-1", ":");
    }
    MinusOne();
  }

  lemma MinusOne()
    ensures TrimSpace("-1") == "-1" && Atoi("-1") == Some(-1)
  {
    TrimmedIsFixed("-1");
    assert "-1"[1..] == "1" && "1"[..0] == "";
    assert AtoiNat("1") == Some(1);
  }

  lemma NegativeHeadLength()
    ensures HeadLength(NEGATIVE) == Some(8)
  {
    var p, q := "l:-1\r", "\r";
    var s := NEGATIVE;
    assert forall i :: 0 <= i < |p| ==> p[i] != '\n';
    assert s == p + "\n" + CRLF;
    IndexFound(p, CRLF, "\n");
    assert s[..6] != CRLF by { assert |s[..6]| == 6; }
    assert s[6..] == CRLF && CRLF == q + "\n" + "";
    IndexFound(q, "", "\n");
    assert CRLF[..2] == CRLF;
  }

  // ----- framing undoes concatenation -----

  /** A message about to be written: start line, header map, an emission order and a body. */
  datatype Packet = Packet(start: string, headers: Headers, order: seq<string>, body: string)

  function TextOf(p: Packet): string
    requires forall k :: k in p.order ==> k in p.headers
  {
    PrintMessage(p.start, p.headers, p.order, p.body)
  }

  predicate LengthName(k: string) { ToLower(k) == "content-length" || ToLower(k) == "l" }

  ghost predicate Framable(p: Packet) {
    && CleanLine(p.start) && !LengthLike(p.start)
    && PrintableHeaders(p.headers) && IsOrder(p.order, p.headers.Keys)
    && forall k :: k in p.headers && k != "Content-Length" ==> !LengthName(k)
  }

  lemma {:induction false} HeadLengthOfLines(lines: seq<string>, x: string)
    requires lines != [] && AllClean(lines)
    ensures HeadLength(Join(lines, CRLF) + CRLF + (CRLF + x)) == Some(|Join(lines, CRLF)| + 4)
  {
    var first, more := lines[0], lines[1..];
    assert CleanLine(first);
    if more == [] {
      BlankLineIsHead(x);
      HeadLengthPastLine(first, CRLF + x);
      assert Join(lines, CRLF) == first;
    } else {
      HeadLengthOfLines(more, x);
      HeadLengthPastLine(first, Join(more, CRLF) + CRLF + (CRLF + x));
      Reassociate(first, CRLF, Join(more, CRLF), CRLF, CRLF + x);
      assert Join(lines, CRLF) == first + CRLF + Join(more, CRLF);
    }
  }

  lemma BlankLineIsHead(x: string)
    ensures HeadLength(CRLF + x) == Some(2)
  {
    assert CRLF + x == ['\r'] + "\n" + x;
    IndexFound(['\r'], x, "\n");
    assert (CRLF + x)[..2] == CRLF;
  }

  lemma HeadLengthPastLine(l: string, x: string)
    requires CleanLine(l)
    ensures HeadLength(l + CRLF + x) == match HeadLength(x) case None => None case Some(n) => Some(|l| + 2 + n)
  {
    var p := l + ['\r'];
    assert l + CRLF + x == p + "\n" + x;
    IndexFound(p, x, "\n");
    assert (p + "\n" + x)[..|p| + 1] == l + CRLF;
    assert |l + CRLF| > |CRLF|;
  }

  lemma {:induction false} FirstLengthSkips(lines: seq<string>, rest: seq<string>)
    requires forall i :: 0 <= i < |lines| ==> !LengthLike(lines[i])
    ensures FirstLength(lines + rest) == FirstLength(rest)
  {
    if lines == [] {
      assert lines + rest == rest;
    } else {
      assert (lines + rest)[1..] == lines[1..] + rest;
      FirstLengthSkips(lines[1..], rest);
    }
  }

  lemma HeaderLineNotLength(k: string, v: string)
    requires Key(k) && !LengthName(k)
    ensures !LengthLike(HeaderLine(k, v))
  {
    var line := HeaderLine(k, v);
    assert line == k + (": " + v) && line[|k|] == ':';
    ColonPlace(k, line, "l:");
    ColonPlace(k, line, "content-length:");
  }

  /** A lower-case name and colon can only be matched by a line whose own first colon ends that name. */
  lemma ColonPlace(k: string, line: string, name: string)
    requires ':' !in k && k <= line && |k| < |line| && line[|k|] == ':'
    requires name != "" && name[|name| - 1] == ':' && ':' !in name[..|name| - 1]
    ensures name <= ToLower(line) ==> ToLower(k) == name[..|name| - 1]
  {
    if name <= ToLower(line) {
      var n := |name| - 1;
      assert forall i :: 0 <= i < n ==> name[..n][i] == name[i];
      assert forall i :: 0 <= i < |k| ==> k[i] == line[i];
      assert forall i :: 0 <= i <= n ==> ToLower(line)[i] == Lower(line[i]) == name[i];
      assert |k| == n;
    }
  }

  /** A start line whose first word has no colon is never taken for a length line. */
  lemma StartNotLength(word: string, rest: string)
    requires ':' !in word
    ensures !LengthLike(word + " " + rest)
  {
    var line := word + " " + rest;
    assert line[..|word|] == word && line[|word|] == ' ';
    WordBlocks(word, line, "l:");
    WordBlocks(word, line, "content-length:");
  }

  lemma WordBlocks(word: string, line: string, name: string)
    requires ':' !in word && word <= line && |word| < |line| && line[|word|] == ' '
    requires name != "" && name[|name| - 1] == ':' && ' ' !in name
    ensures !(name <= ToLower(line))
  {
    assert forall i :: 0 <= i < |line| ==> ToLower(line)[i] == Lower(line[i]);
    assert forall i :: 0 <= i < |word| ==> line[i] == word[i] != ':';
    assert Lower(' ') == ' ' && forall c :: Lower(c) == ':' ==> c == ':';
  }

  lemma {:induction false} BlockNotLength(h: Headers, order: seq<string>)
    requires PrintableHeaders(h) && forall k :: k in order ==> k in h
    requires forall k :: k in h && k != "Content-Length" ==> !LengthName(k)
    ensures forall i :: 0 <= i < |LinesOf(h, order)| ==> !LengthLike(LinesOf(h, order)[i])
  {
    if order != [] {
      BlockNotLength(h, order[1..]);
      var k := order[0];
      assert Key(k);
      if k != "Content-Length" { HeaderLineNotLength(k, h[k]); }
    }
  }

  lemma LengthLineCounts(body: string)
    ensures LengthLike(LengthLine(body)) && LineNumber(LengthLine(body)) == Some(|body|)
  {
    var n := Itoa(|body|);
    ItoaIsPlain(|body|);
    assert LengthLine(body) == "Content-Length" + ":" + (" " + n);
    LengthKey();
    SplitCons("Content-Length", " " + n, ":");
    TrimmedIsFixed(n);
    AtoiUndoesItoa(|body|);
    LengthPrefix(n);
  }

  lemma LengthPrefix(n: string)
    ensures "content-length:" <= ToLower("Content-Length: " + n)
  {}

  /** The header block of a printed message announces exactly its body. */
  lemma HeadAnnouncesBody(p: Packet)
    requires Framable(p)
    ensures var lines := [p.start] + BlockOf(p.headers, p.order, p.body);
      FirstLength(lines + ["", ""]) == |p.body|
  {
    BlockNotLength(p.headers, p.order);
    LengthLineCounts(p.body);
    var plain := [p.start] + LinesOf(p.headers, p.order);
    var tail := [LengthLine(p.body), "", ""];
    FirstLengthSkips(plain, tail);
    assert [p.start] + BlockOf(p.headers, p.order, p.body) + ["", ""] == plain + tail;
  }

  lemma CompleteFrom(head: string, body: string)
    requires HeadLength(head + body) == Some(|head|) && FirstLength(Split(head, CRLF)) == |body|
    ensures Complete(head + body)
  {
    assert (head + body)[..|head|] == head;
  }

  lemma HeadEnds(lines: seq<string>, body: string)
    requires lines != [] && AllClean(lines)
    ensures var head := Join(lines, CRLF) + CRLF + CRLF; HeadLength(head + body) == Some(|head|)
  {
    var text := Join(lines, CRLF);
    HeadLengthOfLines(lines, body);
    assert text + CRLF + CRLF + body == text + CRLF + (CRLF + body);
  }

  function LinesOfPacket(p: Packet): seq<string>
    requires forall k :: k in p.order ==> k in p.headers
  {
    [p.start] + BlockOf(p.headers, p.order, p.body)
  }

  function HeadOf(p: Packet): string
    requires forall k :: k in p.order ==> k in p.headers
  {
    Join(LinesOfPacket(p), CRLF) + CRLF + CRLF
  }

  lemma PacketText(p: Packet)
    requires Framable(p)
    ensures AllClean(LinesOfPacket(p)) && TextOf(p) == HeadOf(p) + p.body
  {
    PrintedParts(p.start, p.headers, p.order, p.body);
    assert Join(LinesOfPacket(p), CRLF) + BLANK_LINE == HeadOf(p);
  }

  lemma PacketLength(p: Packet)
    requires Framable(p) && AllClean(LinesOfPacket(p))
    ensures FirstLength(Split(HeadOf(p), CRLF)) == |p.body|
  {
    HeadSplits(LinesOfPacket(p));
    HeadAnnouncesBody(p);
  }

  /** A framable message is complete. */
  lemma PacketComplete(p: Packet)
    requires Framable(p)
    ensures Complete(TextOf(p))
  {
    PacketText(p);
    PacketLength(p);
    HeadEnds(LinesOfPacket(p), p.body);
    CompleteFrom(HeadOf(p), p.body);
  }

  lemma OneFrame(p: Packet, rest: string)
    requires Framable(p)
    ensures var f := Frames(rest); Frames(TextOf(p) + rest) == Framed([TextOf(p)] + f.messages, f.ending)
  {
    PacketComplete(p);
    CompleteFirst(TextOf(p), rest);
  }

  lemma HeadSplits(lines: seq<string>)
    requires lines != [] && AllClean(lines)
    ensures Split(Join(lines, CRLF) + CRLF + CRLF, CRLF) == lines + ["", ""]
  {
    assert Split("", CRLF) == [""];
    ResponseLines(lines, "");
    var head := Join(lines, CRLF);
    assert head + BLANK_LINE + "" == head + CRLF + CRLF;
    assert lines + [""] + [""] == lines + ["", ""];
  }

  ghost predicate AllFramable(ps: seq<Packet>) { forall i :: 0 <= i < |ps| ==> Framable(ps[i]) }

  function Texts(ps: seq<Packet>): seq<string>
    requires forall i, k :: 0 <= i < |ps| && k in ps[i].order ==> k in ps[i].headers
  {
    if ps == [] then [] else [TextOf(ps[0])] + Texts(ps[1..])
  }

  /** The read loop cuts the concatenation of any printed messages back into exactly them,
      whatever their bodies contain. */
  lemma {:induction false} FramingUndoesConcatenation(ps: seq<Packet>)
    requires AllFramable(ps)
    ensures Frames(Concat(Texts(ps))) == Framed(Texts(ps), Eof)
  {
    if ps == [] {
      assert HeadLength("") == None;
    } else {
      FramingUndoesConcatenation(ps[1..]);
      assert Texts(ps)[1..] == Texts(ps[1..]);
      OneFrame(ps[0], Concat(Texts(ps[1..])));
    }
  }

  /** Requests as the server prints them can be framed. */
  lemma RequestsAreFramable(r: SIPRequest, order: seq<string>)
    requires PrintableRequest(r) && ':' !in r.verb && IsOrder(order, r.headers.Keys)
    requires forall k :: k in r.headers && k != "Content-Length" ==> !LengthName(k)
    ensures Framable(Packet(RequestLine(r), r.headers, order, r.body))
  {
    RequestLineSplits(r);
    StartNotLength(r.verb, r.uri + " " + r.proto);
    assert RequestLine(r) == r.verb + " " + (r.uri + " " + r.proto);
  }

  lemma ResponsesAreFramable(r: SIPResponse, order: seq<string>)
    requires PrintableResponse(r) && ':' !in r.proto && IsOrder(order, r.headers.Keys)
    requires forall k :: k in r.headers && k != "Content-Length" ==> !LengthName(k)
    ensures Framable(Packet(StatusLine(r), r.headers, order, r.body))
  {
    StatusLineClean(r);
    StartNotLength(r.proto, Itoa(r.status) + " " + r.reason);
    assert StatusLine(r) == r.proto + " " + (Itoa(r.status) + " " + r.reason);
  }
}
