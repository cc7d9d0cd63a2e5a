/** Parsing of SIP requests and responses, and the proof that it undoes printing. */
module Codec {
  import opened Wrappers
  import opened Text
  import opened Message

  // ----- header block -----

  /** One header line folded into the map; a line without a colon is ignored. */
  function PutLine(h: Headers, line: string): Headers {
    var parts := SplitN(line, ":", 2);
    if |parts| != 2 then h else h[Title(TrimSpace(parts[0])) := TrimSpace(parts[1])]
  }

  function PutLines(h: Headers, lines: seq<string>): Headers
    decreases lines
  {
    if lines == [] then h else PutLines(PutLine(h, lines[0]), lines[1..])
  }

  lemma {:induction lines} ParsedKeysCanonical(h: Headers, lines: seq<string>)
    requires Canonical(h)
    ensures Canonical(PutLines(h, lines))
    decreases lines
  {
    if lines != [] {
      var parts := SplitN(lines[0], ":", 2);
      TitleIdempotent(TrimSpace(parts[0]));
      ParsedKeysCanonical(PutLine(h, lines[0]), lines[1..]);
    }
  }

  // ----- digest parameters -----

  predicate IsQuote(c: char) { c == '"' }

  function PutAuthPart(m: map<string, string>, part: string): map<string, string> {
    var kv := SplitN(TrimSpace(part), "=", 2);
    if |kv| != 2 then m
    else m[TrimSpace(kv[0]) := DropRight(DropLeft(TrimSpace(kv[1]), IsQuote), IsQuote)]
  }

  function PutAuthParts(m: map<string, string>, parts: seq<string>): map<string, string>
    decreases parts
  {
    if parts == [] then m else PutAuthParts(PutAuthPart(m, parts[0]), parts[1..])
  }

  /** The key/value pairs of a Digest Authorization value; empty for any other scheme. */
  function AuthPairs(value: string): map<string, string> {
    if "Digest " <= value then PutAuthParts(map[], Split(value[7..], ",")) else map[]
  }

  method ParseAuthHeader(value: string) returns (m: map<string, string>)
    ensures m == AuthPairs(value)
  {
    m := map[];
    if !("Digest " <= value) { return; }
    var parts := Split(value[7..], ",");
    for i := 0 to |parts|
      invariant PutAuthParts(m, parts[i..]) == AuthPairs(value)
    {
      m := PutAuthPart(m, parts[i]);
      assert parts[i..][1..] == parts[i + 1..];
    }
  }

  // ----- digest parameters as they are printed -----

  predicate AuthKey(k: string) { Trimmed(k) && '=' !in k && ',' !in k }

  predicate AuthValue(v: string) { '"' !in v && ',' !in v }

  ghost predicate GoodAuth(m: map<string, string>) { forall k :: k in m ==> AuthKey(k) && AuthValue(m[k]) }

  function AuthPart(k: string, v: string): string { k + "=" + ("\"" + v + "\"") }

  /** The pairs, quoted, each but the first behind a blank. */
  function AuthParts(m: map<string, string>, order: seq<string>): seq<string>
    requires forall k :: k in order ==> k in m
  {
    seq(|order|, i requires 0 <= i < |order| => (if i == 0 then "" else " ") + AuthPart(order[i], m[order[i]]))
  }

  /** `Digest k1="v1", k2="v2"`, as a client sends it. */
  function PrintAuth(m: map<string, string>, order: seq<string>): string
    requires order != [] && forall k :: k in order ==> k in m
  {
    "Digest " + Join(AuthParts(m, order), ",")
  }

  lemma AuthPartReads(h: map<string, string>, k: string, v: string, blank: string)
    requires AuthKey(k) && AuthValue(v) && (blank == "" || blank == " ")
    ensures PutAuthPart(h, blank + AuthPart(k, v)) == h[k := v]
  {
    AuthPartTrimmed(k, v, blank);
    AuthPartSplits(k, v);
    QuotesDropped(v);
  }

  lemma AuthPartSplits(k: string, v: string)
    requires AuthKey(k)
    ensures SplitN(AuthPart(k, v), "=", 2) == [k, "\"" + v + "\""]
    ensures TrimSpace(k) == k && TrimSpace("\"" + v + "\"") == "\"" + v + "\""
  {
    SplitCons(k, "\"" + v + "\"", "=");
    TrimmedIsFixed(k);
    TrimmedIsFixed("\"" + v + "\"");
  }

  lemma AuthPartLacks(k: string, v: string, blank: string)
    requires AuthKey(k) && AuthValue(v) && (blank == "" || blank == " ")
    ensures ',' !in blank + AuthPart(k, v)
  {}

  lemma AuthPartTrimmed(k: string, v: string, blank: string)
    requires Trimmed(k) && (blank == "" || blank == " ")
    ensures TrimSpace(blank + AuthPart(k, v)) == AuthPart(k, v)
  {
    var part := AuthPart(k, v);
    assert part[0] == (if k == "" then '=' else k[0]) && part[|part| - 1] == '"';
    TrimmedIsFixed(part);
    assert "" + part == part;
  }

  lemma QuotesDropped(v: string)
    requires '"' !in v
    ensures DropRight(DropLeft("\"" + v + "\"", IsQuote), IsQuote) == v
  {
    var s := "\"" + v + "\"";
    assert s[1..] == v + "\"" && DropLeft(s, IsQuote) == DropLeft(v + "\"", IsQuote);
    if v == "" {
      assert v + "\"" == "\"" && "\""[1..] == "";
    } else {
      assert (v + "\"")[0] == v[0] && v[0] in v && v[|v| - 1] in v;
      assert (v + "\"")[..|v|] == v;
    }
  }

  lemma {:induction false} AuthPartsRead(m: map<string, string>, order: seq<string>, i: nat, h: map<string, string>)
    requires GoodAuth(m) && (forall k :: k in order ==> k in m) && i <= |order|
    ensures PutAuthParts(h, AuthParts(m, order)[i..]) == h + map k | k in order[i..] :: m[k]
    decreases |order| - i
  {
    var parts := AuthParts(m, order);
    if i < |order| {
      var k := order[i];
      AuthPartReads(h, k, m[k], if i == 0 then "" else " ");
      assert parts[i..][0] == parts[i] && parts[i..][1..] == parts[i + 1..];
      AuthPartsRead(m, order, i + 1, h[k := m[k]]);
      OneMoreKey(m, order, i, h);
    } else {
      assert parts[i..] == [] && order[i..] == [];
    }
  }

  lemma OneMoreKey(m: map<string, string>, order: seq<string>, i: nat, h: map<string, string>)
    requires i < |order| && forall k :: k in order ==> k in m
    ensures h[order[i] := m[order[i]]] + (map k | k in order[i + 1..] :: m[k]) == h + map k | k in order[i..] :: m[k]
  {
    assert order[i..] == [order[i]] + order[i + 1..];
  }

  /** Digest parameters read back as they were, in whatever order they are printed. */
  lemma AuthReadsBack(m: map<string, string>, order: seq<string>)
    requires GoodAuth(m) && order != [] && IsOrder(order, m.Keys)
    ensures AuthPairs(PrintAuth(m, order)) == m
  {
    var parts := AuthParts(m, order);
    forall i | 0 <= i < |parts| ensures ',' !in parts[i] {
      AuthPartLacks(order[i], m[order[i]], if i == 0 then "" else " ");
    }
    BehindScheme(Join(parts, ","));
    SplitJoin(parts, ",");
    AuthPartsRead(m, order, 0, map[]);
    assert parts[0..] == parts && order[0..] == order;
  }

  lemma BehindScheme(x: string)
    ensures "Digest " <= "Digest " + x && ("Digest " + x)[7..] == x
  {}

  // ----- requests -----

  function AuthOf(h: Headers): map<string, string> {
    if "Authorization" in h then AuthPairs(h["Authorization"]) else map[]
  }

  /** The body length the headers announce, 0 when absent, malformed or not positive. */
  function AnnouncedLength(h: Headers): nat {
    match Atoi(Lookup(h, "Content-Length"))
    case Some(n) => if n > 0 then n else 0
    case None => 0
  }

  function HeadEnd(raw: string): nat {
    var e := Index(raw, BLANK_LINE);
    if e < 0 then |raw| else e
  }

  /** The request made of a start line's words, the header map and the text after the head. */
  function RequestFrom(first: seq<string>, h: Headers, raw: string, end: nat): Result<SIPRequest>
    requires end <= |raw|
  {
    var n := AnnouncedLength(h);
    if |first| != 3 then Failure("invalid request line")
    else if first[0] == "" then Failure("missing method")
    else if n > 0 && end + 4 + n > |raw| then Failure("content length larger than body")
    else
      var body := if n > 0 then raw[end + 4..end + 4 + n] else "";
      Success(SIPRequest(first[0], first[1], first[2], h, AuthOf(h), body))
  }

  function ParsedRequest(raw: string): Result<SIPRequest> {
    var end := HeadEnd(raw);
    var lines := Split(raw[..end], CRLF);
    RequestFrom(Split(lines[0], " "), PutLines(map[], lines[1..]), raw, end)
  }

  /** The header loop of both parsers; `auth` follows the last Authorization line. */
  method ParseHeaderLines(lines: seq<string>) returns (headers: Headers, auth: map<string, string>)
    ensures headers == PutLines(map[], lines) && auth == AuthOf(headers)
  {
    headers, auth := map[], map[];
    for i := 0 to |lines|
      invariant PutLines(headers, lines[i..]) == PutLines(map[], lines)
      invariant auth == AuthOf(headers)
    {
      assert lines[i..][1..] == lines[i + 1..];
      var parts := SplitN(lines[i], ":", 2);
      if |parts| == 2 {
        var key := Title(TrimSpace(parts[0]));
        var value := TrimSpace(parts[1]);
        headers := headers[key := value];
        if key == "Authorization" {
          auth := ParseAuthHeader(value);
        }
      }
    }
  }

  /** The announced number of bytes after the blank line, if there are that many. */
  method ReadBody(headers: Headers, raw: string, end: nat) returns (ok: bool, body: string)
    requires end <= |raw|
    ensures var n := AnnouncedLength(headers);
      && ok == !(n > 0 && end + 4 + n > |raw|)
      && (ok ==> body == if n > 0 then raw[end + 4..end + 4 + n] else "")
  {
    ok, body := true, "";
    var length := Atoi(Lookup(headers, "Content-Length"));
    if length.Some? && length.value > 0 {
      if end + 4 + length.value > |raw| { return false, ""; }
      body := raw[end + 4..end + 4 + length.value];
    }
  }

  /** The rest of the parser, once the header lines are read. */
  method FinishRequest(first: seq<string>, headers: Headers, auth: map<string, string>, raw: string, end: nat)
    returns (r: Result<SIPRequest>)
    requires end <= |raw| && |first| == 3 && auth == AuthOf(headers)
    ensures r == RequestFrom(first, headers, raw, end)
  {
    if first[0] == "" { return Failure("missing method"); }
    var ok, body := ReadBody(headers, raw, end);
    if !ok { return Failure("content length larger than body"); }
    r := Success(SIPRequest(first[0], first[1], first[2], headers, auth, body));
  }

  method ParseSIPRequest(raw: string) returns (r: Result<SIPRequest>)
    ensures r == ParsedRequest(raw)
  {
    var end := Index(raw, BLANK_LINE);
    if end == -1 { end := |raw|; }
    var lines := Split(raw[..end], CRLF);
    var first := Split(lines[0], " ");
    if |first| != 3 { return Failure("invalid request line"); }
    var headers, auth := ParseHeaderLines(lines[1..]);
    r := FinishRequest(first, headers, auth, raw, end);
  }

  // ----- responses -----

  function FirstEmpty(lines: seq<string>): (i: nat)
    ensures i <= |lines|
  {
    if lines == [] || lines[0] == "" then 0 else 1 + FirstEmpty(lines[1..])
  }

  function ResponseFrom(first: seq<string>, h: Headers, raw: string, blank: int): Result<SIPResponse>
    requires blank == -1 || 0 <= blank <= |raw| - 4
  {
    if |first| < 2 then Failure("invalid response line")
    else match Atoi(first[1])
      case None => Failure("invalid status code")
      case Some(status) =>
        var reason := if |first| > 2 then first[2] else "";
        var body := if AnnouncedLength(h) > 0 && blank != -1 then raw[blank + 4..] else "";
        Success(SIPResponse(first[0], status, reason, h, body))
  }

  function ParsedResponse(raw: string): Result<SIPResponse> {
    var lines := Split(raw, CRLF);
    var e := FirstEmpty(lines[1..]);
    var blank := if e < |lines| - 1 then Index(raw, BLANK_LINE) else -1;
    ResponseFrom(SplitN(lines[0], " ", 3), PutLines(map[], lines[1..1 + e]), raw, blank)
  }

  /** Every parsed response has its header names in title case. */
  lemma ParsedIsCanonical(raw: string)
    requires ParsedResponse(raw).Success?
    ensures Canonical(ParsedResponse(raw).value.headers)
  {
    var lines := Split(raw, CRLF);
    ParsedKeysCanonical(map[], lines[1..1 + FirstEmpty(lines[1..])]);
  }

  /** The scan for the line that ends the header block. */
  method FindEmpty(lines: seq<string>) returns (e: nat)
    ensures e == FirstEmpty(lines)
  {
    e := 0;
    while e < |lines| && lines[e] != ""
      invariant e <= |lines| && FirstEmpty(lines) == e + FirstEmpty(lines[e..])
    {
      assert lines[e..][1..] == lines[e + 1..];
      e := e + 1;
    }
  }

  method ParseSIPResponse(raw: string) returns (r: Result<SIPResponse>)
    ensures r == ParsedResponse(raw)
  {
    var lines := Split(raw, CRLF);
    var first := SplitN(lines[0], " ", 3);
    var e := FindEmpty(lines[1..]);
    var bodyIndex := -1;
    if e < |lines| - 1 { bodyIndex := Index(raw, BLANK_LINE); }
    var headers, _ := ParseHeaderLines(lines[1..1 + e]);
    r := ResponseFrom(first, headers, raw, bodyIndex);
  }

  // ----- round trip -----

  predicate OneLine(s: string) { forall c :: c in s ==> c != '\r' && c != '\n' }

  predicate Token(s: string) { OneLine(s) && ' ' !in s }

  /** Header fields that survive printing: canonical, trimmed, single-line. */
  ghost predicate PrintableHeaders(h: Headers) {
    forall k :: k in h ==> Key(k) && Value(h[k])
  }

  ghost predicate PrintableRequest(r: SIPRequest) {
    Token(r.verb) && r.verb != "" && Token(r.uri) && Token(r.proto) && PrintableHeaders(r.headers)
  }

  ghost predicate PrintableResponse(r: SIPResponse) {
    Token(r.proto) && OneLine(r.reason) && PrintableHeaders(r.headers)
  }

  /** The header lines a printer emits, without the length line. */
  function LinesOf(h: Headers, order: seq<string>): seq<string>
    requires forall k :: k in order ==> k in h
  {
    if order == [] then []
    else
      var k := order[0];
      (if Title(k) == "Content-Length" then [] else [HeaderLine(k, h[k])]) + LinesOf(h, order[1..])
  }

  predicate CleanLine(s: string) { s != "" && OneLine(s) }

  predicate AllClean(lines: seq<string>) { forall i :: 0 <= i < |lines| ==> CleanLine(lines[i]) }

  predicate Key(k: string) { Title(k) == k && Trimmed(k) && OneLine(k) && ':' !in k }

  predicate Value(v: string) { Trimmed(v) && OneLine(v) }

  lemma OneLineConcat(a: string, b: string, c: string)
    requires OneLine(a) && OneLine(b) && OneLine(c)
    ensures OneLine(a + b + c)
  {}

  lemma LineParses(h: Headers, k: string, v: string)
    requires Key(k) && Value(v)
    ensures PutLine(h, HeaderLine(k, v)) == h[k := v]
    ensures CleanLine(HeaderLine(k, v))
  {
    var line := HeaderLine(k, v);
    assert CleanLine(line) by { OneLineConcat(k, ": ", v); }
    assert SplitN(line, ":", 2) == [k, " " + v] by {
      assert line == k + ":" + (" " + v);
      SplitCons(k, " " + v, ":");
    }
    assert TrimSpace(k) == k && TrimSpace(" " + v) == v by { TrimmedIsFixed(k); TrimmedIsFixed(v); }
  }

  lemma LengthLineParses(h: Headers, body: string)
    ensures PutLine(h, LengthLine(body)) == h["Content-Length" := Itoa(|body|)]
    ensures CleanLine(LengthLine(body))
  {
    var n := Itoa(|body|);
    assert Title("Content-Length") == "Content-Length" by { LengthName(); }
    assert LengthLine(body) == HeaderLine("Content-Length", n);
    LengthKey();
    assert Value(n) by { ItoaIsPlain(|body|); }
    LineParses(h, "Content-Length", n);
  }

  lemma LengthKey()
    ensures Key("Content-Length")
  {
    var k := "Content-Length";
    assert Title(k) == k by { LengthName(); }
    assert k[0] == 'C' && k[1] == 'o' && k[2] == 'n' && k[3] == 't' && k[4] == 'e' && k[5] == 'n' && k[6] == 't';
    assert k[7] == '-' && k[8] == 'L' && k[9] == 'e' && k[10] == 'n' && k[11] == 'g' && k[12] == 't' && k[13] == 'h';
  }

  lemma {:induction false} LinesClean(h: Headers, order: seq<string>)
    requires PrintableHeaders(h) && forall k :: k in order ==> k in h
    ensures AllClean(LinesOf(h, order))
  {
    if order != [] {
      LinesClean(h, order[1..]);
      LineParses(map[], order[0], h[order[0]]);
    }
  }

  /** The part of the map that a list of keys names, without the length header. */
  function Chosen(h: Headers, order: seq<string>): Headers
    requires forall k :: k in order ==> k in h
  {
    map k | k in order && k != "Content-Length" :: h[k]
  }

  lemma {:induction false} LinesParse(h: Headers, order: seq<string>, acc: Headers)
    requires PrintableHeaders(h) && forall k :: k in order ==> k in h
    ensures PutLines(acc, LinesOf(h, order)) == acc + Chosen(h, order)
    decreases |order|
  {
    if order != [] {
      var k, more := order[0], order[1..];
      assert order == [k] + more && Key(k);
      if k == "Content-Length" {
        LinesParse(h, more, acc);
        PrintSkips(h, k, more);
        ChosenSkips(h, k, more);
      } else {
        LineParses(acc, k, h[k]);
        LinesParse(h, more, acc[k := h[k]]);
        ChosenCons(h, order, acc);
        PrintKeeps(h, k, more);
        PutFirst(acc, HeaderLine(k, h[k]), LinesOf(h, more));
      }
    }
  }

  lemma ChosenSkips(h: Headers, k: string, more: seq<string>)
    requires k == "Content-Length" && k in h && forall j :: j in more ==> j in h
    ensures Chosen(h, [k] + more) == Chosen(h, more)
  {}

  lemma PutFirst(acc: Headers, line: string, lines: seq<string>)
    ensures PutLines(acc, [line] + lines) == PutLines(PutLine(acc, line), lines)
  {
    assert ([line] + lines)[1..] == lines;
  }

  lemma ChosenCons(h: Headers, order: seq<string>, acc: Headers)
    requires order != [] && order[0] != "Content-Length" && forall k :: k in order ==> k in h
    ensures acc[order[0] := h[order[0]]] + Chosen(h, order[1..]) == acc + Chosen(h, order)
  {}

  lemma {:induction false} PutLinesSnoc(acc: Headers, lines: seq<string>, last: string)
    ensures PutLines(acc, lines + [last]) == PutLine(PutLines(acc, lines), last)
    decreases lines
  {
    if lines == [] {
      assert (lines + [last])[1..] == [];
      assert PutLines(PutLine(acc, last), []) == PutLine(acc, last);
    } else {
      assert (lines + [last])[1..] == lines[1..] + [last];
      PutLinesSnoc(PutLine(acc, lines[0]), lines[1..], last);
    }
  }

  /** The header block a printed message carries, as lines. */
  function BlockOf(h: Headers, order: seq<string>, body: string): seq<string>
    requires forall k :: k in order ==> k in h
  {
    LinesOf(h, order) + [LengthLine(body)]
  }

  function WithLength(h: Headers, body: string): Headers { h["Content-Length" := Itoa(|body|)] }

  lemma ChosenAll(h: Headers, order: seq<string>, body: string)
    requires IsOrder(order, h.Keys)
    ensures Chosen(h, order)["Content-Length" := Itoa(|body|)] == WithLength(h, body)
  {}

  lemma BlockParses(h: Headers, order: seq<string>, body: string)
    requires PrintableHeaders(h) && IsOrder(order, h.Keys)
    ensures PutLines(map[], BlockOf(h, order, body)) == WithLength(h, body)
    ensures AllClean(BlockOf(h, order, body))
  {
    var lines := LinesOf(h, order);
    LinesClean(h, order);
    LinesParse(h, order, map[]);
    assert map[] + Chosen(h, order) == Chosen(h, order);
    PutLinesSnoc(map[], lines, LengthLine(body));
    LengthLineParses(Chosen(h, order), body);
    ChosenAll(h, order, body);
  }

  lemma LengthAnnounced(h: Headers, body: string)
    ensures AnnouncedLength(WithLength(h, body)) == |body|
  {
    assert Lookup(WithLength(h, body), "Content-Length") == Itoa(|body|) by { LengthName(); }
    AtoiUndoesItoa(|body|);
  }

  lemma JoinTwo(start: string, last: string)
    ensures Join([start] + [] + [last], CRLF) == start + CRLF + "" + last
  {
    var two := [start] + [] + [last];
    assert two == [start, last] && two[1..] == [last];
  }

  lemma {:induction false} PrintIsJoin(start: string, h: Headers, order: seq<string>, last: string)
    requires forall k :: k in order ==> k in h
    ensures start + CRLF + PrintHeaders(h, order) + last == Join([start] + LinesOf(h, order) + [last], CRLF)
    decreases |order|
  {
    if order == [] {
      JoinTwo(start, last);
    } else {
      var k, more := order[0], order[1..];
      if Title(k) == "Content-Length" {
        PrintIsJoin(start, h, more, last);
        PrintSkips(h, k, more);
      } else {
        PrintIsJoin(HeaderLine(k, h[k]), h, more, last);
        JoinFront(start, HeaderLine(k, h[k]), LinesOf(h, more), last);
        PrintKeeps(h, k, more);
        Regroup(start + CRLF, HeaderLine(k, h[k]) + CRLF, PrintHeaders(h, more), last);
      }
      assert order == [k] + more;
    }
  }

  lemma PrintSkips(h: Headers, k: string, more: seq<string>)
    requires k in h && (forall j :: j in more ==> j in h) && Title(k) == "Content-Length"
    ensures PrintHeaders(h, [k] + more) == PrintHeaders(h, more) && LinesOf(h, [k] + more) == LinesOf(h, more)
  {
    assert ([k] + more)[1..] == more;
    assert "" + PrintHeaders(h, more) == PrintHeaders(h, more);
  }

  lemma PrintKeeps(h: Headers, k: string, more: seq<string>)
    requires k in h && (forall j :: j in more ==> j in h) && Title(k) != "Content-Length"
    ensures PrintHeaders(h, [k] + more) == HeaderLine(k, h[k]) + CRLF + PrintHeaders(h, more)
    ensures LinesOf(h, [k] + more) == [HeaderLine(k, h[k])] + LinesOf(h, more)
  {
    assert ([k] + more)[1..] == more;
  }

  lemma JoinFront(start: string, line: string, lines: seq<string>, last: string)
    ensures Join([start] + ([line] + lines) + [last], CRLF) == start + CRLF + Join([line] + lines + [last], CRLF)
  {
    var all := [start] + ([line] + lines) + [last];
    assert all[0] == start && all[1..] == [line] + lines + [last];
  }

  lemma Regroup(a: string, b: string, c: string, d: string)
    ensures a + (b + c + d) == a + (b + c) + d
  {}

  /** A line and its terminator in front do not move the first blank line into themselves. */
  lemma BlankLinePastLine(l: string, tail: string, blank: string)
    requires OneLine(l) && tail != "" && tail[0] != '\r' && Index(tail, blank) >= 0
    requires |blank| > 2 && blank[0] == blank[2] == '\r'
    ensures Index(l + (['\r'] + (['\n'] + tail)), blank) == |l| + 2 + Index(tail, blank)
  {
    var u := ['\n'] + tail;
    IndexSkips(['\n'], tail, blank);
    assert !(blank <= ['\r'] + u) by { assert (['\r'] + u)[2] == tail[0]; }
    IndexStep('\r', u, blank);
    IndexSkips(l, ['\r'] + u, blank);
  }

  /** The first blank line of a message is the one that ends its header block. */
  lemma {:induction false} BlankLineEndsHead(lines: seq<string>, rest: string)
    requires lines != [] && AllClean(lines)
    ensures Index(Join(lines, CRLF) + BLANK_LINE + rest, BLANK_LINE) == |Join(lines, CRLF)|
  {
    assert CleanLine(lines[0]);
    if |lines| == 1 {
      IndexFound(lines[0], rest, BLANK_LINE);
    } else {
      var j := Join(lines[1..], CRLF);
      var tail := j + BLANK_LINE + rest;
      BlankLineEndsHead(lines[1..], rest);
      assert tail != "" && tail[0] != '\r' by {
        JoinStartsClean(lines[1..], BLANK_LINE + rest);
        assert tail == j + (BLANK_LINE + rest);
      }
      BlankLinePastLine(lines[0], tail, BLANK_LINE);
      assert (lines[0] + CRLF + j) + BLANK_LINE + rest == lines[0] + CRLF + tail by {
        Reassociate(lines[0], CRLF, j, BLANK_LINE, rest);
      }
      assert lines[0] + CRLF + tail == lines[0] + (['\r'] + (['\n'] + tail));
    }
  }

  lemma JoinStartsClean(lines: seq<string>, rest: string)
    requires lines != [] && AllClean(lines)
    ensures var t := Join(lines, CRLF) + rest; t != "" && t[0] != '\r'
  {
    var l := lines[0];
    assert CleanLine(l) && l[0] in l;
    assert l <= Join(lines, CRLF);
    assert (Join(lines, CRLF) + rest)[0] == l[0];
  }

  /** A printed message is its lines joined, a blank line and the body. */
  lemma PrintShape(start: string, h: Headers, order: seq<string>, body: string)
    requires forall k :: k in order ==> k in h
    ensures PrintMessage(start, h, order, body)
         == Join([start] + BlockOf(h, order, body), CRLF) + BLANK_LINE + body
  {
    PrintIsJoin(start, h, order, LengthLine(body));
    assert [start] + LinesOf(h, order) + [LengthLine(body)] == [start] + BlockOf(h, order, body);
    assert CRLF + CRLF == BLANK_LINE;
    var head := start + CRLF + PrintHeaders(h, order) + LengthLine(body);
    assert head + CRLF + CRLF + body == head + (CRLF + CRLF) + body;
  }

  lemma RequestLineSplits(r: SIPRequest)
    requires PrintableRequest(r)
    ensures Split(RequestLine(r), " ") == [r.verb, r.uri, r.proto] && CleanLine(RequestLine(r))
  {
    assert RequestLine(r) == r.verb + " " + (r.uri + " " + r.proto);
    SplitCons(r.verb, r.uri + " " + r.proto, " ");
    SplitCons(r.uri, r.proto, " ");
    SplitOne(r.proto, " ");
  }

  lemma StatusLineSplits(r: SIPResponse)
    requires PrintableResponse(r)
    ensures SplitN(StatusLine(r), " ", 3) == [r.proto, Itoa(r.status), r.reason]
  {
    var n := Itoa(r.status);
    var x := n + " " + r.reason;
    assert ' ' !in n by { ItoaIsPlain(r.status); }
    assert StatusLine(r) == r.proto + " " + x;
    SplitCons(n, r.reason, " ");
    IndexFound(r.proto, x, " ");
    assert SplitN(StatusLine(r), " ", 3) == [r.proto] + SplitN(x, " ", 2);
  }

  lemma StatusLineClean(r: SIPResponse)
    requires PrintableResponse(r)
    ensures CleanLine(StatusLine(r))
  {}

  /** Where the parts of a printed message are. */
  lemma PrintedParts(start: string, h: Headers, order: seq<string>, body: string)
    requires CleanLine(start) && PrintableHeaders(h) && IsOrder(order, h.Keys)
    ensures var raw := PrintMessage(start, h, order, body);
      var lines := [start] + BlockOf(h, order, body);
      && AllClean(lines)
      && raw == Join(lines, CRLF) + BLANK_LINE + body
      && Index(raw, BLANK_LINE) == |Join(lines, CRLF)|
      && raw[..|Join(lines, CRLF)|] == Join(lines, CRLF)
      && raw[|Join(lines, CRLF)| + 4..] == body
  {
    BlockParses(h, order, body);
    PrintShape(start, h, order, body);
    var lines := [start] + BlockOf(h, order, body);
    BlankLineEndsHead(lines, body);
    HeadAndBody(Join(lines, CRLF), body);
  }

  lemma HeadAndBody(head: string, body: string)
    ensures var raw := head + BLANK_LINE + body;
      raw[..|head|] == head && raw[|head| + 4..] == body && raw == head + (BLANK_LINE + body)
  {}

  /** Parsing undoes printing for every emission order and every body. */
  lemma RequestRoundTrip(r: SIPRequest, order: seq<string>)
    requires PrintableRequest(r) && IsOrder(order, r.headers.Keys)
    ensures ParsedRequest(PrintMessage(RequestLine(r), r.headers, order, r.body))
         == Success(r.(headers := WithLength(r.headers, r.body), authorization := AuthOf(r.headers)))
  {
    var raw := PrintMessage(RequestLine(r), r.headers, order, r.body);
    var lines := [RequestLine(r)] + BlockOf(r.headers, order, r.body);
    RequestLineSplits(r);
    PrintedParts(RequestLine(r), r.headers, order, r.body);
    BlockParses(r.headers, order, r.body);
    assert lines[1..] == BlockOf(r.headers, order, r.body);
    ParsedRequestIs(raw, lines, WithLength(r.headers, r.body));
    RequestFromPrinted(r, raw, |Join(lines, CRLF)|);
  }

  /** The printed head of a request, up to and including the blank line. */
  function HeadText(r: SIPRequest, order: seq<string>): string
    requires forall k :: k in order ==> k in r.headers
  {
    Join([RequestLine(r)] + BlockOf(r.headers, order, r.body), CRLF) + BLANK_LINE
  }

  /** Whatever text follows a printed head: a text shorter than the announced body is refused, and
      of a longer one exactly the announced part is the body. */
  lemma BodyByLength(r: SIPRequest, order: seq<string>, rest: string)
    requires PrintableRequest(r) && IsOrder(order, r.headers.Keys)
    ensures var parsed := ParsedRequest(HeadText(r, order) + rest);
      if |rest| < |r.body| then parsed.Failure? else parsed.Success? && parsed.value.body == rest[..|r.body|]
  {
    var lines := [RequestLine(r)] + BlockOf(r.headers, order, r.body);
    var head, raw := Join(lines, CRLF), HeadText(r, order) + rest;
    RequestLineSplits(r);
    BlockParses(r.headers, order, r.body);
    BlankLineEndsHead(lines, rest);
    HeadAndBody(head, rest);
    assert lines[1..] == BlockOf(r.headers, order, r.body);
    ParsedRequestIs(raw, lines, WithLength(r.headers, r.body));
    BodyFrom(r, raw, |head|, rest);
  }

  lemma BodyFrom(r: SIPRequest, raw: string, end: nat, rest: string)
    requires r.verb != "" && end + 4 <= |raw| && raw[end + 4..] == rest
    ensures var parsed := RequestFrom([r.verb, r.uri, r.proto], WithLength(r.headers, r.body), raw, end);
      if |rest| < |r.body| then parsed.Failure? else parsed.Success? && parsed.value.body == rest[..|r.body|]
  {
    LengthAnnounced(r.headers, r.body);
    BodyCut(raw, end + 4, |r.body|, rest);
  }

  lemma BodyCut(raw: string, from: nat, n: nat, rest: string)
    requires from <= |raw| && raw[from..] == rest
    ensures n <= |rest| ==> raw[from..from + n] == rest[..n]
    ensures |raw| == from + |rest|
  {}

  /** A request whose first line is not three words, the first one not empty, is refused. */
  lemma StartLineRefused(start: string, h: Headers, order: seq<string>, body: string)
    requires CleanLine(start) && PrintableHeaders(h) && IsOrder(order, h.Keys)
    requires |Split(start, " ")| != 3 || start[0] == ' '
    ensures ParsedRequest(PrintMessage(start, h, order, body)).Failure?
  {
    var lines := [start] + BlockOf(h, order, body);
    PrintedParts(start, h, order, body);
    BlockParses(h, order, body);
    assert lines[1..] == BlockOf(h, order, body);
    ParsedRequestIs(PrintMessage(start, h, order, body), lines, WithLength(h, body));
    if start[0] == ' ' { EmptyFirstWord(start); }
  }

  lemma EmptyFirstWord(start: string)
    requires start != "" && start[0] == ' '
    ensures Split(start, " ")[0] == ""
  {
    assert " " <= start && start[..0] == "";
  }

  /** A response whose first line has no second word, or one that is not a number, is refused. */
  lemma StatusLineRefused(start: string, h: Headers, order: seq<string>, body: string)
    requires CleanLine(start) && PrintableHeaders(h) && IsOrder(order, h.Keys)
    requires |SplitN(start, " ", 3)| < 2 || Atoi(SplitN(start, " ", 3)[1]).None?
    ensures ParsedResponse(PrintMessage(start, h, order, body)).Failure?
  {
    PrintedParts(start, h, order, body);
    BlockParses(h, order, body);
    ParsedResponseIs(PrintMessage(start, h, order, body), start, BlockOf(h, order, body), body);
  }

  /** So the server reads exactly the digest parameters a client has printed. */
  lemma DigestArrives(r: SIPRequest, order: seq<string>, m: map<string, string>, pairs: seq<string>)
    requires PrintableRequest(r) && IsOrder(order, r.headers.Keys)
    requires GoodAuth(m) && pairs != [] && IsOrder(pairs, m.Keys)
    requires "Authorization" in r.headers && r.headers["Authorization"] == PrintAuth(m, pairs)
    ensures var parsed := ParsedRequest(PrintMessage(RequestLine(r), r.headers, order, r.body));
      parsed.Success? && parsed.value.authorization == m
  {
    RequestRoundTrip(r, order);
    AuthReadsBack(m, pairs);
  }

  lemma ParsedRequestIs(raw: string, lines: seq<string>, h: Headers)
    requires lines != [] && AllClean(lines) && PutLines(map[], lines[1..]) == h
    requires var end := |Join(lines, CRLF)|;
      Index(raw, BLANK_LINE) == end && raw[..end] == Join(lines, CRLF)
    ensures ParsedRequest(raw) == RequestFrom(Split(lines[0], " "), h, raw, |Join(lines, CRLF)|)
  {
    forall i | 0 <= i < |lines| ensures CRLF[0] !in lines[i] { assert CleanLine(lines[i]); }
    SplitJoin(lines, CRLF);
  }

  lemma RequestFromPrinted(r: SIPRequest, raw: string, end: nat)
    requires r.verb != "" && end + 4 <= |raw| && raw[end + 4..] == r.body
    ensures var h := WithLength(r.headers, r.body);
      RequestFrom([r.verb, r.uri, r.proto], h, raw, end) ==
        Success(r.(headers := h, authorization := AuthOf(r.headers)))
  {
    LengthAnnounced(r.headers, r.body);
    assert raw[end + 4..end + 4 + |r.body|] == raw[end + 4..][..|r.body|] == r.body;
  }

  lemma {:induction false} FirstEmptyAfter(lines: seq<string>, rest: seq<string>)
    requires forall i :: 0 <= i < |lines| ==> lines[i] != ""
    ensures FirstEmpty(lines + [""] + rest) == |lines|
  {
    if lines == [] {
      assert (lines + [""] + rest)[0] == "";
    } else {
      assert (lines + [""] + rest)[1..] == lines[1..] + [""] + rest;
      FirstEmptyAfter(lines[1..], rest);
    }
  }

  lemma ResponseRoundTrip(r: SIPResponse, order: seq<string>)
    requires PrintableResponse(r) && IsOrder(order, r.headers.Keys)
    ensures ParsedResponse(PrintMessage(StatusLine(r), r.headers, order, r.body))
         == Success(r.(headers := WithLength(r.headers, r.body)))
  {
    var raw := PrintMessage(StatusLine(r), r.headers, order, r.body);
    var block := BlockOf(r.headers, order, r.body);
    StatusLineSplits(r);
    StatusLineClean(r);
    PrintedParts(StatusLine(r), r.headers, order, r.body);
    BlockParses(r.headers, order, r.body);
    ParsedResponseIs(raw, StatusLine(r), block, r.body);
    LengthAnnounced(r.headers, r.body);
    AtoiUndoesItoa(r.status);
  }

  lemma ParsedResponseUnfolds(raw: string, lines: seq<string>, e: nat)
    requires Split(raw, CRLF) == lines && e < |lines| - 1 && FirstEmpty(lines[1..]) == e
    ensures ParsedResponse(raw)
         == ResponseFrom(SplitN(lines[0], " ", 3), PutLines(map[], lines[1..1 + e]), raw, Index(raw, BLANK_LINE))
  {}

  lemma ParsedResponseIs(raw: string, start: string, block: seq<string>, body: string)
    requires AllClean([start] + block) && AllClean(block)
    requires raw == Join([start] + block, CRLF) + BLANK_LINE + body
    ensures ParsedResponse(raw)
         == ResponseFrom(SplitN(start, " ", 3), PutLines(map[], block), raw, Index(raw, BLANK_LINE))
  {
    var rest := Split(body, CRLF);
    ResponseLines([start] + block, body);
    BlockEnds(block, rest);
    LinesInParts(start, block, rest);
    ParsedResponseUnfolds(raw, [start] + block + [""] + rest, |block|);
  }

  lemma LinesInParts(start: string, block: seq<string>, rest: seq<string>)
    ensures var lines := [start] + block + [""] + rest;
      lines[0] == start && lines[1..] == block + [""] + rest && lines[1..1 + |block|] == block && |block| < |lines| - 1
  {}

  lemma BlockEnds(block: seq<string>, rest: seq<string>)
    requires AllClean(block)
    ensures FirstEmpty(block + [""] + rest) == |block|
  {
    assert forall i :: 0 <= i < |block| ==> CleanLine(block[i]);
    FirstEmptyAfter(block, rest);
  }

  lemma ResponseLines(lines: seq<string>, body: string)
    requires lines != [] && AllClean(lines)
    ensures Split(Join(lines, CRLF) + BLANK_LINE + body, CRLF) == lines + [""] + Split(body, CRLF)
  {
    var head := Join(lines, CRLF);
    assert BLANK_LINE == CRLF + CRLF;
    assert head + BLANK_LINE + body == head + CRLF + (CRLF + body);
    SplitJoinThen(lines, CRLF + body, CRLF);
    assert CRLF + body == "" + CRLF + body;
    SplitCons("", body, CRLF);
    assert lines + ([""] + Split(body, CRLF)) == lines + [""] + Split(body, CRLF);
  }
}
