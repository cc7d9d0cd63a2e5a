/** SIP messages, the printer, and the builders for responses and ACKs. */
module Message {
  import opened Text

  type Headers = map<string, string>

  datatype SIPRequest = SIPRequest(verb: string, uri: string, proto: string, headers: Headers,
                                   authorization: map<string, string>, body: string)
  {
    function Header(name: string): string { Lookup(headers, name) }
  }

  datatype SIPResponse = SIPResponse(proto: string, status: int, reason: string, headers: Headers, body: string)
  {
    function Header(name: string): string { Lookup(headers, name) }

    predicate Provisional() { 100 <= status < 200 }

    predicate Success() { 200 <= status < 300 }
  }

  /** A missing header reads as the empty string; names are looked up in title case. */
  function Lookup(headers: Headers, name: string): string {
    if Title(name) in headers then headers[Title(name)] else ""
  }

  ghost predicate Canonical(headers: Headers) { forall k :: k in headers ==> Title(k) == k }

  /** The header names the code writes as literals are already in title case. */
  lemma KnownNames()
    ensures Title("Via") == "Via" && Title("From") == "From" && Title("To") == "To"
    ensures Title("Call-ID") == "Call-ID" && Title("CSeq") == "CSeq" && Title("Route") == "Route"
  {}

  lemma TimerNames()
    ensures Title("Session-Expires") == "Session-Expires" && Title("Min-SE") == "Min-SE"
    ensures Title("Require") == "Require" && Title("x") == "X"
  {}

  lemma LengthName()
    ensures Title("Content-Length") == "Content-Length"
  {}

  // ----- printing -----

  /** Some iteration order of a map with these keys. */
  ghost predicate IsOrder(order: seq<string>, keys: set<string>) {
    && (forall k :: k in order <==> k in keys)
    && (forall i, j :: 0 <= i < j < |order| ==> order[i] != order[j])
  }

  function HeaderLine(key: string, value: string): string { Title(key) + ": " + value }

  function LengthLine(body: string): string { "Content-Length: " + Itoa(|body|) }

  /** What one map entry contributes: the stored length header is skipped. */
  function PrintEntry(key: string, value: string): string {
    if Title(key) == "Content-Length" then "" else HeaderLine(key, value) + CRLF
  }

  function PrintHeaders(h: Headers, order: seq<string>): string
    requires forall k :: k in order ==> k in h
  {
    if order == [] then "" else PrintEntry(order[0], h[order[0]]) + PrintHeaders(h, order[1..])
  }

  function PrintMessage(start: string, h: Headers, order: seq<string>, body: string): string
    requires forall k :: k in order ==> k in h
  {
    start + CRLF + PrintHeaders(h, order) + LengthLine(body) + CRLF + CRLF + body
  }

  function RequestLine(r: SIPRequest): string { r.verb + " " + r.uri + " " + r.proto }

  function StatusLine(r: SIPResponse): string { r.proto + " " + Itoa(r.status) + " " + r.reason }

  lemma Associate(a: string, b: string, c: string)
    ensures a + (b + c) == (a + b) + c
  {}

  lemma {:induction false} PrintHeadersSnoc(h: Headers, order: seq<string>, k: string)
    requires k in h && forall j :: j in order ==> j in h
    ensures PrintHeaders(h, order + [k]) == PrintHeaders(h, order) + PrintEntry(k, h[k])
  {
    if order == [] {
      assert order + [k] == [k] && [k][1..] == [];
      assert PrintHeaders(h, [k]) == PrintEntry(k, h[k]) + "";
    } else {
      assert (order + [k])[1..] == order[1..] + [k];
      PrintHeadersSnoc(h, order[1..], k);
      Associate(PrintEntry(order[0], h[order[0]]), PrintHeaders(h, order[1..]), PrintEntry(k, h[k]));
    }
  }

  /** The header loop of both `String` methods: Go visits the map in an order of its own. */
  method WriteHeaders(h: Headers) returns (text: string, ghost order: seq<string>)
    ensures IsOrder(order, h.Keys) && text == PrintHeaders(h, order)
  {
    text := "";
    order := [];
    var keys := h.Keys;
    while keys != {}
      invariant keys <= h.Keys && IsOrder(order, h.Keys - keys)
      invariant text == PrintHeaders(h, order)
      decreases keys
    {
      var k :| k in keys;
      if Title(k) != "Content-Length" {
        text := text + (HeaderLine(k, h[k]) + CRLF);
      }
      PrintHeadersSnoc(h, order, k);
      order := order + [k];
      keys := keys - {k};
    }
  }

  /** Both `String` methods. */
  method WriteMessage(start: string, h: Headers, body: string) returns (text: string)
    ensures exists order :: IsOrder(order, h.Keys) && text == PrintMessage(start, h, order, body)
  {
    ghost var order;
    text, order := WriteHeaders(h);
    text := start + CRLF + text + LengthLine(body) + CRLF + CRLF + body;
    assert text == PrintMessage(start, h, order, body);
  }

  // ----- responses to a request -----

  const RESPONSE_TAG: string := ";tag=z9hG4bK-response-tag"
  const COPIED: seq<string> := ["Via", "From", "To", "Call-ID", "CSeq"]

  /** What a response takes over from a request header; an untagged To gets the fixed tag. */
  function CopiedValue(req: SIPRequest, name: string): string {
    var value := req.Header(name);
    if name == "To" && !Contains(value, "tag=") then value + RESPONSE_TAG else value
  }

  function CopiedHeaders(req: SIPRequest): Headers {
    map h | h in COPIED && req.Header(h) != "" :: CopiedValue(req, h)
  }

  /** Later entries overwrite earlier ones whose keys have the same title case. */
  function PutAll(h: Headers, extra: Headers, order: seq<string>): Headers
    requires forall k :: k in order ==> k in extra
    decreases order
  {
    if order == [] then h
    else
      var last := order[|order| - 1];
      PutAll(h, extra, order[..|order| - 1])[Title(last) := extra[last]]
  }

  /** The response built from `req` when the extra headers are visited in `order`. */
  function ResponseTo(status: int, reason: string, req: SIPRequest, extra: Headers, order: seq<string>): SIPResponse
    requires forall k :: k in order ==> k in extra
  {
    SIPResponse(req.proto, status, reason, PutAll(CopiedHeaders(req), extra, order), "")
  }

  /** The common case without extra headers. */
  function PlainResponse(status: int, reason: string, req: SIPRequest): SIPResponse {
    SIPResponse(req.proto, status, reason, CopiedHeaders(req), "")
  }

  /** The loop over the header names that every response copies. */
  method CopyHeaders(req: SIPRequest) returns (headers: Headers)
    ensures headers == CopiedHeaders(req)
  {
    KnownNames();
    headers := map[];
    for i := 0 to |COPIED|
      invariant headers == map h | h in COPIED[..i] && req.Header(h) != "" :: CopiedValue(req, h)
    {
      var h := COPIED[i];
      assert COPIED[..i + 1] == COPIED[..i] + [h];
      assert Title(h) == h;
      var val := req.Header(h);
      if val != "" {
        if h == "To" && !Contains(req.Header("To"), "tag=") {
          val := val + RESPONSE_TAG;
        }
        headers := headers[Title(h) := val];
      }
    }
    assert COPIED[..|COPIED|] == COPIED;
  }

  /** The loop over the extra headers. */
  method AddHeaders(h: Headers, extra: Headers) returns (headers: Headers, ghost order: seq<string>)
    ensures IsOrder(order, extra.Keys) && headers == PutAll(h, extra, order)
  {
    headers, order := h, [];
    var keys := extra.Keys;
    while keys != {}
      invariant keys <= extra.Keys && IsOrder(order, extra.Keys - keys)
      invariant headers == PutAll(h, extra, order)
      decreases keys
    {
      var k :| k in keys;
      headers := headers[Title(k) := extra[k]];
      assert (order + [k])[..|order|] == order;
      order := order + [k];
      keys := keys - {k};
    }
  }

  method BuildResponse(status: int, reason: string, req: SIPRequest, extra: Headers)
    returns (res: SIPResponse, ghost order: seq<string>)
    ensures IsOrder(order, extra.Keys)
    ensures res == ResponseTo(status, reason, req, extra, order)
    ensures exists o :: IsOrder(o, extra.Keys) && res == ResponseTo(status, reason, req, extra, o)
  {
    var headers := CopyHeaders(req);
    headers, order := AddHeaders(headers, extra);
    res := SIPResponse(req.proto, status, reason, headers, "");
  }

  /** With canonical extra keys the visiting order is immaterial. */
  lemma {:induction false} PutAllCanonical(h: Headers, extra: Headers, order: seq<string>)
    requires Canonical(extra) && forall k :: k in order ==> k in extra
    ensures PutAll(h, extra, order) == h + map k | k in order :: extra[k]
    decreases |order|
  {
    if order != [] {
      var front, last := order[..|order| - 1], order[|order| - 1];
      assert order == front + [last] && Title(last) == last;
      PutAllCanonical(h, extra, front);
      OneMoreKey(extra, front, last);
      UpdateAfterUnion(h, map k | k in front :: extra[k], last, extra[last]);
    }
  }

  lemma UpdateAfterUnion(h: Headers, m: Headers, k: string, v: string)
    ensures (h + m)[k := v] == h + m[k := v]
  {}

  lemma OneMoreKey(extra: Headers, front: seq<string>, last: string)
    requires last in extra && forall k :: k in front ==> k in extra
    ensures (map k | k in front + [last] :: extra[k]) == (map k | k in front :: extra[k])[last := extra[last]]
  {}

  /** Whatever the order, a header no extra key titles to is left as copied, and one that
      some extra key titles to carries the value of such a key. */
  lemma {:induction false} PutAllAt(h: Headers, extra: Headers, order: seq<string>, name: string)
    requires forall k :: k in order ==> k in extra
    ensures var r := PutAll(h, extra, order);
      if exists k :: k in order && Title(k) == name
      then name in r && exists k :: k in order && Title(k) == name && r[name] == extra[k]
      else (name in r <==> name in h) && (name in h ==> r[name] == h[name])
  {
    if order != [] {
      var n := |order| - 1;
      assert order == order[..n] + [order[n]];
      PutAllAt(h, extra, order[..n], name);
      if Title(order[n]) == name {
        assert order[n] in order;
      }
    }
  }

  /** What a response takes over: Via, From, Call-ID and CSeq as they are, To with the fixed tag
      unless some tag is there; whatever other headers are added, in whatever order. */
  lemma ResponseCopies(
      status: int, reason: string, req: SIPRequest, extra: Headers, order: seq<string>, name: string)
    requires (forall k :: k in order ==> k in extra && Title(k) != name)
    requires name in {"Via", "From", "To", "Call-ID", "CSeq"}
    ensures var r := ResponseTo(status, reason, req, extra, order);
      && r.status == status && r.reason == reason
      && r.Header(name) ==
           if name == "To" && req.Header("To") != "" && !Contains(req.Header("To"), "tag=")
           then req.Header("To") + ";tag=z9hG4bK-response-tag"
           else req.Header(name)
  {
    KnownNames();
    CopiedNames(name);
    PutAllAt(CopiedHeaders(req), extra, order, name);
  }

  lemma CopiedNames(name: string)
    requires name in {"Via", "From", "To", "Call-ID", "CSeq"}
    ensures name in COPIED
  {
    assert COPIED[0] == "Via" && COPIED[1] == "From" && COPIED[2] == "To";
    assert COPIED[3] == "Call-ID" && COPIED[4] == "CSeq";
  }

  // ----- ACK -----

  /** The ACK a client transaction sends for a non-2xx final response. */
  function BuildAck(res: SIPResponse, req: SIPRequest): SIPRequest {
    var base: Headers := map[
      "Via" := req.Header("Via"),
      "To" := if "To" in res.headers then res.headers["To"] else "",
      "From" := req.Header("From"),
      "Call-ID" := req.Header("Call-ID"),
      "CSeq" := Split(req.Header("CSeq"), " ")[0] + " ACK",
      "Max-Forwards" := "70"];
    var route := req.Header("Route");
    SIPRequest("ACK", req.uri, req.proto, if route == "" then base else base["Route" := route], map[], "")
  }

  /** The sequence number of a CSeq value: the text before the first blank. */
  function CSeqNumber(cseq: string): string { Split(cseq, " ")[0] }

  /** The ACK belongs to the INVITE's transaction and answers exactly this response. */
  lemma AckMatches(res: SIPResponse, req: SIPRequest)
    ensures var ack := BuildAck(res, req);
      && ack.verb == "ACK" && ack.uri == req.uri
      && ack.Header("Via") == req.Header("Via")
      && ack.Header("To") == res.Header("To")
      && ack.Header("From") == req.Header("From") && ack.Header("Call-ID") == req.Header("Call-ID")
      && ack.Header("CSeq") == CSeqNumber(req.Header("CSeq")) + " ACK"
      && ack.Header("Route") == req.Header("Route") && ack.proto == req.proto && ack.body == ""
  {
    KnownNames();
    assert |"Route"| == 5 && |"Via"| == 3 && |"To"| == 2 && |"From"| == 4 && |"Call-ID"| == 7 && |"CSeq"| == 4;
    assert |"Max-Forwards"| == 12;
  }

  lemma AckCSeq(cseq: string)
    ensures Split(CSeqNumber(cseq) + " ACK", " ") == [CSeqNumber(cseq), "ACK"]
  {
    SplitHeadIsClean(cseq);
    AckSplits(CSeqNumber(cseq));
  }

  lemma AckSplits(n: string)
    requires ' ' !in n
    ensures Split(n + " ACK", " ") == [n, "ACK"]
  {
    assert n + " ACK" == n + " " + "ACK";
    SplitCons(n, "ACK", " ");
    SplitOne("ACK", " ");
  }

  lemma {:induction false} SplitHeadIsClean(s: string)
    ensures ' ' !in Split(s, " ")[0]
  {
    if s != "" && s[0] != ' ' {
      SplitHeadIsClean(s[1..]);
      var i := Index(s[1..], " ");
      assert s == [s[0]] + s[1..];
      if i >= 0 {
        assert s[..i + 1] == [s[0]] + s[1..][..i];
      }
    } else if s != "" {
      assert " " <= s;
      assert s[..0] == "";
    }
  }
}
