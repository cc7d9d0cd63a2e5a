/** The B2BUA: it answers the caller's INVITE from what the callee's leg brings, retrying the
    callee's leg on 422. Generated identifiers, name resolution and the order in which
    responses, the caller's end and the 32 s timeout arrive are inputs. */
module B2bua {
  import opened Wrappers
  import opened Text
  import opened Message
  import opened SessionTimer
  import Server = InviteServer
  import Timing
  import Uri
  import Vias

  // ----- tags -----

  const TAG: string := "tag="

  function FirstTag(parts: seq<string>): string {
    if parts == [] then ""
    else if TAG <= TrimSpace(parts[0]) then TrimSpace(parts[0])[|TAG|..]
    else FirstTag(parts[1..])
  }

  function TagOf(value: string): string { FirstTag(Split(value, ";")) }

  method GetTag(value: string) returns (tag: string)
    ensures tag == TagOf(value)
  {
    var parts := Split(value, ";");
    for i := 0 to |parts|
      invariant FirstTag(parts) == FirstTag(parts[i..])
    {
      assert parts[i..][1..] == parts[i + 1..];
      var part := TrimSpace(parts[i]);
      if "tag=" <= part { return part[|"tag="|..]; }
    }
    assert parts[|parts|..] == [];
    tag := "";
  }

  predicate HasTag(parts: seq<string>) { exists i :: 0 <= i < |parts| && TAG <= TrimSpace(parts[i]) }

  /** Whether some parameter is a tag, perhaps an empty one. */
  predicate Tagged(value: string) { HasTag(Split(value, ";")) }

  /** What the tag generator returns. */
  predicate TagText(tag: string) { tag != "" && Solid(tag) && ';' !in tag }

  lemma {:induction false} FirstTagSnoc(parts: seq<string>, last: string)
    ensures FirstTag(parts + [last]) == if HasTag(parts) then FirstTag(parts) else FirstTag([last])
  {
    if parts == [] {
      assert parts + [last] == [last];
    } else {
      assert (parts + [last])[1..] == parts[1..] + [last];
      FirstTagSnoc(parts[1..], last);
      if HasTag(parts) && !(TAG <= TrimSpace(parts[0])) {
        var i :| 0 <= i < |parts| && TAG <= TrimSpace(parts[i]);
        assert parts[1..][i - 1] == parts[i];
      }
      assert HasTag(parts[1..]) ==> HasTag(parts) by {
        if HasTag(parts[1..]) {
          var i :| 0 <= i < |parts| - 1 && TAG <= TrimSpace(parts[1..][i]);
          assert parts[i + 1] == parts[1..][i];
        }
      }
    }
  }

  lemma TagParam(tag: string)
    requires TagText(tag)
    ensures ';' !in TAG + tag && FirstTag([TAG + tag]) == tag
  {
    var t := TAG;
    assert t[0] == 't' && forall i :: 0 <= i < |t| ==> t[i] != ';';
    assert Trimmed(t + tag) by { assert (t + tag)[|t + tag| - 1] == tag[|tag| - 1]; }
    TrimmedIsFixed(t + tag);
  }

  /** Appending a tag to a header value gives it that tag exactly when it had none. */
  lemma TagAppended(value: string, tag: string)
    requires TagText(tag)
    ensures TagOf(value + ";tag=" + tag) == if Tagged(value) then TagOf(value) else tag
  {
    TagParam(tag);
    assert value + ";tag=" + tag == value + [';'] + (TAG + tag);
    SplitSnoc(value, ';', TAG + tag);
    FirstTagSnoc(Split(value, ";"), TAG + tag);
  }

  // ----- the two legs -----

  /** The caller's INVITE, its transport in upper case, and the server's address. */
  datatype Leg = Leg(caller: SIPRequest, proto: string, addr: string)

  const REBUILT: set<string> := {"from", "to", "call-id", "cseq", "via", "contact", "record-route", "route"}
  const KEPT_BACK: set<string> := {"via", "from", "to", "call-id", "cseq", "contact", "record-route"}

  function Dropping(h: Headers, names: set<string>): Headers { map k | k in h && ToLower(k) !in names :: h[k] }

  /** Freshly generated identifiers for a new outgoing dialog. */
  datatype Fresh = Fresh(callId: string, tag: string, branch: string)

  function InviteHeaders(l: Leg, to: Uri.SIPURI, f: Fresh): Headers {
    Dropping(l.caller.headers, REBUILT)
      ["Call-ID" := f.callId]
      ["From" := Split(l.caller.Header("From"), ";tag=")[0] + ";tag=" + f.tag]
      ["To" := "<sip:" + to.user + "@" + to.host + ">"]
      ["CSeq" := "1 INVITE"]
      ["Contact" := "<sip:" + l.addr + ">"]
      ["Via" := Vias.OwnVia(l.proto, l.addr, f.branch)]
      ["Max-Forwards" := "69"]
  }

  function OutgoingInvite(l: Leg, target: string, f: Fresh): Option<SIPRequest> {
    match Uri.ParsedUri(target)
    case Failure(_) => None
    case Success(to) =>
      Some(SIPRequest("INVITE", target, l.caller.proto, InviteHeaders(l, to, f), map[], l.caller.body))
  }

  function NextCSeq(h: Headers): Headers {
    var parts := Fields(Lookup(h, "CSeq"));
    if |parts| == 2 && Atoi(parts[0]).Some? then h["CSeq" := Itoa(Atoi(parts[0]).value + 1) + " " + parts[1]] else h
  }

  function RetryOf(l: Leg, req: SIPRequest, minSE: int, branch: string): SIPRequest {
    var timed := req.headers["Session-Expires" := Itoa(minSE)];
    req.(headers := NextCSeq(timed)["Via" := Vias.OwnVia(l.proto, l.addr, branch)])
  }

  predicate Retryable(res: SIPResponse) {
    res.status == 422 && MinSEOf(res.headers).Success? && MinSEOf(res.headers).value > 0
  }

  /** A 2xx without a readable timer gets one when the caller asked for one. */
  function Timed(l: Leg, res: SIPResponse): SIPResponse {
    if !res.Success() || !HasTimer(l.caller.headers) || HasTimer(res.headers) then res
    else
      var h := res.headers["Session-Expires" := OwnTimer(TimerOf(l.caller.headers).value.value.delta)];
      res.(headers := h["Require" := if "Require" in h then "timer, " + h["Require"] else "timer"])
  }

  function TaggedTo(h: Headers, tag: string): Headers {
    var to := if "To" in h then h["To"] else "";
    if TagOf(to) == "" then h["To" := to + ";tag=" + tag] else h
  }

  /** What the caller is sent for a callee's response with canonical headers. */
  function LegResponse(l: Leg, res: SIPResponse, tag: string): SIPResponse {
    var h := CopiedHeaders(l.caller) + Dropping(res.headers, KEPT_BACK);
    SIPResponse(l.caller.proto, res.status, res.reason,
                if res.Success() then TaggedTo(h["Contact" := "<sip:" + l.addr + ">"], tag) else h, "")
  }

  // ----- a call as a machine -----

  /** A response on the callee's leg, with the identifiers generated while handling it; the
      caller's transaction ends; 32 seconds without an event. */
  datatype Event = Answered(res: SIPResponse, branch: string, tag: string) | CallerDone | Timeout

  /** A client transaction on the callee's leg, and the 422 that caused it. */
  datatype Attempt = Attempt(req: SIPRequest, branch: string, cause: Option<SIPResponse>)

  /** What was handed to the caller's transaction, what was sent to the callee, and whether
      mediation has ended. */
  datatype Call = Call(responses: seq<SIPResponse>, attempts: seq<Attempt>, over: bool)

  function Ending(c: Call, res: SIPResponse): Call { c.(responses := c.responses + [res], over := true) }

  function Handled(l: Leg, c: Call, e: Event): Call
    requires c.attempts != []
  {
    match e
    case CallerDone => c.(over := true)
    case Timeout => Ending(c, PlainResponse(408, "Request Timeout", l.caller))
    case Answered(res, branch, tag) => Answering(l, c, c.attempts[|c.attempts| - 1].req, res, branch, tag)
  }

  /** A response to the client transaction `tx`. */
  function Answering(l: Leg, c: Call, tx: SIPRequest, res: SIPResponse, branch: string, tag: string): Call {
    if Retryable(res) then Retrying(l, c, RetryOf(l, tx, MinSEOf(res.headers).value, branch), branch, res)
    else Forwarding(c, res.status, LegResponse(l, Timed(l, res), tag))
  }

  /** A new client transaction; a request without a readable Via is answered 500. */
  function Retrying(l: Leg, c: Call, req: SIPRequest, branch: string, cause: SIPResponse): Call {
    if Vias.RequestTopVia(req).Failure? then Ending(c, PlainResponse(500, "Server Internal Error", l.caller))
    else c.(attempts := c.attempts + [Attempt(req, branch, Some(cause))])
  }

  function Forwarding(c: Call, status: int, res: SIPResponse): Call {
    c.(responses := c.responses + [res], over := status >= 200)
  }

  function Mediated(l: Leg, c: Call, es: seq<Event>): Call
    requires c.attempts != []
    decreases |es|
  {
    if c.over || es == [] then c else Mediated(l, Handled(l, c, es[0]), es[1..])
  }

  const B2BUA_MIN_SE: int := 1800

  function Warned(status: int, reason: string, l: Leg, name: string, value: string): SIPResponse {
    SIPResponse(l.caller.proto, status, reason, CopiedHeaders(l.caller)[name := value], "")
  }

  /** The answer that stops the call before the callee is tried, if there is one. */
  function Rejection(l: Leg, target: string, f: Fresh, reachable: bool): Option<SIPResponse> {
    var timer := TimerOf(l.caller.headers);
    var timed := l.caller.verb in {"INVITE", "UPDATE"};
    if timed && timer.Failure? then
      Some(Warned(400, "Bad Request", l, "Warning", "Malformed Session-Expires header"))
    else if timed && timer.value.Some? && timer.value.value.delta < B2BUA_MIN_SE then
      Some(Warned(422, "Session Interval Too Small", l, "Min-SE", Itoa(B2BUA_MIN_SE)))
    else if OutgoingInvite(l, target, f).None? then Some(PlainResponse(500, "Server Internal Error", l.caller))
    else if !reachable then Some(PlainResponse(503, "Service Unavailable", l.caller))
    else if Vias.RequestTopVia(OutgoingInvite(l, target, f).value).Failure? then
      Some(PlainResponse(500, "Server Internal Error", l.caller))
    else None
  }

  /** The whole of `Run`. */
  function CallOf(l: Leg, target: string, f: Fresh, reachable: bool, es: seq<Event>): Call {
    match Rejection(l, target, f, reachable)
    case Some(res) => Call([res], [], true)
    case None => Mediated(l, Call([], [Attempt(OutgoingInvite(l, target, f).value, f.branch, None)], false), es)
  }

  /** Responses reach mediation from the parser, or from Timer B without headers. */
  ghost predicate FromParser(es: seq<Event>) {
    forall i :: 0 <= i < |es| && es[i].Answered? ==> Canonical(es[i].res.headers)
  }

  lemma OneEvent(l: Leg, c: Call, es: seq<Event>, i: nat)
    requires i < |es| && c.attempts != [] && !c.over
    ensures Mediated(l, c, es[i..]) == Mediated(l, Handled(l, c, es[i]), es[i + 1..])
  {}

  lemma HandledBy(l: Leg, c: Call, tx: SIPRequest, e: Event)
    requires c.attempts != [] && c.attempts[|c.attempts| - 1].req == tx
    ensures e.Answered? ==> Handled(l, c, e) == Answering(l, c, tx, e.res, e.branch, e.tag)
  {}

  lemma TimedCanonical(l: Leg, res: SIPResponse)
    requires Canonical(res.headers)
    ensures Canonical(Timed(l, res).headers)
  {
    TimerNames();
  }

  // ----- the program -----

  class B2BUA {
    const leg: Leg
    var responses: seq<SIPResponse>
    var attempts: seq<Attempt>

    constructor (leg: Leg)
      ensures this.leg == leg && responses == [] && attempts == []
    {
      this.leg, responses, attempts := leg, [], [];
    }

    method Respond(res: SIPResponse)
      modifies this
      ensures responses == old(responses) + [res] && attempts == old(attempts)
    {
      responses := responses + [res];
    }

    method Copy(h: Headers, names: set<string>) returns (copy: Headers)
      ensures copy == Dropping(h, names)
    {
      copy := map[];
      var keys := h.Keys;
      while keys != {}
        invariant keys <= h.Keys
        invariant copy == map k | k in h && k !in keys && ToLower(k) !in names :: h[k]
        decreases keys
      {
        var k :| k in keys;
        if ToLower(k) !in names { copy := copy[k := h[k]]; }
        keys := keys - {k};
      }
    }

    method CreateVirtualUACInvite(target: string, f: Fresh) returns (req: Option<SIPRequest>)
      ensures req == OutgoingInvite(leg, target, f)
    {
      var headers := Copy(leg.caller.headers, REBUILT);
      headers := headers["Call-ID" := f.callId];
      var fromBase := Split(leg.caller.Header("From"), ";tag=")[0];
      headers := headers["From" := fromBase + ";tag=" + f.tag];
      var to := Uri.ParseSIPURI(target);
      if to.Failure? { return None; }
      headers := headers["To" := "<sip:" + to.value.user + "@" + to.value.host + ">"];
      headers := headers["CSeq" := "1 INVITE"];
      headers := headers["Contact" := "<sip:" + leg.addr + ">"];
      headers := headers["Via" := Vias.OwnVia(leg.proto, leg.addr, f.branch)];
      headers := headers["Max-Forwards" := "69"];
      return Some(SIPRequest("INVITE", target, leg.caller.proto, headers, map[], leg.caller.body));
    }

    method CreateVirtualUASResponse(res: SIPResponse, tag: string) returns (leg': SIPResponse)
      requires Canonical(res.headers)
      ensures leg' == LegResponse(leg, res, tag)
    {
      var extra := Copy(res.headers, KEPT_BACK);
      ghost var order;
      leg', order := BuildResponse(res.status, res.reason, leg.caller, extra);
      PutAllCanonical(CopiedHeaders(leg.caller), extra, order);
      assert (map k | k in order :: extra[k]) == extra;
      if leg'.Success() {
        leg' := leg'.(headers := leg'.headers["Contact" := "<sip:" + leg.addr + ">"]);
        var to := if "To" in leg'.headers then leg'.headers["To"] else "";
        var known := GetTag(to);
        if known == "" {
          leg' := leg'.(headers := leg'.headers["To" := to + ";tag=" + tag]);
        }
      }
    }

    method Retry(req: SIPRequest, minSE: int, branch: string) returns (retry: SIPRequest)
      ensures retry == RetryOf(leg, req, minSE, branch)
    {
      var headers := req.headers["Session-Expires" := Itoa(minSE)];
      var parts := Fields(Lookup(headers, "CSeq"));
      if |parts| == 2 {
        var cseq := Atoi(parts[0]);
        if cseq.Some? {
          headers := headers["CSeq" := Itoa(cseq.value + 1) + " " + parts[1]];
        }
      }
      headers := headers["Via" := Vias.OwnVia(leg.proto, leg.addr, branch)];
      retry := req.(headers := headers);
    }

    method AddTimer(res: SIPResponse) returns (timed: SIPResponse)
      ensures timed == Timed(leg, res)
    {
      timed := res;
      if 200 <= res.status < 300 {
        var asked := TimerOf(leg.caller.headers);
        if asked.Success? && asked.value.Some? {
          var given := TimerOf(res.headers);
          if !(given.Success? && given.value.Some?) {
            var headers := res.headers["Session-Expires" := OwnTimer(asked.value.value.delta)];
            if "Require" in headers {
              headers := headers["Require" := "timer, " + headers["Require"]];
            } else {
              headers := headers["Require" := "timer"];
            }
            timed := res.(headers := headers);
          }
        }
      }
    }

    method StartAttempt(req: SIPRequest, branch: string, cause: SIPResponse) returns (over: bool)
      modifies this
      ensures Call(responses, attempts, over) ==
        Retrying(leg, Call(old(responses), old(attempts), false), req, branch, cause)
      ensures attempts == old(attempts) + if over then [] else [Attempt(req, branch, Some(cause))]
    {
      over := Vias.RequestTopVia(req).Failure?;
      if over {
        Respond(PlainResponse(500, "Server Internal Error", leg.caller));
        return;
      }
      attempts := attempts + [Attempt(req, branch, Some(cause))];
    }

    method Forward(res: SIPResponse, tag: string) returns (over: bool)
      requires Canonical(res.headers)
      modifies this
      ensures attempts == old(attempts)
      ensures Call(responses, attempts, over)
           == Forwarding(Call(old(responses), old(attempts), false), res.status, LegResponse(leg, Timed(leg, res), tag))
    {
      var timed := AddTimer(res);
      TimedCanonical(leg, res);
      var forCaller := CreateVirtualUASResponse(timed, tag);
      Respond(forCaller);
      over := res.status >= 200;
    }

    /** The interval a 422 asks for, when it can be retried. */
    method RetryInterval(res: SIPResponse) returns (interval: Option<int>)
      ensures interval == if Retryable(res) then Some(MinSEOf(res.headers).value) else None
    {
      interval := None;
      if res.status == 422 {
        var minSE := MinSEOf(res.headers);
        if minSE.Success? && minSE.value > 0 { interval := Some(minSE.value); }
      }
    }

    /** A response on the callee's leg: `retry` is the request of a new client transaction. */
    method HandleResponse(tx: SIPRequest, res: SIPResponse, branch: string, tag: string)
      returns (retry: Option<SIPRequest>, over: bool)
      requires Canonical(res.headers)
      modifies this
      ensures Call(responses, attempts, over)
           == Answering(leg, Call(old(responses), old(attempts), false), tx, res, branch, tag)
      ensures if retry.None? then attempts == old(attempts)
        else !over && |attempts| == |old(attempts)| + 1 && attempts[|attempts| - 1].req == retry.value
    {
      retry := None;
      var minSE := RetryInterval(res);
      if minSE.Some? {
        var req := Retry(tx, minSE.value, branch);
        over := StartAttempt(req, branch, res);
        if !over { retry := Some(req); }
      } else {
        over := Forward(res, tag);
      }
    }

    method HandleEvent(tx: SIPRequest, e: Event) returns (retry: Option<SIPRequest>, over: bool)
      requires attempts != [] && attempts[|attempts| - 1].req == tx
      requires e.Answered? ==> Canonical(e.res.headers)
      modifies this
      ensures Call(responses, attempts, over) == Handled(leg, Call(old(responses), old(attempts), false), e)
      ensures if retry.None? then attempts == old(attempts)
        else !over && |attempts| == |old(attempts)| + 1 && attempts[|attempts| - 1].req == retry.value
    {
      HandledBy(leg, Call(responses, attempts, false), tx, e);
      match e {
        case CallerDone => return None, true;
        case Timeout =>
          Respond(PlainResponse(408, "Request Timeout", leg.caller));
          return None, true;
        case Answered(res, branch, tag) => retry, over := HandleResponse(tx, res, branch, tag);
      }
    }

    /** Mediates for the client transaction `tx`; after a 422 it goes on with the new one. */
    method Mediate(tx: SIPRequest, es: seq<Event>) returns (over: bool)
      requires attempts != [] && attempts[|attempts| - 1].req == tx && FromParser(es)
      modifies this
      ensures Call(responses, attempts, over) == Mediated(leg, Call(old(responses), old(attempts), false), es)
      decreases |es|
    {
      over := false;
      var i := 0;
      while i < |es| && !over
        invariant 0 <= i <= |es| && attempts == old(attempts)
        invariant Mediated(leg, Call(responses, attempts, over), es[i..])
               == Mediated(leg, Call(old(responses), old(attempts), false), es)
      {
        OneEvent(leg, Call(responses, attempts, false), es, i);
        var retry;
        retry, over := HandleEvent(tx, es[i]);
        if retry.Some? {
          over := Mediate(retry.value, es[i + 1..]);
          return;
        }
        i := i + 1;
      }
    }

    /** The checks before the callee is tried: the INVITE for it, or the answer that ends the call. */
    method Admit(target: string, f: Fresh, reachable: bool)
      returns (rejection: Option<SIPResponse>, req: Option<SIPRequest>)
      ensures rejection == Rejection(leg, target, f, reachable)
      ensures rejection.None? ==> req.Some? && req == OutgoingInvite(leg, target, f)
    {
      req := None;
      if leg.caller.verb == "INVITE" || leg.caller.verb == "UPDATE" {
        var se := TimerOf(leg.caller.headers);
        if se.Failure? {
          rejection := Some(Warned(400, "Bad Request", leg, "Warning", "Malformed Session-Expires header"));
          return;
        }
        if se.value.Some? && se.value.value.delta < 1800 {
          rejection := Some(Warned(422, "Session Interval Too Small", leg, "Min-SE", Itoa(1800)));
          return;
        }
      }
      req := CreateVirtualUACInvite(target, f);
      rejection :=
        if req.None? then Some(PlainResponse(500, "Server Internal Error", leg.caller))
        else if !reachable then Some(PlainResponse(503, "Service Unavailable", leg.caller))
        else if Vias.RequestTopVia(req.value).Failure? then
          Some(PlainResponse(500, "Server Internal Error", leg.caller))
        else None;
    }

    method Run(target: string, f: Fresh, reachable: bool, es: seq<Event>) returns (over: bool)
      requires responses == [] && attempts == [] && FromParser(es)
      modifies this
      ensures Call(responses, attempts, over) == CallOf(leg, target, f, reachable, es)
    {
      var rejection, req := Admit(target, f, reachable);
      if rejection.Some? {
        Respond(rejection.value);
        assert responses == [rejection.value];
        return true;
      }
      attempts := [Attempt(req.value, f.branch, None)];
      over := Mediate(req.value, es);
    }
  }

  // ----- where the caller's responses come from -----

  predicate IsAnswer(l: Leg, e: Event, r: SIPResponse) {
    e.Answered? && !Retryable(e.res) && r == LegResponse(l, Timed(l, e.res), e.tag)
  }

  ghost predicate Accounted(l: Leg, es: seq<Event>, r: SIPResponse) {
    || r == PlainResponse(408, "Request Timeout", l.caller)
    || r == PlainResponse(500, "Server Internal Error", l.caller)
    || exists j :: 0 <= j < |es| && IsAnswer(l, es[j], r)
  }

  lemma AccountedLater(l: Leg, es: seq<Event>, r: SIPResponse)
    requires es != [] && Accounted(l, es[1..], r)
    ensures Accounted(l, es, r)
  {}

  /** Everything mediation hands the caller is its own 408 or 500, or the translation of a
      callee's answer that is not a 422 it can retry. */
  lemma {:induction false} MediationAccounted(l: Leg, c: Call, es: seq<Event>)
    requires c.attempts != []
    ensures var d := Mediated(l, c, es);
      c.responses <= d.responses && forall i :: |c.responses| <= i < |d.responses| ==> Accounted(l, es, d.responses[i])
    decreases |es|
  {
    if !c.over && es != [] {
      var c' := Handled(l, c, es[0]);
      MediationAccounted(l, c', es[1..]);
      var d := Mediated(l, c, es);
      forall i | |c.responses| <= i < |d.responses| ensures Accounted(l, es, d.responses[i]) {
        if i < |c'.responses| {
          assert d.responses[i] == c'.responses[i];
          assert es[0].Answered? && !Retryable(es[0].res) ==> IsAnswer(l, es[0], c'.responses[i]);
        } else {
          AccountedLater(l, es, d.responses[i]);
        }
      }
    }
  }

  // ----- what the caller must be told -----

  /** A retry under this branch could not be sent: its own Via would not read back. */
  predicate Unsendable(l: Leg, branch: string) {
    Vias.RequestTopVia(SIPRequest("", "", "", map["Via" := Vias.OwnVia(l.proto, l.addr, branch)], map[], "")).Failure?
  }

  lemma SentUnder(l: Leg, tx: SIPRequest, minSE: int, branch: string)
    ensures Vias.RequestTopVia(RetryOf(l, tx, minSE, branch)).Failure? <==> Unsendable(l, branch)
  {
    KnownNames();
  }

  /** Nothing is said to the caller: it has gone, or a 422 is retried. */
  predicate Silent(l: Leg, e: Event) {
    match e
    case CallerDone => true
    case Timeout => false
    case Answered(res, branch, _) => Retryable(res) && !Unsendable(l, branch)
  }

  /** The event is the last one of the call. */
  predicate Ends(l: Leg, e: Event) {
    match e
    case CallerDone => true
    case Timeout => true
    case Answered(res, branch, _) => if Retryable(res) then Unsendable(l, branch) else res.status >= 200
  }

  /** The events of a stream that the caller must be told: every answer of the callee up to the
      first final, except 422s that are retried, and that nothing came. */
  function Owed(l: Leg, es: seq<Event>): seq<Event> {
    if es == [] then []
    else (if Silent(l, es[0]) then [] else [es[0]]) + if Ends(l, es[0]) then [] else Owed(l, es[1..])
  }

  /** `r` is what the caller is told of `e`. */
  predicate Tells(l: Leg, e: Event, r: SIPResponse) {
    match e
    case CallerDone => false
    case Timeout => r.status == 408 && r == PlainResponse(408, "Request Timeout", l.caller)
    case Answered(res, _, _) =>
      if Retryable(res) then r.status == 500 && r == PlainResponse(500, "Server Internal Error", l.caller)
      else r.status == res.status && r.reason == res.reason && IsAnswer(l, e, r)
  }

  ghost predicate AllTold(l: Leg, es: seq<Event>, rs: seq<SIPResponse>) {
    |rs| == |es| && forall i :: 0 <= i < |es| ==> Tells(l, es[i], rs[i])
  }

  lemma EventTells(l: Leg, c: Call, e: Event)
    requires c.attempts != [] && !c.over
    ensures var c' := Handled(l, c, e);
      && c.responses <= c'.responses && AllTold(l, if Silent(l, e) then [] else [e], c'.responses[|c.responses|..])
      && (c'.over <==> Ends(l, e))
  {
    if e.Answered? && Retryable(e.res) {
      SentUnder(l, c.attempts[|c.attempts| - 1].req, MinSEOf(e.res.headers).value, e.branch);
    }
  }

  /** Completeness over every stream of events: what mediation hands the caller is, one by one and in
      order, what the caller must be told. */
  lemma {:induction false} MediationTells(l: Leg, c: Call, es: seq<Event>)
    requires c.attempts != [] && !c.over
    ensures var d := Mediated(l, c, es);
      c.responses <= d.responses && AllTold(l, Owed(l, es), d.responses[|c.responses|..])
    decreases |es|
  {
    if es != [] {
      var c' := Handled(l, c, es[0]);
      EventTells(l, c, es[0]);
      var first := if Silent(l, es[0]) then [] else [es[0]];
      if c'.over {
        assert Owed(l, es) == first;
      } else {
        MediationTells(l, c', es[1..]);
        ToldInTurn(l, first, Owed(l, es[1..]), c.responses, c'.responses, Mediated(l, c, es).responses);
      }
    }
  }

  lemma ToldInTurn(
      l: Leg, first: seq<Event>, rest: seq<Event>, rs: seq<SIPResponse>, rs': seq<SIPResponse>, sent: seq<SIPResponse>)
    requires rs <= rs' <= sent && AllTold(l, first, rs'[|rs|..]) && AllTold(l, rest, sent[|rs'|..])
    ensures rs <= sent && AllTold(l, first + rest, sent[|rs|..])
  {
    assert sent[|rs|..] == rs'[|rs|..] + sent[|rs'|..];
  }

  /** A call that is not rejected tells the caller exactly that; a rejected one its rejection. */
  lemma CallTells(l: Leg, target: string, f: Fresh, reachable: bool, es: seq<Event>)
    ensures var sent := CallOf(l, target, f, reachable, es).responses;
      match Rejection(l, target, f, reachable)
      case Some(res) => sent == [res]
      case None => AllTold(l, Owed(l, es), sent)
  {
    if Rejection(l, target, f, reachable).None? {
      MediationTells(l, Call([], [Attempt(OutgoingInvite(l, target, f).value, f.branch, None)], false), es);
    }
  }

  /** Some event decides the call before the caller goes away. */
  ghost predicate Decided(l: Leg, es: seq<Event>) {
    exists i :: 0 <= i < |es| && Ends(l, es[i]) && forall j :: 0 <= j <= i ==> es[j] != CallerDone
  }

  /** The caller is handed a final, as its last response, if and only if the callee's final, a 408 or
      a retry that cannot be sent comes before the caller goes away. */
  lemma FinalExactly(l: Leg, target: string, f: Fresh, reachable: bool, es: seq<Event>)
    requires Rejection(l, target, f, reachable).None?
    ensures var sent := CallOf(l, target, f, reachable, es).responses;
      (sent != [] && sent[|sent| - 1].status >= 200) <==> Decided(l, es)
  {
    CallTells(l, target, f, reachable, es);
    OwedEnds(l, es);
    DecidedIff(l, es);
    LastTold(l, Owed(l, es), CallOf(l, target, f, reachable, es).responses);
  }

  /** The same, event by event. */
  predicate Decides(l: Leg, es: seq<Event>) {
    es != [] && es[0] != CallerDone && (Ends(l, es[0]) || Decides(l, es[1..]))
  }

  lemma {:induction false} DecidedIff(l: Leg, es: seq<Event>)
    ensures Decided(l, es) <==> Decides(l, es)
    decreases |es|
  {
    if es != [] {
      DecidedIff(l, es[1..]);
      DecidedCons(l, es);
    }
  }

  lemma DecidedCons(l: Leg, es: seq<Event>)
    requires es != []
    ensures Decided(l, es) <==> es[0] != CallerDone && (Ends(l, es[0]) || Decided(l, es[1..]))
  {
    if es[0] != CallerDone && !Ends(l, es[0]) && Decided(l, es[1..]) {
      var i :| 0 <= i < |es[1..]| && Ends(l, es[1..][i]) && forall j :: 0 <= j <= i ==> es[1..][j] != CallerDone;
      assert Ends(l, es[i + 1]) && forall j :: 0 <= j <= i + 1 ==> j == 0 || es[j] == es[1..][j - 1];
    }
  }

  predicate NoneSilent(l: Leg, told: seq<Event>) { forall i :: 0 <= i < |told| ==> !Silent(l, told[i]) }

  /** The last event told is the one that ends the call, if one does. */
  predicate EndTold(l: Leg, told: seq<Event>) { told != [] && Ends(l, told[|told| - 1]) }

  lemma {:induction false} OwedEnds(l: Leg, es: seq<Event>)
    ensures NoneSilent(l, Owed(l, es)) && (Decides(l, es) <==> EndTold(l, Owed(l, es)))
    decreases |es|
  {
    if es != [] {
      OwedEnds(l, es[1..]);
      EndFirst(l, es[0], if Ends(l, es[0]) then [] else Owed(l, es[1..]));
    }
  }

  lemma EndFirst(l: Leg, e: Event, rest: seq<Event>)
    requires NoneSilent(l, rest) && (Ends(l, e) ==> rest == [])
    ensures var told := (if Silent(l, e) then [] else [e]) + rest;
      NoneSilent(l, told) && (EndTold(l, told) <==> e != CallerDone && (Ends(l, e) || EndTold(l, rest)))
  {
    if Silent(l, e) { assert [] + rest == rest; }
  }

  lemma LastTold(l: Leg, told: seq<Event>, sent: seq<SIPResponse>)
    requires AllTold(l, told, sent) && NoneSilent(l, told)
    ensures (sent != [] && sent[|sent| - 1].status >= 200) <==> EndTold(l, told)
  {
    if told != [] { assert Tells(l, told[|told| - 1], sent[|told| - 1]); }
  }

  /** A 422 that the caller of a call that was not rejected gets is the translation of one whose
      Min-SE is missing, malformed or not positive. */
  lemma RetryableNotForwarded(l: Leg, target: string, f: Fresh, reachable: bool, es: seq<Event>)
    ensures var sent := CallOf(l, target, f, reachable, es).responses;
      Rejection(l, target, f, reachable).None? ==>
        forall i :: 0 <= i < |sent| && sent[i].status == 422 ==>
          exists j :: 0 <= j < |es| && IsAnswer(l, es[j], sent[i]) && es[j].res.status == 422
  {
    if Rejection(l, target, f, reachable).None? {
      var c := Call([], [Attempt(OutgoingInvite(l, target, f).value, f.branch, None)], false);
      MediationAccounted(l, c, es);
      var sent := Mediated(l, c, es).responses;
      forall i | 0 <= i < |sent| && sent[i].status == 422
        ensures exists j :: 0 <= j < |es| && IsAnswer(l, es[j], sent[i]) && es[j].res.status == 422
      {
        AccountedRefusal(l, es, sent[i]);
      }
    }
  }

  lemma AccountedRefusal(l: Leg, es: seq<Event>, r: SIPResponse)
    requires Accounted(l, es, r) && r.status == 422
    ensures exists j :: 0 <= j < |es| && IsAnswer(l, es[j], r) && es[j].res.status == 422
  {
    var j :| 0 <= j < |es| && IsAnswer(l, es[j], r);
    assert es[j].res.status == 422;
  }

  // ----- leg separation and the session timer -----

  const KEPT_APART: set<string> := {"Via", "From", "Call-ID", "CSeq"}

  ghost predicate OwnLeg(l: Leg, r: SIPResponse) {
    forall name :: name in KEPT_APART ==> r.Header(name) == l.caller.Header(name)
  }

  lemma KeptBackNames(name: string)
    requires name in KEPT_APART
    ensures ToLower(name) in KEPT_BACK && Title(name) == name && name in COPIED && name != "To" && name != "Contact"
  {
    KnownNames();
    assert COPIED[0] == "Via" && COPIED[1] == "From" && COPIED[3] == "Call-ID" && COPIED[4] == "CSeq";
    assert ToLower("Via") == "via" && ToLower("From") == "from" && ToLower("Call-ID") == "call-id"
      && ToLower("CSeq") == "cseq";
  }

  lemma CopiesOwnLeg(l: Leg, status: int, reason: string)
    ensures OwnLeg(l, PlainResponse(status, reason, l.caller))
  {
    forall name | name in KEPT_APART
      ensures PlainResponse(status, reason, l.caller).Header(name) == l.caller.Header(name)
    {
      KeptBackNames(name);
    }
  }

  lemma AnswerOwnLeg(l: Leg, res: SIPResponse, tag: string)
    ensures OwnLeg(l, LegResponse(l, res, tag))
  {
    forall name | name in KEPT_APART ensures LegResponse(l, res, tag).Header(name) == l.caller.Header(name) {
      KeptBackNames(name);
    }
  }

  lemma WarnedOwnLeg(l: Leg, status: int, reason: string, name: string, value: string)
    requires name !in KEPT_APART
    ensures OwnLeg(l, Warned(status, reason, l, name, value))
  {
    forall n | n in KEPT_APART
      ensures Warned(status, reason, l, name, value).Header(n) == l.caller.Header(n)
    {
      KeptBackNames(n);
    }
  }

  /** The forms a rejection takes. */
  lemma RejectionForms(l: Leg, target: string, f: Fresh, reachable: bool)
    requires Rejection(l, target, f, reachable).Some?
    ensures var r := Rejection(l, target, f, reachable).value;
      || r == Warned(400, "Bad Request", l, "Warning", "Malformed Session-Expires header")
      || r == Warned(422, "Session Interval Too Small", l, "Min-SE", Itoa(B2BUA_MIN_SE))
      || r == PlainResponse(500, "Server Internal Error", l.caller)
      || r == PlainResponse(503, "Service Unavailable", l.caller)
  {}

  lemma OtherNames()
    ensures "Warning" !in KEPT_APART && "Min-SE" !in KEPT_APART
  {
    assert |"Warning"| == 7 && |"Min-SE"| == 6 && "Warning"[0] == 'W' && "Call-ID"[0] == 'C';
  }

  lemma RejectionOwnLeg(l: Leg, target: string, f: Fresh, reachable: bool)
    requires Rejection(l, target, f, reachable).Some?
    ensures OwnLeg(l, Rejection(l, target, f, reachable).value)
  {
    RejectionForms(l, target, f, reachable);
    OtherNames();
    WarnedOwnLeg(l, 400, "Bad Request", "Warning", "Malformed Session-Expires header");
    WarnedOwnLeg(l, 422, "Session Interval Too Small", "Min-SE", Itoa(B2BUA_MIN_SE));
    CopiesOwnLeg(l, 500, "Server Internal Error");
    CopiesOwnLeg(l, 503, "Service Unavailable");
  }

  lemma AccountedOwnLeg(l: Leg, es: seq<Event>, r: SIPResponse)
    requires Accounted(l, es, r)
    ensures OwnLeg(l, r)
  {
    CopiesOwnLeg(l, 408, "Request Timeout");
    CopiesOwnLeg(l, 500, "Server Internal Error");
    if exists j :: 0 <= j < |es| && IsAnswer(l, es[j], r) {
      var j :| 0 <= j < |es| && IsAnswer(l, es[j], r);
      AnswerOwnLeg(l, Timed(l, es[j].res), es[j].tag);
    }
  }

  /** In every call, whatever the callee sends, each response the caller sees has the Via, From,
      Call-ID and CSeq of the caller's own INVITE. */
  lemma LegsStaySeparate(l: Leg, target: string, f: Fresh, reachable: bool, es: seq<Event>, i: nat)
    requires i < |CallOf(l, target, f, reachable, es).responses|
    ensures OwnLeg(l, CallOf(l, target, f, reachable, es).responses[i])
  {
    if Rejection(l, target, f, reachable).Some? {
      RejectionOwnLeg(l, target, f, reachable);
    } else {
      var c := Call([], [Attempt(OutgoingInvite(l, target, f).value, f.branch, None)], false);
      MediationAccounted(l, c, es);
      AccountedOwnLeg(l, es, Mediated(l, c, es).responses[i]);
    }
  }

  lemma TimerNamesFree()
    ensures Title("Session-Expires") == "Session-Expires" && Title("x") == "X"
    ensures ToLower("Session-Expires") !in KEPT_BACK && ToLower("X") !in KEPT_BACK
    ensures "Session-Expires" !in COPIED && "X" !in COPIED
  {}

  /** The translation to the caller's leg leaves the timer as it is. */
  lemma TimerTranslated(l: Leg, res: SIPResponse, tag: string)
    ensures TimerOf(LegResponse(l, res, tag).headers) == TimerOf(res.headers)
  {
    TimerNamesFree();
    var h := LegResponse(l, res, tag).headers;
    assert |"Session-Expires"| == 15 && |"X"| == 1 && |"Contact"| == 7 && |"To"| == 2;
    assert Lookup(h, "Session-Expires") == Lookup(res.headers, "Session-Expires");
    assert Lookup(h, "x") == Lookup(res.headers, "x");
  }

  /** A 2xx for a caller that asked for a timer carries the callee's timer when that is
      readable, and otherwise the interval asked for, refreshed by the caller. */
  lemma TimedExactly(l: Leg, res: SIPResponse)
    requires res.Success() && HasTimer(l.caller.headers)
    ensures TimerOf(Timed(l, res).headers) ==
      if HasTimer(res.headers) then TimerOf(res.headers)
      else Success(Some(SessionExpires(TimerOf(l.caller.headers).value.value.delta, UAC)))
  {
    if !HasTimer(res.headers) {
      var delta := TimerOf(l.caller.headers).value.value.delta;
      TimerNames();
      OwnTimerReadsBack(delta);
      assert |"Session-Expires"| == 15 && |"Require"| == 7;
      assert Lookup(Timed(l, res).headers, "Session-Expires") == OwnTimer(delta) != "";
    }
  }

  /** The timer a 2xx must carry: the callee's own, or exactly the interval asked for. */
  ghost predicate RightTimer(l: Leg, es: seq<Event>, r: SIPResponse)
    requires HasTimer(l.caller.headers)
  {
    exists j ::
      && 0 <= j < |es| && IsAnswer(l, es[j], r)
      && TimerOf(r.headers) == if HasTimer(es[j].res.headers) then TimerOf(es[j].res.headers)
                               else Success(Some(SessionExpires(TimerOf(l.caller.headers).value.value.delta, UAC)))
  }

  lemma AccountedTimer(l: Leg, es: seq<Event>, r: SIPResponse)
    requires HasTimer(l.caller.headers) && Accounted(l, es, r) && r.Success()
    ensures RightTimer(l, es, r) && HasTimer(r.headers)
  {
    var j :| 0 <= j < |es| && IsAnswer(l, es[j], r);
    TimerTranslated(l, Timed(l, es[j].res), es[j].tag);
    TimedExactly(l, es[j].res);
  }

  /** In every call of a caller that asked for a timer, each 2xx it is handed has a readable
      one: the callee's own, or one with exactly the interval asked for. */
  lemma TimerGuaranteed(l: Leg, target: string, f: Fresh, reachable: bool, es: seq<Event>)
    ensures var sent := CallOf(l, target, f, reachable, es).responses;
      HasTimer(l.caller.headers) ==>
        forall i :: 0 <= i < |sent| && sent[i].Success() ==> HasTimer(sent[i].headers) && RightTimer(l, es, sent[i])
  {
    if HasTimer(l.caller.headers) && Rejection(l, target, f, reachable).None? {
      var c := Call([], [Attempt(OutgoingInvite(l, target, f).value, f.branch, None)], false);
      MediationAccounted(l, c, es);
      var sent := Mediated(l, c, es).responses;
      forall i | 0 <= i < |sent| && sent[i].Success() ensures HasTimer(sent[i].headers) && RightTimer(l, es, sent[i]) {
        AccountedTimer(l, es, sent[i]);
      }
    }
  }

  // ----- one final, and it is last -----

  ghost predicate Quiet(c: Call) {
    && Server.FinalIsLast(c.responses)
    && (!c.over ==> forall i :: 0 <= i < |c.responses| ==> !Server.Final(c.responses[i]))
  }

  lemma {:induction false} MediationQuiet(l: Leg, c: Call, es: seq<Event>)
    requires c.attempts != [] && Quiet(c)
    ensures Quiet(Mediated(l, c, es))
    decreases |es|
  {
    if !c.over && es != [] {
      var c' := Handled(l, c, es[0]);
      assert |c.responses| <= |c'.responses| <= |c.responses| + 1;
      assert forall i :: 0 <= i < |c.responses| ==> c'.responses[i] == c.responses[i];
      MediationQuiet(l, c', es[1..]);
    }
  }

  /** For every stream of events the caller's transaction is handed at most one final response,
      and it is the last one. */
  lemma OneFinalAndLast(l: Leg, target: string, f: Fresh, reachable: bool, es: seq<Event>)
    ensures Server.FinalIsLast(CallOf(l, target, f, reachable, es).responses)
  {
    if Rejection(l, target, f, reachable).None? {
      MediationQuiet(l, Call([], [Attempt(OutgoingInvite(l, target, f).value, f.branch, None)], false), es);
    }
  }

  /** `a` is `b` with some elements left out: `Respond` gives up on a terminated transaction. */
  ghost predicate Picked(a: seq<SIPResponse>, b: seq<SIPResponse>)
    decreases |b|
  {
    || a == []
    || (b != [] && ((a[|a| - 1] == b[|b| - 1] && Picked(a[..|a| - 1], b[..|b| - 1])) || Picked(a, b[..|b| - 1])))
  }

  lemma {:induction false} PickedElements(a: seq<SIPResponse>, b: seq<SIPResponse>, i: nat)
    requires Picked(a, b) && i < |a|
    ensures exists j :: 0 <= j < |b| && b[j] == a[i]
    decreases |b|
  {
    var front := b[..|b| - 1];
    if Picked(a, front) {
      PickedElements(a, front, i);
      var j :| 0 <= j < |front| && front[j] == a[i];
      assert b[j] == a[i];
    } else if i < |a| - 1 {
      PickedElements(a[..|a| - 1], front, i);
      var j :| 0 <= j < |front| && front[j] == a[i];
      assert b[j] == a[i];
    } else {
      assert b[|b| - 1] == a[i];
    }
  }

  lemma {:induction false} PickedFinalIsLast(a: seq<SIPResponse>, b: seq<SIPResponse>)
    requires Picked(a, b) && Server.FinalIsLast(b)
    ensures Server.FinalIsLast(a)
    decreases |b|
  {
    if a != [] {
      var front := b[..|b| - 1];
      if Picked(a, front) {
        PickedFinalIsLast(a, front);
      } else {
        forall i | 0 <= i < |a| - 1 ensures !Server.Final(a[i]) {
          PickedElements(a[..|a| - 1], front, i);
          var j :| 0 <= j < |front| && front[j] == a[i];
          assert b[j] == a[i];
        }
      }
    }
  }

  lemma OfferedDiscipline(l: Leg, target: string, f: Fresh, reachable: bool, es: seq<Event>, offered: seq<SIPResponse>)
    requires Picked(offered, CallOf(l, target, f, reachable, es).responses)
    ensures Server.FinalIsLast(offered)
    ensures forall i :: 0 <= i < |offered| ==> OwnLeg(l, offered[i])
  {
    var sent := CallOf(l, target, f, reachable, es).responses;
    OneFinalAndLast(l, target, f, reachable, es);
    PickedFinalIsLast(offered, sent);
    forall i | 0 <= i < |offered| ensures OwnLeg(l, offered[i]) {
      PickedElements(offered, sent, i);
      var j :| 0 <= j < |sent| && sent[j] == offered[i];
      LegsStaySeparate(l, target, f, reachable, es, j);
    }
  }

  /** The B2BUA meets the discipline the INVITE server transaction needs: in every run of the
      caller's transaction fed by a call, the state never moves back and nothing is written
      once it is Confirmed or Terminated. */
  lemma CallDrivesServer(l: Leg, target: string, f: Fresh, reachable: bool, es: seq<Event>,
                         c: Timing.Timers, now: nat, evs: seq<Server.Event>, e: Server.Event)
    requires Timing.Sane(c)
    requires Picked(Server.Apply(c, Server.Exec(c, Server.Started(l.caller, now), evs), e).offered,
                    CallOf(l, target, f, reachable, es).responses)
    ensures var t := Server.Exec(c, Server.Started(l.caller, now), evs);
      && Server.Rank(t.state) <= Server.Rank(Server.Apply(c, t, e).state)
      && (t.state in {Server.Confirmed, Server.Terminated} ==> Server.Apply(c, t, e).wire == t.wire)
  {
    var t := Server.Exec(c, Server.Started(l.caller, now), evs);
    OfferedDiscipline(l, target, f, reachable, es, Server.Apply(c, t, e).offered);
    Server.Progress(c, l.caller, now, evs, e);
  }

  /** And in Completed and Confirmed the wire carries, from the final on, nothing but copies of
      the call's one error final, which belongs to the caller's leg. */
  lemma CallIsFrozen(l: Leg, target: string, f: Fresh, reachable: bool, es: seq<Event>,
                     c: Timing.Timers, now: nat, evs: seq<Server.Event>)
    requires Timing.Sane(c)
    requires Picked(Server.Exec(c, Server.Started(l.caller, now), evs).offered,
      CallOf(l, target, f, reachable, es).responses)
    requires Server.Exec(c, Server.Started(l.caller, now), evs).state in {Server.Completed, Server.Confirmed}
    ensures var t := Server.Exec(c, Server.Started(l.caller, now), evs);
      && t.offered != []
      && var final := t.offered[|t.offered| - 1];
      && Server.ErrorFinal(final) && t.last == Some(final) && Server.Frozen(t.wire, final, t.since)
      && OwnLeg(l, final)
  {
    var t := Server.Exec(c, Server.Started(l.caller, now), evs);
    OfferedDiscipline(l, target, f, reachable, es, t.offered);
    Server.CompletedIsFrozen(c, l.caller, now, evs);
  }

  // ----- the 422 retry chain -----

  /** Transport and address as the server has them: no character that structures a Via. */
  predicate Addressed(l: Leg) { Vias.ViaSafe(l.proto) && Vias.ViaSafe(l.addr) && l.addr != "" }

  const HEX: string := "0123456789abcdef"

  /** What the branch generator returns: the magic cookie and hexadecimal digits. */
  predicate Generated(branch: string) {
    "z9hG4bK" <= branch && forall i :: 7 <= i < |branch| ==> branch[i] in HEX
  }

  lemma GeneratedIsSafe(branch: string)
    requires Generated(branch)
    ensures Vias.ViaSafe(branch) && branch != ""
  {}

  ghost predicate BranchesGenerated(es: seq<Event>) {
    forall i :: 0 <= i < |es| && es[i].Answered? ==> Generated(es[i].branch)
  }

  function CSeqOf(n: int): string { Itoa(n) + " INVITE" }

  /** The request's Via reads back with exactly this branch. */
  predicate ReadsBranch(req: SIPRequest, branch: string) {
    Vias.RequestTopVia(req).Success? && Vias.RequestTopVia(req).value.Branch() == branch
  }

  predicate SameDialog(r: SIPRequest, s: SIPRequest) {
    && r.Header("Call-ID") == s.Header("Call-ID") && r.Header("From") == s.Header("From")
    && r.Header("To") == s.Header("To") && r.body == s.body && r.uri == s.uri && r.verb == s.verb
  }

  /** The n-th attempt (from 0) of a chain that started with `first`. */
  predicate Chained(first: SIPRequest, a: Attempt, n: nat) {
    && a.req.Header("CSeq") == CSeqOf(n + 1)
    && ReadsBranch(a.req, a.branch)
    && SameDialog(a.req, first)
    && (a.cause.Some? <==> n > 0)
    && (n > 0 ==> Retryable(a.cause.value)
                  && a.req.Header("Session-Expires") == Itoa(MinSEOf(a.cause.value.headers).value))
  }

  lemma NumberedCSeq(h: Headers, n: int)
    requires Lookup(h, "CSeq") == CSeqOf(n)
    ensures NextCSeq(h) == h["CSeq" := CSeqOf(n + 1)]
  {
    CSeqFields(n);
    AtoiUndoesItoa(n);
    CSeqSpaced(n + 1);
  }

  lemma CSeqSpaced(n: int)
    ensures CSeqOf(n) == Itoa(n) + " " + "INVITE"
  {
    assert " " + "INVITE" == " INVITE";
  }

  lemma CSeqFields(n: int)
    ensures Fields(CSeqOf(n)) == [Itoa(n), "INVITE"]
  {
    var word := "INVITE";
    ItoaIsPlain(n);
    assert forall i :: 0 <= i < |word| ==> !IsSpace(word[i]);
    CSeqSpaced(n);
    FieldsOfPair(Itoa(n), word);
  }

  lemma OwnViaIsTop(l: Leg, req: SIPRequest, branch: string)
    requires Addressed(l) && Generated(branch) && req.Header("Via") == Vias.OwnVia(l.proto, l.addr, branch)
    ensures ReadsBranch(req, branch)
  {
    GeneratedIsSafe(branch);
    Vias.OwnViaReadsBack(l.proto, l.addr, branch);
    assert |Vias.OwnVia(l.proto, l.addr, branch)| > 0;
  }

  /** Which headers a retry changes. */
  lemma RetryHeaders(l: Leg, req: SIPRequest, minSE: int, branch: string, n: int)
    requires req.Header("CSeq") == CSeqOf(n)
    ensures var r := RetryOf(l, req, minSE, branch);
      && r.Header("CSeq") == CSeqOf(n + 1) && r.Header("Via") == Vias.OwnVia(l.proto, l.addr, branch)
      && r.Header("Session-Expires") == Itoa(minSE) && SameDialog(r, req)
  {
    KnownNames();
    TimerNames();
    assert |"Session-Expires"| == 15 && |"CSeq"| == 4 && |"Via"| == 3 && |"Call-ID"| == 7 && |"To"| == 2;
    assert "From"[0] == 'F' && "CSeq"[0] == 'C';
    NumberedCSeq(req.headers["Session-Expires" := Itoa(minSE)], n);
  }

  lemma RetryChained(l: Leg, first: SIPRequest, a: Attempt, n: nat, res: SIPResponse, branch: string)
    requires Addressed(l) && Generated(branch) && Chained(first, a, n) && Retryable(res)
    ensures Chained(first, Attempt(RetryOf(l, a.req, MinSEOf(res.headers).value, branch), branch, Some(res)), n + 1)
  {
    RetryHeaders(l, a.req, MinSEOf(res.headers).value, branch, n + 1);
    OwnViaIsTop(l, RetryOf(l, a.req, MinSEOf(res.headers).value, branch), branch);
  }

  lemma FirstHeaders(l: Leg, to: Uri.SIPURI, f: Fresh)
    ensures Lookup(InviteHeaders(l, to, f), "CSeq") == CSeqOf(1)
    ensures Lookup(InviteHeaders(l, to, f), "Via") == Vias.OwnVia(l.proto, l.addr, f.branch)
    ensures Lookup(InviteHeaders(l, to, f), "Call-ID") == f.callId
  {
    KnownNames();
    assert Itoa(1) == "1";
    assert |"Max-Forwards"| == 12 && |"Contact"| == 7 && |"Via"| == 3 && |"CSeq"| == 4 && |"Call-ID"| == 7;
    assert "Contact"[1] == 'o' && "Call-ID"[1] == 'a';
  }

  lemma FirstChained(l: Leg, target: string, f: Fresh)
    requires Addressed(l) && Generated(f.branch) && OutgoingInvite(l, target, f).Some?
    ensures var r := OutgoingInvite(l, target, f).value; Chained(r, Attempt(r, f.branch, None), 0)
  {
    var r := OutgoingInvite(l, target, f).value;
    FirstHeaders(l, Uri.ParsedUri(target).value, f);
    OwnViaIsTop(l, r, f.branch);
  }

  ghost predicate AllChained(first: SIPRequest, attempts: seq<Attempt>) {
    forall n :: 0 <= n < |attempts| ==> Chained(first, attempts[n], n)
  }

  /** The 422 answers that are retried, with the branches generated for the retries. */
  function Retried(es: seq<Event>): seq<(SIPResponse, string)> {
    if es == [] then []
    else (if IsRetry(es[0]) then [(es[0].res, es[0].branch)] else []) + Retried(es[1..])
  }

  /** The attempts from `n` on answer the retried 422s `due` one by one, in order. */
  predicate AnswersInOrder(a: seq<Attempt>, n: nat, due: seq<(SIPResponse, string)>) {
    && |a| <= n + |due|
    && forall i :: n <= i < |a| ==> a[i].cause == Some(due[i - n].0) && a[i].branch == due[i - n].1
  }

  function Next(l: Leg, last: Attempt, res: SIPResponse, branch: string): Attempt
    requires Retryable(res)
  {
    Attempt(RetryOf(l, last.req, MinSEOf(res.headers).value, branch), branch, Some(res))
  }

  /** Handling a retryable 422 adds one attempt, since the new Via always reads back. */
  lemma RetryHandled(l: Leg, c: Call, res: SIPResponse, branch: string, tag: string)
    requires c.attempts != [] && Retryable(res)
    requires ReadsBranch(Next(l, c.attempts[|c.attempts| - 1], res, branch).req, branch)
    ensures Handled(l, c, Answered(res, branch, tag)).attempts ==
      c.attempts + [Next(l, c.attempts[|c.attempts| - 1], res, branch)]
  {}

  lemma ChainGrows(first: SIPRequest, attempts: seq<Attempt>, a: Attempt)
    requires AllChained(first, attempts) && Chained(first, a, |attempts|)
    ensures AllChained(first, attempts + [a])
  {}

  lemma HandledChained(l: Leg, first: SIPRequest, c: Call, e: Event)
    requires Addressed(l) && (e.Answered? ==> Generated(e.branch))
    requires c.attempts != [] && AllChained(first, c.attempts)
    ensures AllChained(first, Handled(l, c, e).attempts)
    ensures Handled(l, c, e).attempts == c.attempts
      + if e.Answered? && Retryable(e.res) then [Next(l, c.attempts[|c.attempts| - 1], e.res, e.branch)] else []
  {
    if e.Answered? && Retryable(e.res) {
      var n := |c.attempts| - 1;
      RetryChained(l, first, c.attempts[n], n, e.res, e.branch);
      RetryHandled(l, c, e.res, e.branch, e.tag);
      ChainGrows(first, c.attempts, Next(l, c.attempts[n], e.res, e.branch));
    } else {
      NoRetry(l, c, e);
    }
  }

  lemma NoRetry(l: Leg, c: Call, e: Event)
    requires c.attempts != [] && !IsRetry(e)
    ensures Handled(l, c, e).attempts == c.attempts
  {}

  lemma AnswersCons(a: seq<Attempt>, n: nat, due: seq<(SIPResponse, string)>, d: (SIPResponse, string))
    requires n < |a| && a[n].cause == Some(d.0) && a[n].branch == d.1 && AnswersInOrder(a, n + 1, due)
    ensures AnswersInOrder(a, n, [d] + due)
  {}

  lemma {:induction false} MediationChained(l: Leg, first: SIPRequest, c: Call, es: seq<Event>)
    requires Addressed(l) && BranchesGenerated(es)
    requires c.attempts != [] && AllChained(first, c.attempts)
    ensures AllChained(first, Mediated(l, c, es).attempts) && c.attempts <= Mediated(l, c, es).attempts
    decreases |es|
  {
    if !c.over && es != [] {
      HandledChained(l, first, c, es[0]);
      MediationChained(l, first, Handled(l, c, es[0]), es[1..]);
    }
  }

  predicate IsRetry(e: Event) { e.Answered? && Retryable(e.res) }

  /** One more event: `before` and `after` are the attempts around it, `made` those in the end. */
  lemma AnswersGrow(before: seq<Attempt>, after: seq<Attempt>, made: seq<Attempt>, e: Event,
      due: seq<(SIPResponse, string)>)
    requires after <= made && AnswersInOrder(made, |after|, due)
    requires if IsRetry(e) then
        |after| == |before| + 1 && after[|before|].cause == Some(e.res) && after[|before|].branch == e.branch
      else after == before
    ensures AnswersInOrder(made, |before|, (if IsRetry(e) then [(e.res, e.branch)] else []) + due)
  {
    if IsRetry(e) {
      assert made[|before|] == after[|before|];
      AnswersCons(made, |before|, due, (e.res, e.branch));
    } else {
      assert [] + due == due;
    }
  }

  lemma HandledOne(l: Leg, first: SIPRequest, c: Call, e: Event)
    requires Addressed(l) && (e.Answered? ==> Generated(e.branch)) && c.attempts != [] && AllChained(first, c.attempts)
    ensures var after := Handled(l, c, e).attempts; var n := |c.attempts|;
      if IsRetry(e) then |after| == n + 1 && after[n].cause == Some(e.res) && after[n].branch == e.branch
      else after == c.attempts
  {
    HandledChained(l, first, c, e);
  }

  lemma {:induction false} MediationAnswers(l: Leg, first: SIPRequest, c: Call, es: seq<Event>)
    returns (made: seq<Attempt>)
    requires Addressed(l) && BranchesGenerated(es) && c.attempts != [] && AllChained(first, c.attempts)
    ensures made == Mediated(l, c, es).attempts && AnswersInOrder(made, |c.attempts|, Retried(es))
    decreases |es|
  {
    made := Mediated(l, c, es).attempts;
    if !c.over && es != [] {
      var c' := Handled(l, c, es[0]);
      HandledChained(l, first, c, es[0]);
      HandledOne(l, first, c, es[0]);
      MediationChained(l, first, c', es[1..]);
      made := MediationAnswers(l, first, c', es[1..]);
      AnswersGrow(c.attempts, c'.attempts, made, es[0], Retried(es[1..]));
    }
  }

  /** For every stream of callee answers: the n-th attempt has CSeq `n INVITE`, the Call-ID,
      From, To and body of the first, and a Via that reads back with exactly the branch
      generated for it; the attempts after the first answer the 422s with a positive Min-SE one
      by one in order, each asking for exactly the Min-SE of its 422. */
  lemma RetryChain(l: Leg, target: string, f: Fresh, reachable: bool, es: seq<Event>)
    requires Addressed(l) && Generated(f.branch) && BranchesGenerated(es)
    requires Rejection(l, target, f, reachable).None?
    ensures var attempts := CallOf(l, target, f, reachable, es).attempts;
      var first := OutgoingInvite(l, target, f).value;
      && attempts != [] && attempts[0] == Attempt(first, f.branch, None)
      && first.body == l.caller.body && first.Header("Call-ID") == f.callId
      && AllChained(first, attempts)
      && AnswersInOrder(attempts, 1, Retried(es))
  {
    var first := OutgoingInvite(l, target, f).value;
    FirstChained(l, target, f);
    FirstHeaders(l, Uri.ParsedUri(target).value, f);
    var c := Call([], [Attempt(first, f.branch, None)], false);
    MediationChained(l, first, c, es);
    var made := MediationAnswers(l, first, c, es);
  }

  /** In the callee's own words: a 422 with `Min-SE: n`, n > 0, is answered by an attempt with
      `Session-Expires: n`. */
  lemma RetryAsks(l: Leg, target: string, f: Fresh, reachable: bool, es: seq<Event>, k: nat, n: int)
    requires Addressed(l) && Generated(f.branch) && BranchesGenerated(es)
    requires Rejection(l, target, f, reachable).None?
    requires var attempts := CallOf(l, target, f, reachable, es).attempts;
      0 < k < |attempts| && (attempts[k].cause.Some? ==> attempts[k].cause.value.Header("Min-SE") == Itoa(n))
    ensures CallOf(l, target, f, reachable, es).attempts[k].req.Header("Session-Expires") == Itoa(n)
  {
    RetryChain(l, target, f, reachable, es);
    var a := CallOf(l, target, f, reachable, es).attempts[k];
    assert Chained(OutgoingInvite(l, target, f).value, a, k);
    MinSEReads(a.cause.value.headers, n);
  }

  // ----- a dialog of its own on each leg -----

  lemma FromRebuilt(l: Leg, target: string, f: Fresh)
    requires OutgoingInvite(l, target, f).Some?
    ensures OutgoingInvite(l, target, f).value.Header("From") ==
      Split(l.caller.Header("From"), ";tag=")[0] + ";tag=" + f.tag
  {
    KnownNames();
    assert |"From"| == 4 && |"To"| == 2 && |"Contact"| == 7 && |"Via"| == 3 && |"Max-Forwards"| == 12;
    assert "From"[0] == 'F' && "CSeq"[0] == 'C';
  }

  /** The callee's leg gets the generated From tag exactly when nothing that reads as another
      tag is left in front of it; the code removes only what follows `;tag=` without a blank. */
  lemma OwnFromTag(l: Leg, target: string, f: Fresh)
    requires OutgoingInvite(l, target, f).Some? && TagText(f.tag)
    ensures var base := Split(l.caller.Header("From"), ";tag=")[0];
      TagOf(OutgoingInvite(l, target, f).value.Header("From")) == f.tag <==> !Tagged(base) || TagOf(base) == f.tag
  {
    FromRebuilt(l, target, f);
    var base := Split(l.caller.Header("From"), ";tag=")[0];
    TagAppended(base, f.tag);
  }

  /** A From with a blank in front of its tag parameter keeps that tag on the callee's leg. */
  lemma OlderTagStays(l: Leg, target: string, f: Fresh, name: string, older: string)
    requires OutgoingInvite(l, target, f).Some? && TagText(f.tag) && TagText(older)
    requires l.caller.Header("From") == name + ";" + (" " + (TAG + older)) && ';' !in name && !(TAG <= TrimSpace(name))
    ensures TagOf(OutgoingInvite(l, target, f).value.Header("From")) == older
  {
    var from := l.caller.Header("From");
    BlankHidesTag(name, older);
    assert Split(from, ";tag=")[0] == from;
    OlderTagRead(name, older);
    FromRebuilt(l, target, f);
    TagAppended(from, f.tag);
  }

  lemma BlankHidesTag(name: string, tag: string)
    requires ';' !in name && ';' !in tag
    ensures var from := name + ";" + (" " + (TAG + tag)); Index(from, ";tag=") == -1 && Split(from, ";tag=") == [from]
  {
    var x := " " + (TAG + tag);
    var t := TAG;
    assert forall i :: 0 <= i < |t| ==> t[i] != ';';
    assert ';' !in x;
    IndexAbsent(x, ";tag=");
    var y := [';'] + x;
    assert y[1] == ' ' && ";tag="[1] == 't';
    assert !(";tag=" <= y);
    IndexStep(';', x, ";tag=");
    IndexSkips(name, y, ";tag=");
    assert name + ";" + x == name + y;
  }

  lemma OlderTagRead(name: string, tag: string)
    requires ';' !in name && !(TAG <= TrimSpace(name)) && TagText(tag)
    ensures var from := name + ";" + (" " + (TAG + tag)); Tagged(from) && TagOf(from) == tag
  {
    var x := " " + (TAG + tag);
    TagParam(tag);
    assert Trimmed(TAG + tag) by { assert (TAG + tag)[|TAG + tag| - 1] == tag[|tag| - 1]; }
    TrimmedIsFixed(TAG + tag);
    assert ';' !in x;
    SplitCons(name, x, ";");
    SplitOne(x, ";");
    var parts := [name, x];
    assert Split(name + ";" + x, ";") == parts;
    assert TAG <= TrimSpace(parts[1]);
    assert parts[1..] == [x] && FirstTag([x]) == tag;
  }

  const OLD_FROM: string := "<sip:a>" + ";" + (" " + (TAG + "b"))

  /** So with such a From the generated tag is not the one the callee's leg reads. */
  lemma OlderTagWitness(l: Leg, f: Fresh)
    requires l.caller.Header("From") == OLD_FROM && TagText(f.tag) && f.tag != "b"
    ensures OutgoingInvite(l, "sip:c", f).Some?
    ensures TagOf(OutgoingInvite(l, "sip:c", f).value.Header("From")) == "b" != f.tag
  {
    PlainTarget();
    NameIsNoTag();
    OlderTagStays(l, "sip:c", f, "<sip:a>", "b");
  }

  lemma PlainTarget()
    ensures Uri.ParsedUri("sip:c").Success?
  {
    var u := Uri.SIPURI("sip", "", "c", "", map[]);
    PlainWellFormed(u);
    PlainPrinted(u);
    Uri.UriRoundTrip(u, []);
  }

  lemma PlainPrinted(u: Uri.SIPURI)
    requires u == Uri.SIPURI("sip", "", "c", "", map[])
    ensures Uri.PrintUri(u, []) == "sip:c"
  {}

  lemma PlainWellFormed(u: Uri.SIPURI)
    requires u == Uri.SIPURI("sip", "", "c", "", map[])
    ensures Uri.WellFormed(u)
  {
    var a := "sip";
    assert forall i :: 0 <= i < |a| ==> a[i] in {'s', 'i', 'p'};
  }

  lemma NameIsNoTag()
    ensures ';' !in "<sip:a>" && !(TAG <= TrimSpace("<sip:a>")) && TagText("b")
  {
    var n := "<sip:a>";
    assert forall i :: 0 <= i < |n| ==> n[i] != ';';
    TrimmedIsFixed(n);
  }

  /** A 2xx for the caller has a To tag exactly unless its INVITE had an empty tag parameter. */
  lemma DialogHasTag(l: Leg, res: SIPResponse, tag: string)
    requires res.Success() && TagText(tag)
    ensures var to := if "To" in CopiedHeaders(l.caller) then CopiedHeaders(l.caller)["To"] else "";
      TagOf(LegResponse(l, res, tag).Header("To")) != "" <==> TagOf(to) != "" || !Tagged(to)
  {
    KnownNames();
    var to := if "To" in CopiedHeaders(l.caller) then CopiedHeaders(l.caller)["To"] else "";
    assert ToLower("To") == "to" && ToLower("To") in KEPT_BACK;
    assert |"To"| == 2 && |"Contact"| == 7;
    TagAppended(to, tag);
  }

  /** With an empty tag parameter in the caller's To, every 2xx goes out without a To tag. */
  lemma EmptyTagStays(l: Leg, res: SIPResponse, tag: string, name: string)
    requires res.Success() && TagText(tag)
    requires l.caller.Header("To") == name + ";" + TAG && ';' !in name && !(TAG <= TrimSpace(name))
    ensures TagOf(LegResponse(l, res, tag).Header("To")) == ""
  {
    var to := name + ";" + TAG;
    EmptyTagRead(name);
    SuffixFound(name + ";", TAG);
    assert CopiedHeaders(l.caller)["To"] == to;
    DialogHasTag(l, res, tag);
  }

  lemma EmptyTagRead(name: string)
    requires ';' !in name && !(TAG <= TrimSpace(name))
    ensures Tagged(name + ";" + TAG) && TagOf(name + ";" + TAG) == ""
  {
    var t := TAG;
    assert forall i :: 0 <= i < |t| ==> t[i] != ';';
    TrimmedIsFixed(TAG);
    SplitCons(name, TAG, ";");
    SplitOne(TAG, ";");
    var parts := [name, TAG];
    assert Split(name + ";" + TAG, ";") == parts;
    assert TAG <= TrimSpace(parts[1]) && parts[1..] == [TAG] && FirstTag([TAG]) == "";
  }

  lemma {:induction false} SuffixFound(s: string, sep: string)
    requires sep != ""
    ensures Contains(s + sep, sep)
  {
    if s == "" {
      assert s + sep == sep;
    } else {
      assert (s + sep)[1..] == s[1..] + sep;
      SuffixFound(s[1..], sep);
    }
  }

  const EMPTY_TAG: string := "<sip:a>" + ";" + TAG

  /** So with such a To the caller's dialog has no tag of this server. */
  lemma EmptyTagWitness(l: Leg, res: SIPResponse, tag: string)
    requires l.caller.Header("To") == EMPTY_TAG && res.Success() && TagText(tag)
    ensures TagOf(LegResponse(l, res, tag).Header("To")) == ""
  {
    NameIsNoTag();
    EmptyTagStays(l, res, tag, "<sip:a>");
  }

  // ----- what is rebuilt on each leg -----

  /** The INVITE for a target that reads as `to`: where it goes, and the headers the B2BUA makes itself. */
  lemma OutgoingHeaders(l: Leg, target: string, to: Uri.SIPURI, f: Fresh)
    requires Uri.ParsedUri(target) == Success(to)
    ensures OutgoingInvite(l, target, f).Some?
    ensures var r := OutgoingInvite(l, target, f).value;
      && r.verb == "INVITE" && r.uri == target && r.body == l.caller.body && r.proto == l.caller.proto
      && r.Header("To") == "<sip:" + to.user + "@" + to.host + ">"
      && r.Header("Contact") == "<sip:" + l.addr + ">"
      && r.Header("Via") == Vias.OwnVia(l.proto, l.addr, f.branch)
      && r.Header("Call-ID") == f.callId && r.Header("CSeq") == CSeqOf(1)
  {
    FirstHeaders(l, to, f);
    OwnHeaders(l, to, f);
  }

  lemma OwnHeaders(l: Leg, to: Uri.SIPURI, f: Fresh)
    ensures Lookup(InviteHeaders(l, to, f), "To") == "<sip:" + to.user + "@" + to.host + ">"
    ensures Lookup(InviteHeaders(l, to, f), "Contact") == "<sip:" + l.addr + ">"
  {
    OwnNames();
  }

  lemma OwnNames()
    ensures Title("Contact") == "Contact" && Title("To") == "To"
    ensures "To" !in {"Contact", "Via", "Max-Forwards", "CSeq"} && "Contact" !in {"Via", "Max-Forwards", "CSeq"}
  {
    KnownNames();
    assert |"To"| == 2 && |"Contact"| == 7 && |"Via"| == 3 && |"Max-Forwards"| == 12 && |"CSeq"| == 4;
  }

  /** What the caller is sent points at this server on success, and has no Contact otherwise. */
  lemma LegContact(l: Leg, res: SIPResponse, tag: string)
    ensures var r := LegResponse(l, res, tag);
      && r.status == res.status && r.reason == res.reason && r.proto == l.caller.proto
      && r.Header("Contact") == if res.Success() then "<sip:" + l.addr + ">" else ""
  {
    OwnNames();
    NotCopied();
    assert ToLower("Contact") == "contact";
  }

  lemma NotCopied()
    ensures "Contact" !in COPIED && "Contact" != "To"
  {
    assert COPIED == ["Via", "From", "To", "Call-ID", "CSeq"];
    assert |"Contact"| == 7 && |"Via"| == 3 && |"From"| == 4 && |"To"| == 2 && |"CSeq"| == 4;
    assert "Contact"[1] == 'o' && "Call-ID"[1] == 'a';
  }

  /** A 2xx that gets the interval asked for also requires the timer extension. */
  lemma TimerRequired(l: Leg, res: SIPResponse)
    requires res.Success() && HasTimer(l.caller.headers) && !HasTimer(res.headers)
    ensures Lookup(Timed(l, res).headers, "Require") ==
      if "Require" in res.headers then "timer, " + res.headers["Require"] else "timer"
  {
    TimerNames();
    assert |"Session-Expires"| == 15 && |"Require"| == 7;
  }

  // ----- which calls are admitted -----

  predicate AsksFor(h: Headers, n: int) {
    Lookup(h, "Session-Expires") == Itoa(n) || (Lookup(h, "Session-Expires") == "" && Lookup(h, "x") == Itoa(n))
  }

  predicate AsksForNothing(h: Headers) { Lookup(h, "Session-Expires") == "" && Lookup(h, "x") == "" }

  /** An interval below 1800 seconds is answered 422 with `Min-SE: 1800`. */
  lemma ShortIntervalRefused(l: Leg, target: string, f: Fresh, reachable: bool, n: int)
    requires l.caller.verb == "INVITE" && AsksFor(l.caller.headers, n) && n < 1800
    ensures var r := Rejection(l, target, f, reachable);
      r.Some? && r.value.status == 422 && r.value.Header("Min-SE") == Itoa(1800)
  {
    TimerReads(l.caller.headers, n);
    TimerNames();
  }

  /** An unreadable one is answered 400. */
  lemma UnreadableIntervalRefused(l: Leg, target: string, f: Fresh, reachable: bool)
    requires l.caller.verb == "INVITE" && Lookup(l.caller.headers, "Session-Expires") != ""
    requires Atoi(TrimSpace(Split(Lookup(l.caller.headers, "Session-Expires"), ";")[0])).None?
    ensures var r := Rejection(l, target, f, reachable); r.Some? && r.value.status == 400
  {}

  /** The caller asks for no timer, or for one that is long enough. */
  predicate LongEnough(h: Headers, n: int) { AsksForNothing(h) || (AsksFor(h, n) && n >= 1800) }

  lemma LongEnoughRead(l: Leg, n: int)
    requires LongEnough(l.caller.headers, n)
    ensures var timer := TimerOf(l.caller.headers);
      timer.Success? && (timer.value.Some? ==> timer.value.value.delta >= B2BUA_MIN_SE)
  {
    if !AsksForNothing(l.caller.headers) { TimerReads(l.caller.headers, n); }
  }

  /** Every other INVITE is tried: not rejected if the target is a URI that can be reached, */
  lemma OthersAdmitted(l: Leg, target: string, f: Fresh, n: int)
    requires LongEnough(l.caller.headers, n) && Uri.ParsedUri(target).Success? && Addressed(l) && Generated(f.branch)
    ensures Rejection(l, target, f, true).None?
  {
    LongEnoughRead(l, n);
    FirstHeaders(l, Uri.ParsedUri(target).value, f);
    OwnViaIsTop(l, OutgoingInvite(l, target, f).value, f.branch);
  }

  /** answered 503 if it cannot, and 500 if the target is no URI. */
  lemma OthersRefused(l: Leg, target: string, f: Fresh, reachable: bool, n: int)
    requires LongEnough(l.caller.headers, n) && (Uri.ParsedUri(target).Failure? || !reachable)
    ensures var r := Rejection(l, target, f, reachable);
      r.Some? && r.value.status == if Uri.ParsedUri(target).Failure? then 500 else 503
  {
    LongEnoughRead(l, n);
  }

  /** All other headers pass through unchanged, in both directions. */
  lemma OtherHeadersPass(l: Leg, to: Uri.SIPURI, f: Fresh, res: SIPResponse, tag: string, k: string)
    ensures ToLower(k) !in REBUILT && k != "Max-Forwards" ==>
      var h := InviteHeaders(l, to, f);
      (k in h <==> k in l.caller.headers) && (k in h ==> h[k] == l.caller.headers[k])
    ensures ToLower(k) !in KEPT_BACK && k in res.headers ==>
      var h := LegResponse(l, res, tag).headers; k in h && h[k] == res.headers[k]
  {
    RebuiltNames();
  }

  lemma RebuiltNames()
    ensures ToLower("Call-ID") == "call-id" && ToLower("From") == "from" && ToLower("To") == "to"
      && ToLower("CSeq") == "cseq"
    ensures ToLower("Contact") == "contact" && ToLower("Via") == "via"
  {}
}
