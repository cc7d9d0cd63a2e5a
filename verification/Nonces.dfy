/** Digest nonces and the REGISTER handler. Times are in seconds; freshly generated nonces, the
    user table and the digest function are inputs. */
module Nonces {
  import opened Wrappers
  import opened Text
  import opened Message
  import Registrar

  const LIFETIME: int := 300

  type Store = map<string, int>

  function Issued(nonces: Store, nonce: string, now: int): Store { nonces[nonce := now + LIFETIME] }

  /** A nonce is good up to and including its expiry. */
  predicate Good(nonces: Store, nonce: string, now: int) { nonce in nonces && now <= nonces[nonce] }

  type Digest = (string, string, string, string) -> string

  // ----- the handler -----

  const DIGEST_KEYS: set<string> := {"username", "nonce", "uri", "response"}

  /** The conditions under which a REGISTER is carried out. */
  predicate Accepted(req: SIPRequest, nonces: Store, users: map<string, string>, digest: Digest, now: int) {
    var auth := req.authorization;
    && DIGEST_KEYS <= auth.Keys
    && Good(nonces, auth["nonce"], now)
    && auth["username"] in users
    && auth["response"] == digest(users[auth["username"]], req.verb, auth["uri"], auth["nonce"])
  }

  predicate Malformed(req: SIPRequest) { req.authorization != map[] && !(DIGEST_KEYS <= req.authorization.Keys) }

  function ChallengeParts(realm: string, nonce: string): seq<string> {
    ["realm=\"" + realm + "\"", " nonce=\"" + nonce + "\"", " algorithm=MD5", " qop=\"auth\""]
  }

  function Challenge(realm: string, nonce: string): string { "Digest " + Join(ChallengeParts(realm, nonce), ",") }

  function Answer(status: int, reason: string, req: SIPRequest, extra: Headers): SIPResponse {
    SIPResponse(req.proto, status, reason, CopiedHeaders(req) + extra, "")
  }

  function Unauthorized(req: SIPRequest, realm: string, nonce: string): SIPResponse {
    Answer(401, "Unauthorized", req, map["WWW-Authenticate" := Challenge(realm, nonce)])
  }

  function Okay(req: SIPRequest, date: string): SIPResponse {
    var contact := req.Header("Contact") + ";expires=" + Itoa(Registrar.ExpiresOf(req));
    Answer(200, "OK", req, map["Contact" := contact, "Date" := date])
  }

  lemma HandlerNames()
    ensures Title("WWW-Authenticate") == "WWW-Authenticate" && Title("Warning") == "Warning"
    ensures Title("Contact") == "Contact" && Title("Date") == "Date"
  {}

  /** What the store is after handling a REGISTER: the presented nonce is used up whether or not
      it was good, and every 401 issues the fresh one. */
  function StoreAfter(
    req: SIPRequest, nonces: Store, users: map<string, string>, digest: Digest, spare: string, now: int): Store
  {
    if Malformed(req) then nonces
    else
      var left := if req.authorization == map[] then nonces else nonces - {req.authorization["nonce"]};
      if Accepted(req, nonces, users, digest, now) then left else Issued(left, spare, now)
  }

  class SIPServer {
    const realm: string
    const users: map<string, string>
    const digest: Digest
    const registrar: Registrar.Server
    var nonces: Store

    constructor (realm: string, users: map<string, string>, digest: Digest)
      ensures nonces == map[] && fresh(registrar) && registrar.registrations == map[]
    {
      this.realm, this.users, this.digest, nonces := realm, users, digest, map[];
      registrar := new Registrar.Server();
    }

    method GenerateNonce(nonce: string, now: int)
      modifies this
      ensures nonces == Issued(old(nonces), nonce, now)
    {
      nonces := nonces[nonce := now + 300];
    }

    method ValidateNonce(nonce: string, now: int) returns (ok: bool)
      modifies this
      ensures ok == Good(old(nonces), nonce, now)
      ensures nonces == old(nonces) - {nonce}
    {
      if nonce !in nonces {
        assert nonces - {nonce} == nonces;
        return false;
      }
      var expiration := nonces[nonce];
      if now > expiration {
        nonces := nonces - {nonce};
        return false;
      }
      nonces := nonces - {nonce};
      return true;
    }

    method Respond(status: int, reason: string, req: SIPRequest, extra: Headers) returns (res: SIPResponse)
      requires Canonical(extra)
      ensures res == Answer(status, reason, req, extra)
    {
      ghost var order;
      res, order := BuildResponse(status, reason, req, extra);
      PutAllCanonical(CopiedHeaders(req), extra, order);
      assert (map k | k in order :: extra[k]) == extra;
    }

    method CreateUnauthorizedResponse(req: SIPRequest, nonce: string, now: int) returns (res: SIPResponse)
      modifies this
      ensures nonces == Issued(old(nonces), nonce, now)
      ensures res == Unauthorized(req, realm, nonce)
    {
      GenerateNonce(nonce, now);
      HandlerNames();
      res := Respond(401, "Unauthorized", req, map["WWW-Authenticate" := Challenge(realm, nonce)]);
    }

    /** Bindings change only on a REGISTER that is accepted, and those are the ones answered 200;
        no answer means the program stopped on an unreadable contact. */
    method HandleRegister(req: SIPRequest, spare: string, date: string, now: int) returns (res: Option<SIPResponse>)
      modifies this, registrar
      ensures nonces == StoreAfter(req, old(nonces), users, digest, spare, now)
      ensures registrar.registrations ==
        if !Accepted(req, old(nonces), users, digest, now) then old(registrar.registrations)
        else Registrar.Registered(old(registrar.registrations), req, now)
      ensures res ==
        if Malformed(req) then Some(Answer(400, "Bad Request", req, map["Warning" := "Missing digest parameters"]))
        else if !Accepted(req, old(nonces), users, digest, now) then Some(Unauthorized(req, realm, spare))
        else if Registrar.Readable(req.Header("Contact"), Registrar.ExpiresOf(req)) then Some(Okay(req, date))
        else None
    {
      var r;
      HandlerNames();
      var auth := req.authorization;
      if |auth| == 0 {
        assert auth == map[];
        r := CreateUnauthorizedResponse(req, spare, now);
        return Some(r);
      }
      if !("username" in auth && "nonce" in auth && "uri" in auth && "response" in auth) {
        r := Respond(400, "Bad Request", req, map["Warning" := "Missing digest parameters"]);
        return Some(r);
      }
      var valid := ValidateNonce(auth["nonce"], now);
      if !valid {
        r := CreateUnauthorizedResponse(req, spare, now);
        return Some(r);
      }
      if auth["username"] !in users {
        r := CreateUnauthorizedResponse(req, spare, now);
        return Some(r);
      }
      if auth["response"] != digest(users[auth["username"]], req.verb, auth["uri"], auth["nonce"]) {
        r := CreateUnauthorizedResponse(req, spare, now);
        return Some(r);
      }
      var crashed := registrar.UpdateRegistration(req, now);
      if crashed { return None; }
      var expires := Registrar.Expires(req);
      var contact := req.Header("Contact") + ";expires=" + Itoa(expires);
      r := Respond(200, "OK", req, map["Contact" := contact, "Date" := date]);
      return Some(r);
    }
  }

  // ----- every interleaving -----

  /** Where the handling of one REGISTER stands between its critical sections. */
  datatype Phase = Checking(nonce: string) | Passed(nonce: string) | Refused | Answered(status: int)

  datatype Pass = Pass(nonce: string, at: int)

  /** The store and the handlers, with the record of issues, of nonces that passed, of nonces
      found expired, and of the nonces behind the 200 answers. */
  datatype Bank = Bank(nonces: Store, phase: map<nat, Phase>, issued: map<string, int>, passes: seq<Pass>,
                       expired: set<string>, oks: seq<string>)

  /** `Arrive` brings a REGISTER with a nonce, `ArriveBare` one without credentials,
      `ArriveBroken` one with incomplete ones; `Verdict` is the user and digest check. */
  datatype Event =
    | ArriveBare(k: nat)
    | ArriveBroken(k: nat)
    | Arrive(k: nat, nonce: string)
    | Validate(k: nat, now: int)
    | Verdict(k: nat, matches: bool)
    | Refuse(k: nat, spare: string, now: int)

  predicate Enabled(b: Bank, e: Event) {
    match e
    case ArriveBare(k) => k !in b.phase
    case ArriveBroken(k) => k !in b.phase
    case Arrive(k, _) => k !in b.phase
    case Validate(k, _) => k in b.phase && b.phase[k].Checking?
    case Verdict(k, _) => k in b.phase && b.phase[k].Passed?
    case Refuse(k, spare, _) => k in b.phase && b.phase[k].Refused? && spare !in b.issued
  }

  function Validated(b: Bank, k: nat, nonce: string, now: int): Bank {
    var left := b.(nonces := b.nonces - {nonce});
    if Good(b.nonces, nonce, now) then
      left.(phase := b.phase[k := Passed(nonce)], passes := b.passes + [Pass(nonce, now)])
    else
      left.(phase := b.phase[k := Refused], expired := if nonce in b.nonces then b.expired + {nonce} else b.expired)
  }

  function Apply(b: Bank, e: Event): Bank {
    if !Enabled(b, e) then b
    else match e
      case ArriveBare(k) => b.(phase := b.phase[k := Refused])
      case ArriveBroken(k) => b.(phase := b.phase[k := Answered(400)])
      case Arrive(k, nonce) => b.(phase := b.phase[k := Checking(nonce)])
      case Validate(k, now) => Validated(b, k, b.phase[k].nonce, now)
      case Verdict(k, matches) =>
        if matches then b.(phase := b.phase[k := Answered(200)], oks := b.oks + [b.phase[k].nonce])
        else b.(phase := b.phase[k := Refused])
      case Refuse(k, spare, now) =>
        b.(nonces := Issued(b.nonces, spare, now), issued := b.issued[spare := now],
           phase := b.phase[k := Answered(401)])
  }

  function Opened(): Bank { Bank(map[], map[], map[], [], {}, []) }

  function Exec(es: seq<Event>): Bank
    decreases |es|
  {
    if es == [] then Opened() else Apply(Exec(es[..|es| - 1]), es[|es| - 1])
  }

  ghost predicate Consumed(b: Bank, nonce: string) { exists i :: 0 <= i < |b.passes| && b.passes[i].nonce == nonce }

  ghost predicate Distinct(ns: seq<string>) { forall i, j :: 0 <= i < j < |ns| ==> ns[i] != ns[j] }

  /** Issued nonces split into outstanding, consumed and expired ones. */
  ghost predicate Split3(b: Bank) {
    && (forall n :: n in b.issued <==> n in b.nonces || Consumed(b, n) || n in b.expired)
    && (forall n :: n in b.nonces ==> !Consumed(b, n) && n !in b.expired && b.nonces[n] == b.issued[n] + LIFETIME)
    && (forall n :: n in b.expired ==> !Consumed(b, n))
  }

  ghost predicate PassedOnce(b: Bank) {
    && (forall i, j :: 0 <= i < j < |b.passes| ==> b.passes[i].nonce != b.passes[j].nonce)
    && (forall i :: 0 <= i < |b.passes| ==>
          b.passes[i].nonce in b.issued && b.passes[i].at <= b.issued[b.passes[i].nonce] + LIFETIME)
  }

  /** Each validated nonce backs one handler at a time and at most one 200. */
  ghost predicate Backed(b: Bank) {
    && Distinct(b.oks)
    && (forall i :: 0 <= i < |b.oks| ==> Consumed(b, b.oks[i]))
    && (forall k :: k in b.phase && b.phase[k].Passed? ==> Consumed(b, b.phase[k].nonce) && b.phase[k].nonce !in b.oks)
    && (forall k, l :: k in b.phase && l in b.phase && b.phase[k].Passed? && b.phase[l].Passed? && k != l ==>
          b.phase[k].nonce != b.phase[l].nonce)
  }

  function Okays(b: Bank): set<nat> { set k | k in b.phase && b.phase[k] == Answered(200) }

  ghost predicate Sound(b: Bank) { Split3(b) && PassedOnce(b) && Backed(b) && |Okays(b)| == |b.oks| }

  lemma OkaysStep(b: Bank, e: Event)
    requires Enabled(b, e)
    ensures Okays(Apply(b, e)) == if e.Verdict? && e.matches then Okays(b) + {e.k} else Okays(b)
    ensures e.Verdict? ==> e.k !in Okays(b)
  {}

  lemma PassConsumes(b: Bank, c: Bank, p: Pass)
    requires c.passes == b.passes + [p]
    ensures forall n :: Consumed(c, n) <==> Consumed(b, n) || n == p.nonce
  {
    forall n ensures Consumed(c, n) <==> Consumed(b, n) || n == p.nonce {
      if Consumed(b, n) {
        var i :| 0 <= i < |b.passes| && b.passes[i].nonce == n;
        assert c.passes[i].nonce == n;
      }
      assert c.passes[|b.passes|] == p;
    }
  }

  lemma ValidateSound(b: Bank, k: nat, now: int)
    requires Sound(b) && Enabled(b, Validate(k, now))
    ensures Split3(Apply(b, Validate(k, now))) && PassedOnce(Apply(b, Validate(k, now)))
      && Backed(Apply(b, Validate(k, now)))
  {
    var nonce := b.phase[k].nonce;
    if Good(b.nonces, nonce, now) { GoodPasses(b, k, now); } else { SameConsumed(b, Apply(b, Validate(k, now))); }
  }

  /** A nonce that passes was outstanding: no earlier pass, no handler and no 200 has it. */
  lemma Unused(b: Bank, nonce: string)
    requires Sound(b) && nonce in b.nonces
    ensures !Consumed(b, nonce) && nonce in b.issued && nonce !in b.oks && nonce !in b.expired
    ensures forall i :: 0 <= i < |b.passes| ==> b.passes[i].nonce != nonce
    ensures forall k :: k in b.phase && b.phase[k].Passed? ==> b.phase[k].nonce != nonce
  {}

  lemma GoodPasses(b: Bank, k: nat, now: int)
    requires Sound(b) && Enabled(b, Validate(k, now)) && Good(b.nonces, b.phase[k].nonce, now)
    ensures Split3(Apply(b, Validate(k, now))) && PassedOnce(Apply(b, Validate(k, now)))
      && Backed(Apply(b, Validate(k, now)))
  {
    var nonce := b.phase[k].nonce;
    var b' := b.(nonces := b.nonces - {nonce}, phase := b.phase[k := Passed(nonce)],
                 passes := b.passes + [Pass(nonce, now)]);
    assert Apply(b, Validate(k, now)) == b';
    Unused(b, nonce);
    PassConsumes(b, b', Pass(nonce, now));
    PassSplits(b, b', nonce);
    PassBacks(b, b', k, nonce);
  }

  lemma PassSplits(b: Bank, b': Bank, nonce: string)
    requires Split3(b) && nonce in b.nonces && (forall n :: Consumed(b', n) <==> Consumed(b, n) || n == nonce)
    requires b'.nonces == b.nonces - {nonce} && b'.issued == b.issued && b'.expired == b.expired
    ensures Split3(b')
  {}

  lemma PassBacks(b: Bank, b': Bank, k: nat, nonce: string)
    requires Backed(b) && nonce !in b.oks
    requires forall l :: l in b.phase && b.phase[l].Passed? ==> b.phase[l].nonce != nonce
    requires forall n :: Consumed(b', n) <==> Consumed(b, n) || n == nonce
    requires b'.oks == b.oks && b'.phase == b.phase[k := Passed(nonce)]
    ensures Backed(b')
  {}

  lemma SameConsumed(b: Bank, c: Bank)
    requires b.passes == c.passes
    ensures forall n :: Consumed(b, n) == Consumed(c, n)
  {}

  // Arrivals and verdicts leave the nonces alone.

  lemma VerdictSound(b: Bank, e: Event)
    requires Sound(b) && Enabled(b, e) && e.Verdict?
    ensures Split3(Apply(b, e)) && PassedOnce(Apply(b, e)) && Backed(Apply(b, e))
  {
    SameConsumed(b, Apply(b, e));
    if e.matches { VerdictBacked(b, e.k); }
  }

  lemma VerdictBacked(b: Bank, k: nat)
    requires Backed(b) && k in b.phase && b.phase[k].Passed?
    ensures Backed(b.(phase := b.phase[k := Answered(200)], oks := b.oks + [b.phase[k].nonce]))
  {
    var b' := b.(phase := b.phase[k := Answered(200)], oks := b.oks + [b.phase[k].nonce]);
    SameConsumed(b, b');
    forall i | 0 <= i < |b'.oks| ensures Consumed(b', b'.oks[i]) { assert i < |b.oks| ==> Consumed(b, b.oks[i]); }
    forall l | l in b'.phase && b'.phase[l].Passed? ensures b'.phase[l].nonce !in b'.oks {
      assert l != k && b.phase[l].nonce !in b.oks && b.phase[l].nonce != b.phase[k].nonce;
    }
  }

  lemma ArriveSound(b: Bank, e: Event)
    requires Sound(b) && Enabled(b, e) && !e.Validate? && !e.Refuse? && !e.Verdict?
    ensures Split3(Apply(b, e)) && PassedOnce(Apply(b, e)) && Backed(Apply(b, e))
  {
    SameConsumed(b, Apply(b, e));
  }

  lemma RefuseSound(b: Bank, e: Event)
    requires Sound(b) && Enabled(b, e) && e.Refuse?
    ensures Split3(Apply(b, e)) && PassedOnce(Apply(b, e)) && Backed(Apply(b, e))
  {}

  lemma StepSound(b: Bank, e: Event)
    requires Sound(b)
    ensures Sound(Apply(b, e))
  {
    if Enabled(b, e) {
      OkaysStep(b, e);
      if e.Validate? { ValidateSound(b, e.k, e.now); }
      else if e.Refuse? { RefuseSound(b, e); }
      else if e.Verdict? { VerdictSound(b, e); }
      else { ArriveSound(b, e); }
    }
  }

  lemma {:induction false} RunSound(es: seq<Event>)
    ensures Sound(Exec(es))
    decreases |es|
  {
    if es != [] {
      RunSound(es[..|es| - 1]);
      StepSound(Exec(es[..|es| - 1]), es[|es| - 1]);
    }
  }

  /** In every interleaving issued nonces are exactly the consumed, the expired and the
      outstanding ones, each in one class; a nonce passes at most once, and no later than five
      minutes after its issue. */
  lemma NonceAccounting(es: seq<Event>)
    ensures Split3(Exec(es)) && PassedOnce(Exec(es))
  {
    RunSound(es);
  }

  lemma {:induction false} DistinctCount(ns: seq<string>, s: set<string>)
    requires Distinct(ns) && forall i :: 0 <= i < |ns| ==> ns[i] in s
    ensures |ns| <= |s|
  {
    if ns != [] { DistinctCount(ns[1..], s - {ns[0]}); }
  }

  /** The 200 answers are at most as many as the nonces that passed, and those at most as many
      as the issued ones. */
  lemma AnswersBounded(es: seq<Event>)
    ensures var b := Exec(es); |Okays(b)| <= |b.passes| <= |b.issued|
  {
    RunSound(es);
    var b := Exec(es);
    var ns := seq(|b.passes|, i requires 0 <= i < |b.passes| => b.passes[i].nonce);
    DistinctCount(ns, b.issued.Keys);
    var passed := set n | n in ns;
    forall i | 0 <= i < |b.oks| ensures b.oks[i] in passed {
      assert Consumed(b, b.oks[i]);
      var j :| 0 <= j < |b.passes| && b.passes[j].nonce == b.oks[i];
      assert ns[j] == b.oks[i];
    }
    DistinctCount(b.oks, passed);
    ElementsBounded(ns);
  }

  lemma {:induction false} ElementsBounded(ns: seq<string>)
    ensures |set n | n in ns| <= |ns|
  {
    if ns != [] {
      ElementsBounded(ns[1..]);
      assert (set n | n in ns) == (set n | n in ns[1..]) + {ns[0]};
    }
  }

  /** The events of one REGISTER handled without interruption. */
  function Alone(
    req: SIPRequest, k: nat, nonces: Store, users: map<string, string>, digest: Digest,
    spare: string, now: int): seq<Event>
  {
    if req.authorization == map[] then [ArriveBare(k), Refuse(k, spare, now)]
    else if Malformed(req) then [ArriveBroken(k)]
    else
      var nonce := req.authorization["nonce"];
      Presenting(k, nonce, Good(nonces, nonce, now), Accepted(req, nonces, users, digest, now), spare, now)
  }

  function Presenting(k: nat, nonce: string, good: bool, accepted: bool, spare: string, now: int): seq<Event> {
    [Arrive(k, nonce), Validate(k, now)]
    + (if good then [Verdict(k, accepted)] else []) + if accepted then [] else [Refuse(k, spare, now)]
  }

  function After(b: Bank, es: seq<Event>): Bank
    decreases |es|
  {
    if es == [] then b else After(Apply(b, es[0]), es[1..])
  }

  /** The handler, run alone, is a run of the interleaving machine: same store, and 200 exactly
      when the REGISTER is accepted. */
  lemma HandlerIsARun(
      b: Bank, req: SIPRequest, k: nat, users: map<string, string>, digest: Digest, spare: string, now: int)
    requires k !in b.phase && spare !in b.issued
    ensures var b' := After(b, Alone(req, k, b.nonces, users, digest, spare, now));
      && b'.nonces == StoreAfter(req, b.nonces, users, digest, spare, now)
      && var status := if Malformed(req) then 400 else if Accepted(req, b.nonces, users, digest, now) then 200 else 401;
         b'.phase == b.phase[k := Answered(status)]
  {
    assert "username" in DIGEST_KEYS;
    AfterFew(b, ArriveBare(k), Refuse(k, spare, now));
    if req.authorization != map[] && !Malformed(req) {
      var nonce := req.authorization["nonce"];
      PresentedRun(b, k, nonce, Accepted(req, b.nonces, users, digest, now), spare, now);
    }
  }

  /** A REGISTER that presents a nonce: it is used up, and refusal costs a fresh one. */
  lemma PresentedRun(b: Bank, k: nat, nonce: string, accepted: bool, spare: string, now: int)
    requires k !in b.phase && spare !in b.issued && (accepted ==> Good(b.nonces, nonce, now))
    ensures var b' := After(b, Presenting(k, nonce, Good(b.nonces, nonce, now), accepted, spare, now));
      && b'.nonces == (if accepted then b.nonces - {nonce} else Issued(b.nonces - {nonce}, spare, now))
      && b'.phase == b.phase[k := Answered(if accepted then 200 else 401)]
  {
    var e1, e2, e3, e4 := Arrive(k, nonce), Validate(k, now), Verdict(k, accepted), Refuse(k, spare, now);
    PresentingList(k, nonce, Good(b.nonces, nonce, now), accepted, spare, now);
    if !Good(b.nonces, nonce, now) {
      AfterThree(b, e1, e2, e4);
    } else if accepted {
      AfterThree(b, e1, e2, e3);
    } else {
      AfterFour(b, e1, e2, e3, e4);
      GoodRefused(b, k, nonce, spare, now);
    }
  }

  /** A good nonce whose user or digest is wrong. */
  lemma GoodRefused(b: Bank, k: nat, nonce: string, spare: string, now: int)
    requires k !in b.phase && spare !in b.issued && Good(b.nonces, nonce, now)
    ensures var b3 := Apply(Apply(Apply(b, Arrive(k, nonce)), Validate(k, now)), Verdict(k, false));
      var b' := Apply(b3, Refuse(k, spare, now));
      b'.nonces == Issued(b.nonces - {nonce}, spare, now) && b'.phase == b.phase[k := Answered(401)]
  {}

  lemma PresentingList(k: nat, nonce: string, good: bool, accepted: bool, spare: string, now: int)
    requires accepted ==> good
    ensures Presenting(k, nonce, good, accepted, spare, now) ==
      if accepted then [Arrive(k, nonce), Validate(k, now), Verdict(k, accepted)]
      else if good then [Arrive(k, nonce), Validate(k, now), Verdict(k, accepted), Refuse(k, spare, now)]
      else [Arrive(k, nonce), Validate(k, now), Refuse(k, spare, now)]
  {}

  lemma AfterThree(b: Bank, e: Event, f: Event, g: Event)
    ensures After(b, [e, f, g]) == Apply(Apply(Apply(b, e), f), g)
  {
    AfterFirst(b, e, [f, g]);
    AfterFew(Apply(b, e), f, g);
    assert [e] + [f, g] == [e, f, g];
  }

  lemma AfterFour(b: Bank, e: Event, f: Event, g: Event, h: Event)
    ensures After(b, [e, f, g, h]) == Apply(Apply(Apply(Apply(b, e), f), g), h)
  {
    AfterFirst(b, e, [f, g, h]);
    AfterThree(Apply(b, e), f, g, h);
    assert [e] + [f, g, h] == [e, f, g, h];
  }

  lemma AfterFirst(b: Bank, e: Event, es: seq<Event>)
    ensures After(b, [e] + es) == After(Apply(b, e), es)
  {}

  lemma AfterFew(b: Bank, e: Event, f: Event)
    ensures After(b, [e]) == Apply(b, e) && After(b, [e, f]) == Apply(Apply(b, e), f)
  {
    AfterFirst(b, e, []);
    AfterFirst(b, e, [f]);
    AfterFirst(Apply(b, e), f, []);
    assert [e] + [] == [e] && [e] + [f] == [e, f] && [f] + [] == [f];
  }
}
