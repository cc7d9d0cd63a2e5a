/** Digest authentication of REGISTERs over whole runs of the handler: which requests are accepted,
    in terms of the challenges sent before and the nonces presented since. */
module Challenges {
  import opened Wrappers
  import opened Text
  import opened Message
  import opened Nonces
  import Codec
  import RegisterText

  // ----- the challenge -----

  lemma UnquotedReads(h: map<string, string>, k: string, v: string)
    requires Codec.AuthKey(k) && k != "" && v != "" && Trimmed(v) && '"' !in v
    ensures Codec.PutAuthPart(h, " " + (k + "=" + v)) == h[k := v]
  {
    UnquotedTrimmed(k, v);
    SplitCons(k, v, "=");
    TrimmedIsFixed(k);
    TrimmedIsFixed(v);
    NoQuoteDropped(v);
  }

  lemma UnquotedTrimmed(k: string, v: string)
    requires Trimmed(k) && k != "" && v != "" && Trimmed(v)
    ensures TrimSpace(" " + (k + "=" + v)) == k + "=" + v
  {
    var part := k + "=" + v;
    assert part[0] == k[0] && part[|part| - 1] == v[|v| - 1];
    TrimmedIsFixed(part);
  }

  lemma NoQuoteDropped(v: string)
    requires '"' !in v
    ensures DropRight(DropLeft(v, Codec.IsQuote), Codec.IsQuote) == v
  {
    if v != "" { assert v[0] in v && v[|v| - 1] in v; }
  }

  predicate AuthText(s: string) { '"' !in s && ',' !in s }

  /** The parts of the challenge as key and value. */
  lemma PartsAre(realm: string, nonce: string)
    ensures var p := ChallengeParts(realm, nonce);
      && p[0] == "" + Codec.AuthPart("realm", realm) && p[1] == " " + Codec.AuthPart("nonce", nonce)
      && p[2] == " " + ("algorithm" + "=" + "MD5") && p[3] == " " + Codec.AuthPart("qop", "auth")
  {
    PartIs("", "realm", realm);
    PartIs(" ", "nonce", nonce);
    assert "" + "realm" + "=\"" == "realm=\"" && " " + "nonce" + "=\"" == " nonce=\"";
  }

  lemma PartIs(blank: string, k: string, v: string)
    ensures blank + Codec.AuthPart(k, v) == (blank + k + "=\"") + v + "\""
  {
    assert "=" + "\"" == "=\"";
  }

  lemma PartsLackComma(realm: string, nonce: string)
    requires AuthText(realm) && AuthText(nonce)
    ensures AllLack(ChallengeParts(realm, nonce), ',')
  {
    KeyWords();
    PartsAre(realm, nonce);
    Codec.AuthPartLacks("realm", realm, "");
    Codec.AuthPartLacks("nonce", nonce, " ");
    Codec.AuthPartLacks("qop", "auth", " ");
    var d := " algorithm=MD5";
    assert forall i :: 0 <= i < |d| ==> d[i] != ',';
  }

  lemma KeyWords()
    ensures Codec.AuthKey("realm") && Codec.AuthKey("nonce") && Codec.AuthKey("qop") && AuthText("auth")
    ensures Codec.AuthKey("algorithm") && Trimmed("MD5") && '"' !in "MD5"
  {
    var e, f := "algorithm", "MD5";
    assert forall i :: 0 <= i < |e| ==> e[i] in {'a', 'l', 'g', 'o', 'r', 'i', 't', 'h', 'm'};
    assert forall i :: 0 <= i < |f| ==> f[i] in {'M', 'D', '5'};
    var a, b, c, d := "realm", "nonce", "qop", "auth";
    assert forall i :: 0 <= i < |a| ==> a[i] in {'r', 'e', 'a', 'l', 'm'};
    assert forall i :: 0 <= i < |b| ==> b[i] in {'n', 'o', 'c', 'e'};
    assert forall i :: 0 <= i < |c| ==> c[i] in {'q', 'o', 'p'};
    assert forall i :: 0 <= i < |d| ==> d[i] in {'a', 'u', 't', 'h'};
  }

  /** A client reads out of the challenge exactly the realm and the nonce put into it. */
  lemma ChallengeReads(realm: string, nonce: string)
    requires AuthText(realm) && AuthText(nonce)
    ensures Codec.AuthPairs(Challenge(realm, nonce)) ==
      map["realm" := realm]["nonce" := nonce]["algorithm" := "MD5"]["qop" := "auth"]
  {
    var p := ChallengeParts(realm, nonce);
    Codec.BehindScheme(Join(p, ","));
    PartsLackComma(realm, nonce);
    SplitJoin(p, ",");
    FourParts(p);
    KeyWords();
    PartsAre(realm, nonce);
    var h1: map<string, string> := map["realm" := realm];
    var h2 := h1["nonce" := nonce];
    Codec.AuthPartReads(map[], "realm", realm, "");
    Codec.AuthPartReads(h1, "nonce", nonce, " ");
    UnquotedReads(h2, "algorithm", "MD5");
    var h3 := h2["algorithm" := "MD5"];
    Codec.AuthPartReads(h3, "qop", "auth", " ");
    assert Codec.PutAuthPart(map[], p[0]) == h1 && Codec.PutAuthPart(h1, p[1]) == h2;
    assert Codec.PutAuthPart(h2, p[2]) == h3 && Codec.PutAuthPart(h3, p[3]) == h3["qop" := "auth"];
    assert Split(Challenge(realm, nonce)[7..], ",") == p;
  }

  lemma FourParts(p: seq<string>)
    requires |p| == 4
    ensures Codec.PutAuthParts(map[], p) ==
      Codec.PutAuthPart(Codec.PutAuthPart(Codec.PutAuthPart(Codec.PutAuthPart(map[], p[0]), p[1]), p[2]), p[3])
  {
    var h1 := Codec.PutAuthPart(map[], p[0]);
    var h2 := Codec.PutAuthPart(h1, p[1]);
    var h3 := Codec.PutAuthPart(h2, p[2]);
    assert p[1..][1..] == p[2..] && p[2..][1..] == p[3..] && p[3..][1..] == [];
    assert Codec.PutAuthParts(h3, p[3..]) == Codec.PutAuthPart(h3, p[3]);
    assert Codec.PutAuthParts(h2, p[2..]) == Codec.PutAuthParts(h3, p[3..]);
    assert Codec.PutAuthParts(h1, p[1..]) == Codec.PutAuthParts(h2, p[2..]);
  }

  /** The 401 carries that challenge. */
  lemma RefusalSays(req: SIPRequest, realm: string, nonce: string)
    requires AuthText(realm) && AuthText(nonce)
    ensures var r := Unauthorized(req, realm, nonce);
      && r.status == 401
      && Codec.AuthPairs(r.Header("WWW-Authenticate")) ==
           map["realm" := realm]["nonce" := nonce]["algorithm" := "MD5"]["qop" := "auth"]
  {
    HandlerNames();
    ChallengeReads(realm, nonce);
  }

  /** The 200 repeats the contacts with the expiry that was granted. */
  lemma AcceptanceSays(req: SIPRequest, uris: seq<string>, n: int, date: string)
    requires uris != [] && RegisterText.AllPlain(uris)
    requires req.Header("Contact") == Join(RegisterText.Bracketed(uris), ",")
    requires req.Header("Expires") == Itoa(n) || (req.Header("Expires") == "" && n == 3600)
    ensures var r := Okay(req, date);
      && r.status == 200 && r.Header("Date") == date
      && r.Header("Contact") == Join(RegisterText.Bracketed(uris), ",") + ";expires=" + Itoa(n)
  {
    HandlerNames();
    RegisterText.ExpiryByHeader(req, uris, n);
    assert |"Date"| == 4 && |"Contact"| == 7;
  }

  // ----- runs of the handler -----

  /** One REGISTER, the nonce generated in case it is refused, and the time. */
  datatype Visit = Visit(req: SIPRequest, spare: string, now: int)

  /** The store before the visits go on. */
  function StoreOf(vs: seq<Visit>, users: map<string, string>, digest: Digest): Store
    decreases |vs|
  {
    if vs == [] then map[]
    else
      var v := vs[|vs| - 1];
      StoreAfter(v.req, StoreOf(vs[..|vs| - 1], users, digest), users, digest, v.spare, v.now)
  }

  predicate FreshSpares(vs: seq<Visit>) { forall i, j :: 0 <= i < j < |vs| ==> vs[i].spare != vs[j].spare }

  /** The REGISTER number `i` is answered 200, or stops the program on its contact. */
  predicate Passes(vs: seq<Visit>, users: map<string, string>, digest: Digest, i: nat)
    requires i < |vs|
  {
    Accepted(vs[i].req, StoreOf(vs[..i], users, digest), users, digest, vs[i].now)
  }

  predicate Presents(req: SIPRequest, nonce: string) {
    !Malformed(req) && req.authorization != map[] && req.authorization["nonce"] == nonce
  }

  /** The visit `k` was challenged with this nonce, and nobody has presented it since. */
  ghost predicate Outstanding(vs: seq<Visit>, users: map<string, string>, digest: Digest, k: nat, nonce: string) {
    && k < |vs| && vs[k].spare == nonce && !Malformed(vs[k].req) && !Passes(vs, users, digest, k)
    && forall i :: k < i < |vs| ==> !Presents(vs[i].req, nonce)
  }

  ghost predicate Holds(vs: seq<Visit>, users: map<string, string>, digest: Digest, nonces: Store) {
    && (forall n :: n in nonces ==>
          exists k: nat :: Outstanding(vs, users, digest, k, n) && nonces[n] == vs[k].now + 300)
    && (forall k: nat :: k < |vs| && Outstanding(vs, users, digest, k, vs[k].spare) ==> vs[k].spare in nonces)
  }

  lemma SamePasses(vs: seq<Visit>, users: map<string, string>, digest: Digest, i: nat)
    requires i < |vs| - 1
    ensures Passes(vs, users, digest, i) == Passes(vs[..|vs| - 1], users, digest, i)
  {
    assert vs[..|vs| - 1][..i] == vs[..i];
  }

  /** What is outstanding after one more visit. */
  lemma OutstandingNext(vs: seq<Visit>, users: map<string, string>, digest: Digest, k: nat, n: string)
    requires vs != []
    ensures var m := |vs| - 1;
      Outstanding(vs, users, digest, k, n) <==>
        || (k < m && Outstanding(vs[..m], users, digest, k, n) && !Presents(vs[m].req, n))
        || (k == m && vs[m].spare == n && !Malformed(vs[m].req) && !Passes(vs, users, digest, m))
  {
    if k < |vs| - 1 { SamePasses(vs, users, digest, k); }
  }

  /** The store holds exactly the outstanding nonces. */
  lemma {:induction false} StoreExactly(vs: seq<Visit>, users: map<string, string>, digest: Digest)
    requires FreshSpares(vs)
    ensures Holds(vs, users, digest, StoreOf(vs, users, digest))
    decreases |vs|
  {
    if vs != [] {
      StoreExactly(vs[..|vs| - 1], users, digest);
      HoldsNext(vs, users, digest, StoreOf(vs[..|vs| - 1], users, digest));
    }
  }

  lemma HoldsNext(vs: seq<Visit>, users: map<string, string>, digest: Digest, nonces: Store)
    requires vs != [] && FreshSpares(vs) && nonces == StoreOf(vs[..|vs| - 1], users, digest)
    requires Holds(vs[..|vs| - 1], users, digest, nonces)
    ensures Holds(vs, users, digest, StoreOf(vs, users, digest))
  {
    var nonces' := StoreOf(vs, users, digest);
    forall n | n in nonces'
      ensures exists k: nat :: Outstanding(vs, users, digest, k, n) && nonces'[n] == vs[k].now + 300
    {
      Origin(vs, users, digest, nonces, n);
    }
    forall k: nat | k < |vs| && Outstanding(vs, users, digest, k, vs[k].spare) ensures vs[k].spare in nonces' {
      Remains(vs, users, digest, nonces, k);
    }
  }

  lemma Remains(vs: seq<Visit>, users: map<string, string>, digest: Digest, nonces: Store, k: nat)
    requires vs != [] && nonces == StoreOf(vs[..|vs| - 1], users, digest)
    requires Holds(vs[..|vs| - 1], users, digest, nonces)
    requires k < |vs| && Outstanding(vs, users, digest, k, vs[k].spare)
    ensures vs[k].spare in StoreOf(vs, users, digest)
  {
    var m := |vs| - 1;
    OutstandingNext(vs, users, digest, k, vs[k].spare);
    if k < m { assert vs[..m][k] == vs[k]; }
  }

  lemma Origin(vs: seq<Visit>, users: map<string, string>, digest: Digest, nonces: Store, n: string)
    requires vs != [] && FreshSpares(vs) && nonces == StoreOf(vs[..|vs| - 1], users, digest)
    requires Holds(vs[..|vs| - 1], users, digest, nonces) && n in StoreOf(vs, users, digest)
    ensures exists k: nat :: Outstanding(vs, users, digest, k, n) && StoreOf(vs, users, digest)[n] == vs[k].now + 300
  {
    var m := |vs| - 1;
    var v := vs[m];
    if !Malformed(v.req) && !Passes(vs, users, digest, m) && n == v.spare {
      OutstandingNext(vs, users, digest, m, n);
    } else {
      assert n in nonces && StoreOf(vs, users, digest)[n] == nonces[n] && !Presents(v.req, n);
      var k: nat :| Outstanding(vs[..m], users, digest, k, n) && nonces[n] == vs[..m][k].now + 300;
      OutstandingNext(vs, users, digest, k, n);
    }
  }

  /** Over every run of the handler: a REGISTER passes if and only if it carries the four digest
      parameters, names a known user, answers with the digest of that user's password, and presents a
      nonce that some earlier REGISTER was challenged with, at most five minutes ago, and that nobody
      has presented since. */
  lemma PassesExactly(vs: seq<Visit>, users: map<string, string>, digest: Digest, i: nat)
    requires FreshSpares(vs) && i < |vs|
    ensures Passes(vs, users, digest, i) <==>
      var auth := vs[i].req.authorization;
      && "username" in auth && "nonce" in auth && "uri" in auth && "response" in auth
      && auth["username"] in users
      && auth["response"] == digest(users[auth["username"]], vs[i].req.verb, auth["uri"], auth["nonce"])
      && exists k: nat :: Outstanding(vs[..i], users, digest, k, auth["nonce"]) && vs[i].now <= vs[k].now + 300
  {
    StoreExactly(vs[..i], users, digest);
    var auth, nonces := vs[i].req.authorization, StoreOf(vs[..i], users, digest);
    KeysIn(auth);
    if "nonce" in auth { InTime(vs[..i], users, digest, nonces, auth["nonce"], vs[i].now); }
  }

  lemma KeysIn(auth: map<string, string>)
    ensures DIGEST_KEYS <= auth.Keys <==> "username" in auth && "nonce" in auth && "uri" in auth && "response" in auth
  {}

  lemma InTime(vs: seq<Visit>, users: map<string, string>, digest: Digest, nonces: Store, n: string, now: int)
    requires FreshSpares(vs) && Holds(vs, users, digest, nonces)
    ensures Good(nonces, n, now) <==> exists k: nat :: Outstanding(vs, users, digest, k, n) && now <= vs[k].now + 300
  {
    if k: nat :| Outstanding(vs, users, digest, k, n) && now <= vs[k].now + 300 {
      assert n in nonces;
      var l: nat :| Outstanding(vs, users, digest, l, n) && nonces[n] == vs[l].now + 300;
      assert l == k;
    }
  }

  /** So no two REGISTERs pass with the same nonce. */
  lemma NoReplay(vs: seq<Visit>, users: map<string, string>, digest: Digest, i: nat, j: nat)
    requires FreshSpares(vs) && i < j < |vs| && Passes(vs, users, digest, i) && Passes(vs, users, digest, j)
    ensures vs[i].req.authorization["nonce"] != vs[j].req.authorization["nonce"]
  {
    PassesExactly(vs, users, digest, i);
    PassesExactly(vs, users, digest, j);
    var n := vs[i].req.authorization["nonce"];
    assert Presents(vs[i].req, n) by { assert DIGEST_KEYS <= vs[i].req.authorization.Keys; }
    Spent(vs, users, digest, i, j, n);
  }

  /** A nonce that was outstanding before it was presented is not outstanding afterwards. */
  lemma Spent(vs: seq<Visit>, users: map<string, string>, digest: Digest, i: nat, j: nat, n: string)
    requires FreshSpares(vs) && i < j < |vs| && Presents(vs[i].req, n)
    requires exists k: nat :: Outstanding(vs[..i], users, digest, k, n)
    ensures !exists l: nat :: Outstanding(vs[..j], users, digest, l, n)
  {
    var k: nat :| Outstanding(vs[..i], users, digest, k, n);
    assert vs[..i][k] == vs[k] && vs[..j][i] == vs[i];
  }
}
