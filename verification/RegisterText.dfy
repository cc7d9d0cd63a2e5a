/** What a REGISTER does to the bindings, said in terms of the text of its headers. */
module RegisterText {
  import opened Wrappers
  import opened Text
  import opened Message
  import opened Registrar

  // ----- the header text -----

  predicate PlainUri(uri: string) { ',' !in uri && ';' !in uri && '<' !in uri && '>' !in uri }

  ghost predicate AllPlain(uris: seq<string>) { forall i :: 0 <= i < |uris| ==> PlainUri(uris[i]) }

  function InBrackets(uri: string): string { "<" + uri + ">" }

  function Bracketed(uris: seq<string>): seq<string> {
    seq(|uris|, i requires 0 <= i < |uris| => InBrackets(uris[i]))
  }

  /** The bindings of the user after the REGISTER: its contacts expire `n` seconds from now, or are
      gone when `n` is not positive; all others are as before. */
  function After(m: Bindings, user: string, uris: seq<string>, n: int, now: int): Bindings {
    if n > 0 then m + map c | c in uris :: (user, c) := now + n
    else m - set c | c in uris :: (user, c)
  }

  lemma BracketsRead(uri: string, more: string)
    requires PlainUri(uri) && TrimSpace(InBrackets(uri) + more) == InBrackets(uri) + more
    ensures ContactOf(InBrackets(uri) + more) == Some(uri)
  {
    var text := InBrackets(uri) + more;
    assert text == "<" + uri + (">" + more) && text == ("<" + uri) + ">" + more;
    assert "<" <= text;
    IndexFound("<" + uri, more, ">");
    assert text[1..1 + |uri|] == uri;
  }

  lemma BracketsTrimmed(uri: string)
    ensures TrimSpace(InBrackets(uri)) == InBrackets(uri) && InBrackets(uri) + "" == InBrackets(uri)
  {
    TrimmedIsFixed(InBrackets(uri));
  }

  lemma OneReads(uri: string)
    requires PlainUri(uri)
    ensures ContactOf(InBrackets(uri)) == Some(uri) && ',' !in InBrackets(uri) && ';' !in InBrackets(uri)
  {
    BracketsTrimmed(uri);
    BracketsRead(uri, "");
  }

  /** The digest parameters name this user. */
  predicate Authenticated(req: SIPRequest, user: string) {
    "username" in req.authorization && req.authorization["username"] == user
  }

  // ----- the expiry -----

  lemma {:induction false} ListLacks(uris: seq<string>, c: char)
    requires uris != [] && c != ',' && forall i :: 0 <= i < |uris| ==> c !in uris[i]
    ensures c !in Join(uris, ",")
    decreases |uris|
  {
    if |uris| > 1 { ListLacks(uris[1..], c); }
  }

  /** Without parameters in Contact the Expires header decides, and 3600 without one. */
  lemma ExpiryByHeader(req: SIPRequest, uris: seq<string>, n: int)
    requires uris != [] && AllPlain(uris) && req.Header("Contact") == Join(Bracketed(uris), ",")
    requires req.Header("Expires") == Itoa(n) || (req.Header("Expires") == "" && n == 3600)
    ensures ExpiresOf(req) == n
  {
    var contact := req.Header("Contact");
    forall i | 0 <= i < |uris| ensures ';' !in Bracketed(uris)[i] { OneReads(uris[i]); }
    ListLacks(Bracketed(uris), ';');
    SplitOne(contact, ";");
    assert contact[0] == '<' by { assert contact[0] == Bracketed(uris)[0][0]; }
    assert ExpiresParam([contact]) == None;
    ItoaIsPlain(n);
    AtoiUndoesItoa(n);
  }

  const PARAM: string := "expires="

  /** A parameter of a single contact overrides the header. */
  lemma ExpiryByParam(req: SIPRequest, uri: string, n: int)
    requires PlainUri(uri) && req.Header("Contact") == InBrackets(uri) + (";" + (PARAM + Itoa(n)))
    ensures ExpiresOf(req) == n
  {
    var p := PARAM + Itoa(n);
    ParamPlain(n);
    OneReads(uri);
    ContactParts(InBrackets(uri), p);
    NoParamFirst(uri, p);
    ParamRead(n);
  }

  lemma ContactParts(head: string, p: string)
    requires ';' !in head && ';' !in p
    ensures Split(head + (";" + p), ";") == [head, p]
  {
    assert head + (";" + p) == head + ";" + p;
    SplitCons(head, p, ";");
    SplitOne(p, ";");
  }

  lemma NoParamFirst(uri: string, p: string)
    ensures ExpiresParam([InBrackets(uri), p]) == ExpiresParam([p])
  {
    assert InBrackets(uri)[0] == '<' && EXPIRES[0] == 'e';
    assert [InBrackets(uri), p][1..] == [p];
  }

  lemma ParamRead(n: int)
    ensures ExpiresParam([PARAM + Itoa(n)]) == Some(n)
  {
    var p := PARAM + Itoa(n);
    assert p[|PARAM|..] == Itoa(n);
    AtoiUndoesItoa(n);
  }

  lemma ParamPlain(n: int)
    ensures ';' !in PARAM + Itoa(n) && ',' !in PARAM + Itoa(n)
  {
    var p := PARAM;
    assert forall i :: 0 <= i < |p| ==> p[i] != ';' && p[i] != ',';
    ItoaIsPlain(n);
  }

  // ----- the bindings -----

  lemma {:induction false} PiecesMean(book: Book, user: string, uris: seq<string>, n: int, now: int)
    requires Tidy(book) && AllPlain(uris)
    ensures var book' := Exec(book, PieceCommands(user, Bracketed(uris), n, now));
      Tidy(book') && BindingsOf(book') == After(BindingsOf(book), user, uris, n, now)
    decreases |uris|
  {
    if uris == [] {
      assert Bracketed(uris) == [];
    } else {
      var k := |uris| - 1;
      PiecesMean(book, user, uris[..k], n, now);
      CommandsGrow(user, uris, n, now);
      var cs := PieceCommands(user, Bracketed(uris[..k]), n, now);
      ExecSnoc(book, cs, CommandFor(user, uris[k], n, now));
      CommandMeans(Exec(book, cs), user, uris[k], n, now);
      OneMoreContact(BindingsOf(book), user, uris, n, now);
    }
  }

  lemma CommandsGrow(user: string, uris: seq<string>, n: int, now: int)
    requires AllPlain(uris) && uris != []
    ensures var k := |uris| - 1;
      PieceCommands(user, Bracketed(uris), n, now) ==
        PieceCommands(user, Bracketed(uris[..k]), n, now) + [CommandFor(user, uris[k], n, now)]
  {
    var k := |uris| - 1;
    OneReads(uris[k]);
    BracketedFront(uris);
    BracketedReadable(uris);
  }

  lemma BracketedFront(uris: seq<string>)
    requires uris != []
    ensures var k := |uris| - 1;
      Bracketed(uris)[..k] == Bracketed(uris[..k]) && Bracketed(uris)[k] == InBrackets(uris[k])
  {}

  lemma CommandMeans(book: Book, user: string, uri: string, n: int, now: int)
    requires Tidy(book)
    ensures var book' := Perform(book, CommandFor(user, uri, n, now));
      && Tidy(book')
      && BindingsOf(book') ==
           if n > 0 then BindingsOf(book)[(user, uri) := now + n] else BindingsOf(book) - {(user, uri)}
  {
    var c := CommandFor(user, uri, n, now);
    PerformTidy(book, c);
    PerformRefines(book, c);
    if n > 0 { BindMeans(BindingsOf(book), user, uri, now + n); } else { UnbindMeans(BindingsOf(book), user, uri); }
  }

  lemma BindMeans(m: Bindings, user: string, uri: string, at: int)
    ensures Meant(m, Bind(user, uri, at)) == m[(user, uri) := at]
  {}

  lemma UnbindMeans(m: Bindings, user: string, uri: string)
    ensures Meant(m, Unbind(user, uri)) == m - {(user, uri)}
  {}

  lemma BracketedReadable(uris: seq<string>)
    requires AllPlain(uris)
    ensures AllReadable(Bracketed(uris))
  {
    forall i | 0 <= i < |uris| ensures ContactOf(Bracketed(uris)[i]).Some? { OneReads(uris[i]); }
  }

  lemma OneMoreContact(m: Bindings, user: string, uris: seq<string>, n: int, now: int)
    requires uris != []
    ensures var k := |uris| - 1;
      After(m, user, uris, n, now) ==
        if n > 0 then After(m, user, uris[..k], n, now)[(user, uris[k]) := now + n]
        else After(m, user, uris[..k], n, now) - {(user, uris[k])}
  {
    var k := |uris| - 1;
    assert forall c :: c in uris <==> c in uris[..k] || c == uris[k];
    if n > 0 {
      assert After(m, user, uris, n, now) == After(m, user, uris[..k], n, now)[(user, uris[k]) := now + n];
    } else {
      assert After(m, user, uris, n, now) == After(m, user, uris[..k], n, now) - {(user, uris[k])};
    }
  }

  /** A REGISTER with contacts in angle brackets binds each of them to the user for the seconds
      its Expires header names, 3600 without that header; with zero or a negative number it removes
      them. It touches no other binding, and does not stop the program. */
  lemma RegisterMeans(book: Book, req: SIPRequest, user: string, uris: seq<string>, n: int, now: int)
    requires Authenticated(req, user)
    requires Tidy(book) && uris != [] && AllPlain(uris) && req.Header("Contact") == Join(Bracketed(uris), ",")
    requires req.Header("Expires") == Itoa(n) || (req.Header("Expires") == "" && n == 3600)
    ensures Readable(req.Header("Contact"), ExpiresOf(req))
    ensures BindingsOf(Registered(book, req, now)) == After(BindingsOf(book), user, uris, n, now)
  {
    var contact := req.Header("Contact");
    ExpiryByHeader(req, uris, n);
    forall i | 0 <= i < |uris| ensures ',' !in Bracketed(uris)[i] { OneReads(uris[i]); }
    SplitJoin(Bracketed(uris), ",");
    assert contact[0] == '<' by { assert contact[0] == Bracketed(uris)[0][0]; }
    BracketedReadable(uris);
    PiecesMean(book, user, uris, n, now);
  }

  /** The same for a single contact with an `expires` parameter, whatever the Expires header says. */
  lemma RegisterWithParam(book: Book, req: SIPRequest, user: string, uri: string, n: int, now: int)
    requires Authenticated(req, user)
    requires Tidy(book) && PlainUri(uri) && req.Header("Contact") == InBrackets(uri) + (";" + (PARAM + Itoa(n)))
    ensures Readable(req.Header("Contact"), ExpiresOf(req))
    ensures BindingsOf(Registered(book, req, now)) == After(BindingsOf(book), user, [uri], n, now)
  {
    var contact := req.Header("Contact");
    ExpiryByParam(req, uri, n);
    ParamReads(uri, n);
    SplitOne(contact, ",");
    OnePieceMeans(book, user, contact, uri, n, now);
  }

  lemma ParamReads(uri: string, n: int)
    requires PlainUri(uri)
    ensures var contact := InBrackets(uri) + (";" + (PARAM + Itoa(n)));
      ContactOf(contact) == Some(uri) && ',' !in contact && contact[0] == '<'
  {
    var contact := InBrackets(uri) + (";" + (PARAM + Itoa(n)));
    ParamPlain(n);
    ItoaIsPlain(n);
    assert contact[|contact| - 1] == Itoa(n)[|Itoa(n)| - 1];
    TrimmedIsFixed(contact);
    BracketsRead(uri, ";" + (PARAM + Itoa(n)));
  }

  lemma OnePieceMeans(book: Book, user: string, piece: string, uri: string, n: int, now: int)
    requires Tidy(book) && ContactOf(piece) == Some(uri)
    ensures BindingsOf(Exec(book, PieceCommands(user, [piece], n, now))) == After(BindingsOf(book), user, [uri], n, now)
  {
    OneCommandFor(user, piece, uri, n, now);
    OneCommand(book, CommandFor(user, uri, n, now));
    CommandMeans(book, user, uri, n, now);
    assert [uri][..0] == [];
    OneMoreContact(BindingsOf(book), user, [uri], n, now);
    NoContact(BindingsOf(book), user, n, now);
  }

  lemma OneCommandFor(user: string, piece: string, uri: string, n: int, now: int)
    requires ContactOf(piece) == Some(uri)
    ensures PieceCommands(user, [piece], n, now) == [CommandFor(user, uri, n, now)]
  {
    assert [piece][..0] == [];
  }

  lemma NoContact(m: Bindings, user: string, n: int, now: int)
    ensures After(m, user, [], n, now) == m
  {}

  /** The wildcard with expiry zero removes exactly the user's bindings. */
  lemma RegisterClears(book: Book, req: SIPRequest, user: string, now: int)
    requires Authenticated(req, user)
    requires Tidy(book) && req.Header("Contact") == "*" && req.Header("Expires") == Itoa(0)
    ensures Readable(req.Header("Contact"), ExpiresOf(req))
    ensures var m := BindingsOf(book);
      BindingsOf(Registered(book, req, now)) == map k | k in m && k.0 != user :: m[k]
  {
    SplitOne("*", ";");
    assert ExpiresParam(["*"]) == None by { assert "*"[0] == '*' && EXPIRES[0] == 'e'; }
    AtoiUndoesItoa(0);
    ItoaIsPlain(0);
    OneCommand(book, Clear(user));
    PerformRefines(book, Clear(user));
  }
}
