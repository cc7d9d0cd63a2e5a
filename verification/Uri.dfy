/** SIP URIs: printing, parsing and the round trip. */
module Uri {
  import opened Wrappers
  import opened Text
  import opened Params
  import Message

  datatype SIPURI = SIPURI(scheme: string, user: string, host: string, port: string, params: map<string, string>)

  function UserPart(u: SIPURI): string { if u.user == "" then "" else u.user + "@" }

  function PortPart(u: SIPURI): string { if u.port == "" then "" else ":" + u.port }

  function PrintUri(u: SIPURI, order: seq<string>): string
    requires forall k :: k in order ==> k in u.params
  {
    u.scheme + ":" + (UserPart(u) + u.host + PortPart(u) + PrintParams(u.params, order))
  }

  /** `SIPURI.String`: the parameters come in whatever order the map yields them. */
  method UriString(u: SIPURI) returns (text: string)
    ensures exists order :: Message.IsOrder(order, u.params.Keys) && text == PrintUri(u, order)
  {
    ghost var order;
    text, order := WriteParams(u.params);
    text := u.scheme + ":" + (UserPart(u) + u.host + PortPart(u) + text);
    assert text == PrintUri(u, order);
  }

  method WriteParams(params: map<string, string>) returns (text: string, ghost order: seq<string>)
    ensures Message.IsOrder(order, params.Keys) && text == PrintParams(params, order)
  {
    text := "";
    order := [];
    var keys := params.Keys;
    while keys != {}
      invariant keys <= params.Keys && Message.IsOrder(order, params.Keys - keys)
      invariant text == PrintParams(params, order)
      decreases keys
    {
      var k :| k in keys;
      PrintParamsSnoc(params, order, k);
      text := text + (";" + ParamText(k, params[k]));
      order := order + [k];
      keys := keys - {k};
    }
  }

  function HostFrom(main: string): (string, string, string) {
    var at := SplitN(main, "@", 2);
    var hostPort := SplitN(at[|at| - 1], ":", 2);
    (if |at| == 2 then at[0] else "", hostPort[0], if |hostPort| == 2 then hostPort[1] else "")
  }

  function UriFrom(scheme: string, pieces: seq<string>): Result<SIPURI>
    requires pieces != []
  {
    var (user, host, port) := HostFrom(pieces[0]);
    if host == "" then Failure("host is missing")
    else Success(SIPURI(scheme, user, host, port, PutParams(map[], pieces[1..])))
  }

  function ParsedUri(text: string): Result<SIPURI> {
    var parts := SplitN(TrimAngles(text), ":", 2);
    if |parts| != 2 then Failure("missing scheme") else UriFrom(parts[0], Split(parts[1], ";"))
  }

  /** Text without a scheme is refused. */
  lemma NoSchemeRefused(text: string)
    requires ':' !in text && NoAngle(text)
    ensures ParsedUri(text).Failure?
  {
    NoAngleFixed(text);
    SplitOne(text, ":");
  }

  /** So is a URI with nothing where the host should be: `sip:user@`, `sip:user@:5060`, `sip:user@;x=y`. */
  lemma NoHostRefused(scheme: string, user: string, rest: string)
    requires ':' !in scheme && '@' !in user && ';' !in user && '@' !in rest && scheme != ""
    requires NoAngle(scheme) && NoAngle(user) && NoAngle(rest) && (rest == "" || rest[0] == ':' || rest[0] == ';')
    ensures ParsedUri(scheme + ":" + (user + "@" + rest)).Failure?
  {
    var x := user + "@" + rest;
    NoAngleFixed(scheme + ":" + x);
    SplitCons(scheme, x, ":");
    HostlessRest(user, rest);
  }

  lemma NoAngleFixed(s: string)
    requires NoAngle(s)
    ensures TrimAngles(s) == s
  {
    if s != "" { assert s[0] in s && s[|s| - 1] in s; }
  }

  lemma HostlessRest(user: string, rest: string)
    requires '@' !in user && ';' !in user && (rest == "" || rest[0] == ':' || rest[0] == ';') && '@' !in rest
    ensures HostFrom(Split(user + "@" + rest, ";")[0]).1 == ""
  {
    var i := Index(rest, ";");
    IndexOfChar(rest, ';');
    if i < 0 {
      SplitOne(user + "@" + rest, ";");
      HostlessMain(user, rest);
    } else {
      FirstPiece(user, rest[..i], rest[i + 1..]);
      assert rest == rest[..i] + ";" + rest[i + 1..];
      HostlessMain(user, rest[..i]);
    }
  }

  lemma FirstPiece(user: string, main: string, more: string)
    requires ';' !in user && ';' !in main
    ensures Split(user + "@" + (main + ";" + more), ";")[0] == user + "@" + main
  {
    assert user + "@" + (main + ";" + more) == (user + "@" + main) + ";" + more;
    SplitCons(user + "@" + main, more, ";");
  }

  lemma HostlessMain(user: string, main: string)
    requires '@' !in user && (main == "" || main[0] == ':')
    ensures HostFrom(user + "@" + main).1 == ""
  {
    SplitCons(user, main, "@");
    NoHost(main);
  }

  lemma NoHost(main: string)
    requires main == "" || main[0] == ':'
    ensures SplitN(main, ":", 2)[0] == ""
  {
    if main != "" { assert ":" <= main && main[..0] == ""; }
  }

  method ParseSIPURI(text: string) returns (r: Result<SIPURI>)
    ensures r == ParsedUri(text)
  {
    var uri := TrimAngles(text);
    var schemeParts := SplitN(uri, ":", 2);
    if |schemeParts| != 2 { return Failure("missing scheme"); }
    var pieces := Split(schemeParts[1], ";");
    var params := ParseParams(pieces[1..]);
    var userHostPort := SplitN(pieces[0], "@", 2);
    var user, hostPortPart := "", userHostPort[0];
    if |userHostPort| == 2 { user, hostPortPart := userHostPort[0], userHostPort[1]; }
    var hostPort := SplitN(hostPortPart, ":", 2);
    var port := "";
    if |hostPort| == 2 { port := hostPort[1]; }
    if hostPort[0] == "" { return Failure("host is missing"); }
    r := Success(SIPURI(schemeParts[0], user, hostPort[0], port, params));
  }

  ghost predicate WellFormed(u: SIPURI) {
    && ':' !in u.scheme && NoAngle(u.scheme)
    && '@' !in u.user && Plain(u.user)
    && u.host != "" && ':' !in u.host && '@' !in u.host && Plain(u.host)
    && '@' !in u.port && Plain(u.port)
    && GoodParams(u.params)
  }

  lemma UserSplits(user: string, hp: string)
    requires '@' !in user && '@' !in hp
    ensures SplitN((if user == "" then "" else user + "@") + hp, "@", 2) == if user == "" then [hp] else [user, hp]
  {
    if user == "" {
      SplitOne(hp, "@");
      assert "" + hp == hp;
    } else {
      SplitCons(user, hp, "@");
    }
  }

  lemma PortSplits(host: string, port: string)
    requires ':' !in host
    ensures SplitN(host + (if port == "" then "" else ":" + port), ":", 2) ==
      if port == "" then [host] else [host, port]
  {
    if port == "" {
      SplitOne(host, ":");
      assert host + "" == host;
    } else {
      SplitCons(host, port, ":");
      assert host + (":" + port) == host + ":" + port;
    }
  }

  lemma MainGroups(u: SIPURI)
    ensures UserPart(u) + u.host + PortPart(u) == UserPart(u) + (u.host + PortPart(u))
  {}

  lemma MainParses(u: SIPURI)
    requires WellFormed(u)
    ensures HostFrom(UserPart(u) + u.host + PortPart(u)) == (u.user, u.host, u.port)
  {
    MainGroups(u);
    UserSplits(u.user, u.host + PortPart(u));
    PortSplits(u.host, u.port);
  }

  lemma AnglesTrimmed(s: string)
    requires s != "" && NoAngle(s)
    ensures TrimAngles(s) == s && TrimAngles("<" + s + ">") == s
  {
    assert s[0] in s && s[|s| - 1] in s;
    assert ("<" + s + ">")[1..] == s + ">";
    assert DropLeft("<" + s + ">", IsAngle) == DropLeft(s + ">", IsAngle) == s + ">";
    assert (s + ">")[..|s|] == s;
    assert DropRight(s + ">", IsAngle) == DropRight(s, IsAngle) == s;
  }

  /** Parsing undoes printing for every parameter order, bare or in angle brackets. */
  lemma UriRoundTrip(u: SIPURI, order: seq<string>)
    requires WellFormed(u) && Message.IsOrder(order, u.params.Keys)
    ensures ParsedUri(PrintUri(u, order)) == Success(u)
    ensures ParsedUri("<" + PrintUri(u, order) + ">") == Success(u)
  {
    var remaining := UserPart(u) + u.host + PortPart(u) + PrintParams(u.params, order);
    PrintedTrims(u, order);
    SplitCons(u.scheme, remaining, ":");
    RemainingSplits(u, order);
    UriFromPieces(u, order, Split(remaining, ";"));
  }

  lemma PrintedTrims(u: SIPURI, order: seq<string>)
    requires WellFormed(u) && Message.IsOrder(order, u.params.Keys)
    ensures var text := PrintUri(u, order);
      TrimAngles(text) == text && TrimAngles("<" + text + ">") == text
  {
    ParamTextsLack(u.params, order);
    AnglesTrimmed(PrintUri(u, order));
  }

  lemma UriFromPieces(u: SIPURI, order: seq<string>, pieces: seq<string>)
    requires WellFormed(u) && Message.IsOrder(order, u.params.Keys) && pieces != []
    requires pieces[0] == UserPart(u) + u.host + PortPart(u) && pieces[1..] == ParamTexts(u.params, order)
    ensures UriFrom(u.scheme, pieces) == Success(u)
  {
    MainParses(u);
    AllParams(u.params, order);
  }

  lemma AllParams(params: map<string, string>, order: seq<string>)
    requires GoodParams(params) && Message.IsOrder(order, params.Keys)
    ensures PutParams(map[], ParamTexts(params, order)) == params
  {
    ParamsParse(params, order, map[]);
    assert map[] + Named(params, order) == params;
  }

  lemma RemainingSplits(u: SIPURI, order: seq<string>)
    requires WellFormed(u) && Message.IsOrder(order, u.params.Keys)
    ensures var main := UserPart(u) + u.host + PortPart(u);
      var pieces := Split(main + PrintParams(u.params, order), ";");
      pieces[0] == main && pieces[1..] == ParamTexts(u.params, order)
  {
    var main := UserPart(u) + u.host + PortPart(u);
    var pieces := [main] + ParamTexts(u.params, order);
    ParamTextsLack(u.params, order);
    PrintParamsIsJoin(main, u.params, order);
    SplitJoin(pieces, ";");
  }
}
