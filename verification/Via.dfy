/** Via header values: quote-aware splitting, parsing, and removing the top entry. */
module Vias {
  import opened Wrappers
  import opened Text
  import opened Params
  import opened Message

  datatype Via = Via(proto: string, host: string, port: string, params: map<string, string>)
  {
    function Branch(): string { if "branch" in params then params["branch"] else "" }
  }

  // ----- splitting at commas outside double quotes -----

  /** Puts more text in front of the first piece. */
  function Glue(p: string, pieces: seq<string>): (r: seq<string>)
    requires pieces != []
    ensures r != []
  {
    [p + pieces[0]] + pieces[1..]
  }

  function Flip(c: char, quoted: bool): bool { quoted != (c == '"') }

  function SplitQuoted(s: string, quoted: bool): (pieces: seq<string>)
    ensures pieces != []
    decreases s
  {
    if s == "" then [""]
    else if s[0] == ',' && !quoted then [""] + SplitQuoted(s[1..], false)
    else Glue([s[0]], SplitQuoted(s[1..], Flip(s[0], quoted)))
  }

  /** The pieces still to come when the open piece starts at `start` and `i` is read next. */
  function Pending(s: string, start: nat, i: nat, quoted: bool): seq<string>
    requires start <= i <= |s|
  {
    Glue(s[start..i], SplitQuoted(s[i..], quoted))
  }

  method SplitByCommaOutsideQuotes(s: string) returns (result: seq<string>)
    ensures result == SplitQuoted(s, false)
  {
    result := [];
    var start, inQuotes := 0, false;
    PendingAtStart(s);
    for i := 0 to |s|
      invariant start <= i
      invariant SplitQuoted(s, false) == result + Pending(s, start, i, inQuotes)
    {
      PendingStep(s, start, i, inQuotes);
      if s[i] == '"' {
        inQuotes := !inQuotes;
      } else if s[i] == ',' && !inQuotes {
        AppendOne(result, s[start..i], Pending(s, i + 1, i + 1, false));
        result := result + [s[start..i]];
        start := i + 1;
      }
    }
    PendingAtEnd(s, start, inQuotes);
    result := result + [s[start..]];
  }

  lemma AppendOne(done: seq<string>, p: string, rest: seq<string>)
    ensures done + ([p] + rest) == (done + [p]) + rest
  {}

  lemma PendingAtStart(s: string)
    ensures Pending(s, 0, 0, false) == SplitQuoted(s, false)
  {
    assert s[0..0] == "" && s[0..] == s && "" + SplitQuoted(s, false)[0] == SplitQuoted(s, false)[0];
  }

  lemma PendingAtEnd(s: string, start: nat, quoted: bool)
    requires start <= |s|
    ensures Pending(s, start, |s|, quoted) == [s[start..]]
  {
    assert s[|s|..] == "" && s[start..|s|] + "" == s[start..];
  }

  lemma PendingStep(s: string, start: nat, i: nat, quoted: bool)
    requires start <= i < |s|
    ensures Pending(s, start, i, quoted) ==
      if s[i] == ',' && !quoted then [s[start..i]] + Pending(s, i + 1, i + 1, false)
      else Pending(s, start, i + 1, Flip(s[i], quoted))
  {
    var rest, next := s[i..], s[i + 1..];
    assert rest[0] == s[i] && rest[1..] == next;
    if s[i] == ',' && !quoted {
      var pieces := SplitQuoted(next, false);
      assert s[i + 1..i + 1] == "" && "" + pieces[0] == pieces[0] && s[start..i] + "" == s[start..i];
      assert ([""] + pieces)[1..] == pieces;
    } else {
      var pieces := SplitQuoted(next, Flip(s[i], quoted));
      assert s[start..i] + ([s[i]] + pieces[0]) == s[start..i + 1] + pieces[0];
    }
  }

  /** The quote state after reading `p`. */
  predicate QuoteAfter(p: string, quoted: bool)
    decreases p
  {
    if p == "" then quoted else QuoteAfter(p[1..], Flip(p[0], quoted))
  }

  predicate NoBareComma(p: string, quoted: bool)
    decreases p
  {
    p == "" || ((p[0] != ',' || quoted) && NoBareComma(p[1..], Flip(p[0], quoted)))
  }

  /** What a list of pieces must satisfy: commas only inside quotes, and quotes closed in
      every piece but the last. */
  predicate Balanced(pieces: seq<string>, quoted: bool)
    decreases |pieces|
  {
    pieces != [] && NoBareComma(pieces[0], quoted)
    && (|pieces| > 1 ==> !QuoteAfter(pieces[0], quoted) && Balanced(pieces[1..], false))
  }

  /** Joining the pieces gives the text back, and the pieces are balanced. */
  lemma {:induction false} SplitThenJoin(s: string, quoted: bool)
    ensures Join(SplitQuoted(s, quoted), ",") == s && Balanced(SplitQuoted(s, quoted), quoted)
    decreases s
  {
    if s != "" {
      if s[0] == ',' && !quoted {
        var rest := SplitQuoted(s[1..], false);
        SplitThenJoin(s[1..], false);
        assert ([""] + rest)[1..] == rest;
        assert "" + "," + s[1..] == s;
      } else {
        SplitThenJoin(s[1..], Flip(s[0], quoted));
        GlueJoin(s[0], SplitQuoted(s[1..], Flip(s[0], quoted)), quoted);
        assert [s[0]] + s[1..] == s;
      }
    }
  }

  lemma GlueJoin(c: char, rest: seq<string>, quoted: bool)
    requires Balanced(rest, Flip(c, quoted)) && (c != ',' || quoted)
    ensures Join(Glue([c], rest), ",") == [c] + Join(rest, ",") && Balanced(Glue([c], rest), quoted)
  {}

  /** Splitting the join of balanced pieces returns exactly those pieces. */
  lemma {:induction false} JoinThenSplit(pieces: seq<string>, quoted: bool)
    requires Balanced(pieces, quoted)
    ensures SplitQuoted(Join(pieces, ","), quoted) == pieces
    decreases |pieces|
  {
    if |pieces| == 1 {
      PieceAlone(pieces[0], quoted);
    } else {
      PieceThenComma(pieces[0], Join(pieces[1..], ","), quoted);
      JoinThenSplit(pieces[1..], false);
    }
  }

  lemma {:induction false} PieceAlone(p: string, quoted: bool)
    requires NoBareComma(p, quoted)
    ensures SplitQuoted(p, quoted) == [p]
    decreases p
  {
    if p != "" {
      PieceAlone(p[1..], Flip(p[0], quoted));
      assert [p[0]] + p[1..] == p;
    }
  }

  lemma {:induction false} PieceThenComma(p: string, x: string, quoted: bool)
    requires NoBareComma(p, quoted) && !QuoteAfter(p, quoted)
    ensures SplitQuoted(p + "," + x, quoted) == [p] + SplitQuoted(x, false)
    decreases p
  {
    var s := p + "," + x;
    if p == "" {
      assert s == "," + x && s[1..] == x;
    } else {
      PieceThenComma(p[1..], x, Flip(p[0], quoted));
      assert s[1..] == p[1..] + "," + x;
      assert [p[0]] + p[1..] == p;
    }
  }

  // ----- parsing one value -----

  function ViaFrom(sentBy: seq<string>, params: map<string, string>): Result<Via> {
    if |sentBy| != 2 then Failure("malformed sent-by")
    else
      var hostPort := SplitN(sentBy[1], ":", 2);
      Success(Via(sentBy[0], hostPort[0], if |hostPort| == 2 then hostPort[1] else "", params))
  }

  function ParsedVia(value: string): Result<Via> {
    var parts := Split(value, ";");
    ViaFrom(Fields(parts[0]), PutParams(map[], parts[1..]))
  }

  method ParseVia(value: string) returns (r: Result<Via>)
    ensures r == ParsedVia(value)
  {
    var parts := Split(value, ";");
    var sentBy := Fields(parts[0]);
    if |sentBy| != 2 { return Failure("malformed sent-by"); }
    var hostPort := SplitN(sentBy[1], ":", 2);
    var port := "";
    if |hostPort| == 2 { port := hostPort[1]; }
    var params := ParseParams(parts[1..]);
    r := Success(Via(sentBy[0], hostPort[0], port, params));
  }

  // ----- requests: the top entry and the whole list -----

  function RequestTopVia(req: SIPRequest): Result<Via> {
    var h := req.Header("Via");
    if h == "" then Failure("no Via header") else ParsedVia(TrimSpace(SplitQuoted(h, false)[0]))
  }

  /** The branch a server transaction is created under; an empty one is refused. */
  function BranchFor(req: SIPRequest): Option<string> {
    match RequestTopVia(req)
    case Failure(_) => None
    case Success(via) => if via.Branch() == "" then None else Some(via.Branch())
  }

  /** The entries parsed so far and whether every non-empty one parsed. */
  datatype ViaList = ViaList(vias: seq<Via>, ok: bool)

  function ViasOf(values: seq<string>): ViaList {
    if values == [] then ViaList([], true)
    else
      var v := TrimSpace(values[0]);
      if v == "" then ViasOf(values[1..])
      else match ParsedVia(v)
        case Failure(_) => ViaList([], false)
        case Success(via) => var rest := ViasOf(values[1..]); ViaList([via] + rest.vias, rest.ok)
  }

  function AllViasOf(req: SIPRequest): ViaList {
    var h := req.Header("Via");
    if h == "" then ViaList([], true) else ViasOf(SplitQuoted(h, false))
  }

  function AfterVias(vias: seq<Via>, rest: ViaList): ViaList { ViaList(vias + rest.vias, rest.ok) }

  method AllVias(req: SIPRequest) returns (vias: seq<Via>, ok: bool)
    ensures ViaList(vias, ok) == AllViasOf(req)
  {
    vias := [];
    if req.Header("Via") == "" { return [], true; }
    var values := SplitByCommaOutsideQuotes(req.Header("Via"));
    vias, ok := ParseAll(values);
  }

  method ParseAll(values: seq<string>) returns (vias: seq<Via>, ok: bool)
    ensures ViaList(vias, ok) == ViasOf(values)
  {
    vias := [];
    for i := 0 to |values|
      invariant ViasOf(values) == AfterVias(vias, ViasOf(values[i..]))
    {
      var rest := values[i..];
      assert rest[0] == values[i] && rest[1..] == values[i + 1..];
      var value := TrimSpace(values[i]);
      if value != "" {
        var via := ParseVia(value);
        if via.Failure? { return vias, false; }
        OneMore(vias, via.value, ViasOf(values[i + 1..]));
        vias := vias + [via.value];
      }
    }
    ok := true;
  }

  lemma OneMore(vias: seq<Via>, via: Via, rest: ViaList)
    ensures AfterVias(vias, ViaList([via] + rest.vias, rest.ok)) == AfterVias(vias + [via], rest)
  {}

  // ----- responses: the top entry and its removal -----

  function TopVia(h: string): Result<Via> {
    if h == "" then Failure("no Via header")
    else
      var i := Index(h, ",");
      ParsedVia(if i != -1 then TrimSpace(h[..i]) else h)
  }

  /** The Via value left once the top entry is gone; empty when it was the only one. */
  function PoppedVia(h: string): string {
    var i := Index(h, ",");
    if i != -1 then TrimSpace(h[i + 1..]) else ""
  }

  /** The headers after the top entry is popped. */
  function AfterPop(h: Headers): Headers {
    var via := Lookup(h, "Via");
    if via == "" then h
    else if Index(via, ",") == -1 then h - {"Via"}
    else h["Via" := PoppedVia(via)]
  }

  lemma PopLeaves(h: Headers)
    ensures Lookup(AfterPop(h), "Via") == PoppedVia(Lookup(h, "Via"))
  {
    KnownNames();
    assert Index("", ",") == -1;
  }

  /** A response whose header map `PopVia` edits in place. */
  class Response {
    var headers: Headers

    constructor (h: Headers)
      ensures headers == h
    {
      headers := h;
    }

    method PopVia()
      modifies this
      ensures headers == AfterPop(old(headers))
    {
      KnownNames();
      var viaHeader := Lookup(headers, "Via");
      if viaHeader == "" { return; }
      var idx := Index(viaHeader, ",");
      if idx != -1 {
        headers := headers["Via" := TrimSpace(viaHeader[idx + 1..])];
      } else {
        headers := headers - {"Via"};
      }
    }
  }

  lemma {:induction false} DropsShorten(s: string)
    ensures |DropLeft(s, IsSpace)| <= |s| && |DropRight(s, IsSpace)| <= |s| && |TrimSpace(s)| <= |s|
  {
    DropLeftShorter(s);
    DropRightShorter(s);
    DropRightShorter(DropLeft(s, IsSpace));
  }

  lemma {:induction s} DropRightShorter(s: string)
    ensures |DropRight(s, IsSpace)| <= |s|
  {}

  /** The entries seen by popping until the top one no longer parses. */
  function Drained(h: Headers): seq<Via>
    decreases |Lookup(h, "Via")|
  {
    match TopVia(Lookup(h, "Via"))
    case Failure(_) => []
    case Success(via) =>
      PopShortens(h);
      [via] + Drained(AfterPop(h))
  }

  /** The headers at the end of that. */
  function Emptied(h: Headers): Headers
    decreases |Lookup(h, "Via")|
  {
    match TopVia(Lookup(h, "Via"))
    case Failure(_) => h
    case Success(via) =>
      PopShortens(h);
      Emptied(AfterPop(h))
  }

  lemma PopShortens(h: Headers)
    requires Lookup(h, "Via") != ""
    ensures |Lookup(AfterPop(h), "Via")| < |Lookup(h, "Via")|
  {
    PopLeaves(h);
    PoppedShorter(Lookup(h, "Via"));
  }

  lemma PoppedShorter(h: string)
    requires h != ""
    ensures |PoppedVia(h)| < |h|
  {
    var i := Index(h, ",");
    if i != -1 { DropsShorten(h[i + 1..]); }
  }

  predicate IsEntry(p: string) { '"' !in p && ',' !in p && ParsedVia(TrimSpace(p)).Success? }

  function EntryOf(p: string): Via
    requires IsEntry(p)
  {
    ParsedVia(TrimSpace(p)).value
  }

  /** A quote-free list of parseable entries, one string each. */
  ghost predicate EntryList(ps: seq<string>) { ps != [] && forall i :: 0 <= i < |ps| ==> IsEntry(ps[i]) }

  function Parsed(ps: seq<string>): seq<Via>
    requires forall i :: 0 <= i < |ps| ==> IsEntry(ps[i])
  {
    seq(|ps|, i requires 0 <= i < |ps| => EntryOf(ps[i]))
  }

  lemma EmptyIsNoVia()
    ensures ParsedVia("").Failure?
  {}

  lemma {:induction false} EntriesAllParse(ps: seq<string>)
    requires EntryList(ps)
    ensures ViasOf(ps) == ViaList(Parsed(ps), true)
  {
    var p, more := ps[0], ps[1..];
    assert ps == [p] + more && IsEntry(p);
    if more != [] { EntriesAllParse(more); }
    OneEntry(p, more);
  }

  lemma ViasCons(p: string, more: seq<string>, via: Via)
    requires TrimSpace(p) != "" && ParsedVia(TrimSpace(p)) == Success(via)
    ensures ViasOf([p] + more) == ViaList([via] + ViasOf(more).vias, ViasOf(more).ok)
  {
    var ps := [p] + more;
    assert ps[0] == p && ps[1..] == more;
  }

  lemma EntriesCons(p: string, more: seq<string>)
    requires IsEntry(p) && forall i :: 0 <= i < |more| ==> IsEntry(more[i])
    ensures EntryList([p] + more)
  {
    var ps := [p] + more;
    forall i | 0 <= i < |ps| ensures IsEntry(ps[i]) { if i > 0 { assert ps[i] == more[i - 1]; } }
  }

  lemma ParsedFirst(p: string, more: seq<string>)
    requires IsEntry(p) && (forall i :: 0 <= i < |more| ==> IsEntry(more[i])) && EntryList([p] + more)
    ensures Parsed([p] + more) == [EntryOf(p)] + Parsed(more)
  {
    var ps := [p] + more;
    assert ps[0] == p && ps[1..] == more;
    ParsedCons(ps);
  }

  lemma OneEntry(p: string, more: seq<string>)
    requires IsEntry(p) && (forall i :: 0 <= i < |more| ==> IsEntry(more[i]))
    requires ViasOf(more) == ViaList(Parsed(more), true)
    ensures EntryList([p] + more) && ViasOf([p] + more) == ViaList(Parsed([p] + more), true)
  {
    EmptyIsNoVia();
    EntriesCons(p, more);
    ViasCons(p, more, EntryOf(p));
    ParsedFirst(p, more);
  }

  lemma {:induction false} PlainIsBalanced(p: string)
    requires '"' !in p && ',' !in p
    ensures NoBareComma(p, false) && !QuoteAfter(p, false)
  {
    if p != "" { PlainIsBalanced(p[1..]); }
  }

  lemma {:induction false} EntriesBalanced(ps: seq<string>)
    requires EntryList(ps)
    ensures Balanced(ps, false)
  {
    assert IsEntry(ps[0]);
    PlainIsBalanced(ps[0]);
    if |ps| > 1 { EntriesBalanced(ps[1..]); }
  }

  // Outer blanks do not matter to a Via value.

  lemma BlankInFront(x: char, s: string)
    requires IsSpace(x)
    ensures ParsedVia([x] + s) == ParsedVia(s)
  {
    var i := Index(s, ";");
    assert ([x] + s)[0] == x != ';';
    IndexStep(x, s, ";");
    var first := if i < 0 then s else s[..i];
    var parts, parts' := Split(s, ";"), Split([x] + s, ";");
    if i >= 0 { assert ([x] + s)[..i + 1] == [x] + s[..i] && ([x] + s)[i + 2..] == s[i + 1..]; }
    assert parts[0] == first && parts'[0] == [x] + first && parts'[1..] == parts[1..];
    assert ([x] + first)[1..] == first && DropLeft([x] + first, IsSpace) == DropLeft(first, IsSpace);
  }

  lemma BlankBehind(s: string, x: char)
    requires IsSpace(x)
    ensures ParsedVia(s + [x]) == ParsedVia(s)
  {
    var parts := Split(s, ";");
    var n := |parts| - 1;
    SplitWithBlank(s, x);
    var parts' := parts[..n] + [parts[n] + [x]];
    if n == 0 {
      FieldsBeforeBlank(parts[0], x);
      assert parts[1..] == parts'[1..];
    } else {
      assert parts'[1..] == parts[1..][..n - 1] + [parts[1..][n - 1] + [x]];
      ParamsBeforeBlank(map[], parts[1..], x);
    }
  }

  lemma {:induction false} SplitWithBlank(s: string, x: char)
    requires x != ';'
    ensures var parts := Split(s, ";"); var n := |parts| - 1;
      Split(s + [x], ";") == parts[..n] + [parts[n] + [x]]
    decreases |s|
  {
    var i := Index(s, ";");
    IndexOfChar(s, ';');
    if i < 0 {
      SplitOne(s + [x], ";");
    } else {
      var p, rest := s[..i], s[i + 1..];
      SplitWithBlank(rest, x);
      assert s + [x] == p + ";" + (rest + [x]);
      SplitCons(p, rest + [x], ";");
      BlankAtEnd(p, Split(rest, ";"), x);
    }
  }

  lemma BlankAtEnd(p: string, ps: seq<string>, x: char)
    requires ps != []
    ensures var n := |ps| - 1; var qs := [p] + ps; [p] + (ps[..n] + [ps[n] + [x]]) == qs[..n + 1] + [qs[n + 1] + [x]]
  {}

  lemma {:induction false} FieldsBeforeBlank(s: string, x: char)
    requires IsSpace(x)
    ensures Fields(s + [x]) == Fields(s)
    decreases |s|
  {
    var t := DropLeft(s, IsSpace);
    DropLeftShorter(s);
    DropLeftBeforeBlank(s, x);
    if t != "" {
      WordBeforeBlank(t, x);
      var w := Word(t);
      assert (t + [x])[|w|..] == t[|w|..] + [x] && (t + [x])[0] == t[0];
      FieldsBeforeBlank(t[|w|..], x);
    }
  }

  lemma {:induction false} DropLeftBeforeBlank(s: string, x: char)
    requires IsSpace(x)
    ensures var t := DropLeft(s, IsSpace); DropLeft(s + [x], IsSpace) == if t == "" then "" else t + [x]
  {
    if s == "" {
      assert s + [x] == [x] && [x][1..] == "";
    } else {
      assert (s + [x])[0] == s[0];
      if IsSpace(s[0]) {
        assert (s + [x])[1..] == s[1..] + [x];
        DropLeftBeforeBlank(s[1..], x);
      }
    }
  }

  lemma {:induction false} WordBeforeBlank(s: string, x: char)
    requires IsSpace(x)
    ensures Word(s + [x]) == Word(s)
  {
    if s != "" {
      assert (s + [x])[0] == s[0] && (s + [x])[1..] == s[1..] + [x];
      WordBeforeBlank(s[1..], x);
    }
  }

  lemma {:induction false} ParamsBeforeBlank(m: map<string, string>, ps: seq<string>, x: char)
    requires IsSpace(x) && ps != []
    ensures var n := |ps| - 1; PutParams(m, ps[..n] + [ps[n] + [x]]) == PutParams(m, ps)
    decreases |ps|
  {
    var n := |ps| - 1;
    var qs := ps[..n] + [ps[n] + [x]];
    if n == 0 {
      ParamBeforeBlank(m, ps[0], x);
      assert qs[1..] == ps[1..];
    } else {
      assert qs[1..] == ps[1..][..n - 1] + [ps[1..][n - 1] + [x]];
      ParamsBeforeBlank(PutParam(m, ps[0]), ps[1..], x);
    }
  }

  lemma ParamBeforeBlank(m: map<string, string>, p: string, x: char)
    requires IsSpace(x)
    ensures PutParam(m, p + [x]) == PutParam(m, p)
  {
    var i := Index(p, "=");
    IndexOfChar(p, '=');
    if i < 0 {
      SplitOne(p, "=");
      SplitOne(p + [x], "=");
      TrimBeforeBlank(p, x);
    } else {
      var k, v := p[..i], p[i + 1..];
      assert p == k + "=" + v && p + [x] == k + "=" + (v + [x]);
      SplitCons(k, v, "=");
      SplitCons(k, v + [x], "=");
      TrimBeforeBlank(v, x);
    }
  }

  lemma TrimBeforeBlank(s: string, x: char)
    requires IsSpace(x)
    ensures TrimSpace(s + [x]) == TrimSpace(s)
  {
    assert (s + [x])[..|s|] == s && DropRight(s + [x], IsSpace) == DropRight(s, IsSpace);
    TrimAfterDropRight(s);
    TrimAfterDropRight(s + [x]);
  }

  lemma {:induction false} LeftTrimmedParses(s: string)
    ensures ParsedVia(DropLeft(s, IsSpace)) == ParsedVia(s)
  {
    if s != "" && IsSpace(s[0]) {
      LeftTrimmedParses(s[1..]);
      BlankInFront(s[0], s[1..]);
      assert s == [s[0]] + s[1..];
    }
  }

  lemma {:induction false} RightTrimmedParses(s: string)
    ensures ParsedVia(DropRight(s, IsSpace)) == ParsedVia(s)
  {
    var n := |s| - 1;
    if s != "" && IsSpace(s[n]) {
      RightTrimmedParses(s[..n]);
      BlankBehind(s[..n], s[n]);
      assert s == s[..n] + [s[n]];
    }
  }

  lemma TrimmedViaParses(s: string)
    ensures ParsedVia(TrimSpace(s)) == ParsedVia(s)
  {
    LeftTrimmedParses(s);
    RightTrimmedParses(DropLeft(s, IsSpace));
  }

  // Trimming a joined list trims its outer entries only.

  lemma {:induction false} DropLeftPastComma(p: string, x: string)
    ensures DropLeft(p + "," + x, IsSpace) == DropLeft(p, IsSpace) + "," + x
  {
    var s := p + "," + x;
    if p == "" || !IsSpace(p[0]) {
      assert s[0] == if p == "" then ',' else p[0];
    } else {
      assert s[1..] == p[1..] + "," + x;
      DropLeftPastComma(p[1..], x);
    }
  }

  lemma {:induction false} DropRightPastComma(a: string, x: string)
    ensures DropRight(a + "," + x, IsSpace) == a + "," + DropRight(x, IsSpace)
  {
    var s := a + "," + x;
    if x == "" || !IsSpace(x[|x| - 1]) {
      assert s[|s| - 1] == if x == "" then ',' else x[|x| - 1];
    } else {
      assert s[..|s| - 1] == a + "," + x[..|x| - 1];
      DropRightPastComma(a, x[..|x| - 1]);
    }
  }

  lemma {:induction false} DropTwice(s: string)
    ensures DropLeft(DropLeft(s, IsSpace), IsSpace) == DropLeft(s, IsSpace)
    ensures TrimSpace(DropLeft(s, IsSpace)) == TrimSpace(s)
  {
    if s != "" && IsSpace(s[0]) { DropTwice(s[1..]); }
  }

  lemma {:induction false} DropRightTwice(s: string)
    ensures DropRight(DropRight(s, IsSpace), IsSpace) == DropRight(s, IsSpace)
  {
    if s != "" && IsSpace(s[|s| - 1]) { DropRightTwice(s[..|s| - 1]); }
  }

  lemma {:induction s} SolidEndsStay(s: string)
    ensures s != "" && !IsSpace(s[0]) ==> DropRight(s, IsSpace) != "" && DropRight(s, IsSpace)[0] == s[0]
    ensures s != "" && !IsSpace(s[|s| - 1]) ==>
      var t := DropLeft(s, IsSpace); t != "" && t[|t| - 1] == s[|s| - 1]
  {}

  lemma {:induction false} DropsCommute(s: string)
    ensures DropLeft(DropRight(s, IsSpace), IsSpace) == DropRight(DropLeft(s, IsSpace), IsSpace)
  {
    var n := |s|;
    SolidEndsStay(s);
    if n > 1 && IsSpace(s[0]) && IsSpace(s[n - 1]) {
      var t, u, v := s[1..], s[..n - 1], s[1..n - 1];
      DropsCommute(v);
      DropsCommute(t);
      DropsCommute(u);
      assert t[..|t| - 1] == v && u[1..] == v;
      if v != "" {
        assert DropRight(t, IsSpace) == DropRight(v, IsSpace) && DropLeft(u, IsSpace) == DropLeft(v, IsSpace);
      }
    }
  }

  lemma TrimAfterDropRight(s: string)
    ensures TrimSpace(DropRight(s, IsSpace)) == TrimSpace(s)
  {
    DropsCommute(s);
    DropRightTwice(DropLeft(s, IsSpace));
  }

  lemma {:induction s} DropsKeepAbsence(s: string, c: char)
    ensures c !in s ==> c !in DropLeft(s, IsSpace) && c !in DropRight(s, IsSpace)
  {}

  /** Trimming either end of an entry leaves the same entry. */
  lemma DroppedIsEntry(p: string)
    requires IsEntry(p)
    ensures IsEntry(DropLeft(p, IsSpace)) && EntryOf(DropLeft(p, IsSpace)) == EntryOf(p)
    ensures IsEntry(DropRight(p, IsSpace)) && EntryOf(DropRight(p, IsSpace)) == EntryOf(p)
  {
    DropsKeepAbsence(p, '"');
    DropsKeepAbsence(p, ',');
    DropTwice(p);
    TrimAfterDropRight(p);
  }

  lemma {:induction false} DropRightOfJoin(ps: seq<string>)
    requires ps != []
    ensures var n := |ps| - 1;
      DropRight(Join(ps, ","), IsSpace) == Join(ps[..n] + [DropRight(ps[n], IsSpace)], ",")
    decreases |ps|
  {
    var n := |ps| - 1;
    var qs := ps[..n] + [DropRight(ps[n], IsSpace)];
    if n > 0 {
      DropRightOfJoin(ps[1..]);
      assert qs[1..] == ps[1..][..n - 1] + [DropRight(ps[1..][n - 1], IsSpace)];
      DropRightPastComma(ps[0], Join(ps[1..], ","));
    }
  }

  lemma DropLeftOfJoin(ps: seq<string>)
    requires ps != []
    ensures DropLeft(Join(ps, ","), IsSpace) == Join([DropLeft(ps[0], IsSpace)] + ps[1..], ",")
  {
    assert ([DropLeft(ps[0], IsSpace)] + ps[1..])[1..] == ps[1..];
    if |ps| > 1 { DropLeftPastComma(ps[0], Join(ps[1..], ",")); }
  }

  /** A trimmed list is again a list of the same entries. */
  lemma TrimmedList(ps: seq<string>) returns (rs: seq<string>)
    requires EntryList(ps)
    ensures EntryList(rs) && Parsed(rs) == Parsed(ps) && Join(rs, ",") == TrimSpace(Join(ps, ","))
  {
    var n := |ps| - 1;
    assert IsEntry(ps[0]);
    DroppedIsEntry(ps[0]);
    DropLeftOfJoin(ps);
    var qs := ReplaceEntry(ps, 0, DropLeft(ps[0], IsSpace));
    assert [DropLeft(ps[0], IsSpace)] + ps[1..] == qs;
    assert IsEntry(qs[n]);
    DroppedIsEntry(qs[n]);
    DropRightOfJoin(qs);
    rs := ReplaceEntry(qs, n, DropRight(qs[n], IsSpace));
    assert qs[..n] + [DropRight(qs[n], IsSpace)] == rs;
  }

  lemma ReplaceEntry(ps: seq<string>, i: nat, q: string) returns (qs: seq<string>)
    requires EntryList(ps) && i < |ps| && IsEntry(q) && IsEntry(ps[i]) && EntryOf(q) == EntryOf(ps[i])
    ensures qs == ps[i := q] && EntryList(qs) && Parsed(qs) == Parsed(ps)
  {
    qs := ps[i := q];
    forall j | 0 <= j < |qs| ensures IsEntry(qs[j]) && EntryOf(qs[j]) == EntryOf(ps[j]) {
      assert IsEntry(ps[j]);
    }
  }

  lemma DrainOne(h: Headers, p: string, rest: string)
    requires IsEntry(p) && Lookup(h, "Via") == p + "," + rest
    ensures Drained(h) == [EntryOf(p)] + Drained(AfterPop(h)) && Emptied(h) == Emptied(AfterPop(h))
    ensures Lookup(AfterPop(h), "Via") == TrimSpace(rest) && AfterPop(h) - {"Via"} == h - {"Via"}
  {
    PopLeaves(h);
    IndexFound(p, rest, ",");
  }

  lemma PopLast(h: Headers, p: string)
    requires IsEntry(p) && Lookup(h, "Via") == p
    ensures Drained(h) == [EntryOf(p)] && Emptied(h) == h - {"Via"}
  {
    IndexAbsent(p, ",");
    TrimmedViaParses(p);
    PopLeaves(h);
    EmptyIsNoVia();
    assert AfterPop(h) == h - {"Via"} && Drained(AfterPop(h)) == [];
  }

  lemma ParsedCons(ps: seq<string>)
    requires EntryList(ps)
    ensures Parsed(ps) == [EntryOf(ps[0])] + Parsed(ps[1..])
  {}

  lemma {:induction false} PopsYieldEntries(h: Headers, ps: seq<string>)
    requires EntryList(ps) && Lookup(h, "Via") == Join(ps, ",")
    ensures Drained(h) == Parsed(ps) && Emptied(h) == h - {"Via"}
    decreases |ps|
  {
    assert IsEntry(ps[0]);
    if |ps| == 1 {
      PopLast(h, ps[0]);
      assert Parsed(ps) == [EntryOf(ps[0])];
    } else {
      var rs := TrimmedList(ps[1..]);
      DrainOne(h, ps[0], Join(ps[1..], ","));
      PopsYieldEntries(AfterPop(h), rs);
      ParsedCons(ps);
    }
  }

  /** Popping the Via header of a response that carries the Via of `req` ends, sees exactly what
      `AllVias` lists, and takes that header away and no other. */
  lemma PopsYieldAll(h: Headers, req: SIPRequest, ps: seq<string>)
    requires EntryList(ps) && req.Header("Via") == Join(ps, ",") && Lookup(h, "Via") == req.Header("Via")
    ensures |Drained(h)| == |ps| && AllViasOf(req) == ViaList(Drained(h), true)
    ensures Emptied(h) == h - {"Via"}
  {
    PopsYieldEntries(h, ps);
    EntriesBalanced(ps);
    JoinThenSplit(ps, false);
    EntriesAllParse(ps);
  }

  /** Text without blanks or the characters that structure a Via value. */
  predicate ViaSafe(s: string) { Solid(s) && ';' !in s && ',' !in s && '"' !in s }

  lemma SafeLiterals()
    ensures ViaSafe("SIP/2.0/") && ViaSafe("branch") && ViaSafe("branch=") && '=' !in "branch"
    ensures ToLower("branch") == "branch"
  {}

  function OwnVia(proto: string, addr: string, branch: string): string {
    "SIP/2.0/" + proto + " " + addr + ";branch=" + branch
  }

  lemma OwnViaShape(proto: string, addr: string, branch: string)
    requires ViaSafe(proto) && ViaSafe(addr) && addr != "" && ViaSafe(branch)
    ensures var h := OwnVia(proto, addr, branch); ',' !in h && '"' !in h && Trimmed(h)
  {}

  lemma ViaSafePair(p: string, q: string)
    requires ViaSafe(p) && ViaSafe(q)
    ensures ViaSafe(p + q) && ';' !in p + " " + q
  {}

  lemma OwnViaSplits(proto: string, addr: string, branch: string)
    requires ViaSafe(proto) && ViaSafe(addr) && addr != "" && ViaSafe(branch)
    ensures Split(OwnVia(proto, addr, branch), ";") == ["SIP/2.0/" + proto + " " + addr, "branch=" + branch]
    ensures Fields("SIP/2.0/" + proto + " " + addr) == ["SIP/2.0/" + proto, addr]
  {
    var a, b := "SIP/2.0/", "branch=";
    SafeLiterals();
    ViaSafePair(a, proto);
    ViaSafePair(b, branch);
    ViaSafePair(a + proto, addr);
    TwoParts(a + proto + " " + addr, b + branch);
    OwnViaParts(proto, addr, branch);
    FieldsOfPair(a + proto, addr);
  }

  lemma TwoParts(p: string, q: string)
    requires ';' !in p && ';' !in q
    ensures Split(p + ";" + q, ";") == [p, q]
  {
    SplitCons(p, q, ";");
    SplitOne(q, ";");
  }

  lemma OwnViaParts(proto: string, addr: string, branch: string)
    ensures OwnVia(proto, addr, branch) == ("SIP/2.0/" + proto + " " + addr) + ";" + ("branch=" + branch)
  {}

  /** The Via value the server writes itself reads back with exactly its branch. */
  lemma OwnViaReadsBack(proto: string, addr: string, branch: string)
    requires ViaSafe(proto) && ViaSafe(addr) && addr != "" && ViaSafe(branch)
    ensures var h := OwnVia(proto, addr, branch);
      && SplitQuoted(h, false) == [h] && TrimSpace(h) == h
      && ParsedVia(h).Success? && ParsedVia(h).value.Branch() == branch
  {
    var h := OwnVia(proto, addr, branch);
    assert SplitQuoted(h, false) == [h] && TrimSpace(h) == h by {
      OwnViaShape(proto, addr, branch);
      PlainIsBalanced(h);
      PieceAlone(h, false);
      TrimmedIsFixed(h);
    }
    OwnViaSplits(proto, addr, branch);
    OneParam("branch=" + branch);
    BranchParam(branch);
    var parts := Split(h, ";");
    assert parts[1..] == ["branch=" + branch];
    assert ParsedVia(h) == ViaFrom(["SIP/2.0/" + proto, addr], map["branch" := branch]);
  }

  /** In full: protocol, host, port and branch are those it was written with. */
  lemma OwnViaIs(proto: string, host: string, port: string, branch: string)
    requires ViaSafe(proto) && ViaSafe(host) && host != "" && ':' !in host && ViaSafe(port) && ViaSafe(branch)
    ensures var addr := host + (if port == "" then "" else ":" + port);
      ParsedVia(OwnVia(proto, addr, branch)) == Success(Via("SIP/2.0/" + proto, host, port, map["branch" := branch]))
  {
    var addr := host + (if port == "" then "" else ":" + port);
    AddrSplits(host, port);
    OwnViaSplits(proto, addr, branch);
    OneParam("branch=" + branch);
    BranchParam(branch);
    assert Split(OwnVia(proto, addr, branch), ";")[1..] == ["branch=" + branch];
  }

  lemma AddrSplits(host: string, port: string)
    requires ViaSafe(host) && ':' !in host && ViaSafe(port)
    ensures var addr := host + (if port == "" then "" else ":" + port);
      ViaSafe(addr) && SplitN(addr, ":", 2) == if port == "" then [host] else [host, port]
  {
    if port == "" {
      assert host + "" == host;
      SplitOne(host, ":");
    } else {
      assert host + (":" + port) == host + ":" + port;
      SplitCons(host, port, ":");
    }
  }

  lemma OneParam(q: string)
    ensures PutParams(map[], [q]) == PutParam(map[], q)
  {}

  lemma BranchParam(branch: string)
    requires ViaSafe(branch)
    ensures PutParam(map[], "branch=" + branch) == map["branch" := branch]
  {
    SafeLiterals();
    assert "branch=" + branch == "branch" + "=" + branch;
    SplitCons("branch", branch, "=");
    TrimmedIsFixed("branch");
    TrimmedIsFixed(branch);
  }
}
