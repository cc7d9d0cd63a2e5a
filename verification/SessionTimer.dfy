/** The session timer headers of RFC 4028: Session-Expires (compact form x) and Min-SE. */
module SessionTimer {
  import opened Wrappers
  import opened Text
  import opened Message

  datatype SessionExpires = SessionExpires(delta: int, refresher: string)

  /** One parameter: only `refresher` is read, the last one counts. */
  function PutTimerParam(se: SessionExpires, part: string): SessionExpires {
    var kv := SplitN(part, "=", 2);
    if |kv| == 2 && ToLower(TrimSpace(kv[0])) == "refresher" then se.(refresher := ToLower(TrimSpace(kv[1]))) else se
  }

  function PutTimerParams(se: SessionExpires, parts: seq<string>): SessionExpires
    decreases |parts|
  {
    if parts == [] then se else PutTimerParam(PutTimerParams(se, parts[..|parts| - 1]), parts[|parts| - 1])
  }

  function ParsedTimer(value: string): Result<SessionExpires> {
    var parts := Split(value, ";");
    match Atoi(TrimSpace(parts[0]))
    case None => Failure("could not parse delta-seconds")
    case Some(delta) => Success(PutTimerParams(SessionExpires(delta, ""), parts[1..]))
  }

  method ParseSessionExpires(value: string) returns (r: Result<SessionExpires>)
    ensures r == ParsedTimer(value)
  {
    var parts := Split(value, ";");
    var delta := Atoi(TrimSpace(parts[0]));
    if delta.None? { return Failure("could not parse delta-seconds"); }
    var se := SessionExpires(delta.value, "");
    var rest := parts[1..];
    for i := 0 to |rest|
      invariant se == PutTimerParams(SessionExpires(delta.value, ""), rest[..i])
    {
      assert rest[..i + 1][..i] == rest[..i];
      var kv := SplitN(rest[i], "=", 2);
      if |kv| == 2 {
        if ToLower(TrimSpace(kv[0])) == "refresher" {
          se := se.(refresher := ToLower(TrimSpace(kv[1])));
        }
      }
    }
    assert rest[..|rest|] == rest;
    return Success(se);
  }

  /** The Session-Expires header, else its compact form; no header is not an error. */
  function TimerOf(h: Headers): Result<Option<SessionExpires>> {
    var long := Lookup(h, "Session-Expires");
    var value := if long == "" then Lookup(h, "x") else long;
    if value == "" then Success(None)
    else match ParsedTimer(value)
      case Failure(reason) => Failure(reason)
      case Success(se) => Success(Some(se))
  }

  predicate HasTimer(h: Headers) { TimerOf(h).Success? && TimerOf(h).value.Some? }

  /** -1 when there is no Min-SE header. */
  function MinSEOf(h: Headers): Result<int> {
    var value := Lookup(h, "Min-SE");
    if value == "" then Success(-1)
    else match Atoi(TrimSpace(value))
      case None => Failure("could not parse Min-SE value")
      case Some(n) => Success(n)
  }

  /** A Min-SE header says what it says. */
  lemma MinSEReads(h: Headers, n: int)
    requires Lookup(h, "Min-SE") == Itoa(n)
    ensures MinSEOf(h) == Success(n)
  {
    ItoaIsPlain(n);
    TrimmedIsFixed(Itoa(n));
    AtoiUndoesItoa(n);
  }

  /** So does a Session-Expires header, or its compact form, with or without a refresher. */
  lemma TimerReads(h: Headers, n: int)
    requires Lookup(h, "Session-Expires") == Itoa(n)
      || (Lookup(h, "Session-Expires") == "" && Lookup(h, "x") == Itoa(n))
    ensures TimerOf(h) == Success(Some(SessionExpires(n, "")))
  {
    ItoaIsPlain(n);
    SplitOne(Itoa(n), ";");
    TrimmedIsFixed(Itoa(n));
    AtoiUndoesItoa(n);
    assert Split(Itoa(n), ";")[1..] == [];
  }

  lemma TimerWithRefresherReads(h: Headers, n: int, who: string)
    requires Solid(who) && ';' !in who
    requires var value := Itoa(n) + ";" + (REFRESHER + "=" + who);
      Lookup(h, "Session-Expires") == value || (Lookup(h, "Session-Expires") == "" && Lookup(h, "x") == value)
    ensures TimerOf(h) == Success(Some(SessionExpires(n, ToLower(who))))
  {
    var p := REFRESHER + "=" + who;
    ItoaIsPlain(n);
    RefresherLacks(who);
    SplitCons(Itoa(n), p, ";");
    SplitOne(p, ";");
    TrimmedIsFixed(Itoa(n));
    AtoiUndoesItoa(n);
    RefresherRead(n, who);
    assert [Itoa(n), p][1..] == [p];
    OneTimerParam(SessionExpires(n, ""), p);
  }

  lemma RefresherLacks(who: string)
    requires ';' !in who
    ensures ';' !in REFRESHER + "=" + who
  {
    var p := REFRESHER;
    assert forall i :: 0 <= i < |p| ==> p[i] != ';';
  }

  lemma RefresherRead(n: int, who: string)
    requires Solid(who)
    ensures PutTimerParam(SessionExpires(n, ""), REFRESHER + "=" + who) == SessionExpires(n, ToLower(who))
  {
    TimerWords();
    SplitCons(REFRESHER, who, "=");
    TrimmedIsFixed(who);
  }

  /** The timer value the B2BUA writes into a 2xx that has none. */
  function OwnTimer(delta: int): string { Itoa(delta) + ";" + BY_CALLER }

  const BY_CALLER: string := "refresher=uac"

  const REFRESHER: string := "refresher"
  const UAC: string := "uac"

  lemma TimerWords()
    ensures ToLower(REFRESHER) == REFRESHER && ToLower(UAC) == UAC && '=' !in REFRESHER
    ensures TrimSpace(REFRESHER) == REFRESHER && TrimSpace(UAC) == UAC
  {}

  lemma RefresherParam(delta: int)
    ensures PutTimerParam(SessionExpires(delta, ""), BY_CALLER) == SessionExpires(delta, UAC)
  {
    assert SplitN(BY_CALLER, "=", 2) == [REFRESHER, UAC] by {
      TimerWords();
      assert BY_CALLER == REFRESHER + "=" + UAC;
      SplitCons(REFRESHER, UAC, "=");
    }
    TimerWords();
  }

  lemma OwnTimerSplits(delta: int)
    ensures Split(OwnTimer(delta), ";") == [Itoa(delta), BY_CALLER]
    ensures TrimSpace(Itoa(delta)) == Itoa(delta)
  {
    ItoaIsPlain(delta);
    TrimmedIsFixed(Itoa(delta));
    var p := BY_CALLER;
    assert forall i :: 0 <= i < |p| ==> p[i] != ';';
    SplitCons(Itoa(delta), p, ";");
    SplitOne(p, ";");
  }

  /** What the B2BUA writes, a user agent reads back: the same interval, refreshed by the caller. */
  lemma OwnTimerReadsBack(delta: int)
    ensures ParsedTimer(OwnTimer(delta)) == Success(SessionExpires(delta, UAC))
  {
    OwnTimerSplits(delta);
    AtoiUndoesItoa(delta);
    RefresherParam(delta);
    OneTimerParam(SessionExpires(delta, ""), BY_CALLER);
    assert [Itoa(delta), BY_CALLER][1..] == [BY_CALLER];
  }

  lemma OneTimerParam(se: SessionExpires, part: string)
    ensures PutTimerParams(se, [part]) == PutTimerParam(se, part)
  {}
}
