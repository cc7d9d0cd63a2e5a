/** The INVITE server transaction (section 17.2.1 of RFC 3261): the machine as a step
    function, what holds over all its runs, and the class that carries it out. */
module InviteServer {
  import opened Wrappers
  import opened Message
  import opened Timing

  datatype State = Proceeding | Completed | Confirmed | Terminated

  function Rank(s: State): nat {
    match s case Proceeding => 0 case Completed => 1 case Confirmed => 2 case Terminated => 3
  }

  predicate Final(res: SIPResponse) { res.status >= 200 }

  predicate ErrorFinal(res: SIPResponse) { 300 <= res.status < 700 }

  /** `g`, `h` and `i` are the timers the fields hold; `strayG` and `strayEnds` are timers
      whose field was overwritten while they were still armed. `since` is when the
      transaction last entered Completed; `offered` is every response its user has queued. */
  datatype Tx = Tx(
    req: SIPRequest, state: State, last: Option<SIPResponse>,
    g: Option<Pulse>, strayG: seq<Pulse>, h: Option<nat>, i: Option<nat>, strayEnds: seq<nat>,
    slot: Option<SIPResponse>, done: bool, running: bool,
    now: nat, since: nat, wire: seq<Sent<SIPResponse>>, offered: seq<SIPResponse>)

  datatype Event =
    | Respond(res: SIPResponse) | Take | Exit
    | Receive(req: SIPRequest)
    | FireG | FireStrayG(k: nat) | FireH | FireI | FireStrayEnd(k: nat)
    | Terminate
    | Tick(to: nat)

  // ----- the steps -----

  function Started(req: SIPRequest, now: nat): Tx {
    Tx(req, Proceeding, None, None, [], None, None, [], None, false, true, now, now,
       [Sent(now, PlainResponse(100, "Trying", req), First)], [])
  }

  function Write(t: Tx, res: SIPResponse, cause: Cause): Tx {
    t.(wire := t.wire + [Sent(t.now, res, cause)])
  }

  function Ended(t: Tx): Tx {
    if t.state == Terminated then t
    else t.(state := Terminated, g := None, h := None, i := None, done := true)
  }

  function Received(c: Timers, t: Tx, req: SIPRequest): Tx {
    if req.verb == "ACK" then
      if t.state != Completed then t
      else
        var t' := t.(state := Confirmed, g := None, h := None);
        if c.reliable then Ended(t')
        else t'.(i := Some(t.now + c.t4), strayEnds := Left(t.i, t.strayEnds))
    else if t.state in {Proceeding, Completed} && t.last.Some? then Write(t, t.last.value, Replay)
    else t
  }

  /** A timer field that is overwritten while armed leaves its timer running. */
  function Left<T>(field: Option<T>, strays: seq<T>): seq<T> {
    if field.Some? then strays + [field.value] else strays
  }

  /** Entering Completed: Timer G on unreliable transports, Timer H always. */
  function Completing(c: Timers, t: Tx): Tx {
    var t' := t.(state := Completed, since := t.now,
                 h := Some(t.now + 64 * c.t1), strayEnds := Left(t.h, t.strayEnds));
    if c.reliable then t'
    else t'.(g := Some(Pulse(t.now + c.t1, c.t1)), strayG := Left(t.g, t.strayG))
  }

  /** One turn of the `run` loop on a queued response. */
  function Taken(c: Timers, t: Tx): Tx
    requires t.slot.Some?
  {
    var res := t.slot.value;
    var t0 := t.(slot := None);
    if t.state == Terminated then t0.(running := false)
    else
      var t' := Write(t0.(last := Some(res)), res, User);
      if 200 <= res.status < 300 then Ended(t').(running := false)
      else if ErrorFinal(res) then Completing(c, t')
      else t'
  }

  function NextInterval(c: Timers, interval: nat): nat {
    if 2 * interval > c.t2 then c.t2 else 2 * interval
  }

  function FiredG(c: Timers, t: Tx): Tx
    requires t.g.Some?
  {
    if t.state != Completed || t.last.None? then t.(g := None)
    else
      var iv := NextInterval(c, t.g.value.interval);
      Write(t, t.last.value, Timer).(g := Some(Pulse(t.now + iv, iv)))
  }

  /** A stray Timer G fires once and resets the timer the field holds by then. */
  function FiredStrayG(c: Timers, t: Tx, k: nat): Tx
    requires k < |t.strayG|
  {
    var t' := t.(strayG := t.strayG[..k] + t.strayG[k + 1..]);
    if t.state != Completed || t.last.None? then t'
    else
      var iv := NextInterval(c, t.strayG[k].interval);
      var own := if t.g.Some? then t.g.value.interval else iv;
      Write(t', t.last.value, Timer).(g := Some(Pulse(t.now + iv, own)))
  }

  predicate MayPass(t: Tx, to: nat) {
    && t.now < to && PulseClear(t.g, to) && Clear(t.h, to) && Clear(t.i, to)
    && (forall k :: 0 <= k < |t.strayG| ==> to <= t.strayG[k].due)
    && (forall k :: 0 <= k < |t.strayEnds| ==> to <= t.strayEnds[k])
  }

  predicate Enabled(t: Tx, e: Event) {
    match e
    case Respond(_) => t.slot.None?
    case Take => t.running && t.slot.Some?
    case Exit => t.running && t.done
    case Receive(_) => true
    case FireG => PulseDue(t.g, t.now)
    case FireStrayG(k) => k < |t.strayG| && t.strayG[k].due <= t.now
    case FireH => Due(t.h, t.now)
    case FireI => Due(t.i, t.now)
    case FireStrayEnd(k) => k < |t.strayEnds| && t.strayEnds[k] <= t.now
    case Terminate => true
    case Tick(to) => MayPass(t, to)
  }

  function Effect(c: Timers, t: Tx, e: Event): Tx
    requires Enabled(t, e)
  {
    match e
    case Respond(res) => t.(slot := Some(res), offered := t.offered + [res])
    case Take => Taken(c, t)
    case Exit => t.(running := false)
    case Receive(req) => Received(c, t, req)
    case FireG => FiredG(c, t)
    case FireStrayG(k) => FiredStrayG(c, t, k)
    case FireH => Ended(t.(h := None))
    case FireI => Ended(t.(i := None))
    case FireStrayEnd(k) => Ended(t.(strayEnds := t.strayEnds[..k] + t.strayEnds[k + 1..]))
    case Terminate => Ended(t)
    case Tick(to) => t.(now := to)
  }

  /** An event that is not enabled changes nothing, so every event sequence is a run. */
  function Apply(c: Timers, t: Tx, e: Event): Tx { if Enabled(t, e) then Effect(c, t, e) else t }

  function Exec(c: Timers, t: Tx, evs: seq<Event>): Tx
    decreases |evs|
  {
    if evs == [] then t else Apply(c, Exec(c, t, evs[..|evs| - 1]), evs[|evs| - 1])
  }

  // ----- every user -----

  /** The last response the user had sent, among the first `n` writes. */
  function Latest(wire: seq<Sent<SIPResponse>>, n: nat): Option<SIPResponse>
    requires n <= |wire|
  {
    if n == 0 then None
    else if wire[n - 1].cause == User then Some(wire[n - 1].msg)
    else Latest(wire, n - 1)
  }

  /** Every retransmission repeats the user's latest response. */
  predicate Echoes(wire: seq<Sent<SIPResponse>>) {
    forall k :: 0 <= k < |wire| && wire[k].cause in {Replay, Timer} ==> Some(wire[k].msg) == Latest(wire, k)
  }

  lemma {:induction n} LatestOfPrefix(wire: seq<Sent<SIPResponse>>, more: seq<Sent<SIPResponse>>, n: nat)
    requires n <= |wire|
    ensures Latest(wire + more, n) == Latest(wire, n)
  {}

  lemma EchoesGrow(wire: seq<Sent<SIPResponse>>, s: Sent<SIPResponse>)
    requires Echoes(wire) && (s.cause in {Replay, Timer} ==> Some(s.msg) == Latest(wire, |wire|))
    ensures Echoes(wire + [s])
    ensures Latest(wire + [s], |wire| + 1) == if s.cause == User then Some(s.msg) else Latest(wire, |wire|)
  {
    forall n | 0 <= n <= |wire| ensures Latest(wire + [s], n) == Latest(wire, n) {
      LatestOfPrefix(wire, [s], n);
    }
  }

  predicate Sound(c: Timers, t: Tx) {
    && Echoes(t.wire) && Latest(t.wire, |t.wire|) == t.last
    && (t.done <==> t.state == Terminated)
    && (t.state == Terminated ==> t.g == None && t.h == None && t.i == None)
    && (t.state in {Completed, Confirmed} ==> t.last.Some?)
    && (t.g.Some? ==> t.state == Completed)
    && (c.reliable ==> t.g.None? && t.strayG == [] && forall k :: 0 <= k < |t.wire| ==> t.wire[k].cause != Timer)
  }

  /** A repetition of the stored response. */
  lemma SoundResend(c: Timers, t: Tx, cause: Cause)
    requires Sound(c, t) && t.last.Some? && (cause == Replay || (cause == Timer && !c.reliable))
    ensures Sound(c, Write(t, t.last.value, cause))
  {
    EchoesGrow(t.wire, Sent(t.now, t.last.value, cause));
  }

  lemma SoundWritten(c: Timers, t: Tx, res: SIPResponse)
    requires Sound(c, t)
    ensures Sound(c, Write(t.(slot := None, last := Some(res)), res, User))
  {
    EchoesGrow(t.wire, Sent(t.now, res, User));
  }

  lemma SoundEnded(c: Timers, t: Tx)
    requires Sound(c, t)
    ensures Sound(c, Ended(t))
  {}

  lemma SoundTake(c: Timers, t: Tx)
    requires Sound(c, t) && t.slot.Some?
    ensures Sound(c, Taken(c, t))
  {
    if t.state != Terminated {
      var res := t.slot.value;
      var t' := Write(t.(slot := None, last := Some(res)), res, User);
      SoundWritten(c, t, res);
      if 200 <= res.status < 300 { SoundEnded(c, t'); }
    }
  }

  lemma SoundReceive(c: Timers, t: Tx, req: SIPRequest)
    requires Sound(c, t)
    ensures Sound(c, Received(c, t, req))
  {
    if req.verb == "ACK" {
      if t.state == Completed { SoundEnded(c, t.(state := Confirmed, g := None, h := None)); }
    } else if t.state in {Proceeding, Completed} && t.last.Some? {
      SoundResend(c, t, Replay);
    }
  }

  lemma SoundFire(c: Timers, t: Tx, e: Event)
    requires Sound(c, t) && Enabled(t, e) && (e.FireG? || e.FireStrayG?)
    ensures Sound(c, Effect(c, t, e))
  {
    if t.state == Completed && t.last.Some? { SoundResend(c, t, Timer); }
  }

  lemma SoundStep(c: Timers, t: Tx, e: Event)
    requires Sound(c, t)
    ensures Sound(c, Apply(c, t, e))
  {
    if Enabled(t, e) {
      match e
      case Take => SoundTake(c, t);
      case Receive(req) => SoundReceive(c, t, req);
      case FireG => SoundFire(c, t, e);
      case FireStrayG(_) => SoundFire(c, t, e);
      case FireH => SoundEnded(c, t.(h := None));
      case FireI => SoundEnded(c, t.(i := None));
      case FireStrayEnd(k) => SoundEnded(c, t.(strayEnds := t.strayEnds[..k] + t.strayEnds[k + 1..]));
      case Terminate => SoundEnded(c, t);
      case _ =>
    }
  }

  /** Over every run and for every user: retransmissions repeat the latest response, `done`
      is closed exactly in Terminated, and reliable transports never see a timer resend. */
  lemma {:induction false} RunSound(c: Timers, req: SIPRequest, now: nat, evs: seq<Event>)
    ensures Sound(c, Exec(c, Started(req, now), evs))
  {
    if evs != [] {
      var front := evs[..|evs| - 1];
      RunSound(c, req, now, front);
      SoundStep(c, Exec(c, Started(req, now), front), evs[|evs| - 1]);
    }
  }

  // ----- conservation, for every user -----

  function Count(wire: seq<Sent<SIPResponse>>, cause: Cause): nat {
    if wire == [] then 0
    else Count(wire[..|wire| - 1], cause) + if wire[|wire| - 1].cause == cause then 1 else 0
  }

  /** The user's responses on the wire, in order. */
  function UserWrites(wire: seq<Sent<SIPResponse>>): seq<SIPResponse> {
    if wire == [] then []
    else
      var n := |wire| - 1;
      UserWrites(wire[..n]) + if wire[n].cause == User then [wire[n].msg] else []
  }

  /** Responses the loop took before the end. */
  function Accepted(c: Timers, t: Tx, evs: seq<Event>): seq<SIPResponse>
    decreases |evs|
  {
    if evs == [] then []
    else
      var front := evs[..|evs| - 1];
      var s := Exec(c, t, front);
      Accepted(c, t, front) + if Takes(s, evs[|evs| - 1]) then [s.slot.value] else []
  }

  predicate Takes(t: Tx, e: Event) { e == Take && t.running && t.slot.Some? && t.state != Terminated }

  /** A retransmission of the request, while there is an answer and no ACK yet. */
  predicate Asks(t: Tx, e: Event) {
    e.Receive? && e.req.verb != "ACK" && t.state in {Proceeding, Completed} && UserWrites(t.wire) != []
  }

  /** A Timer G that is due, the current one or a stray one, in Completed. */
  predicate Refires(t: Tx, e: Event) {
    && t.state == Completed
    && match e
       case FireG => PulseDue(t.g, t.now)
       case FireStrayG(k) => k < |t.strayG| && t.strayG[k].due <= t.now
       case _ => false
  }

  function Copies(c: Timers, t: Tx, evs: seq<Event>): nat
    decreases |evs|
  {
    if evs == [] then 0
    else Copies(c, t, evs[..|evs| - 1]) + if Asks(Exec(c, t, evs[..|evs| - 1]), evs[|evs| - 1]) then 1 else 0
  }

  function Refired(c: Timers, t: Tx, evs: seq<Event>): nat
    decreases |evs|
  {
    if evs == [] then 0
    else Refired(c, t, evs[..|evs| - 1]) + if Refires(Exec(c, t, evs[..|evs| - 1]), evs[|evs| - 1]) then 1 else 0
  }

  lemma CountGrows(wire: seq<Sent<SIPResponse>>, s: Sent<SIPResponse>)
    ensures forall cause :: Count(wire + [s], cause) == Count(wire, cause) + if s.cause == cause then 1 else 0
    ensures UserWrites(wire + [s]) == UserWrites(wire) + if s.cause == User then [s.msg] else []
  {}

  lemma {:induction false} AnsweredIff(wire: seq<Sent<SIPResponse>>)
    ensures UserWrites(wire) == [] <==> Latest(wire, |wire|).None?
  {
    if wire != [] {
      var n := |wire| - 1;
      AnsweredIff(wire[..n]);
      LatestOfPrefix(wire[..n], [wire[n]], n);
      assert wire[..n] + [wire[n]] == wire;
    }
  }

  /** What a step writes, and why. */
  function Written(t: Tx, e: Event): seq<Sent<SIPResponse>> {
    if Takes(t, e) then [Sent(t.now, t.slot.value, User)]
    else if Asks(t, e) && t.last.Some? then [Sent(t.now, t.last.value, Replay)]
    else if Refires(t, e) && t.last.Some? then [Sent(t.now, t.last.value, Timer)]
    else []
  }

  lemma TakeWrites(c: Timers, t: Tx)
    requires t.running && t.slot.Some?
    ensures Taken(c, t).wire == t.wire + Written(t, Take)
  {}

  lemma ReceiptWrites(c: Timers, t: Tx, req: SIPRequest)
    requires t.last.Some? <==> UserWrites(t.wire) != []
    ensures Received(c, t, req).wire == t.wire + Written(t, Receive(req))
  {
    assert t.wire + [] == t.wire;
  }

  lemma StepWrites(c: Timers, t: Tx, e: Event)
    requires Sound(c, t)
    ensures Apply(c, t, e).wire == t.wire + Written(t, e)
  {
    AnsweredIff(t.wire);
    assert t.wire + [] == t.wire;
    if Enabled(t, e) {
      match e
      case Take => TakeWrites(c, t);
      case Receive(req) => ReceiptWrites(c, t, req);
      case FireG => GWrites(c, t);
      case FireStrayG(k) => StrayGWrites(c, t, k);
      case _ =>
    }
  }

  lemma GWrites(c: Timers, t: Tx)
    requires PulseDue(t.g, t.now)
    ensures FiredG(c, t).wire == t.wire + Written(t, FireG)
  {
    assert t.wire + [] == t.wire;
  }

  lemma StrayGWrites(c: Timers, t: Tx, k: nat)
    requires k < |t.strayG| && t.strayG[k].due <= t.now
    ensures FiredStrayG(c, t, k).wire == t.wire + Written(t, FireStrayG(k))
  {
    assert t.wire + [] == t.wire;
  }

  /** Over every run and for every user: the user's writes are exactly the responses taken before
      the end, the replays are as many as the copies of the request that came after the first of
      them and before the ACK, and the timer's writes as many as the expiries of Timer G. */
  lemma {:induction false} Conservation(c: Timers, req: SIPRequest, now: nat, evs: seq<Event>)
    ensures var t0 := Started(req, now);
      var wire := Exec(c, t0, evs).wire;
      && UserWrites(wire) == Accepted(c, t0, evs)
      && Count(wire, Replay) == Copies(c, t0, evs) && Count(wire, Timer) == Refired(c, t0, evs)
      && |wire| == 1 + |Accepted(c, t0, evs)| + Copies(c, t0, evs) + Refired(c, t0, evs)
    decreases |evs|
  {
    var t0 := Started(req, now);
    if evs == [] {
      CountGrows([], t0.wire[0]);
      assert [] + [t0.wire[0]] == t0.wire;
    } else {
      var front, e := evs[..|evs| - 1], evs[|evs| - 1];
      var s := Exec(c, t0, front);
      Conservation(c, req, now, front);
      RunSound(c, req, now, front);
      StepWrites(c, s, e);
      WrittenCounts(c, s, e);
    }
  }

  lemma WrittenCounts(c: Timers, t: Tx, e: Event)
    requires Sound(c, t)
    ensures var wire := t.wire + Written(t, e);
      && |wire| == |t.wire| + (if Takes(t, e) || Asks(t, e) || Refires(t, e) then 1 else 0)
      && UserWrites(wire) == UserWrites(t.wire) + (if Takes(t, e) then [t.slot.value] else [])
      && Count(wire, Replay) == Count(t.wire, Replay) + (if Asks(t, e) then 1 else 0)
      && Count(wire, Timer) == Count(t.wire, Timer) + (if Refires(t, e) then 1 else 0)
  {
    AnsweredIff(t.wire);
    assert t.wire + [] == t.wire;
    if Written(t, e) != [] { CountGrows(t.wire, Written(t, e)[0]); }
  }

  /** The state moves backwards exactly when an error final is taken after the ACK. */
  lemma RankFallsExactly(c: Timers, t: Tx, e: Event)
    ensures Rank(Apply(c, t, e).state) < Rank(t.state)
      <==> e == Take && t.running && t.slot.Some? && ErrorFinal(t.slot.value) && t.state == Confirmed
  {
    if !e.Take? { RankKept(c, t, e); }
  }

  lemma RankKept(c: Timers, t: Tx, e: Event)
    requires !e.Take?
    ensures Rank(t.state) <= Rank(Apply(c, t, e).state)
  {}

  lemma ExecSnoc(c: Timers, t: Tx, evs: seq<Event>, e: Event)
    ensures Exec(c, t, evs + [e]) == Apply(c, Exec(c, t, evs), e)
  {
    assert (evs + [e])[..|evs|] == evs;
  }

  /** And a run gets there: a user that sends a second error final after the ACK of the first. */
  lemma ErrorAfterAck(c: Timers, req: SIPRequest, now: nat, f: SIPResponse, ack: SIPRequest, g: SIPResponse)
    requires !c.reliable && ErrorFinal(f) && ErrorFinal(g) && ack.verb == "ACK"
    ensures var t := Exec(c, Started(req, now), [] + [Respond(f)] + [Take] + [Receive(ack)] + [Respond(g)]);
      t.state == Confirmed && Apply(c, t, Take).state == Completed
  {
    var t0 := Started(req, now);
    ExecSnoc(c, t0, [], Respond(f));
    ExecSnoc(c, t0, [] + [Respond(f)], Take);
    ExecSnoc(c, t0, [] + [Respond(f)] + [Take], Receive(ack));
    ExecSnoc(c, t0, [] + [Respond(f)] + [Take] + [Receive(ack)], Respond(g));
    var t1 := Apply(c, t0, Respond(f));
    var t2 := Apply(c, t1, Take);
    assert t2.state == Completed && t2.running && t2.slot.None?;
    var t3 := Apply(c, t2, Receive(ack));
    assert t3.state == Confirmed && t3.running && t3.slot.None?;
  }

  /** A step that writes `res` once or not at all, and stores nothing else. */
  predicate OneWrite(t: Tx, t': Tx, res: SIPResponse) {
    && t'.offered == t.offered && (t'.slot == t.slot || t'.slot == None)
    && (t'.last == t.last || t'.last == Some(res))
    && (t'.wire == t.wire || (|t'.wire| == |t.wire| + 1 && t.wire <= t'.wire && t'.wire[|t.wire|].msg == res))
  }

  lemma TakenWrites(c: Timers, t: Tx)
    requires t.slot.Some?
    ensures OneWrite(t, Taken(c, t), t.slot.value)
  {}

  lemma ReceivedWrites(c: Timers, t: Tx, req: SIPRequest, res: SIPResponse)
    requires t.last.Some? ==> t.last.value == res
    ensures OneWrite(t, Received(c, t, req), res)
  {}

  lemma FiringWrites(c: Timers, t: Tx, e: Event, res: SIPResponse)
    requires Enabled(t, e) && !e.Respond? && !e.Take? && !e.Receive? && (t.last.Some? ==> t.last.value == res)
    ensures OneWrite(t, Effect(c, t, e), res)
  {
    if e.FireG? {
      EndsAfterG(c, t);
    } else if e.FireStrayG? {
      StrayWrites(c, t, e.k, res);
    }
  }

  lemma StrayWrites(c: Timers, t: Tx, k: nat, res: SIPResponse)
    requires k < |t.strayG| && (t.last.Some? ==> t.last.value == res)
    ensures OneWrite(t, FiredStrayG(c, t, k), res)
  {}

  // ----- a user that sends nothing after a final -----

  /** Only the last response may be final. */
  predicate FinalIsLast(rs: seq<SIPResponse>) { forall i :: 0 <= i < |rs| - 1 ==> !Final(rs[i]) }

  /** Timer-caused writes so far. */
  function Resends(wire: seq<Sent<SIPResponse>>): nat { Count(wire, Timer) }

  lemma ResendsGrow(wire: seq<Sent<SIPResponse>>, s: Sent<SIPResponse>)
    ensures Resends(wire + [s]) == Resends(wire) + if s.cause == Timer then 1 else 0
  {
    CountGrows(wire, s);
  }

  /** Where the error final `f` was written, and that only copies of it follow. */
  predicate FrozenFrom(wire: seq<Sent<SIPResponse>>, k: nat, f: SIPResponse, at: nat) {
    && k < |wire| && wire[k] == Sent(at, f, User)
    && (forall j :: 0 <= j < k ==> wire[j].cause != Timer)
    && (forall j :: k <= j < |wire| ==> wire[j].msg == f && (j > k ==> wire[j].cause in {Replay, Timer}))
  }

  ghost predicate Frozen(wire: seq<Sent<SIPResponse>>, f: SIPResponse, at: nat) {
    exists k :: FrozenFrom(wire, k, f, at)
  }

  lemma FrozenGrows(wire: seq<Sent<SIPResponse>>, f: SIPResponse, at: nat, s: Sent<SIPResponse>)
    requires Frozen(wire, f, at) && s.msg == f && s.cause in {Replay, Timer}
    ensures Frozen(wire + [s], f, at)
  {
    var k :| FrozenFrom(wire, k, f, at);
    assert FrozenFrom(wire + [s], k, f, at);
  }

  /** The error final is the user's last word, is stored, and froze the wire. */
  ghost predicate OnFinal(t: Tx) {
    var n := |t.offered|;
    && n > 0 && ErrorFinal(t.offered[n - 1]) && t.slot.None?
    && t.last == Some(t.offered[n - 1]) && Frozen(t.wire, t.offered[n - 1], t.since)
  }

  predicate InProceeding(t: Tx) {
    && t.g.None? && t.h.None? && t.i.None? && Resends(t.wire) == 0
    && (forall k :: 0 <= k < |t.wire| ==> t.wire[k].cause != Timer)
  }

  /** Timer G has fired `n` times since the final and fires next on the capped schedule. */
  predicate OnSchedule(c: Timers, t: Tx, n: nat) {
    if c.reliable then t.g.None? && n == 0
    else
      && t.g == Some(Pulse(t.since + CappedOffset(c, n + 1), CappedInterval(c, n)))
      && t.since + CappedOffset(c, n) <= t.now <= t.since + CappedOffset(c, n + 1)
  }

  ghost predicate InCompleted(c: Timers, t: Tx) {
    && OnFinal(t) && t.i.None? && t.h == Some(t.since + 64 * c.t1)
    && t.since <= t.now <= t.since + 64 * c.t1
    && OnSchedule(c, t, Resends(t.wire))
  }

  ghost predicate InConfirmed(c: Timers, t: Tx) {
    && OnFinal(t) && t.g.None? && t.h.None? && !c.reliable
    && t.i.Some? && t.now <= t.i.value <= t.since + 64 * c.t1 + c.t4
    && CappedOffset(c, Resends(t.wire)) <= 64 * c.t1
  }

  predicate InTerminated(c: Timers, t: Tx) {
    t.g.None? && t.h.None? && t.i.None? && CappedOffset(c, Resends(t.wire)) <= 64 * c.t1
  }

  ghost predicate Orderly(c: Timers, t: Tx) {
    && t.strayG == [] && t.strayEnds == []
    && (t.slot.Some? ==> t.offered != [] && t.slot.value == t.offered[|t.offered| - 1])
    && match t.state
       case Proceeding => InProceeding(t)
       case Completed => InCompleted(c, t)
       case Confirmed => InConfirmed(c, t)
       case Terminated => InTerminated(c, t)
  }

  lemma TakeStep(c: Timers, t: Tx)
    requires Sane(c) && Orderly(c, t) && FinalIsLast(t.offered) && t.running && t.slot.Some?
    ensures Orderly(c, Taken(c, t)) && Rank(t.state) <= Rank(Taken(c, t).state)
    ensures t.state in {Confirmed, Terminated} ==> Taken(c, t).wire == t.wire
  {
    if t.state == Proceeding {
      var res := t.slot.value;
      ResendsGrow(t.wire, Sent(t.now, res, User));
      if ErrorFinal(res) && !res.Success() {
        FinalStep(c, t);
      } else {
        var t' := t.(slot := None, last := Some(res), wire := t.wire + [Sent(t.now, res, User)]);
        assert InProceeding(t') && CappedOffset(c, 0) == 0;
      }
    }
  }

  /** The first error final freezes the wire. */
  lemma NewFinal(t: Tx, res: SIPResponse)
    requires InProceeding(t) && ErrorFinal(res)
    ensures var wire := t.wire + [Sent(t.now, res, User)]; Frozen(wire, res, t.now) && Resends(wire) == 0
  {
    var s := Sent(t.now, res, User);
    ResendsGrow(t.wire, s);
    assert FrozenFrom(t.wire + [s], |t.wire|, res, t.now);
  }

  /** What taking an error final in Proceeding leads to. */
  function Finished(c: Timers, t: Tx, res: SIPResponse): Tx {
    t.(slot := None, last := Some(res), wire := t.wire + [Sent(t.now, res, User)], state := Completed, since := t.now,
       h := Some(t.now + 64 * c.t1), g := if c.reliable then None else Some(Pulse(t.now + c.t1, c.t1)))
  }

  lemma TakenIsFinished(c: Timers, t: Tx)
    requires t.slot.Some? && ErrorFinal(t.slot.value) && t.state == Proceeding && t.g.None? && t.h.None?
    ensures Taken(c, t) == Finished(c, t, t.slot.value)
  {}

  lemma FinalStep(c: Timers, t: Tx)
    requires Sane(c) && Orderly(c, t) && t.running && t.slot.Some? && t.state == Proceeding
    requires ErrorFinal(t.slot.value)
    ensures var t' := Taken(c, t);
      t'.state == Completed && InCompleted(c, t') && t'.strayG == [] && t'.strayEnds == []
  {
    NewFinal(t, t.slot.value);
    TakenIsFinished(c, t);
    FirstOffset(c);
    assert OnFinal(Finished(c, t, t.slot.value));
  }

  lemma FirstOffset(c: Timers)
    ensures CappedOffset(c, 0) == 0 && CappedOffset(c, 1) == c.t1 && CappedInterval(c, 0) == c.t1
  {}

  lemma AckStep(c: Timers, t: Tx, req: SIPRequest)
    requires Sane(c) && Orderly(c, t) && req.verb == "ACK"
    ensures Orderly(c, Received(c, t, req)) && Rank(t.state) <= Rank(Received(c, t, req).state)
    ensures Received(c, t, req).wire == t.wire
  {}

  lemma ReplayStep(c: Timers, t: Tx, req: SIPRequest)
    requires Sane(c) && Orderly(c, t) && req.verb != "ACK"
    ensures Orderly(c, Received(c, t, req)) && Received(c, t, req).state == t.state
    ensures t.state in {Confirmed, Terminated} ==> Received(c, t, req) == t
  {
    if t.state in {Proceeding, Completed} && t.last.Some? {
      var s := Sent(t.now, t.last.value, Replay);
      assert Received(c, t, req) == t.(wire := t.wire + [s]);
      if t.state == Completed { ReplayCompleted(c, t, s); } else { ReplayProceeding(c, t, s); }
    }
  }

  lemma ReplayCompleted(c: Timers, t: Tx, s: Sent<SIPResponse>)
    requires Orderly(c, t) && t.state == Completed && t.last == Some(s.msg) && s.cause == Replay
    ensures Orderly(c, t.(wire := t.wire + [s]))
  {
    CopyStep(t, s);
    SameSchedule(c, t, t.(wire := t.wire + [s]), Resends(t.wire));
  }

  lemma SameSchedule(c: Timers, t: Tx, t': Tx, n: nat)
    requires OnSchedule(c, t, n) && t'.g == t.g && t'.since == t.since && t'.now == t.now
    ensures OnSchedule(c, t', n)
  {}

  lemma ReplayProceeding(c: Timers, t: Tx, s: Sent<SIPResponse>)
    requires Orderly(c, t) && t.state == Proceeding && s.cause == Replay
    ensures Orderly(c, t.(wire := t.wire + [s]))
  {
    ResendsGrow(t.wire, s);
    assert InProceeding(t.(wire := t.wire + [s]));
  }

  /** One more copy of the stored final. */
  lemma CopyStep(t: Tx, s: Sent<SIPResponse>)
    requires OnFinal(t) && t.last == Some(s.msg) && s.cause in {Replay, Timer}
    ensures OnFinal(t.(wire := t.wire + [s]))
    ensures Resends(t.wire + [s]) == Resends(t.wire) + if s.cause == Timer then 1 else 0
  {
    ResendsGrow(t.wire, s);
    FrozenGrows(t.wire, t.last.value, t.since, s);
  }

  lemma FireGStep(c: Timers, t: Tx)
    requires Sane(c) && Orderly(c, t) && PulseDue(t.g, t.now)
    ensures Orderly(c, FiredG(c, t)) && FiredG(c, t).state == t.state == Completed
  {
    FiredCounts(c, t);
    EndsAfterG(c, t);
    Assemble(c, FiredG(c, t));
  }

  lemma FiredCounts(c: Timers, t: Tx)
    requires Sane(c) && InCompleted(c, t) && PulseDue(t.g, t.now) && t.state == Completed
    ensures OnFinal(FiredG(c, t)) && OnSchedule(c, FiredG(c, t), Resends(FiredG(c, t).wire))
  {
    var s := Sent(t.now, t.last.value, Timer);
    CopyStep(t, s);
    GScheduled(c, t);
    FiredOnFinal(c, t, s);
  }

  lemma Assemble(c: Timers, t: Tx)
    requires OnFinal(t) && t.i.None? && t.h == Some(t.since + 64 * c.t1) && t.since <= t.now <= t.since + 64 * c.t1
    requires OnSchedule(c, t, Resends(t.wire)) && t.strayG == [] && t.strayEnds == [] && t.state == Completed
    ensures Orderly(c, t)
  {}

  lemma FiredOnFinal(c: Timers, t: Tx, s: Sent<SIPResponse>)
    requires t.state == Completed && t.g.Some? && t.last == Some(s.msg) && s == Sent(t.now, s.msg, Timer)
    requires OnFinal(t.(wire := t.wire + [s]))
    ensures OnFinal(FiredG(c, t)) && FiredG(c, t).wire == t.wire + [s]
  {}

  lemma EndsAfterG(c: Timers, t: Tx)
    requires t.g.Some?
    ensures var t' := FiredG(c, t);
      && t'.i == t.i && t'.h == t.h && t'.now == t.now && t'.since == t.since && t'.state == t.state
      && t'.strayG == t.strayG && t'.strayEnds == t.strayEnds && t'.slot == t.slot && t'.offered == t.offered
  {}

  lemma GScheduled(c: Timers, t: Tx)
    requires Sane(c) && InCompleted(c, t) && PulseDue(t.g, t.now) && t.state == Completed
    ensures !c.reliable && OnSchedule(c, FiredG(c, t), Resends(t.wire) + 1)
  {}

  lemma OrderlyStep(c: Timers, t: Tx, e: Event)
    requires Sane(c) && Orderly(c, t) && FinalIsLast(Apply(c, t, e).offered)
    ensures Orderly(c, Apply(c, t, e))
    ensures Rank(t.state) <= Rank(Apply(c, t, e).state)
    ensures t.state in {Confirmed, Terminated} ==> Apply(c, t, e).wire == t.wire
  {
    if Enabled(t, e) {
      match e
      case Respond(res) => RespondStep(c, t, res);
      case Take => TakeStep(c, t);
      case Receive(req) => if req.verb == "ACK" { AckStep(c, t, req); } else { ReplayStep(c, t, req); }
      case FireG => FireGStep(c, t);
      case Tick(to) => TickStep(c, t, to);
      case _ => EndStep(c, t, e);
    }
  }

  lemma TickStep(c: Timers, t: Tx, to: nat)
    requires Orderly(c, t) && MayPass(t, to)
    ensures Orderly(c, t.(now := to))
  {}

  lemma EndStep(c: Timers, t: Tx, e: Event)
    requires Sane(c) && Orderly(c, t) && Enabled(t, e)
    requires e.Exit? || e.FireStrayG? || e.FireH? || e.FireI? || e.FireStrayEnd? || e.Terminate?
    ensures Orderly(c, Effect(c, t, e)) && Rank(t.state) <= Rank(Effect(c, t, e).state)
    ensures Effect(c, t, e).wire == t.wire
  {
    match e
    case Exit => ExitOrderly(c, t);
    case FireH => AllEnded(c, t, t.(h := None));
    case FireI => AllEnded(c, t, t.(i := None));
    case Terminate => AllEnded(c, t, t);
  }

  lemma ExitOrderly(c: Timers, t: Tx)
    requires Orderly(c, t)
    ensures Orderly(c, t.(running := false))
  {
    var t' := t.(running := false);
    match t.state
    case Proceeding => assert InProceeding(t');
    case Completed => assert OnFinal(t') && OnSchedule(c, t', Resends(t.wire));
    case Confirmed => assert OnFinal(t');
    case Terminated =>
  }

  lemma AllEnded(c: Timers, t: Tx, t0: Tx)
    requires Sane(c) && Orderly(c, t) && (t0 == t || t0 == t.(h := None) || t0 == t.(i := None))
    ensures Orderly(c, Ended(t0)) && Ended(t0).state == Terminated && Ended(t0).wire == t.wire
  {
    EndedOrderly(c, t);
    assert InTerminated(c, Ended(t0));
  }

  lemma EndedOrderly(c: Timers, t: Tx)
    requires Sane(c) && Orderly(c, t)
    ensures CappedOffset(c, Resends(t.wire)) <= 64 * c.t1
  {}

  lemma RespondStep(c: Timers, t: Tx, res: SIPResponse)
    requires Orderly(c, t) && t.slot.None? && FinalIsLast(t.offered + [res])
    ensures Orderly(c, t.(slot := Some(res), offered := t.offered + [res]))
  {
    var n := |t.offered|;
    assert n > 0 ==> (t.offered + [res])[n - 1] == t.offered[n - 1] && !Final(t.offered[n - 1]);
  }

  lemma OfferedGrows(c: Timers, t: Tx, e: Event)
    ensures t.offered <= Apply(c, t, e).offered
    ensures FinalIsLast(Apply(c, t, e).offered) ==> FinalIsLast(t.offered)
  {}

  lemma {:induction false} RunOrderly(c: Timers, req: SIPRequest, now: nat, evs: seq<Event>)
    requires Sane(c) && FinalIsLast(Exec(c, Started(req, now), evs).offered)
    ensures Orderly(c, Exec(c, Started(req, now), evs))
  {
    if evs == [] {
      assert Resends([]) == 0;
      ResendsGrow([], Sent(now, PlainResponse(100, "Trying", req), First));
      assert [] + Started(req, now).wire == Started(req, now).wire;
    } else {
      var t := Exec(c, Started(req, now), evs[..|evs| - 1]);
      OfferedGrows(c, t, evs[|evs| - 1]);
      RunOrderly(c, req, now, evs[..|evs| - 1]);
      OrderlyStep(c, t, evs[|evs| - 1]);
    }
  }

  /** Progress, for a user that sends nothing after a final: in every run the state never
      moves back, and once the ACK arrived or the transaction ended nothing is written. */
  lemma Progress(c: Timers, req: SIPRequest, now: nat, evs: seq<Event>, e: Event)
    requires Sane(c)
    requires var t := Exec(c, Started(req, now), evs); FinalIsLast(Apply(c, t, e).offered)
    ensures var t := Exec(c, Started(req, now), evs);
      && Rank(t.state) <= Rank(Apply(c, t, e).state)
      && (t.state in {Confirmed, Terminated} ==> Apply(c, t, e).wire == t.wire)
  {
    var t := Exec(c, Started(req, now), evs);
    OfferedGrows(c, t, e);
    RunOrderly(c, req, now, evs);
    OrderlyStep(c, t, e);
  }

  /** Completed and Confirmed mean the user's last response is the stored error final, and the
      wire carries nothing but copies of it from the moment it was first written. */
  lemma CompletedIsFrozen(c: Timers, req: SIPRequest, now: nat, evs: seq<Event>)
    requires Sane(c)
    requires var t := Exec(c, Started(req, now), evs);
      FinalIsLast(t.offered) && t.state in {Completed, Confirmed}
    ensures var t := Exec(c, Started(req, now), evs);
      && t.offered != []
      && var f := t.offered[|t.offered| - 1];
      && ErrorFinal(f) && t.last == Some(f) && Frozen(t.wire, f, t.since)
  {
    RunOrderly(c, req, now, evs);
  }

  /** Timer G resends a final at most ten times when T2 = 8*T1, and exactly ten times when
      Timer H finds it unacknowledged. */
  lemma TenResends(c: Timers, req: SIPRequest, now: nat, evs: seq<Event>)
    requires Sane(c) && c.t2 == 8 * c.t1
    requires FinalIsLast(Exec(c, Started(req, now), evs).offered)
    ensures var t := Exec(c, Started(req, now), evs);
      && Resends(t.wire) <= 10
      && (Due(t.h, t.now) ==> Resends(t.wire) == if c.reliable then 0 else 10)
  {
    RunOrderly(c, req, now, evs);
    TenResendsAt(c, Exec(c, Started(req, now), evs));
  }

  lemma TenResendsAt(c: Timers, t: Tx)
    requires Sane(c) && c.t2 == 8 * c.t1 && Orderly(c, t)
    ensures Resends(t.wire) <= 10
    ensures Due(t.h, t.now) ==> Resends(t.wire) == if c.reliable then 0 else 10
  {
    var n := Resends(t.wire);
    EndedOrderly(c, t);
    TenFit(c, n);
    TenFit(c, n + 1);
    if Due(t.h, t.now) { HIsLate(c, t); }
  }

  lemma HIsLate(c: Timers, t: Tx)
    requires Orderly(c, t) && Due(t.h, t.now)
    ensures t.state == Completed && OnSchedule(c, t, Resends(t.wire)) && t.now == t.since + 64 * c.t1
  {}

  /** Lifetime: an unfinished transaction is at most 64*T1 + T4 past its only error final, and
      before the ACK at most 64*T1; a 2xx ends it in the step that writes it. */
  lemma Lifetime(c: Timers, req: SIPRequest, now: nat, evs: seq<Event>)
    requires Sane(c) && FinalIsLast(Exec(c, Started(req, now), evs).offered)
    ensures var t := Exec(c, Started(req, now), evs);
      && (t.state == Completed ==> !t.done && t.now <= t.since + 64 * c.t1)
      && (t.state == Confirmed ==> !t.done && t.now <= t.since + 64 * c.t1 + c.t4)
      && (t.last.Some? && t.last.value.Success() ==> t.done)
  {
    RunOrderly(c, req, now, evs);
    RunSound(c, req, now, evs);
    SuccessEnds(c, req, now, evs);
  }

  predicate SuccessDone(t: Tx) { t.last.Some? && t.last.value.Success() ==> t.state == Terminated }

  lemma SuccessTake(c: Timers, t: Tx)
    requires SuccessDone(t) && t.slot.Some?
    ensures SuccessDone(Taken(c, t))
  {}

  lemma SuccessStep(c: Timers, t: Tx, e: Event)
    requires SuccessDone(t)
    ensures SuccessDone(Apply(c, t, e))
  {
    if e.Take? {
      if Enabled(t, e) { SuccessTake(c, t); }
    } else {
      LastKept(c, t, e);
    }
  }

  /** Only the loop stores a response, and no other step revives the transaction. */
  lemma LastKept(c: Timers, t: Tx, e: Event)
    requires !e.Take?
    ensures Apply(c, t, e).last == t.last && (t.state == Terminated ==> Apply(c, t, e).state == Terminated)
  {}

  lemma {:induction false} SuccessEnds(c: Timers, req: SIPRequest, now: nat, evs: seq<Event>)
    ensures SuccessDone(Exec(c, Started(req, now), evs))
  {
    if evs != [] {
      SuccessEnds(c, req, now, evs[..|evs| - 1]);
      SuccessStep(c, Exec(c, Started(req, now), evs[..|evs| - 1]), evs[|evs| - 1]);
    }
  }

  // ----- the transaction object -----

  /** What becomes of a response handed to the transaction. */
  datatype Queueing = Queued | Gone | Blocked

  /** The fields of the Go struct, the armed timers, the clock and the transport trace. */
  class InviteServerTx {
    const timers: Timers
    const originalReq: SIPRequest
    var state: State
    var lastResponse: Option<SIPResponse>
    var timerG: Option<Pulse>
    var timerH: Option<nat>
    var timerI: Option<nat>
    var strayG: seq<Pulse>
    var strayEnds: seq<nat>
    var responses: Option<SIPResponse>
    var doneClosed: bool
    var running: bool
    var now: nat
    var wire: seq<Sent<SIPResponse>>
    ghost var since: nat
    ghost var offered: seq<SIPResponse>

    ghost function Model(): Tx
      reads this
    {
      Tx(originalReq, state, lastResponse, timerG, strayG, timerH, timerI, strayEnds,
         responses, doneClosed, running, now, since, wire, offered)
    }

    constructor (req: SIPRequest, timers: Timers, now: nat)
      ensures Model() == Started(req, now) && this.timers == timers
    {
      this.timers, originalReq, state, lastResponse := timers, req, Proceeding, None;
      timerG, timerH, timerI, strayG, strayEnds := None, None, None, [], [];
      responses, doneClosed, running, this.now := None, false, true, now;
      wire := [Sent(now, PlainResponse(100, "Trying", req), First)];
      since, offered := now, [];
    }

    method Send(res: SIPResponse, cause: Cause)
      modifies this
      ensures Model() == Write(old(Model()), res, cause)
    {
      wire := wire + [Sent(now, res, cause)];
    }

    method Terminate()
      modifies this
      ensures Model() == Ended(old(Model()))
    {
      if state == Terminated { return; }
      state := Terminated;
      timerG, timerH, timerI := None, None, None;
      doneClosed := true;
    }

    method Receive(req: SIPRequest)
      modifies this
      ensures Model() == Received(timers, old(Model()), req)
    {
      if req.verb == "ACK" {
        if state == Completed {
          state := Confirmed;
          timerG, timerH := None, None;
          if timers.reliable {
            Terminate();
            return;
          }
          strayEnds := Left(timerI, strayEnds);
          timerI := Some(now + timers.t4);
        }
        return;
      }
      if (state == Proceeding || state == Completed) && lastResponse.Some? {
        Send(lastResponse.value, Replay);
      }
    }

    /** The caller waits on a full slot (`Blocked`) and is told when the transaction is over
        (`Gone`); if the slot is free and `done` closed, either may happen. */
    method Respond(res: SIPResponse) returns (outcome: Queueing)
      modifies this
      ensures outcome == Blocked <==> old(responses).Some? && !old(doneClosed)
      ensures outcome == Queued ==> old(responses).None?
      ensures outcome == Gone ==> old(doneClosed)
      ensures Model() == if outcome == Queued then Effect(timers, old(Model()), Event.Respond(res)) else old(Model())
    {
      if
      case responses.None? =>
        responses := Some(res);
        offered := offered + [res];
        outcome := Queued;
      case doneClosed => outcome := Gone;
      case responses.Some? && !doneClosed => outcome := Blocked;
    }

    method StartTimerG()
      modifies this
      ensures Model() == if timers.reliable then old(Model())
        else old(Model()).(g := Some(Pulse(now + timers.t1, timers.t1)), strayG := Left(old(timerG), old(strayG)))
    {
      if timers.reliable { return; }
      strayG := Left(timerG, strayG);
      timerG := Some(Pulse(now + timers.t1, timers.t1));
    }

    /** The body of the `run` loop for a queued response. */
    method TakeResponse()
      requires running && responses.Some?
      modifies this
      ensures Model() == Taken(timers, old(Model()))
    {
      var res := responses.value;
      responses := None;
      if state == Terminated {
        running := false;
        return;
      }
      lastResponse := Some(res);
      Send(res, User);
      if 200 <= res.status < 300 {
        Terminate();
        running := false;
      } else if 300 <= res.status < 700 {
        AwaitAck();
      }
    }

    /** The part of the loop that follows an error final. */
    method AwaitAck()
      modifies this
      ensures Model() == Completing(timers, old(Model()))
    {
      state, since := Completed, now;
      StartTimerG();
      strayEnds := Left(timerH, strayEnds);
      timerH := Some(now + 64 * timers.t1);
    }

    method FireTimerG()
      requires PulseDue(timerG, now)
      modifies this
      ensures Model() == FiredG(timers, old(Model()))
    {
      var interval := timerG.value.interval;
      if state != Completed || lastResponse.None? {
        timerG := None;
        return;
      }
      Send(lastResponse.value, Timer);
      interval := interval * 2;
      if interval > timers.t2 { interval := timers.t2; }
      timerG := Some(Pulse(now + interval, interval));
    }

    method FireStray(k: nat)
      requires k < |strayG| && strayG[k].due <= now
      modifies this
      ensures Model() == FiredStrayG(timers, old(Model()), k)
    {
      var interval := strayG[k].interval;
      strayG := strayG[..k] + strayG[k + 1..];
      if state != Completed || lastResponse.None? { return; }
      Send(lastResponse.value, Timer);
      interval := interval * 2;
      if interval > timers.t2 { interval := timers.t2; }
      timerG := Some(Pulse(now + interval, if timerG.Some? then timerG.value.interval else interval));
    }

    method FireTimerH()
      requires Due(timerH, now)
      modifies this
      ensures Model() == Effect(timers, old(Model()), FireH)
    {
      timerH := None;
      Terminate();
    }

    method FireTimerI()
      requires Due(timerI, now)
      modifies this
      ensures Model() == Effect(timers, old(Model()), FireI)
    {
      timerI := None;
      Terminate();
    }
  }
}
