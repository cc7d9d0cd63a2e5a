/** The INVITE client transaction (section 17.1.1 of RFC 3261): the machine as a step
    function, what holds over all its runs, and the class that carries it out. */
module InviteClient {
  import opened Wrappers
  import opened Message
  import opened Timing

  datatype State = Calling | Proceeding | Completed | Terminated

  function Rank(s: State): nat {
    match s case Calling => 0 case Proceeding => 1 case Completed => 2 case Terminated => 3
  }

  predicate Final(res: SIPResponse) { res.status >= 200 }

  /** What Timer B hands the user. */
  const TIMEOUT: SIPResponse := SIPResponse("", 408, "Request Timeout", map[], "")

  /** `bWaits`: Timer B has fired and its goroutine waits for room in the response channel.
      `handed` is what `ReceiveResponse` put into the channel, in order. */
  datatype Tx = Tx(
    req: SIPRequest, state: State, last: Option<SIPResponse>,
    a: Option<Pulse>, b: Option<nat>, bWaits: bool, d: Option<nat>,
    slot: Option<SIPResponse>, done: bool, now: nat, start: nat,
    wire: seq<Sent<SIPRequest>>, handed: seq<SIPResponse>)

  datatype Event =
    | Receive(res: SIPResponse) | Drain
    | FireA | FireB | ReleaseB | FireD
    | Terminate
    | Tick(to: nat)

  // ----- the steps -----

  /** The first send and the arming of Timers A and B, as one step. */
  function Started(c: Timers, req: SIPRequest, now: nat): Tx {
    Tx(req, Calling, None,
       if c.reliable then None else Some(Pulse(now + c.t1, c.t1)), Some(now + 64 * c.t1), false, None,
       None, false, now, now, [Sent(now, req, First)], [])
  }

  function Write(t: Tx, req: SIPRequest, cause: Cause): Tx {
    t.(wire := t.wire + [Sent(t.now, req, cause)])
  }

  function Ended(t: Tx): Tx {
    if t.state == Terminated then t
    else t.(state := Terminated, a := None, b := None, d := None, done := true)
  }

  /** A non-blocking send to the user: dropped when the channel is full. */
  function Hand(t: Tx, res: SIPResponse): Tx {
    if t.slot.Some? then t else t.(slot := Some(res), handed := t.handed + [res])
  }

  function Acked(t: Tx, ack: SIPRequest): Tx { Write(t, ack, Ack) }

  /** `ack` is the ACK for `res`. */
  function Answered(c: Timers, t: Tx, res: SIPResponse, ack: SIPRequest): Tx {
    var t0 := t.(last := Some(res));
    if t.state == Terminated then t0
    else if res.Provisional() then
      Hand(if t.state == Calling then t0.(state := Proceeding, a := None) else t0, res)
    else if res.status >= 300 then
      if t.state == Completed then Acked(t0, ack)
      else
        var t' := Acked(Hand(t0.(state := Completed), res), ack);
        if c.reliable then Ended(t') else t'.(d := Some(t.now + TIMER_D))
    else if res.Success() && t.state != Completed then
      // the state is already Terminated when `Terminate` runs, so `done` stays open
      Ended(Hand(t0.(state := Terminated), res))
    else t0
  }

  function Received(c: Timers, t: Tx, res: SIPResponse): Tx { Answered(c, t, res, BuildAck(res, t.req)) }

  function FiredA(t: Tx): Tx
    requires t.a.Some?
  {
    if t.state != Calling then t.(a := None)
    else
      var iv := 2 * t.a.value.interval;
      Write(t, t.req, Timer).(a := Some(Pulse(t.now + iv, iv)))
  }

  function FiredB(t: Tx): Tx {
    if t.slot.Some? then t.(b := None, bWaits := true) else Ended(t.(b := None, slot := Some(TIMEOUT)))
  }

  predicate MayPass(t: Tx, to: nat) {
    && t.now < to && PulseClear(t.a, to) && Clear(t.b, to) && Clear(t.d, to)
    && !(t.bWaits && t.slot.None?)
  }

  predicate Enabled(t: Tx, e: Event) {
    match e
    case Receive(_) => true
    case Drain => t.slot.Some?
    case FireA => PulseDue(t.a, t.now)
    case FireB => Due(t.b, t.now)
    case ReleaseB => t.bWaits && t.slot.None?
    case FireD => Due(t.d, t.now)
    case Terminate => true
    case Tick(to) => MayPass(t, to)
  }

  function Effect(c: Timers, t: Tx, e: Event): Tx
    requires Enabled(t, e)
  {
    match e
    case Receive(res) => Received(c, t, res)
    case Drain => t.(slot := None)
    case FireA => FiredA(t)
    case FireB => FiredB(t)
    case ReleaseB => Ended(t.(bWaits := false, slot := Some(TIMEOUT)))
    case FireD => Ended(t.(d := None))
    case Terminate => Ended(t)
    case Tick(to) => t.(now := to)
  }

  function Apply(c: Timers, t: Tx, e: Event): Tx { if Enabled(t, e) then Effect(c, t, e) else t }

  function Exec(c: Timers, t: Tx, evs: seq<Event>): Tx
    decreases |evs|
  {
    if evs == [] then t else Apply(c, Exec(c, t, evs[..|evs| - 1]), evs[|evs| - 1])
  }

  // ----- ACK accounting -----

  /** The ACKs on the wire, in order. */
  function Acks(wire: seq<Sent<SIPRequest>>): seq<SIPRequest> {
    if wire == [] then []
    else
      var n := |wire| - 1;
      Acks(wire[..n]) + if wire[n].cause == Ack then [wire[n].msg] else []
  }

  function AcksFor(rs: seq<SIPResponse>, req: SIPRequest): seq<SIPRequest> {
    seq(|rs|, i requires 0 <= i < |rs| => BuildAck(rs[i], req))
  }

  function Finals(rs: seq<SIPResponse>): nat {
    if rs == [] then 0
    else Finals(rs[..|rs| - 1]) + if Final(rs[|rs| - 1]) then 1 else 0
  }

  lemma WireGrows(wire: seq<Sent<SIPRequest>>, s: Sent<SIPRequest>)
    ensures Acks(wire + [s]) == Acks(wire) + if s.cause == Ack then [s.msg] else []
  {}

  lemma AcksForGrow(rs: seq<SIPResponse>, res: SIPResponse, req: SIPRequest)
    ensures AcksFor(rs + [res], req) == AcksFor(rs, req) + [BuildAck(res, req)]
  {}

  /** The responses of 300 and above received before the transaction ended. */
  function ErrorsSeen(c: Timers, t: Tx, evs: seq<Event>): seq<SIPResponse>
    decreases |evs|
  {
    if evs == [] then []
    else
      var front, e := evs[..|evs| - 1], evs[|evs| - 1];
      ErrorsSeen(c, t, front)
      + if e.Receive? && e.res.status >= 300 && Exec(c, t, front).state != Terminated then [e.res] else []
  }

  /** What receiving `res` does to the parts the accounts are about, for its ACK `ack`. */
  predicate Reaction(t: Tx, res: SIPResponse, ack: SIPRequest, t': Tx) {
    && t'.req == t.req && t'.start == t.start && Rank(t.state) <= Rank(t'.state)
    && t'.wire == t.wire + (if res.status >= 300 && t.state != Terminated then [Sent(t.now, ack, Ack)] else [])
    && (t'.handed == t.handed
        || (t'.handed == t.handed + [res] && Rank(t.state) <= (if Final(res) then 1 else 2)
            && (Final(res) ==> Rank(t'.state) > 1)))
    && (t'.state == Calling ==> t' == t.(last := Some(res)))
  }

  lemma Reacts(c: Timers, t: Tx, res: SIPResponse)
    ensures Reaction(t, res, BuildAck(res, t.req), Received(c, t, res))
  {
    var ack := BuildAck(res, t.req);
    if res.status < 300 || t.state == Terminated { ReactsToOther(c, t, res, ack); }
    else { ReactsToError(c, t, res, ack); }
  }

  /** What an answer leaves on the wire. */
  lemma AnsweredWire(c: Timers, t: Tx, res: SIPResponse, ack: SIPRequest)
    ensures Answered(c, t, res, ack).wire ==
      if res.status >= 300 && t.state != Terminated then t.wire + [Sent(t.now, ack, Ack)] else t.wire
  {}

  lemma ReactsToError(c: Timers, t: Tx, res: SIPResponse, ack: SIPRequest)
    requires res.status >= 300 && t.state != Terminated
    ensures Reaction(t, res, ack, Answered(c, t, res, ack))
  {
    AnsweredWire(c, t, res, ack);
    match t.state
    case Completed =>
    case Calling =>
    case Proceeding =>
  }

  lemma ReactsToOther(c: Timers, t: Tx, res: SIPResponse, ack: SIPRequest)
    requires res.status < 300 || t.state == Terminated
    ensures Reaction(t, res, ack, Answered(c, t, res, ack))
  {
    assert t.wire + [] == t.wire;
  }

  lemma Unacked(t: Tx, t': Tx)
    requires t'.wire == t.wire
    ensures Acks(t'.wire) == Acks(t.wire) + []
  {}

  lemma AnswerAcks(c: Timers, t: Tx, res: SIPResponse, ack: SIPRequest)
    ensures Acks(Answered(c, t, res, ack).wire) ==
      Acks(t.wire) + if res.status >= 300 && t.state != Terminated then [ack] else []
  {
    AnsweredWire(c, t, res, ack);
    WireGrows(t.wire, Sent(t.now, ack, Ack));
    assert Acks(t.wire) + [] == Acks(t.wire);
  }

  /** A step adds an ACK exactly for a response of 300 and above before the end. */
  lemma StepAcks(c: Timers, t: Tx, e: Event)
    ensures var t' := Apply(c, t, e);
      Acks(t'.wire) == Acks(t.wire)
        + if e.Receive? && e.res.status >= 300 && t.state != Terminated then [BuildAck(e.res, t.req)] else []
  {
    if e.Receive? {
      AnswerAcks(c, t, e.res, BuildAck(e.res, t.req));
    } else if e.FireA? && Enabled(t, e) && t.state == Calling {
      WireGrows(t.wire, Sent(t.now, t.req, Timer));
    } else {
      Unacked(t, Apply(c, t, e));
    }
  }

  /** What a step may do to the state and to the finals handed over: at most one final is
      handed, and that takes the machine out of the states that hand finals. */
  predicate HandsOnce(t: Tx, t': Tx) {
    && Rank(t.state) <= Rank(t'.state) && t'.req == t.req && t'.start == t.start
    && Finals(t'.handed) <= Finals(t.handed) + (if Rank(t.state) <= 1 then 1 else 0)
    && (Rank(t'.state) <= 1 ==> Finals(t'.handed) == Finals(t.handed))
  }

  lemma ReactionHands(t: Tx, res: SIPResponse, ack: SIPRequest, t': Tx)
    requires Reaction(t, res, ack, t')
    ensures HandsOnce(t, t')
  {}

  lemma StepHands(c: Timers, t: Tx, e: Event)
    ensures HandsOnce(t, Apply(c, t, e))
  {
    if e.Receive? {
      Reacts(c, t, e.res);
      ReactionHands(t, e.res, BuildAck(e.res, t.req), Apply(c, t, e));
    } else {
      assert Apply(c, t, e).handed == t.handed;
    }
  }

  /** ACK accounting over every run: one ACK per response of 300 and above received before the
      end, in order and built from it; `ReceiveResponse` hands up at most one final. */
  lemma {:induction false} AckAccounting(c: Timers, req: SIPRequest, now: nat, evs: seq<Event>)
    ensures var t := Exec(c, Started(c, req, now), evs);
      && t.req == req && t.start == now
      && Acks(t.wire) == AcksFor(ErrorsSeen(c, Started(c, req, now), evs), req)
      && Finals(t.handed) <= 1 && (Rank(t.state) <= 1 ==> Finals(t.handed) == 0)
  {
    var t0 := Started(c, req, now);
    if evs == [] {
      WireGrows([], Sent(now, req, First));
      assert [] + t0.wire == t0.wire;
    } else {
      var front, e := evs[..|evs| - 1], evs[|evs| - 1];
      AckAccounting(c, req, now, front);
      StepAcks(c, Exec(c, t0, front), e);
      StepHands(c, Exec(c, t0, front), e);
      if e.Receive? { AcksForGrow(ErrorsSeen(c, t0, front), e.res, req); }
    }
  }

  /** The state never moves back: it is no earlier than after any part of the run. */
  lemma {:induction false} NeverMovesBack(c: Timers, t: Tx, evs: seq<Event>, i: nat)
    requires i <= |evs|
    ensures Rank(Exec(c, t, evs[..i]).state) <= Rank(Exec(c, t, evs).state)
    decreases |evs|
  {
    if i == |evs| {
      assert evs[..i] == evs;
    } else {
      var front := evs[..|evs| - 1];
      NeverMovesBack(c, t, front, i);
      assert front[..i] == evs[..i];
      StepHands(c, Exec(c, t, front), evs[|evs| - 1]);
    }
  }

  // ----- what reaches the user -----

  /** The user would be handed `res` now: there is room, and `res` is provisional before the end
      or a final while none has come. */
  predicate Listening(t: Tx, res: SIPResponse) {
    t.slot.None? && if Final(res) then Rank(t.state) <= 1 else res.Provisional() && t.state != Terminated
  }

  /** Everything that must reach the user: those responses, and a 408 each time Timer B finds room. */
  function Owed(c: Timers, t: Tx, evs: seq<Event>): seq<SIPResponse>
    decreases |evs|
  {
    if evs == [] then []
    else
      var front, e := evs[..|evs| - 1], evs[|evs| - 1];
      var s := Exec(c, t, front);
      Owed(c, t, front)
      + if e.Receive? && Listening(s, e.res) then [e.res]
        else if (e.FireB? || e.ReleaseB?) && Enabled(s, e) && s.slot.None? then [TIMEOUT]
        else []
  }

  /** What the user has taken out of its channel. */
  function Taken(c: Timers, t: Tx, evs: seq<Event>): seq<SIPResponse>
    decreases |evs|
  {
    if evs == [] then []
    else
      var front := evs[..|evs| - 1];
      var s := Exec(c, t, front);
      Taken(c, t, front) + if evs[|evs| - 1] == Drain && s.slot.Some? then [s.slot.value] else []
  }

  /** What a response must do to the channel, to the account and to the state. */
  predicate Delivered(c: Timers, t: Tx, res: SIPResponse, t': Tx) {
    && t'.slot == (if Listening(t, res) then Some(res) else t.slot)
    && t'.handed == t.handed + (if Listening(t, res) then [res] else [])
    && t'.state ==
         if t.state == Calling && res.Provisional() then Proceeding
         else if Rank(t.state) <= 1 && Final(res) then (if res.Success() || c.reliable then Terminated else Completed)
         else t.state
  }

  lemma Delivers(c: Timers, t: Tx, res: SIPResponse)
    ensures Delivered(c, t, res, Received(c, t, res))
  {
    var ack := BuildAck(res, t.req);
    if Rank(t.state) <= 1 && Final(res) {
      DeliversFinal(c, t, res, ack);
    } else {
      DeliversOther(c, t, res, ack);
    }
  }

  lemma DeliversFinal(c: Timers, t: Tx, res: SIPResponse, ack: SIPRequest)
    requires Rank(t.state) <= 1 && Final(res)
    ensures Delivered(c, t, res, Answered(c, t, res, ack))
  {}

  lemma DeliversOther(c: Timers, t: Tx, res: SIPResponse, ack: SIPRequest)
    requires !(Rank(t.state) <= 1 && Final(res))
    ensures Delivered(c, t, res, Answered(c, t, res, ack))
  {}

  lemma DeliveryStep(c: Timers, t: Tx, e: Event)
    requires !e.Receive?
    ensures var t' := Apply(c, t, e);
      var due := if (e.FireB? || e.ReleaseB?) && Enabled(t, e) && t.slot.None? then [TIMEOUT] else [];
      (if e == Drain && t.slot.Some? then [t.slot.value] else []) + Waiting(t'.slot) == Waiting(t.slot) + due
  {}

  /** Nothing that must reach the user is lost, in every run and for every user: what it has taken
      and what waits in the channel is what was due, in order. */
  lemma {:induction false} NothingLost(c: Timers, req: SIPRequest, now: nat, evs: seq<Event>)
    ensures var t0 := Started(c, req, now);
      Taken(c, t0, evs) + Waiting(Exec(c, t0, evs).slot) == Owed(c, t0, evs)
    decreases |evs|
  {
    if evs != [] {
      var t0, front, e := Started(c, req, now), evs[..|evs| - 1], evs[|evs| - 1];
      var s := Exec(c, t0, front);
      NothingLost(c, req, now, front);
      if e.Receive? { Delivers(c, s, e.res); } else { DeliveryStep(c, s, e); }
      OneMoreOwed(
        Taken(c, t0, front), s.slot, Owed(c, t0, front), Taken(c, t0, evs), Apply(c, s, e).slot, Owed(c, t0, evs));
    }
  }

  /** The user keeps its channel free: whatever arrives finds room. */
  ghost predicate KeptFree(c: Timers, t: Tx, evs: seq<Event>)
    decreases |evs|
  {
    evs == []
    || var front, e := evs[..|evs| - 1], evs[|evs| - 1];
       KeptFree(c, t, front) && (e.Receive? ==> Exec(c, t, front).slot.None?)
  }

  /** All responses received, a status below 100 apart. */
  function Responses(evs: seq<Event>): seq<SIPResponse>
    decreases |evs|
  {
    if evs == [] then []
    else
      var e := evs[|evs| - 1];
      Responses(evs[..|evs| - 1]) + if e.Receive? && e.res.status >= 100 then [e.res] else []
  }

  /** No final yet, no Timer B and no outside end. */
  predicate StillOpen(evs: seq<Event>) {
    forall i :: 0 <= i < |evs| ==>
      !evs[i].FireB? && !evs[i].ReleaseB? && !evs[i].Terminate? && (evs[i].Receive? ==> !Final(evs[i].res))
  }

  /** Up to the first final the user is handed every response, in order. */
  lemma {:induction false} HearsAll(c: Timers, req: SIPRequest, now: nat, evs: seq<Event>)
    requires StillOpen(evs) && KeptFree(c, Started(c, req, now), evs)
    ensures var t := Exec(c, Started(c, req, now), evs);
      t.handed == Responses(evs) && Rank(t.state) <= 1 && t.d.None?
    decreases |evs|
  {
    if evs != [] {
      var front, e := evs[..|evs| - 1], evs[|evs| - 1];
      var s := Exec(c, Started(c, req, now), front);
      HearsAll(c, req, now, front);
      if e.Receive? { HearsMore(c, s, e.res); } else { HearsNothing(c, s, e); }
    }
  }

  lemma HearsMore(c: Timers, t: Tx, res: SIPResponse)
    requires Rank(t.state) <= 1 && t.slot.None? && !Final(res) && t.d.None?
    ensures var t' := Received(c, t, res);
      t'.handed == t.handed + (if res.status >= 100 then [res] else []) && Rank(t'.state) <= 1 && t'.d.None?
  {
    Delivers(c, t, res);
  }

  lemma HearsNothing(c: Timers, t: Tx, e: Event)
    requires Rank(t.state) <= 1 && t.d.None? && !e.Receive? && !e.FireB? && !e.ReleaseB? && !e.Terminate?
    ensures var t' := Apply(c, t, e); t'.handed == t.handed && t'.state == t.state && t'.d.None?
  {}

  /** And so the first final: it is in the channel, behind everything before it. */
  lemma HearsFirstFinal(c: Timers, req: SIPRequest, now: nat, evs: seq<Event>, f: SIPResponse)
    requires StillOpen(evs) && Final(f) && KeptFree(c, Started(c, req, now), evs + [Receive(f)])
    ensures var t := Exec(c, Started(c, req, now), evs + [Receive(f)]);
      t.handed == Responses(evs) + [f] && t.slot == Some(f)
  {
    assert (evs + [Receive(f)])[..|evs|] == evs;
    HearsAll(c, req, now, evs);
    Delivers(c, Exec(c, Started(c, req, now), evs), f);
  }

  /** A final came before the end. */
  predicate FinalCame(c: Timers, t: Tx, evs: seq<Event>)
    decreases |evs|
  {
    evs != []
    && var front, e := evs[..|evs| - 1], evs[|evs| - 1];
       FinalCame(c, t, front) || (e.Receive? && Final(e.res) && Exec(c, t, front).state != Terminated)
  }

  predicate FinalHanded(t: Tx, came: bool) {
    && Finals(t.handed) == (if came then 1 else 0)
    && (Rank(t.state) <= 1 ==> !came) && (t.state == Completed ==> came)
  }

  lemma FinalStep(c: Timers, t: Tx, e: Event, came: bool)
    requires FinalHanded(t, came) && (e.Receive? ==> t.slot.None?)
    ensures FinalHanded(Apply(c, t, e), came || (e.Receive? && Final(e.res) && t.state != Terminated))
  {
    if e.Receive? {
      Delivers(c, t, e.res);
      FinalsGrow(t.handed, e.res);
    }
  }

  lemma FinalsGrow(rs: seq<SIPResponse>, res: SIPResponse)
    ensures Finals(rs + [res]) == Finals(rs) + (if Final(res) then 1 else 0) && rs + [] == rs
  {}

  /** In every run of such a user exactly one final is handed over if one came before the end,
      and none otherwise. */
  lemma {:induction false} FinalHandedExactly(c: Timers, req: SIPRequest, now: nat, evs: seq<Event>)
    requires KeptFree(c, Started(c, req, now), evs)
    ensures FinalHanded(Exec(c, Started(c, req, now), evs), FinalCame(c, Started(c, req, now), evs))
    decreases |evs|
  {
    if evs != [] {
      var t0, front, e := Started(c, req, now), evs[..|evs| - 1], evs[|evs| - 1];
      FinalHandedExactly(c, req, now, front);
      FinalStep(c, Exec(c, t0, front), e, FinalCame(c, t0, front));
    }
  }

  /** Timer B is never stopped by a 2xx, and not by an error final on an unreliable transport: at
      64*T1 a user that has long had its final is handed a 408. */
  lemma TimeoutAfterFinal(c: Timers, req: SIPRequest, ringing: SIPResponse, f: SIPResponse)
    requires Sane(c) && ringing.Provisional()
    requires f.Success() || (f.status >= 300 && !c.reliable && 64 * c.t1 <= TIMER_D)
    ensures var t := Exec(c, Started(c, req, 0), Answers(c, ringing, f));
      && t.handed == [ringing] + [f] && t.slot.None? && Rank(t.state) >= 2
      && Enabled(t, FireB) && Apply(c, t, FireB).slot == Some(TIMEOUT)
  {
    var t1 := Apply(c, Received(c, Started(c, req, 0), ringing), Drain);
    AfterAnswers(c, req, ringing, f);
    ExecAnswers(c, Started(c, req, 0), ringing, f);
    TimerBLate(c, Apply(c, Received(c, t1, f), Drain));
  }

  lemma ExecAnswers(c: Timers, t: Tx, ringing: SIPResponse, f: SIPResponse)
    ensures var t1 := Apply(c, Received(c, t, ringing), Drain);
      Exec(c, t, Answers(c, ringing, f)) == Apply(c, Apply(c, Received(c, t1, f), Drain), Tick(64 * c.t1))
  {
    var e1, e2, e3, e4, e5 := Receive(ringing), Drain, Receive(f), Drain, Tick(64 * c.t1);
    ExecSnoc(c, t, [], e1);
    ExecSnoc(c, t, [] + [e1], e2);
    ExecSnoc(c, t, [] + [e1] + [e2], e3);
    ExecSnoc(c, t, [] + [e1] + [e2] + [e3], e4);
    ExecSnoc(c, t, [] + [e1] + [e2] + [e3] + [e4], e5);
  }

  function Answers(c: Timers, ringing: SIPResponse, f: SIPResponse): seq<Event> {
    [] + [Receive(ringing)] + [Drain] + [Receive(f)] + [Drain] + [Tick(64 * c.t1)]
  }

  lemma AfterAnswers(c: Timers, req: SIPRequest, ringing: SIPResponse, f: SIPResponse)
    requires Sane(c) && ringing.Provisional()
    requires f.Success() || (f.status >= 300 && !c.reliable && 64 * c.t1 <= TIMER_D)
    ensures var t1 := Apply(c, Received(c, Started(c, req, 0), ringing), Drain);
      var t2 := Apply(c, Received(c, t1, f), Drain);
      && t2.handed == [ringing] + [f] && Rank(t2.state) >= 2 && t2.b == Some(64 * c.t1) && !t2.bWaits
      && t2.slot.None? && t2.now == 0 && t2.a.None? && (t2.d.Some? ==> t2.d.value == TIMER_D >= 64 * c.t1)
  {
    var t0 := Started(c, req, 0);
    Delivers(c, t0, ringing);
    Delivers(c, Apply(c, Received(c, t0, ringing), Drain), f);
    assert [] + [ringing] == [ringing];
  }

  /** Timer B is still armed. */
  lemma TimerBLate(c: Timers, t: Tx)
    requires c.t1 > 0 && t.b == Some(64 * c.t1) && t.slot.None? && t.now == 0 && t.a.None? && !t.bWaits
    requires t.d.Some? ==> t.d.value >= 64 * c.t1
    ensures var t' := Apply(c, t, Tick(64 * c.t1));
      && t'.handed == t.handed && t'.slot.None? && t'.state == t.state
      && Enabled(t', FireB) && Apply(c, t', FireB).slot == Some(TIMEOUT)
  {}

  lemma ExecSnoc(c: Timers, t: Tx, evs: seq<Event>, e: Event)
    ensures Exec(c, t, evs + [e]) == Apply(c, Exec(c, t, evs), e)
  {
    assert (evs + [e])[..|evs|] == evs;
  }

  // ----- `done` and a 2xx -----

  /** Some 2xx arrived while the transaction still accepted one. */
  predicate TookSuccess(c: Timers, t: Tx, evs: seq<Event>)
    decreases |evs|
  {
    evs != []
    && var front, e := evs[..|evs| - 1], evs[|evs| - 1];
    TookSuccess(c, t, front)
    || (e.Receive? && e.res.Success() && Rank(Exec(c, t, front).state) <= 1)
  }

  /** `ok` says whether a 2xx has ended the transaction. */
  predicate DoneUnless(t: Tx, ok: bool) {
    (t.done <==> t.state == Terminated && !ok) && (ok ==> t.state == Terminated)
  }

  lemma AnswerDone(c: Timers, t: Tx, res: SIPResponse, ack: SIPRequest, ok: bool)
    requires DoneUnless(t, ok)
    ensures DoneUnless(Answered(c, t, res, ack), ok || (res.Success() && Rank(t.state) <= 1))
  {}

  lemma DoneStep(c: Timers, t: Tx, e: Event, ok: bool)
    requires DoneUnless(t, ok)
    ensures DoneUnless(Apply(c, t, e), ok || (e.Receive? && e.res.Success() && Rank(t.state) <= 1))
  {
    if e.Receive? { AnswerDone(c, t, e.res, BuildAck(e.res, t.req), ok); }
  }

  /** A terminated transaction has closed `done` exactly when no 2xx ended it; after a 2xx
      `done` stays open for ever. */
  lemma {:induction false} DoneExactly(c: Timers, req: SIPRequest, now: nat, evs: seq<Event>)
    ensures DoneUnless(Exec(c, Started(c, req, now), evs), TookSuccess(c, Started(c, req, now), evs))
  {
    if evs != [] {
      var t0, front := Started(c, req, now), evs[..|evs| - 1];
      DoneExactly(c, req, now, front);
      DoneStep(c, Exec(c, t0, front), evs[|evs| - 1], TookSuccess(c, t0, front));
    }
  }

  // ----- retransmission -----

  /** The `k`-th copy of the INVITE, counting from 0. */
  function Copy(c: Timers, t: Tx, k: nat): Sent<SIPRequest> {
    Sent(t.start + DoubledOffset(c, k), t.req, if k == 0 then First else Timer)
  }

  /** `n` copies on schedule, then only ACKs. */
  predicate Copies(c: Timers, t: Tx, n: nat) {
    && 1 <= n <= 7 && n <= |t.wire| && (c.reliable ==> n == 1)
    && (forall k :: 0 <= k < n ==> t.wire[k] == Copy(c, t, k))
    && (forall k :: n <= k < |t.wire| ==> t.wire[k].cause == Ack)
  }

  predicate WhileCalling(c: Timers, t: Tx, n: nat) {
    && n == |t.wire| && n > 0 && t.slot.None? && !t.bWaits && !t.done && t.d.None?
    && t.b == Some(t.start + 64 * c.t1) && t.now <= t.start + 64 * c.t1
    && if c.reliable then t.a.None?
       else
         && t.a == Some(Pulse(t.start + DoubledOffset(c, n), DoubledInterval(c, n - 1)))
         && t.now <= t.start + DoubledOffset(c, n)
  }

  ghost predicate Paced(c: Timers, t: Tx) {
    exists n :: Copies(c, t, n) && (t.state == Calling ==> WhileCalling(c, t, n))
  }

  lemma FireAStep(c: Timers, t: Tx, n: nat)
    requires Sane(c) && Copies(c, t, n) && WhileCalling(c, t, n) && t.state == Calling && PulseDue(t.a, t.now)
    ensures Copies(c, FiredA(t), n + 1) && WhileCalling(c, FiredA(t), n + 1)
  {
    SixFit(c, n);
    assert DoubledInterval(c, n) == 2 * DoubledInterval(c, n - 1);
    assert DoubledOffset(c, n + 1) == DoubledOffset(c, n) + DoubledInterval(c, n);
    var t' := FiredA(t);
    assert t'.wire[n] == Copy(c, t', n);
    assert forall k :: 0 <= k < n ==> t'.wire[k] == t.wire[k] && Copy(c, t', k) == Copy(c, t, k);
  }

  lemma CopiesKept(c: Timers, t: Tx, t': Tx, n: nat)
    requires Copies(c, t, n) && t'.start == t.start && t'.req == t.req
    requires t.wire <= t'.wire && forall k :: |t.wire| <= k < |t'.wire| ==> t'.wire[k].cause == Ack
    ensures Copies(c, t', n)
  {}

  lemma PacedStep(c: Timers, t: Tx, e: Event)
    requires Sane(c) && Paced(c, t)
    ensures Paced(c, Apply(c, t, e))
  {
    var n :| Copies(c, t, n) && (t.state == Calling ==> WhileCalling(c, t, n));
    if e.FireA? && Enabled(t, e) && t.state == Calling {
      FireAStep(c, t, n);
    } else if e.Receive? {
      Reacts(c, t, e.res);
      ReactionPaced(c, t, e.res, BuildAck(e.res, t.req), Apply(c, t, e), n);
    } else {
      OtherPaced(c, t, e, n);
    }
  }

  lemma OtherPaced(c: Timers, t: Tx, e: Event, n: nat)
    requires Copies(c, t, n) && (t.state == Calling ==> WhileCalling(c, t, n))
    requires !e.Receive? && !(e.FireA? && Enabled(t, e) && t.state == Calling)
    ensures Copies(c, Apply(c, t, e), n) && (Apply(c, t, e).state == Calling ==> WhileCalling(c, Apply(c, t, e), n))
  {
    OtherFrame(c, t, e);
    CopiesKept(c, t, Apply(c, t, e), n);
  }

  lemma OtherFrame(c: Timers, t: Tx, e: Event)
    requires !e.Receive? && !(e.FireA? && Enabled(t, e) && t.state == Calling)
    ensures var t' := Apply(c, t, e); t'.wire == t.wire && t'.start == t.start && t'.req == t.req
  {}

  lemma ReactionPaced(c: Timers, t: Tx, res: SIPResponse, ack: SIPRequest, t': Tx, n: nat)
    requires Copies(c, t, n) && (t.state == Calling ==> WhileCalling(c, t, n)) && Reaction(t, res, ack, t')
    ensures Copies(c, t', n) && (t'.state == Calling ==> WhileCalling(c, t', n))
  {}

  /** Over every run the INVITE itself is on the wire at most seven times, the k-th copy
      (2^k - 1)*T1 after the first, and once only on a reliable transport. */
  lemma {:induction false} CopiesOverRuns(c: Timers, req: SIPRequest, now: nat, evs: seq<Event>)
    requires Sane(c)
    ensures Paced(c, Exec(c, Started(c, req, now), evs))
  {
    var t0 := Started(c, req, now);
    if evs == [] {
      assert DoubledOffset(c, 0) == 0 && DoubledOffset(c, 1) == c.t1 && DoubledInterval(c, 0) == c.t1;
      assert Copies(c, t0, 1) && WhileCalling(c, t0, 1);
    } else {
      CopiesOverRuns(c, req, now, evs[..|evs| - 1]);
      PacedStep(c, Exec(c, t0, evs[..|evs| - 1]), evs[|evs| - 1]);
    }
  }

  /** Nobody answers and nobody terminates. */
  predicate Unanswered(evs: seq<Event>) { forall i :: 0 <= i < |evs| ==> !evs[i].Receive? && !evs[i].Terminate? }

  /** The whole history of an unanswered INVITE, once it has ended. */
  predicate GaveUp(c: Timers, t: Tx) {
    && t.done && t.now >= t.start + 64 * c.t1
    && t.a.None? && t.b.None? && t.d.None? && !t.bWaits
    && |t.wire| == (if c.reliable then 1 else 7) && Copies(c, t, |t.wire|)
  }

  predicate Untouched(c: Timers, t: Tx) {
    || (t.state == Calling && Copies(c, t, |t.wire|) && WhileCalling(c, t, |t.wire|))
    || (t.state == Terminated && GaveUp(c, t))
  }

  lemma {:induction false} UnansweredStates(c: Timers, req: SIPRequest, now: nat, evs: seq<Event>)
    requires Sane(c) && Unanswered(evs)
    ensures Untouched(c, Exec(c, Started(c, req, now), evs))
  {
    var t0 := Started(c, req, now);
    if evs == [] {
      assert DoubledOffset(c, 0) == 0 && DoubledOffset(c, 1) == c.t1 && DoubledInterval(c, 0) == c.t1;
    } else {
      var e := evs[|evs| - 1];
      UnansweredStates(c, req, now, evs[..|evs| - 1]);
      UnansweredStep(c, Exec(c, t0, evs[..|evs| - 1]), e);
    }
  }

  lemma UnansweredStep(c: Timers, t: Tx, e: Event)
    requires Sane(c) && !e.Receive? && !e.Terminate?
    requires Untouched(c, t)
    ensures Untouched(c, Apply(c, t, e))
  {
    var n := |t.wire|;
    if e.FireA? && t.state == Calling && Enabled(t, e) {
      FireAStep(c, t, n);
    } else {
      CopiesKept(c, t, Apply(c, t, e), n);
      SixFit(c, n);
    }
  }

  /** An unanswered INVITE is written exactly seven times on an unreliable transport, at
      (2^k - 1)*T1 for k = 0..6, before Timer B ends the transaction at 64*T1. */
  lemma UnansweredInvite(c: Timers, req: SIPRequest, now: nat, evs: seq<Event>)
    requires Sane(c) && !c.reliable && Unanswered(evs)
    requires Exec(c, Started(c, req, now), evs).now > now + 64 * c.t1
    ensures var t := Exec(c, Started(c, req, now), evs);
      && t.done && |t.wire| == 7
      && forall k :: 0 <= k < 7 ==>
           t.wire[k] == Sent(now + (Pow2(k) - 1) * c.t1, req, if k == 0 then First else Timer)
  {
    UnansweredStates(c, req, now, evs);
    AckAccounting(c, req, now, evs);
    SevenCopies(c, Exec(c, Started(c, req, now), evs));
  }

  lemma SevenCopies(c: Timers, t: Tx)
    requires Sane(c) && !c.reliable && Untouched(c, t) && t.now > t.start + 64 * c.t1
    ensures t.done && |t.wire| == 7
    ensures forall k :: 0 <= k < 7 ==>
      t.wire[k] == Sent(t.start + (Pow2(k) - 1) * c.t1, t.req, if k == 0 then First else Timer)
  {
    forall k | 0 <= k < 7
      ensures Copy(c, t, k) == Sent(t.start + (Pow2(k) - 1) * c.t1, t.req, if k == 0 then First else Timer)
    {
      CopyTime(c, t, k);
    }
  }

  lemma CopyTime(c: Timers, t: Tx, k: nat)
    ensures Copy(c, t, k) == Sent(t.start + (Pow2(k) - 1) * c.t1, t.req, if k == 0 then First else Timer)
  {
    DoubledClosedForm(c, k);
  }

  // ----- the transaction object -----

  class InviteClientTx {
    const timers: Timers
    const request: SIPRequest
    const start: nat
    var state: State
    var lastResponse: Option<SIPResponse>
    var timerA: Option<Pulse>
    var timerB: Option<nat>
    var bWaits: bool
    var timerD: Option<nat>
    var responses: Option<SIPResponse>
    var doneClosed: bool
    var now: nat
    var wire: seq<Sent<SIPRequest>>
    ghost var handed: seq<SIPResponse>

    ghost function Model(): Tx
      reads this
    {
      Tx(request, state, lastResponse, timerA, timerB, bWaits, timerD, responses, doneClosed, now, start, wire, handed)
    }

    /** Construction together with the first actions of `run`. */
    constructor (req: SIPRequest, timers: Timers, now: nat)
      ensures Model() == Started(timers, req, now) && this.timers == timers
    {
      this.timers, request, start, this.now := timers, req, now, now;
      state, lastResponse := Calling, None;
      timerA := if timers.reliable then None else Some(Pulse(now + timers.t1, timers.t1));
      timerB, bWaits, timerD := Some(now + 64 * timers.t1), false, None;
      responses, doneClosed, handed := None, false, [];
      wire := [Sent(now, req, First)];
    }

    method Terminate()
      modifies this
      ensures Model() == Ended(old(Model()))
    {
      if state == Terminated { return; }
      state := Terminated;
      timerA, timerB, timerD := None, None, None;
      doneClosed := true;
    }

    method SendResponseToTU(res: SIPResponse)
      modifies this
      ensures Model() == Hand(old(Model()), res)
    {
      if responses.None? {
        responses := Some(res);
        handed := handed + [res];
      }
    }

    method SendAck(ack: SIPRequest)
      modifies this
      ensures Model() == Acked(old(Model()), ack)
    {
      wire := wire + [Sent(now, ack, Ack)];
    }

    method ReceiveResponse(res: SIPResponse)
      modifies this
      ensures Model() == Received(timers, old(Model()), res)
    {
      Answer(res, BuildAck(res, request));
    }

    /** The body of `ReceiveResponse`; `ack` is what it sends for a final of 300 and above. */
    method Answer(res: SIPResponse, ack: SIPRequest)
      modifies this
      ensures Model() == Answered(timers, old(Model()), res, ack)
    {
      lastResponse := Some(res);
      if state == Terminated { return; }
      if 100 <= res.status < 200 {
        if state == Calling {
          state := Proceeding;
          timerA := None;
        }
        SendResponseToTU(res);
      } else if res.status >= 300 {
        ReceiveError(res, ack);
      } else if 200 <= res.status < 300 {
        if state == Calling || state == Proceeding {
          state := Terminated;
          SendResponseToTU(res);
          Terminate();
        }
      }
    }

    /** The branch for a final response of 300 and above. */
    method ReceiveError(res: SIPResponse, ack: SIPRequest)
      requires state != Terminated && lastResponse == Some(res) && res.status >= 300
      modifies this
      ensures Model() == Answered(timers, old(Model()), res, ack)
    {
      if state == Calling || state == Proceeding {
        state := Completed;
        SendResponseToTU(res);
        SendAck(ack);
        if timers.reliable {
          Terminate();
        } else {
          timerD := Some(now + TIMER_D);
        }
      } else if state == Completed {
        SendAck(ack);
      }
    }

    method FireTimerA()
      requires PulseDue(timerA, now)
      modifies this
      ensures Model() == FiredA(old(Model()))
    {
      var interval := timerA.value.interval;
      timerA := None;
      if state != Calling { return; }
      wire := wire + [Sent(now, request, Timer)];
      timerA := Some(Pulse(now + interval * 2, interval * 2));
    }

    method FireTimerB()
      requires Due(timerB, now)
      modifies this
      ensures Model() == FiredB(old(Model()))
    {
      timerB := None;
      if responses.Some? {
        bWaits := true;
        return;
      }
      responses := Some(TIMEOUT);
      Terminate();
    }

    /** The user takes a response; a waiting Timer B goroutine then gets its turn. */
    method TakeResponse() returns (res: SIPResponse)
      requires responses.Some?
      modifies this
      ensures res == old(responses).value && Model() == old(Model()).(slot := None)
    {
      res := responses.value;
      responses := None;
    }

    method ReleaseTimerB()
      requires bWaits && responses.None?
      modifies this
      ensures Model() == Effect(timers, old(Model()), ReleaseB)
    {
      bWaits := false;
      responses := Some(TIMEOUT);
      Terminate();
    }

    method FireTimerD()
      requires Due(timerD, now)
      modifies this
      ensures Model() == Effect(timers, old(Model()), FireD)
    {
      timerD := None;
      Terminate();
    }
  }
}
