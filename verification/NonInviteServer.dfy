/** The non-INVITE server transaction (section 17.2.2 of RFC 3261): the machine as a step
    function, what holds over all its runs, and the class that carries it out. */
module NonInviteServer {
  import opened Wrappers
  import opened Message
  import opened Timing

  datatype State = Trying | Proceeding | Completed | Terminated

  function Rank(s: State): nat {
    match s case Trying => 0 case Proceeding => 1 case Completed => 2 case Terminated => 3
  }

  predicate Final(res: SIPResponse) { res.status >= 200 }

  datatype Tx = Tx(
    req: SIPRequest, state: State, last: Option<SIPResponse>, j: Option<nat>,
    slot: Option<SIPResponse>, done: bool, running: bool, now: nat,
    wire: seq<Sent<SIPResponse>>)

  datatype Event =
    | Respond(res: SIPResponse) | Take | Exit
    | Receive(req: SIPRequest)
    | FireJ
    | Terminate
    | Tick(to: nat)

  // ----- the steps -----

  function Started(req: SIPRequest, now: nat): Tx {
    Tx(req, Trying, None, None, None, false, true, now, [])
  }

  function Write(t: Tx, res: SIPResponse, cause: Cause): Tx {
    t.(wire := t.wire + [Sent(t.now, res, cause)])
  }

  function Ended(t: Tx): Tx {
    if t.state == Terminated then t else t.(state := Terminated, j := None, done := true)
  }

  function Received(t: Tx, req: SIPRequest): Tx {
    if t.state in {Proceeding, Completed} && t.last.Some? then Write(t, t.last.value, Replay) else t
  }

  /** One turn of the `run` loop on a queued response; a second final is ignored. */
  function Taken(c: Timers, t: Tx): Tx
    requires t.slot.Some?
  {
    var res := t.slot.value;
    var t0 := t.(slot := None);
    if t.state == Terminated then t0.(running := false)
    else if t.state == Completed && t.last.Some? && Final(t.last.value) then t0
    else
      var t' := Write(t0.(last := Some(res)), res, User);
      if !Final(res) then t'.(state := Proceeding)
      else if c.reliable then Ended(t'.(state := Completed)).(running := false)
      else t'.(state := Completed, j := Some(t.now + 64 * c.t1))
  }

  predicate Enabled(t: Tx, e: Event) {
    match e
    case Respond(_) => t.slot.None?
    case Take => t.running && t.slot.Some?
    case Exit => t.running && t.done
    case Receive(_) => true
    case FireJ => Due(t.j, t.now)
    case Terminate => true
    case Tick(to) => t.now < to && Clear(t.j, to)
  }

  function Effect(c: Timers, t: Tx, e: Event): Tx
    requires Enabled(t, e)
  {
    match e
    case Respond(res) => t.(slot := Some(res))
    case Take => Taken(c, t)
    case Exit => t.(running := false)
    case Receive(req) => Received(t, req)
    case FireJ => Ended(t.(j := None))
    case Terminate => Ended(t)
    case Tick(to) => t.(now := to)
  }

  function Apply(c: Timers, t: Tx, e: Event): Tx { if Enabled(t, e) then Effect(c, t, e) else t }

  function Exec(c: Timers, t: Tx, evs: seq<Event>): Tx
    decreases |evs|
  {
    if evs == [] then t else Apply(c, Exec(c, t, evs[..|evs| - 1]), evs[|evs| - 1])
  }

  // ----- freeze and conservation, for every user -----

  /** Responses the loop accepted. */
  function Accepted(c: Timers, t: Tx, evs: seq<Event>): seq<SIPResponse>
    decreases |evs|
  {
    if evs == [] then []
    else
      var front := evs[..|evs| - 1];
      var s := Exec(c, t, front);
      Accepted(c, t, front)
      + if evs[|evs| - 1] == Take && Enabled(s, Take) && Rank(s.state) <= 1 then [s.slot.value] else []
  }

  /** Request copies received after a response was sent and before the end. */
  function LateCopies(c: Timers, t: Tx, evs: seq<Event>): nat
    decreases |evs|
  {
    if evs == [] then 0
    else
      var front := evs[..|evs| - 1];
      LateCopies(c, t, front)
      + if evs[|evs| - 1].Receive? && Exec(c, t, front).state in {Proceeding, Completed} then 1 else 0
  }

  /** The user's responses on the wire, in order. */
  function UserWrites(wire: seq<Sent<SIPResponse>>): seq<SIPResponse> {
    if wire == [] then []
    else
      var n := |wire| - 1;
      UserWrites(wire[..n]) + if wire[n].cause == User then [wire[n].msg] else []
  }

  lemma WireGrows(wire: seq<Sent<SIPResponse>>, s: Sent<SIPResponse>)
    ensures UserWrites(wire + [s]) == UserWrites(wire) + if s.cause == User then [s.msg] else []
  {}

  /** Each write is a user response or repeats the write before it, and the first final is
      the last user response; after it only copies of it are written. */
  predicate Frozen(wire: seq<Sent<SIPResponse>>) {
    && (forall k :: 0 <= k < |wire| ==> wire[k].cause in {User, Replay})
    && (forall k :: 0 <= k < |wire| && wire[k].cause == Replay ==> k > 0 && wire[k].msg == wire[k - 1].msg)
    && (forall i, k :: 0 <= i < k < |wire| && Final(wire[i].msg) ==>
          wire[k].msg == wire[i].msg && wire[k].cause == Replay)
  }

  predicate Sound(c: Timers, t: Tx) {
    var n := |t.wire|;
    && Frozen(t.wire)
    && (t.last.Some? <==> n > 0) && (n > 0 ==> t.wire[n - 1].msg == t.last.value)
    && (t.done <==> t.state == Terminated)
    && (t.state in {Trying} ==> n == 0)
    && (t.state == Proceeding ==> n > 0 && !Final(t.last.value))
    && (t.state == Completed ==> n > 0 && Final(t.last.value) && !c.reliable)
    && (t.j.Some? <==> t.state == Completed)
  }

  lemma FrozenWrite(wire: seq<Sent<SIPResponse>>, s: Sent<SIPResponse>)
    requires Frozen(wire)
    requires s.cause == User ==> wire == [] || !Final(wire[|wire| - 1].msg)
    requires s.cause == Replay ==> wire != [] && s.msg == wire[|wire| - 1].msg
    requires s.cause in {User, Replay}
    ensures Frozen(wire + [s])
  {}

  lemma SoundStep(c: Timers, t: Tx, e: Event)
    requires Sound(c, t)
    ensures Sound(c, Apply(c, t, e))
  {
    if Enabled(t, e) {
      if e.Take? {
        TakenSound(c, t);
      } else if e.Receive? && t.state in {Proceeding, Completed} {
        FrozenWrite(t.wire, Sent(t.now, t.last.value, Replay));
      }
    }
  }

  lemma TakenSound(c: Timers, t: Tx)
    requires Sound(c, t) && Enabled(t, Take)
    ensures Sound(c, Effect(c, t, Take))
  {
    if Rank(t.state) <= 1 { FrozenWrite(t.wire, Sent(t.now, t.slot.value, User)); }
  }

  /** Freeze and conservation over every run: the wire is frozen by the first final, its user
      writes are exactly the accepted responses, and everything else answers a request copy. */
  lemma {:induction false} FreezeAndConservation(c: Timers, req: SIPRequest, now: nat, evs: seq<Event>)
    ensures var t0 := Started(req, now);
      var t := Exec(c, t0, evs);
      && Sound(c, t)
      && UserWrites(t.wire) == Accepted(c, t0, evs)
      && |t.wire| == |Accepted(c, t0, evs)| + LateCopies(c, t0, evs)
  {
    if evs != [] {
      var t0, front, e := Started(req, now), evs[..|evs| - 1], evs[|evs| - 1];
      var t := Exec(c, t0, front);
      FreezeAndConservation(c, req, now, front);
      SoundStep(c, t, e);
      ConserveStep(c, t, e);
    }
  }

  lemma ConserveTake(c: Timers, t: Tx)
    requires Sound(c, t) && t.slot.Some?
    ensures var t' := Taken(c, t);
      var accepted := if Rank(t.state) <= 1 then [t.slot.value] else [];
      UserWrites(t'.wire) == UserWrites(t.wire) + accepted && |t'.wire| == |t.wire| + |accepted|
  {
    WireGrows(t.wire, Sent(t.now, t.slot.value, User));
  }

  lemma ConserveStep(c: Timers, t: Tx, e: Event)
    requires Sound(c, t)
    ensures var t' := Apply(c, t, e);
      var accepted := if e == Take && Enabled(t, Take) && Rank(t.state) <= 1 then [t.slot.value] else [];
      && UserWrites(t'.wire) == UserWrites(t.wire) + accepted
      && |t'.wire| == |t.wire| + |accepted| + if e.Receive? && t.state in {Proceeding, Completed} then 1 else 0
  {
    if e.Take? && Enabled(t, e) {
      ConserveTake(c, t);
    } else if e.Receive? && t.last.Some? {
      WireGrows(t.wire, Sent(t.now, t.last.value, Replay));
    } else {
      assert Apply(c, t, e).wire == t.wire;
    }
  }

  // ----- Timer J -----

  /** When the first final was written. */
  ghost predicate FinalAt(wire: seq<Sent<SIPResponse>>, at: nat) {
    exists k :: 0 <= k < |wire| && wire[k].cause == User && wire[k].at == at && Final(wire[k].msg)
  }

  /** The final user write is unique, so its time is. */
  lemma FinalAtUnique(wire: seq<Sent<SIPResponse>>, a: nat, b: nat)
    requires Frozen(wire) && FinalAt(wire, a) && FinalAt(wire, b)
    ensures a == b
  {}

  /** The one time at which a final of the user was written. */
  ghost predicate OnlyFinalAt(wire: seq<Sent<SIPResponse>>, at: nat) {
    FinalAt(wire, at) && forall b: nat :: FinalAt(wire, b) ==> b == at
  }

  /** Timer J runs from the first final; without an outside `Terminate` the end comes exactly
      64*T1 after it on an unreliable transport, and with it on a reliable one. */
  ghost predicate OnTimerJ(c: Timers, t: Tx) {
    match t.state
    case Completed => exists at: nat :: FinalAt(t.wire, at) && t.j == Some(at + 64 * c.t1) && t.now <= at + 64 * c.t1
    case Terminated =>
      exists at: nat :: FinalAt(t.wire, at) && (if c.reliable then at <= t.now else at + 64 * c.t1 <= t.now)
    case _ => true
  }

  lemma FinalAtKept(wire: seq<Sent<SIPResponse>>, s: Sent<SIPResponse>, at: nat)
    requires FinalAt(wire, at) || (s.cause == User && Final(s.msg) && s.at == at)
    ensures FinalAt(wire + [s], at)
  {
    if FinalAt(wire, at) {
      var k :| 0 <= k < |wire| && wire[k].cause == User && wire[k].at == at && Final(wire[k].msg);
      assert (wire + [s])[k] == wire[k];
    } else {
      assert (wire + [s])[|wire|] == s;
    }
  }

  lemma TimerJStep(c: Timers, t: Tx, e: Event)
    requires Sound(c, t) && OnTimerJ(c, t) && !e.Terminate?
    ensures OnTimerJ(c, Apply(c, t, e))
  {
    var t' := Apply(c, t, e);
    if t.state in {Completed, Terminated} {
      var at: nat :|
        && FinalAt(t.wire, at)
        && (t.state == Completed ==> t.j == Some(at + 64 * c.t1) && t.now <= at + 64 * c.t1)
        && (t.state == Terminated ==> if c.reliable then at <= t.now else at + 64 * c.t1 <= t.now);
      if t'.wire != t.wire {
        FinalAtKept(t.wire, t'.wire[|t.wire|], at);
      }
      assert FinalAt(t'.wire, at);
    } else if Rank(t'.state) >= 2 {
      FirstFinal(c, t, e);
    }
  }

  lemma FirstFinal(c: Timers, t: Tx, e: Event)
    requires Rank(t.state) <= 1 && Rank(Apply(c, t, e).state) >= 2 && !e.Terminate? && t.j.None?
    ensures OnTimerJ(c, Apply(c, t, e))
  {
    var t' := Apply(c, t, e);
    FinalAtKept(t.wire, t'.wire[|t.wire|], t.now);
    assert FinalAt(t'.wire, t.now);
  }

  lemma {:induction false} TimerJExact(c: Timers, req: SIPRequest, now: nat, evs: seq<Event>)
    requires forall i :: 0 <= i < |evs| ==> !evs[i].Terminate?
    ensures OnTimerJ(c, Exec(c, Started(req, now), evs))
    ensures var wire := Exec(c, Started(req, now), evs).wire;
      forall at: nat :: FinalAt(wire, at) ==> OnlyFinalAt(wire, at)
  {
    if evs != [] {
      var front := evs[..|evs| - 1];
      TimerJExact(c, req, now, front);
      FreezeAndConservation(c, req, now, front);
      TimerJStep(c, Exec(c, Started(req, now), front), evs[|evs| - 1]);
    }
    FreezeAndConservation(c, req, now, evs);
    var wire := Exec(c, Started(req, now), evs).wire;
    forall a: nat, b: nat | FinalAt(wire, a) && FinalAt(wire, b) ensures a == b { FinalAtUnique(wire, a, b); }
  }

  /** The closing step itself: exactly 64*T1 after the first final. */
  lemma ClosesOnTime(c: Timers, req: SIPRequest, now: nat, evs: seq<Event>, e: Event)
    requires (forall i :: 0 <= i < |evs| ==> !evs[i].Terminate?) && !e.Terminate? && !c.reliable
    requires var t := Exec(c, Started(req, now), evs); !t.done && Apply(c, t, e).done
    ensures var t := Exec(c, Started(req, now), evs);
      exists at: nat :: OnlyFinalAt(t.wire, at) && t.now == at + 64 * c.t1
  {
    TimerJExact(c, req, now, evs);
    FreezeAndConservation(c, req, now, evs);
    ClosingStep(c, Exec(c, Started(req, now), evs), e);
  }

  lemma ClosingStep(c: Timers, t: Tx, e: Event)
    requires Sound(c, t) && OnTimerJ(c, t) && !t.done && Apply(c, t, e).done && !e.Terminate? && !c.reliable
    ensures exists at: nat :: FinalAt(t.wire, at) && t.now == at + 64 * c.t1
  {}

  // ----- the transaction object -----

  /** What becomes of a response handed to the transaction. */
  datatype Queueing = Queued | Gone | Blocked

  class NonInviteServerTx {
    const timers: Timers
    const originalReq: SIPRequest
    var state: State
    var lastResponse: Option<SIPResponse>
    var timerJ: Option<nat>
    var responses: Option<SIPResponse>
    var doneClosed: bool
    var running: bool
    var now: nat
    var wire: seq<Sent<SIPResponse>>

    ghost function Model(): Tx
      reads this
    {
      Tx(originalReq, state, lastResponse, timerJ, responses, doneClosed, running, now, wire)
    }

    constructor (req: SIPRequest, timers: Timers, now: nat)
      ensures Model() == Started(req, now) && this.timers == timers
    {
      this.timers, originalReq, this.now := timers, req, now;
      state, lastResponse, timerJ := Trying, None, None;
      responses, doneClosed, running, wire := None, false, true, [];
    }

    method Terminate()
      modifies this
      ensures Model() == Ended(old(Model()))
    {
      if state == Terminated { return; }
      state := Terminated;
      timerJ := None;
      doneClosed := true;
    }

    method Send(res: SIPResponse, cause: Cause)
      modifies this
      ensures Model() == Write(old(Model()), res, cause)
    {
      wire := wire + [Sent(now, res, cause)];
    }

    method Receive(req: SIPRequest)
      modifies this
      ensures Model() == Received(old(Model()), req)
    {
      if (state == Proceeding || state == Completed) && lastResponse.Some? {
        Send(lastResponse.value, Replay);
      }
    }

    /** The caller waits on a full slot (`Blocked`) and is told when the transaction is over
        (`Gone`); if the slot is free and `done` closed, either may happen. */
    method Respond(res: SIPResponse) returns (outcome: Queueing)
      modifies this
      ensures outcome == Blocked <==> old(responses).Some? && !old(doneClosed)
      ensures outcome == Queued ==> old(responses).None?
      ensures outcome == Gone ==> old(doneClosed)
      ensures Model() == if outcome == Queued then Effect(timers, old(Model()), Event.Respond(res)) else old(Model())
    {
      if
      case responses.None? =>
        responses := Some(res);
        outcome := Queued;
      case doneClosed => outcome := Gone;
      case responses.Some? && !doneClosed => outcome := Blocked;
    }

    /** The body of the `run` loop for a queued response. */
    method TakeResponse()
      requires running && responses.Some?
      modifies this
      ensures Model() == Taken(timers, old(Model()))
    {
      var res := responses.value;
      responses := None;
      if state == Terminated {
        running := false;
        return;
      }
      if state == Completed && lastResponse.Some? && lastResponse.value.status >= 200 { return; }
      lastResponse := Some(res);
      Send(res, User);
      if res.status >= 200 {
        state := Completed;
        if timers.reliable {
          Terminate();
          running := false;
          return;
        }
        timerJ := Some(now + 64 * timers.t1);
      } else {
        state := Proceeding;
      }
    }

    method FireTimerJ()
      requires Due(timerJ, now)
      modifies this
      ensures Model() == Effect(timers, old(Model()), FireJ)
    {
      timerJ := None;
      Terminate();
    }
  }
}
