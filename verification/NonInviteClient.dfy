/** The non-INVITE client transaction (section 17.1.2 of RFC 3261): the machine as a step
    function, what holds over all its runs, and the class that carries it out. */
module NonInviteClient {
  import opened Wrappers
  import opened Message
  import opened Timing

  datatype State = Trying | Proceeding | Completed | Terminated

  const TIMEOUT: SIPResponse := SIPResponse("", 408, "Request Timeout", map[], "")

  /** `fWaits`: Timer F has fired and its goroutine waits for room in the response channel. */
  datatype Tx = Tx(
    req: SIPRequest, state: State, last: Option<SIPResponse>,
    e: Option<Pulse>, f: Option<nat>, fWaits: bool, k: Option<nat>,
    slot: Option<SIPResponse>, done: bool, now: nat, start: nat,
    wire: seq<Sent<SIPRequest>>)

  datatype Event =
    | Receive(res: SIPResponse) | Drain
    | FireE | FireF | ReleaseF | FireK
    | Terminate
    | Tick(to: nat)

  // ----- the steps -----

  /** The first send and the arming of Timers E and F, as one step. */
  function Started(c: Timers, req: SIPRequest, now: nat): Tx {
    Tx(req, Trying, None,
       if c.reliable then None else Some(Pulse(now + c.t1, c.t1)), Some(now + 64 * c.t1), false, None,
       None, false, now, now, [Sent(now, req, First)])
  }

  function Ended(t: Tx): Tx {
    if t.state == Terminated then t
    else t.(state := Terminated, e := None, f := None, k := None, done := true)
  }

  function Received(c: Timers, t: Tx, res: SIPResponse): Tx {
    var t0 := t.(last := Some(res));
    if t.state in {Completed, Terminated} then t0
    else
      var t1 := if t.slot.Some? then t0 else t0.(slot := Some(res));
      if res.status < 200 then t1.(state := Proceeding)
      else
        var t2 := t1.(state := Completed, e := None, f := None);
        if c.reliable then Ended(t2) else t2.(k := Some(t.now + c.t4))
  }

  function NextInterval(c: Timers, s: State, interval: nat): nat {
    if s == Proceeding || 2 * interval > c.t2 then c.t2 else 2 * interval
  }

  function FiredE(c: Timers, t: Tx): Tx
    requires t.e.Some?
  {
    if t.state !in {Trying, Proceeding} then t.(e := None)
    else
      var iv := NextInterval(c, t.state, t.e.value.interval);
      t.(wire := t.wire + [Sent(t.now, t.req, Timer)], e := Some(Pulse(t.now + iv, iv)))
  }

  function FiredF(t: Tx): Tx {
    if t.slot.Some? then t.(f := None, fWaits := true) else Ended(t.(f := None, slot := Some(TIMEOUT)))
  }

  predicate MayPass(t: Tx, to: nat) {
    && t.now < to && PulseClear(t.e, to) && Clear(t.f, to) && Clear(t.k, to)
    && !(t.fWaits && t.slot.None?)
  }

  predicate Enabled(t: Tx, e: Event) {
    match e
    case Receive(_) => true
    case Drain => t.slot.Some?
    case FireE => PulseDue(t.e, t.now)
    case FireF => Due(t.f, t.now)
    case ReleaseF => t.fWaits && t.slot.None?
    case FireK => Due(t.k, t.now)
    case Terminate => true
    case Tick(to) => MayPass(t, to)
  }

  function Effect(c: Timers, t: Tx, e: Event): Tx
    requires Enabled(t, e)
  {
    match e
    case Receive(res) => Received(c, t, res)
    case Drain => t.(slot := None)
    case FireE => FiredE(c, t)
    case FireF => FiredF(t)
    case ReleaseF => Ended(t.(fWaits := false, slot := Some(TIMEOUT)))
    case FireK => Ended(t.(k := None))
    case Terminate => Ended(t)
    case Tick(to) => t.(now := to)
  }

  function Apply(c: Timers, t: Tx, e: Event): Tx { if Enabled(t, e) then Effect(c, t, e) else t }

  function Exec(c: Timers, t: Tx, evs: seq<Event>): Tx
    decreases |evs|
  {
    if evs == [] then t else Apply(c, Exec(c, t, evs[..|evs| - 1]), evs[|evs| - 1])
  }

  // ----- pacing, whatever arrives -----

  /** The `i`-th copy is sent no earlier than the capped schedule allows. */
  predicate NotEarly(c: Timers, t: Tx) {
    forall i :: 0 <= i < |t.wire| ==>
      && t.start + CappedOffset(c, i) <= t.wire[i].at <= t.now
      && t.wire[i].msg == t.req && t.wire[i].cause == if i == 0 then First else Timer
  }

  /** Timer E is never ahead of the schedule, and remembers at least the scheduled interval. */
  predicate Paced(c: Timers, t: Tx) {
    var n := |t.wire|;
    && n > 0 && t.start <= t.now && NotEarly(c, t)
    && (c.reliable ==> n == 1 && t.e.None?)
    && (t.e.Some? ==>
          && t.state in {Trying, Proceeding} && t.now <= t.e.value.due
          && t.start + CappedOffset(c, n) <= t.e.value.due
          && CappedInterval(c, n - 1) <= t.e.value.interval <= c.t2)
  }

  lemma FireEPaced(c: Timers, t: Tx)
    requires Sane(c) && Paced(c, t) && PulseDue(t.e, t.now)
    ensures Paced(c, FiredE(c, t))
  {}

  /** Only Timer E writes or moves itself on; everything else leaves it or disarms it. */
  lemma OtherFrame(c: Timers, t: Tx, e: Event)
    requires !(e.FireE? && Enabled(t, e)) && (t.e.Some? ==> t.state in {Trying, Proceeding} && t.now <= t.e.value.due)
    ensures var t' := Apply(c, t, e);
      && t'.wire == t.wire && t'.start == t.start && t'.req == t.req && t.now <= t'.now
      && (t'.e.None? || (t'.e == t.e && t'.state in {Trying, Proceeding} && t'.now <= t.e.value.due))
  {
    match e
    case Receive(res) => ReceivedFrame(c, t, res);
    case _ =>
  }

  lemma ReceivedFrame(c: Timers, t: Tx, res: SIPResponse)
    ensures var t' := Received(c, t, res);
      && t'.wire == t.wire && t'.start == t.start && t'.req == t.req && t'.now == t.now
      && (t'.e == t.e || t'.e.None?) && (t'.e.Some? && t.state in {Trying, Proceeding} ==> t'.state == Proceeding)
  {}

  lemma PacedStep(c: Timers, t: Tx, e: Event)
    requires Sane(c) && Paced(c, t)
    ensures Paced(c, Apply(c, t, e))
  {
    if e.FireE? && Enabled(t, e) {
      FireEPaced(c, t);
    } else {
      OtherFrame(c, t, e);
      PacedFrame(c, t, Apply(c, t, e));
    }
  }

  lemma PacedFrame(c: Timers, t: Tx, t': Tx)
    requires Paced(c, t) && t'.wire == t.wire && t'.start == t.start && t'.req == t.req && t.now <= t'.now
    requires t'.e.None? || (t'.e == t.e && t'.state in {Trying, Proceeding} && t'.now <= t.e.value.due)
    ensures Paced(c, t')
  {}

  lemma {:induction false} RunPaced(c: Timers, req: SIPRequest, now: nat, evs: seq<Event>)
    requires Sane(c)
    ensures Paced(c, Exec(c, Started(c, req, now), evs))
  {
    if evs == [] {
      assert CappedOffset(c, 0) == 0 && CappedOffset(c, 1) == c.t1 && CappedInterval(c, 0) == c.t1;
    } else {
      RunPaced(c, req, now, evs[..|evs| - 1]);
      PacedStep(c, Exec(c, Started(c, req, now), evs[..|evs| - 1]), evs[|evs| - 1]);
    }
  }

  /** With T2 = 8*T1 and any pattern of responses, at most eleven copies are written up to
      64*T1, none before its place in the schedule, and one only on a reliable transport. */
  lemma AtMostElevenCopies(c: Timers, req: SIPRequest, now: nat, evs: seq<Event>, i: nat)
    requires Sane(c) && c.t2 == 8 * c.t1
    requires i < |Exec(c, Started(c, req, now), evs).wire|
    requires Exec(c, Started(c, req, now), evs).wire[i].at <= now + 64 * c.t1
    ensures i < 11 && (c.reliable ==> i == 0)
  {
    RunPaced(c, req, now, evs);
    RunKeepsStart(c, req, now, evs);
    TenFit(c, i);
  }

  lemma StepKeepsStart(c: Timers, t: Tx, e: Event)
    ensures var t' := Apply(c, t, e); t'.start == t.start && t'.req == t.req
  {}

  lemma {:induction false} RunKeepsStart(c: Timers, req: SIPRequest, now: nat, evs: seq<Event>)
    ensures var t := Exec(c, Started(c, req, now), evs); t.start == now && t.req == req
    decreases |evs|
  {
    if evs != [] {
      RunKeepsStart(c, req, now, evs[..|evs| - 1]);
      StepKeepsStart(c, Exec(c, Started(c, req, now), evs[..|evs| - 1]), evs[|evs| - 1]);
    }
  }

  // ----- nobody answers -----

  predicate Unanswered(evs: seq<Event>) { forall i :: 0 <= i < |evs| ==> !evs[i].Receive? && !evs[i].Terminate? }

  predicate OnSchedule(c: Timers, t: Tx) {
    forall i :: 0 <= i < |t.wire| ==> t.wire[i].at == t.start + CappedOffset(c, i)
  }

  predicate StillTrying(c: Timers, t: Tx) {
    var n := |t.wire|;
    && t.state == Trying && !t.done && n > 0 && t.slot.None? && !t.fWaits && t.k.None?
    && t.f == Some(t.start + 64 * c.t1) && t.now <= t.start + 64 * c.t1 && OnSchedule(c, t)
    && CappedOffset(c, n - 1) <= 64 * c.t1
    && if c.reliable then t.e.None? && n == 1
       else
         && t.e == Some(Pulse(t.start + CappedOffset(c, n), CappedInterval(c, n - 1)))
         && t.now <= t.start + CappedOffset(c, n)
  }

  predicate GaveUp(c: Timers, t: Tx) {
    var n := |t.wire|;
    && t.state == Terminated && t.done && t.e.None? && t.f.None? && t.k.None? && !t.fWaits
    && n > 0 && OnSchedule(c, t) && CappedOffset(c, n - 1) <= 64 * c.t1
    && (if c.reliable then n == 1 else 64 * c.t1 <= CappedOffset(c, n))
  }

  lemma ScheduleGrows(c: Timers, t: Tx, t': Tx, s: Sent<SIPRequest>)
    requires OnSchedule(c, t) && t'.wire == t.wire + [s] && t'.start == t.start
      && s.at == t.start + CappedOffset(c, |t.wire|)
    ensures OnSchedule(c, t')
  {}

  lemma NextIsCapped(c: Timers, n: nat)
    requires Sane(c) && n > 0
    ensures NextInterval(c, Trying, CappedInterval(c, n - 1)) == CappedInterval(c, n) > 0
    ensures CappedOffset(c, n + 1) == CappedOffset(c, n) + CappedInterval(c, n)
  {
    IntervalsAreCapped(c, n);
  }

  lemma UnansweredFire(c: Timers, t: Tx)
    requires Sane(c) && StillTrying(c, t) && PulseDue(t.e, t.now)
    ensures StillTrying(c, FiredE(c, t))
  {
    var n, s := |t.wire|, Sent(t.now, t.req, Timer);
    NextIsCapped(c, n);
    StillFires(c, t, CappedInterval(c, n));
    ScheduleGrows(c, t, FiredE(c, t), s);
  }

  lemma StillFires(c: Timers, t: Tx, next: nat)
    requires t.state == Trying && t.e.Some? && next == NextInterval(c, Trying, t.e.value.interval)
    ensures FiredE(c, t) == t.(wire := t.wire + [Sent(t.now, t.req, Timer)], e := Some(Pulse(t.now + next, next)))
  {}

  lemma UnansweredTimeout(c: Timers, t: Tx)
    requires StillTrying(c, t) && Due(t.f, t.now)
    ensures GaveUp(c, FiredF(t))
  {
    assert FiredF(t).wire == t.wire && FiredF(t).start == t.start;
  }

  lemma UnansweredWait(c: Timers, t: Tx, to: nat)
    requires (StillTrying(c, t) || GaveUp(c, t)) && MayPass(t, to)
    ensures StillTrying(c, t.(now := to)) || GaveUp(c, t.(now := to))
  {
    assert t.(now := to).wire == t.wire && t.(now := to).start == t.start;
  }

  lemma GaveUpStays(c: Timers, t: Tx)
    requires GaveUp(c, t)
    ensures GaveUp(c, t.(slot := None))
  {
    assert t.(slot := None).wire == t.wire && t.(slot := None).start == t.start;
  }

  lemma UnansweredStep(c: Timers, t: Tx, e: Event)
    requires Sane(c) && !e.Receive? && !e.Terminate? && (StillTrying(c, t) || GaveUp(c, t))
    ensures StillTrying(c, Apply(c, t, e)) || GaveUp(c, Apply(c, t, e))
  {
    if Enabled(t, e) {
      match e
      case Drain => GaveUpStays(c, t);
      case FireE => UnansweredFire(c, t);
      case FireF => UnansweredTimeout(c, t);
      case Tick(to) => UnansweredWait(c, t, to);
    }
  }

  lemma {:induction false} IntervalsAreCapped(c: Timers, n: nat)
    requires Sane(c)
    ensures 0 < CappedInterval(c, n) <= c.t2
  {
    if n > 0 { IntervalsAreCapped(c, n - 1); }
  }

  lemma {:induction false} UnansweredStates(c: Timers, req: SIPRequest, now: nat, evs: seq<Event>)
    requires Sane(c) && Unanswered(evs)
    ensures var t := Exec(c, Started(c, req, now), evs); StillTrying(c, t) || GaveUp(c, t)
  {
    if evs == [] {
      assert CappedOffset(c, 0) == 0 && CappedOffset(c, 1) == c.t1 && CappedInterval(c, 0) == c.t1;
    } else {
      UnansweredStates(c, req, now, evs[..|evs| - 1]);
      UnansweredStep(c, Exec(c, Started(c, req, now), evs[..|evs| - 1]), evs[|evs| - 1]);
    }
  }

  /** An unanswered request is written exactly on the capped schedule; with T2 = 8*T1 that is
      eleven times on an unreliable transport, once on a reliable one. */
  lemma UnansweredRequest(c: Timers, req: SIPRequest, now: nat, evs: seq<Event>)
    requires Sane(c) && c.t2 == 8 * c.t1 && Unanswered(evs)
    requires Exec(c, Started(c, req, now), evs).now > now + 64 * c.t1
    ensures var t := Exec(c, Started(c, req, now), evs);
      && t.done && |t.wire| == (if c.reliable then 1 else 11)
      && forall i :: 0 <= i < |t.wire| ==> t.wire[i].at == now + CappedOffset(c, i) && t.wire[i].msg == req
  {
    var t := Exec(c, Started(c, req, now), evs);
    UnansweredStates(c, req, now, evs);
    RunKeepsStart(c, req, now, evs);
    RunPaced(c, req, now, evs);
    TenFit(c, |t.wire| - 1);
    TenFit(c, |t.wire|);
  }

  // ----- what reaches the user -----

  predicate Final(res: SIPResponse) { res.status >= 200 }

  /** Responses are handed over until the first final, as long as there is room. */
  predicate Listening(t: Tx) { t.slot.None? && t.state in {Trying, Proceeding} }

  /** Everything that must reach the user: those responses, and a 408 when Timer F finds room. */
  function Owed(c: Timers, t: Tx, evs: seq<Event>): seq<SIPResponse>
    decreases |evs|
  {
    if evs == [] then []
    else
      var front, e := evs[..|evs| - 1], evs[|evs| - 1];
      var s := Exec(c, t, front);
      Owed(c, t, front)
      + if e.Receive? && Listening(s) then [e.res]
        else if (e.FireF? || e.ReleaseF?) && Enabled(s, e) && s.slot.None? then [TIMEOUT]
        else []
  }

  /** What the user has taken out of its channel. */
  function Taken(c: Timers, t: Tx, evs: seq<Event>): seq<SIPResponse>
    decreases |evs|
  {
    if evs == [] then []
    else
      var front := evs[..|evs| - 1];
      var s := Exec(c, t, front);
      Taken(c, t, front) + if evs[|evs| - 1] == Drain && s.slot.Some? then [s.slot.value] else []
  }

  /** What a response must do to the channel, the state and the timers. */
  predicate Delivered(c: Timers, t: Tx, res: SIPResponse, t': Tx) {
    && t'.slot == (if Listening(t) then Some(res) else t.slot)
    && if t.state !in {Trying, Proceeding} then t'.state == t.state && t'.k == t.k && t'.e == t.e && t'.f == t.f
       else if !Final(res) then t'.state == Proceeding && t'.k == t.k && t'.e == t.e && t'.f == t.f
       else
         && t'.state == (if c.reliable then Terminated else Completed) && t'.done == (c.reliable || t.done)
         && t'.k == (if c.reliable then None else Some(t.now + c.t4)) && t'.e.None? && t'.f.None?
  }

  lemma Delivers(c: Timers, t: Tx, res: SIPResponse)
    ensures Delivered(c, t, res, Received(c, t, res))
  {
    match t.state
    case Trying =>
    case Proceeding =>
    case Completed =>
    case Terminated =>
  }

  lemma DeliveryStep(c: Timers, t: Tx, e: Event)
    requires !e.Receive?
    ensures var t' := Apply(c, t, e);
      var owed := if (e.FireF? || e.ReleaseF?) && Enabled(t, e) && t.slot.None? then [TIMEOUT] else [];
      (if e == Drain && t.slot.Some? then [t.slot.value] else []) + Waiting(t'.slot) == Waiting(t.slot) + owed
  {}

  /** In every run and for every user: what it has taken and what waits in the channel is what must
      reach it, in order. */
  lemma {:induction false} NothingLost(c: Timers, req: SIPRequest, now: nat, evs: seq<Event>)
    ensures var t0 := Started(c, req, now);
      Taken(c, t0, evs) + Waiting(Exec(c, t0, evs).slot) == Owed(c, t0, evs)
    decreases |evs|
  {
    if evs != [] {
      var t0, front, e := Started(c, req, now), evs[..|evs| - 1], evs[|evs| - 1];
      var s := Exec(c, t0, front);
      NothingLost(c, req, now, front);
      if e.Receive? { Delivers(c, s, e.res); } else { DeliveryStep(c, s, e); }
      OneMoreOwed(
        Taken(c, t0, front), s.slot, Owed(c, t0, front), Taken(c, t0, evs), Apply(c, s, e).slot, Owed(c, t0, evs));
    }
  }

  predicate OutOfPlay(t: Tx) { t.state in {Completed, Terminated} }

  lemma QuietStep(c: Timers, t: Tx, e: Event)
    requires OutOfPlay(t)
    ensures OutOfPlay(Apply(c, t, e)) && Apply(c, t, e).wire == t.wire
  {
    if e.Receive? {
      Delivers(c, t, e.res);
      ReceivedFrame(c, t, e.res);
    }
  }

  /** After the first final nothing is written any more, whatever comes. */
  lemma {:induction false} QuietAfterFinal(c: Timers, t: Tx, f: SIPResponse, evs: seq<Event>)
    requires Final(f)
    ensures OutOfPlay(Exec(c, Received(c, t, f), evs)) && Exec(c, Received(c, t, f), evs).wire == t.wire
    decreases |evs|
  {
    if evs == [] {
      Delivers(c, t, f);
      ReceivedFrame(c, t, f);
    } else {
      QuietAfterFinal(c, t, f, evs[..|evs| - 1]);
      QuietStep(c, Exec(c, Received(c, t, f), evs[..|evs| - 1]), evs[|evs| - 1]);
    }
  }

  // ----- lifetime -----

  /** How far the clock can be while the transaction is alive and its user is not in the way. */
  predicate Bounded(c: Timers, t: Tx) {
    && (t.done <==> t.state == Terminated)
    && (t.fWaits && !t.done ==> t.f.None?)
    && match t.state
       case Trying => InTime(c, t)
       case Proceeding => InTime(c, t)
       case Completed =>
         && t.k.Some? && t.now <= t.k.value
         && (t.k.value <= t.start + 64 * c.t1 + c.t4 || t.fWaits)
       case Terminated => t.k.None? && t.f.None?
  }

  predicate InTime(c: Timers, t: Tx) {
    && t.k.None?
    && (!t.fWaits ==> t.f == Some(t.start + 64 * c.t1) && t.now <= t.start + 64 * c.t1)
  }

  lemma BoundedReceive(c: Timers, t: Tx, res: SIPResponse)
    requires Bounded(c, t)
    ensures Bounded(c, Received(c, t, res))
  {}

  lemma BoundedStep(c: Timers, t: Tx, e: Event)
    requires Bounded(c, t)
    ensures Bounded(c, Apply(c, t, e))
  {
    if e.Receive? { BoundedReceive(c, t, e.res); }
  }

  lemma {:induction false} LifetimeUnlessWaiting(c: Timers, req: SIPRequest, now: nat, evs: seq<Event>)
    ensures var t := Exec(c, Started(c, req, now), evs);
      && Bounded(c, t) && t.start == now
      && (t.now > now + 64 * c.t1 + c.t4 && !t.fWaits ==> t.done)
  {
    RunKeepsStart(c, req, now, evs);
    if evs != [] {
      LifetimeUnlessWaiting(c, req, now, evs[..|evs| - 1]);
      BoundedStep(c, Exec(c, Started(c, req, now), evs[..|evs| - 1]), evs[|evs| - 1]);
    }
  }

  /** The user has taken every earlier response by the time Timer F fires. */
  predicate Drained(c: Timers, t: Tx, evs: seq<Event>)
    decreases |evs|
  {
    evs == [] ||
      var front := evs[..|evs| - 1];
      Drained(c, t, front) && (evs[|evs| - 1].FireF? ==> Exec(c, t, front).slot.None?)
  }

  lemma {:induction false} DrainedNeverWaits(c: Timers, req: SIPRequest, now: nat, evs: seq<Event>)
    requires Drained(c, Started(c, req, now), evs)
    ensures !Exec(c, Started(c, req, now), evs).fWaits
    decreases |evs|
  {
    if evs != [] { DrainedNeverWaits(c, req, now, evs[..|evs| - 1]); }
  }

  /** Lifetime: for a user that has read its channel when Timer F fires, `done` closes no later
      than 64*T1 + T4 after the start. */
  lemma Lifetime(c: Timers, req: SIPRequest, now: nat, evs: seq<Event>)
    requires Drained(c, Started(c, req, now), evs)
    ensures var t := Exec(c, Started(c, req, now), evs); t.now > now + 64 * c.t1 + c.t4 ==> t.done
  {
    DrainedNeverWaits(c, req, now, evs);
    LifetimeUnlessWaiting(c, req, now, evs);
  }

  // ----- the transaction object -----

  class NonInviteClientTx {
    const timers: Timers
    const request: SIPRequest
    const start: nat
    var state: State
    var lastResponse: Option<SIPResponse>
    var timerE: Option<Pulse>
    var timerF: Option<nat>
    var fWaits: bool
    var timerK: Option<nat>
    var responses: Option<SIPResponse>
    var doneClosed: bool
    var now: nat
    var wire: seq<Sent<SIPRequest>>

    ghost function Model(): Tx
      reads this
    {
      Tx(request, state, lastResponse, timerE, timerF, fWaits, timerK, responses, doneClosed, now, start, wire)
    }

    /** Construction together with the first actions of `run`. */
    constructor (req: SIPRequest, timers: Timers, now: nat)
      ensures Model() == Started(timers, req, now) && this.timers == timers
    {
      this.timers, request, start, this.now := timers, req, now, now;
      state, lastResponse := Trying, None;
      timerE := if timers.reliable then None else Some(Pulse(now + timers.t1, timers.t1));
      timerF, fWaits, timerK := Some(now + 64 * timers.t1), false, None;
      responses, doneClosed := None, false;
      wire := [Sent(now, req, First)];
    }

    method Terminate()
      modifies this
      ensures Model() == Ended(old(Model()))
    {
      if state == Terminated { return; }
      state := Terminated;
      timerE, timerF, timerK := None, None, None;
      doneClosed := true;
    }

    method ReceiveResponse(res: SIPResponse)
      modifies this
      ensures Model() == Received(timers, old(Model()), res)
    {
      lastResponse := Some(res);
      if state == Terminated || state == Completed { return; }
      if responses.None? { responses := Some(res); }
      if res.status >= 200 {
        state := Completed;
        timerE, timerF := None, None;
        if timers.reliable {
          Terminate();
          return;
        }
        timerK := Some(now + timers.t4);
      } else {
        state := Proceeding;
      }
    }

    method FireTimerE()
      requires PulseDue(timerE, now)
      modifies this
      ensures Model() == FiredE(timers, old(Model()))
    {
      var interval := timerE.value.interval;
      timerE := None;
      if state != Trying && state != Proceeding { return; }
      wire := wire + [Sent(now, request, Timer)];
      var newInterval := interval * 2;
      if state == Proceeding || newInterval > timers.t2 { newInterval := timers.t2; }
      timerE := Some(Pulse(now + newInterval, newInterval));
    }

    method FireTimerF()
      requires Due(timerF, now)
      modifies this
      ensures Model() == FiredF(old(Model()))
    {
      timerF := None;
      if responses.Some? {
        fWaits := true;
        return;
      }
      responses := Some(TIMEOUT);
      Terminate();
    }

    method TakeResponse() returns (res: SIPResponse)
      requires responses.Some?
      modifies this
      ensures res == old(responses).value && Model() == old(Model()).(slot := None)
    {
      res := responses.value;
      responses := None;
    }

    method ReleaseTimerF()
      requires fWaits && responses.None?
      modifies this
      ensures Model() == Effect(timers, old(Model()), ReleaseF)
    {
      fWaits := false;
      responses := Some(TIMEOUT);
      Terminate();
    }

    method FireTimerK()
      requires Due(timerK, now)
      modifies this
      ensures Model() == Effect(timers, old(Model()), FireK)
    {
      timerK := None;
      Terminate();
    }
  }
}
