/** Exactly-once delivery of REGISTER over UDP: the server's user sees each branch at most once,
    provided the client's user keeps its channel free and Timer E cannot fire too late. */
module ExactlyOnce {
  import opened Wrappers
  import opened Message
  import opened Timing
  import opened Absorption
  import Text
  import Client = NonInviteClient
  import Server = NonInviteServer

  // ----- when Timer E can fire -----

  /** The expiries of Timer E: doubling up to some `i`-th one, then `k` intervals of T2, the
      switch coming at the cap or at the first expiry after a provisional response. */
  function Expiry(c: Timers, i: nat, k: nat): nat { (Pow2(i) - 1) * c.t1 + k * c.t2 }

  predicate Uncapped(c: Timers, i: nat) { i >= 1 && Pow2(i - 1) * c.t1 <= c.t2 }

  /** Timer E can fire in the last T1 before Timer F. */
  ghost predicate CanFireLate(c: Timers) {
    exists i: nat, k: nat :: Uncapped(c, i) && 63 * c.t1 < Expiry(c, i, k) <= 64 * c.t1
  }

  lemma NextExpiry(c: Timers, i: nat, k: nat)
    ensures Expiry(c, i, k) + c.t2 == Expiry(c, i, k + 1)
    ensures Expiry(c, i, 0) + Pow2(i) * c.t1 == Expiry(c, i + 1, 0)
    ensures i >= 1 ==> 2 * (Pow2(i - 1) * c.t1) == Pow2(i) * c.t1
  {}

  /** Where Timer E stands after its start: at an expiry, with the interval that led to it. */
  ghost predicate OnExpiry(c: Timers, offset: nat, interval: nat) {
    exists i: nat, k: nat :: Uncapped(c, i) && offset == Expiry(c, i, k) && interval == IntervalAt(c, i, k)
  }

  lemma FirstOnExpiry(c: Timers)
    requires Sane(c)
    ensures OnExpiry(c, c.t1, c.t1)
  {
    assert Pow2(0) == 1 && Pow2(1) == 2;
    assert Uncapped(c, 1) && Expiry(c, 1, 0) == c.t1 && IntervalAt(c, 1, 0) == c.t1;
  }

  function IntervalAt(c: Timers, i: nat, k: nat): nat
    requires i >= 1
  {
    if k == 0 then Pow2(i - 1) * c.t1 else c.t2
  }

  lemma LongStep(c: Timers, i: nat, k: nat, offset: nat)
    requires Uncapped(c, i) && offset == Expiry(c, i, k)
    ensures OnExpiry(c, offset + c.t2, c.t2)
  {
    NextExpiry(c, i, k);
    assert offset + c.t2 == Expiry(c, i, k + 1) && IntervalAt(c, i, k + 1) == c.t2;
  }

  lemma DoublingStep(c: Timers, i: nat, offset: nat, interval: nat)
    requires Uncapped(c, i) && offset == Expiry(c, i, 0) && interval == IntervalAt(c, i, 0) && 2 * interval <= c.t2
    ensures OnExpiry(c, offset + 2 * interval, 2 * interval)
  {
    NextExpiry(c, i, 0);
    assert 2 * interval == Pow2(i) * c.t1 == IntervalAt(c, i + 1, 0);
    assert Uncapped(c, i + 1) && offset + 2 * interval == Expiry(c, i + 1, 0);
  }

  lemma StaysOnExpiry(c: Timers, s: Client.State, offset: nat, interval: nat)
    requires Sane(c) && OnExpiry(c, offset, interval)
    ensures var next := Client.NextInterval(c, s, interval); OnExpiry(c, offset + next, next)
  {
    var i, k :| Uncapped(c, i) && offset == Expiry(c, i, k) && interval == IntervalAt(c, i, k);
    if s == Client.Proceeding || 2 * interval > c.t2 {
      LongStep(c, i, k, offset);
    } else {
      DoublingStep(c, i, offset, interval);
    }
  }

  /** With T2 an even multiple of T1, as in the values the server uses, Timer E never fires late. */
  lemma EvenIsNeverLate(c: Timers, half: nat)
    requires c.t2 == (2 * half) * c.t1
    ensures !CanFireLate(c)
  {
    forall i: nat, k: nat | Uncapped(c, i) ensures !(63 * c.t1 < Expiry(c, i, k) <= 64 * c.t1) {
      var q := Pow2(i - 1) + k * half;
      assert Pow2(i) == 2 * Pow2(i - 1);
      assert k * c.t2 == 2 * (k * half) * c.t1 by { Reorder(k, half, c.t1); }
      assert Expiry(c, i, k) == (2 * q - 1) * c.t1 by { Collect(2 * Pow2(i - 1) - 1, 2 * (k * half), c.t1); }
      if q <= 32 { ProductGrows(2 * q - 1, 63, c.t1); } else { ProductGrows(65, 2 * q - 1, c.t1); }
      assert c.t1 == 0 || (2 * q - 1) * c.t1 <= 63 * c.t1 || 65 * c.t1 <= (2 * q - 1) * c.t1;
    }
  }

  lemma Reorder(k: nat, half: nat, t: nat)
    ensures k * ((2 * half) * t) == 2 * (k * half) * t
  {}

  lemma Collect(a: int, b: int, t: int)
    ensures a * t + b * t == (a + b) * t
  {}

  lemma DefaultIsNeverLate()
    ensures var c := DefaultTimers("UDP"); Sane(c) && !c.reliable && !CanFireLate(c)
  {
    var c := DefaultTimers("UDP");
    assert Text.ToUpper("UDP") == "UDP" && "UDP"[0] == 'U' && "TCP"[0] == 'T' && "TLS"[0] == 'T';
    EvenIsNeverLate(c, 4);
  }

  // ----- what holds for one branch -----

  /** No copy goes out later than 63*T1 after the first; Timer F, while it runs, stands at 64*T1. */
  ghost predicate ClientInv(c: Timers, t: Client.Tx) {
    && t.start <= t.now && !t.fWaits
    && (forall k :: 0 <= k < |t.wire| ==> t.wire[k].msg == t.req && t.start <= t.wire[k].at <= t.start + 63 * c.t1)
    && (t.state in {Client.Trying, Client.Proceeding} ==>
          t.f == Some(t.start + 64 * c.t1) && t.now <= t.start + 64 * c.t1)
    && (t.e.Some? ==>
          && t.state in {Client.Trying, Client.Proceeding} && t.start <= t.e.value.due
          && OnExpiry(c, t.e.value.due - t.start, t.e.value.interval)
          && t.now <= t.e.value.due)
  }

  lemma NotLate(c: Timers, offset: nat, interval: nat)
    requires !CanFireLate(c) && OnExpiry(c, offset, interval) && offset <= 64 * c.t1
    ensures offset <= 63 * c.t1
  {}

  lemma FireEInv(c: Timers, t: Client.Tx)
    requires Sane(c) && !CanFireLate(c) && ClientInv(c, t) && PulseDue(t.e, t.now)
    ensures ClientInv(c, Client.FiredE(c, t))
  {
    var due, interval := t.e.value.due, t.e.value.interval;
    NotLate(c, due - t.start, interval);
    StaysOnExpiry(c, t.state, due - t.start, interval);
    var next := Client.NextInterval(c, t.state, interval);
    var t' := Client.FiredE(c, t);
    assert t'.e == Some(Pulse(t.now + next, next)) && t.now == due;
    assert t'.e.value.due - t'.start == (due - t.start) + next;
  }

  /** What the steps other than Timer E's do to the timers and the state. */
  lemma TimersAfter(c: Timers, t: Client.Tx, e: Client.Event)
    requires !c.reliable && !e.FireE? && !e.Tick? && (e.FireF? ==> t.slot.None?) && !t.fWaits
    requires t.e.Some? ==> t.state in {Client.Trying, Client.Proceeding}
    ensures var t' := Client.Apply(c, t, e);
      && !t'.fWaits && (t'.e.Some? ==> t'.state in {Client.Trying, Client.Proceeding})
      && (t'.state in {Client.Trying, Client.Proceeding} ==>
            t.state in {Client.Trying, Client.Proceeding} && t'.f == t.f)
  {
    match e
    case Receive(res) => TimersOnReceipt(c, t, res);
    case Drain =>
    case FireF =>
    case ReleaseF =>
    case FireK =>
    case Terminate =>
  }

  lemma TimersOnReceipt(c: Timers, t: Client.Tx, res: SIPResponse)
    requires !c.reliable && !t.fWaits && (t.e.Some? ==> t.state in {Client.Trying, Client.Proceeding})
    ensures var t' := Client.Received(c, t, res);
      && !t'.fWaits && (t'.e.Some? ==> t'.state in {Client.Trying, Client.Proceeding})
      && (t'.state in {Client.Trying, Client.Proceeding} ==>
            t.state in {Client.Trying, Client.Proceeding} && t'.f == t.f)
  {
    match t.state
    case Trying =>
    case Proceeding =>
    case Completed =>
    case Terminated =>
  }

  lemma ClientInvStep(c: Timers, t: Client.Tx, e: Client.Event)
    requires Sane(c) && !c.reliable && !CanFireLate(c) && ClientInv(c, t) && !e.Tick? && (e.FireF? ==> t.slot.None?)
    ensures ClientInv(c, Client.Apply(c, t, e))
  {
    if e.FireE? && Client.Enabled(t, e) {
      FireEInv(c, t);
    } else if !e.FireE? {
      ClientQuiet(c, t, e);
      TimersAfter(c, t, e);
    }
  }

  ghost predicate Once(c: Timers, cell: Cell) { ClientInv(c, cell.client) && cell.seen <= 1 }

  /** The client's user has taken what came before when Timer F fires. */
  predicate Reads(cell: Cell, e: CellEvent) { e == AtClient(Client.FireF) ==> cell.client.slot.None? }

  lemma OnceStep(c: Timers, d: Delays, cell: Cell, e: CellEvent)
    requires Steady(c, d) && !CanFireLate(c) && Held(c, d, cell) && Once(c, cell) && Reads(cell, e)
    ensures Once(c, ApplyCell(c, d, cell, e))
  {
    if Possible(d, cell, e) {
      if e.AtClient? { ClientInvStep(c, cell.client, e.ce); }
      else if e.Deliver? && cell.seen == 1 { CopyAbsorbed(c, d, cell, e.k); }
    }
  }

  lemma OncePasses(c: Timers, cell: Cell, to: nat)
    requires Once(c, cell) && MayPass(cell, to)
    ensures Once(c, PassTo(cell, to))
  {}

  lemma StartedOnce(c: Timers, req: SIPRequest, now: nat)
    requires Sane(c)
    ensures Once(c, Cell(Client.Started(c, req, now), None, 0))
  {
    FirstOnExpiry(c);
  }

  /** In no step of the run does Timer F find an unread response in its client's channel. */
  ghost predicate Drained(c: Timers, d: Delays, evs: seq<Event>)
    decreases |evs|
  {
    evs == [] ||
      var s, e := Exec(c, d, evs[..|evs| - 1]), evs[|evs| - 1];
      Drained(c, d, evs[..|evs| - 1]) && (e.At? && e.branch in s.cells ==> Reads(s.cells[e.branch], e.ce))
  }

  lemma {:induction false} RunOnce(c: Timers, d: Delays, evs: seq<Event>, branch: string)
    requires Steady(c, d) && !CanFireLate(c) && Drained(c, d, evs) && branch in Exec(c, d, evs).cells
    ensures Once(c, Exec(c, d, evs).cells[branch])
    decreases |evs|
  {
    var s, e := Exec(c, d, evs[..|evs| - 1]), evs[|evs| - 1];
    if branch in s.cells {
      RunOnce(c, d, evs[..|evs| - 1], branch);
      RunHeld(c, d, evs[..|evs| - 1]);
      if e.At? && e.branch == branch { OnceStep(c, d, s.cells[branch], e.ce); }
      else if e.Tick? && s.now < e.to && MayPass(s.cells[branch], e.to) { OncePasses(c, s.cells[branch], e.to); }
    } else {
      StartedOnce(c, e.req, s.now);
    }
  }

  /** In every run whose client users keep their channels free, the server's user sees each
      branch at most once. */
  lemma SeenAtMostOnce(c: Timers, d: Delays, evs: seq<Event>, branch: string)
    requires Steady(c, d) && !CanFireLate(c) && Drained(c, d, evs) && branch in Exec(c, d, evs).cells
    ensures Exec(c, d, evs).cells[branch].seen <= 1
  {
    RunOnce(c, d, evs, branch);
  }
}
