/** REGISTER over UDP: many client transactions, each under its own branch, a network that
    loses, duplicates, reorders and delays, and the server side of `handleRequest`, which
    hands a request to its user only when the manager holds no transaction for the branch. */
module Absorption {
  import opened Wrappers
  import opened Message
  import opened Timing
  import Client = NonInviteClient
  import Server = NonInviteServer

  /** Bounds on how long any copy of any message travels. */
  datatype Delays = Delays(least: nat, most: nat)

  predicate Steady(c: Timers, d: Delays) {
    Sane(c) && !c.reliable && d.least <= d.most < d.least + c.t1
  }

  // ----- one branch -----

  /** The client transaction, what the manager holds for its branch, and how often the
      server's user was given the request. */
  datatype Cell = Cell(client: Client.Tx, server: Option<Server.Tx>, seen: nat)

  datatype CellEvent =
    | AtClient(ce: Client.Event)
    | AtServer(se: Server.Event)
    | Deliver(k: nat)
    | Reap

  /** The client's user reads its channel whenever it likes, or never; server transactions are
      ended by their own timer only; copies arrive within the delay bounds. */
  predicate Possible(d: Delays, cell: Cell, e: CellEvent) {
    match e
    case AtClient(ce) => !ce.Tick?
    case AtServer(se) => cell.server.Some? && !se.Tick? && !se.Receive? && !se.Terminate?
    case Deliver(k) =>
      k < |cell.client.wire|
      && cell.client.wire[k].at + d.least <= cell.client.now <= cell.client.wire[k].at + d.most
    case Reap => cell.server.Some? && cell.server.value.done
  }

  /** `handleRequest` on a REGISTER outside the known dialogs (`RegisterRouting` ties it to the
      routing): a known branch absorbs the copy, a new one is a new transaction whose request
      goes to the user. */
  function Handled(cell: Cell, req: SIPRequest): Cell {
    match cell.server
    case Some(tx) => cell.(server := Some(Server.Received(tx, req)))
    case None => cell.(server := Some(Server.Started(req, cell.client.now)), seen := cell.seen + 1)
  }

  function ApplyCell(c: Timers, d: Delays, cell: Cell, e: CellEvent): Cell {
    if !Possible(d, cell, e) then cell
    else match e
      case AtClient(ce) => cell.(client := Client.Apply(c, cell.client, ce))
      case AtServer(se) => cell.(server := Some(Server.Apply(c, cell.server.value, se)))
      case Deliver(k) => Handled(cell, cell.client.wire[k].msg)
      case Reap => cell.(server := None)
  }

  predicate MayPass(cell: Cell, to: nat) {
    Client.MayPass(cell.client, to) && (cell.server.Some? ==> Clear(cell.server.value.j, to))
  }

  function PassTo(cell: Cell, to: nat): Cell {
    cell.(client := cell.client.(now := to),
          server := if cell.server.Some? then Some(cell.server.value.(now := to)) else None)
  }

  // ----- what always holds for one branch -----

  /** From `born` on, the transaction cannot end before `born + 64*T1`. */
  predicate Lasts(c: Timers, t: Server.Tx, born: nat) {
    && born <= t.now
    && (t.j.Some? ==> born + 64 * c.t1 <= t.j.value)
    && (t.state == Server.Terminated || t.done ==> born + 64 * c.t1 <= t.now)
  }

  lemma LastsStep(c: Timers, t: Server.Tx, e: Server.Event, born: nat)
    requires !c.reliable && Lasts(c, t, born) && !e.Terminate? && !e.Tick?
    ensures Lasts(c, Server.Apply(c, t, e), born) && Server.Apply(c, t, e).now == t.now
  {}

  lemma ReceivedLasts(c: Timers, t: Server.Tx, req: SIPRequest, born: nat)
    requires Lasts(c, t, born)
    ensures Lasts(c, Server.Received(t, req), born) && Server.Received(t, req).now == t.now
  {}

  /** The copies on the wire: of the request, none from before the start or the future. */
  predicate Genuine(t: Client.Tx) {
    && t.start <= t.now
    && forall k :: 0 <= k < |t.wire| ==> t.wire[k].msg == t.req && t.start <= t.wire[k].at <= t.now
  }

  /** Whatever the timer values and whatever the client's user does: once the server's user has
      seen the request, the branch is held until 64*T1 after the earliest possible arrival. */
  ghost predicate Held(c: Timers, d: Delays, cell: Cell) {
    var born := cell.client.start + d.least;
    && Genuine(cell.client)
    && (cell.server.Some? ==>
          && cell.seen >= 1 && cell.server.value.now == cell.client.now
          && Lasts(c, cell.server.value, born))
    && (cell.seen >= 1 && cell.server.None? ==> born + 64 * c.t1 <= cell.client.now)
  }

  /** A copy written up to 63*T1 that arrives after the user has seen the request finds the
      transaction alive and only makes it replay. */
  lemma CopyAbsorbed(c: Timers, d: Delays, cell: Cell, k: nat)
    requires Steady(c, d) && Held(c, d, cell) && Possible(d, cell, Deliver(k)) && cell.seen >= 1
    requires cell.client.wire[k].at <= cell.client.start + 63 * c.t1
    ensures cell.server.Some? && !cell.server.value.done && cell.server.value.state != Server.Terminated
    ensures ApplyCell(c, d, cell, Deliver(k)) ==
      cell.(server := Some(Server.Received(cell.server.value, cell.client.req)))
  {}

  /** Only Timer E writes. */
  lemma ClientQuiet(c: Timers, t: Client.Tx, e: Client.Event)
    requires !e.FireE? && !e.Tick?
    ensures var t' := Client.Apply(c, t, e);
      t'.wire == t.wire && t'.start == t.start && t'.now == t.now && t'.req == t.req && (t'.e == t.e || t'.e.None?)
  {
    if e.Receive? { Client.ReceivedFrame(c, t, e.res); }
  }

  lemma ClientFrame(c: Timers, t: Client.Tx, e: Client.Event)
    requires !e.Tick? && Genuine(t)
    ensures var t' := Client.Apply(c, t, e); t'.now == t.now && t'.start == t.start && t'.req == t.req && Genuine(t')
  {
    if !e.FireE? { ClientQuiet(c, t, e); }
  }

  lemma HeldStep(c: Timers, d: Delays, cell: Cell, e: CellEvent)
    requires Steady(c, d) && Held(c, d, cell)
    ensures Held(c, d, ApplyCell(c, d, cell, e))
  {
    if Possible(d, cell, e) {
      var born := cell.client.start + d.least;
      match e
      case AtClient(ce) => ClientFrame(c, cell.client, ce);
      case AtServer(se) => LastsStep(c, cell.server.value, se, born);
      case Deliver(k) => if cell.server.Some? { ReceivedLasts(c, cell.server.value, cell.client.wire[k].msg, born); }
      case Reap =>
    }
  }

  lemma HeldPasses(c: Timers, d: Delays, cell: Cell, to: nat)
    requires Held(c, d, cell) && MayPass(cell, to)
    ensures Held(c, d, PassTo(cell, to))
  {}

  // ----- all branches -----

  datatype System = System(now: nat, cells: map<string, Cell>)

  datatype Event = Register(branch: string, req: SIPRequest) | At(branch: string, ce: CellEvent) | Tick(to: nat)

  /** Branches are fresh; time passes everywhere at once and skips no deadline. */
  function Apply(c: Timers, d: Delays, s: System, e: Event): System {
    match e
    case Register(b, req) =>
      if b in s.cells then s
      else s.(cells := s.cells[b := Cell(Client.Started(c, req, s.now), None, 0)])
    case At(b, ce) =>
      if b !in s.cells then s else s.(cells := s.cells[b := ApplyCell(c, d, s.cells[b], ce)])
    case Tick(to) =>
      if s.now < to && forall b :: b in s.cells ==> MayPass(s.cells[b], to)
      then System(to, map b | b in s.cells :: PassTo(s.cells[b], to))
      else s
  }

  function Exec(c: Timers, d: Delays, evs: seq<Event>): System
    decreases |evs|
  {
    if evs == [] then System(0, map[]) else Apply(c, d, Exec(c, d, evs[..|evs| - 1]), evs[|evs| - 1])
  }

  // ----- where responses come from -----

  /** In the state `s` a server transaction of the branch had written `res`, and a copy of that
      may arrive at `now`. */
  ghost predicate UnderWay(d: Delays, s: System, branch: string, res: SIPResponse, now: nat) {
    && branch in s.cells && s.cells[branch].server.Some?
    && var wire := s.cells[branch].server.value.wire;
       exists k :: 0 <= k < |wire| && wire[k].msg == res && wire[k].at + d.least <= now <= wire[k].at + d.most
  }

  /** Clients receive only what a server transaction of their branch, ended or not, has written,
      within the delay bounds. The theorems about absorption do without this; the runs that show
      their limits do not. */
  ghost predicate Authentic(c: Timers, d: Delays, evs: seq<Event>)
    decreases |evs|
  {
    evs == [] ||
      var front, e := evs[..|evs| - 1], evs[|evs| - 1];
      && Authentic(c, d, front)
      && (e.At? && e.ce.AtClient? && e.ce.ce.Receive? ==>
            exists j :: 0 <= j <= |front|
              && UnderWay(d, Exec(c, d, front[..j]), e.branch, e.ce.ce.res, Exec(c, d, front).now))
  }

  lemma CellClock(c: Timers, d: Delays, cell: Cell, e: CellEvent)
    ensures ApplyCell(c, d, cell, e).client.now == cell.client.now
  {}

  ghost predicate AllHeld(c: Timers, d: Delays, s: System) {
    forall b :: b in s.cells ==> Held(c, d, s.cells[b]) && s.cells[b].client.now == s.now
  }

  lemma {:induction false} RunHeld(c: Timers, d: Delays, evs: seq<Event>)
    requires Steady(c, d)
    ensures AllHeld(c, d, Exec(c, d, evs))
    decreases |evs|
  {
    if evs != [] {
      var s, e := Exec(c, d, evs[..|evs| - 1]), evs[|evs| - 1];
      RunHeld(c, d, evs[..|evs| - 1]);
      if e.At? && e.branch in s.cells {
        HeldStep(c, d, s.cells[e.branch], e.ce);
        CellClock(c, d, s.cells[e.branch], e.ce);
      } else if e.Tick? && s.now < e.to && forall b :: b in s.cells ==> MayPass(s.cells[b], e.to) {
        forall b | b in s.cells ensures Held(c, d, PassTo(s.cells[b], e.to)) { HeldPasses(c, d, s.cells[b], e.to); }
      }
    }
  }

  /** For all timer values and every client user: a copy written up to 63*T1, duplicates
      included, that arrives after the server's user has seen the request reaches a transaction
      that Timer J still holds, and the user does not see it. */
  lemma CopiesAbsorbed(c: Timers, d: Delays, evs: seq<Event>, branch: string, k: nat)
    requires Steady(c, d) && branch in Exec(c, d, evs).cells
    requires var cell := Exec(c, d, evs).cells[branch];
      cell.seen >= 1 && Possible(d, cell, Deliver(k)) && cell.client.wire[k].at <= cell.client.start + 63 * c.t1
    ensures var cell := Exec(c, d, evs).cells[branch];
      && cell.server.Some? && !cell.server.value.done
      && ApplyCell(c, d, cell, Deliver(k)) == cell.(server := Some(Server.Received(cell.server.value, cell.client.req)))
  {
    RunHeld(c, d, evs);
    CopyAbsorbed(c, d, Exec(c, d, evs).cells[branch], k);
  }

  // ----- when T1 divides T2 -----

  function Times(q: int, t: int): int { q * t }

  ghost predicate Multiple(x: int, t: int) { exists q :: x == Times(q, t) }

  lemma MultipleSum(x: int, y: int, t: int)
    requires Multiple(x, t) && Multiple(y, t)
    ensures Multiple(x + y, t)
  {
    var q :| x == Times(q, t);
    var r :| y == Times(r, t);
    assert x + y == Times(q + r, t);
  }

  lemma MultipleBelow(x: int, t: int)
    requires t > 0 && Multiple(x, t) && x < 64 * t
    ensures x <= 63 * t
  {
    var q :| x == Times(q, t);
    if q >= 64 { ProductGrows(64, q, t); } else { ProductGrows(q, 63, t); }
  }

  lemma ProductGrows(a: int, b: int, t: nat)
    requires a <= b
    ensures a * t <= b * t
  {
    assert 0 <= (b - a) * t;
  }

  /** Every copy goes out a multiple of T1 after the start, and so does the next one. */
  ghost predicate OnGrid(c: Timers, t: Client.Tx) {
    && (forall k :: 0 <= k < |t.wire| ==> Multiple(t.wire[k].at - t.start, c.t1))
    && (t.e.Some? ==>
          && t.now <= t.e.value.due
          && Multiple(t.e.value.due - t.start, c.t1) && Multiple(t.e.value.interval, c.t1))
  }

  lemma FireEOnGrid(c: Timers, t: Client.Tx)
    requires Multiple(c.t2, c.t1) && OnGrid(c, t) && PulseDue(t.e, t.now)
    ensures OnGrid(c, Client.FiredE(c, t))
  {
    var due, interval := t.e.value.due, t.e.value.interval;
    var next := Client.NextInterval(c, t.state, interval);
    MultipleSum(interval, interval, c.t1);
    assert Multiple(next, c.t1);
    MultipleSum(due - t.start, next, c.t1);
    assert t.now + next - t.start == (due - t.start) + next;
  }

  lemma OnGridStep(c: Timers, d: Delays, cell: Cell, e: CellEvent)
    requires Multiple(c.t2, c.t1) && OnGrid(c, cell.client)
    ensures OnGrid(c, ApplyCell(c, d, cell, e).client)
  {
    if e.AtClient? && Possible(d, cell, e) && Client.Enabled(cell.client, e.ce) {
      if e.ce.FireE? {
        FireEOnGrid(c, cell.client);
      } else {
        OtherOnGrid(c, cell.client, e.ce);
      }
    }
  }

  lemma OtherOnGrid(c: Timers, t: Client.Tx, e: Client.Event)
    requires !e.FireE? && !e.Tick? && OnGrid(c, t)
    ensures OnGrid(c, Client.Apply(c, t, e))
  {
    ClientQuiet(c, t, e);
    GridKept(c, t, Client.Apply(c, t, e));
  }

  lemma GridKept(c: Timers, t: Client.Tx, t': Client.Tx)
    requires OnGrid(c, t) && t'.wire == t.wire && t'.start == t.start && t'.now == t.now && (t'.e == t.e || t'.e.None?)
    ensures OnGrid(c, t')
  {}

  lemma StartOnGrid(c: Timers, req: SIPRequest, now: nat)
    ensures OnGrid(c, Client.Started(c, req, now))
  {
    assert Times(0, c.t1) == 0 && Times(1, c.t1) == c.t1;
  }

  lemma {:induction false} RunOnGrid(c: Timers, d: Delays, evs: seq<Event>, branch: string)
    requires Multiple(c.t2, c.t1) && branch in Exec(c, d, evs).cells
    ensures OnGrid(c, Exec(c, d, evs).cells[branch].client)
    decreases |evs|
  {
    var s, e := Exec(c, d, evs[..|evs| - 1]), evs[|evs| - 1];
    if branch in s.cells {
      RunOnGrid(c, d, evs[..|evs| - 1], branch);
      if e.At? { OnGridStep(c, d, s.cells[branch], e.ce); }
    } else {
      StartOnGrid(c, e.req, s.now);
    }
  }

  /** So if T1 divides T2, every copy that Timer E emits before 64*T1 is absorbed. */
  lemma CopiesBeforeTimerF(c: Timers, d: Delays, evs: seq<Event>, branch: string, k: nat)
    requires Steady(c, d) && Multiple(c.t2, c.t1) && branch in Exec(c, d, evs).cells
    requires var cell := Exec(c, d, evs).cells[branch];
      cell.seen >= 1 && Possible(d, cell, Deliver(k)) && cell.client.wire[k].at < cell.client.start + 64 * c.t1
    ensures var cell := Exec(c, d, evs).cells[branch];
      && cell.server.Some? && !cell.server.value.done
      && ApplyCell(c, d, cell, Deliver(k)) == cell.(server := Some(Server.Received(cell.server.value, cell.client.req)))
  {
    RunOnGrid(c, d, evs, branch);
    var t := Exec(c, d, evs).cells[branch].client;
    MultipleBelow(t.wire[k].at - t.start, c.t1);
    CopiesAbsorbed(c, d, evs, branch, k);
  }
}
