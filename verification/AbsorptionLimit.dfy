/** The conditions of the exactly-once theorem are exact: whenever Timer E can fire in the last T1
    before Timer F, or a client user leaves a response unread, some run hands one request to the
    server's user twice. */
module AbsorptionLimit {
  import opened Wrappers
  import opened Message
  import opened Timing
  import opened Absorption
  import opened ExactlyOnce
  import Client = NonInviteClient
  import Server = NonInviteServer

  const B: string := "z9hG4bK1"

  /** Timer values; the expiry `i` in front of which the client hears a provisional answer, and
      `k` more; the least delay and how much longer a copy may take; whether the client's user
      reads that answer; the request, the provisional answer and the final one, which is lost. */
  datatype Plan = Plan(
    c: Timers, i: nat, k: nat, lag: nat, spare: nat, read: bool,
    req: SIPRequest, prov: SIPResponse, res: SIPResponse)

  predicate Works(p: Plan) {
    && Sane(p.c) && !p.c.reliable && p.i >= 1 && DoubledInterval(p.c, p.i - 1) <= p.c.t2
    && Time(p, Last(p)) <= 64 * p.c.t1 && p.spare < p.c.t1
    && Time(p, p.i - 1) <= p.lag && 2 * p.lag <= Time(p, p.i)
    && p.prov.status < 200 <= p.res.status
  }

  /** The interval after `n` expiries that doubles up to the `i`-th one and is T2 from there. */
  function GapOf(c: Timers, i: nat, n: nat): nat { if n < i then DoubledInterval(c, n) else c.t2 }

  /** The `n`-th expiry. */
  function TimeOf(c: Timers, i: nat, n: nat): nat { if n == 0 then 0 else TimeOf(c, i, n - 1) + GapOf(c, i, n - 1) }

  function Time(p: Plan, n: nat): nat { TimeOf(p.c, p.i, n) }

  function Gap(p: Plan, n: nat): nat { GapOf(p.c, p.i, n) }

  function Last(p: Plan): nat { p.i + p.k }

  function Net(p: Plan): Delays { Delays(p.lag, p.lag + p.spare) }

  lemma {:induction false} IntervalsGrow(c: Timers, n: nat, m: nat)
    requires c.t1 > 0 && n <= m
    ensures 0 < DoubledInterval(c, n) <= DoubledInterval(c, m)
    decreases m
  {
    if n < m {
      IntervalsGrow(c, n, m - 1);
    } else if n > 0 {
      IntervalsGrow(c, n - 1, n - 1);
    }
  }

  lemma TimeStep(p: Plan, n: nat)
    requires Works(p)
    ensures Time(p, n + 1) == Time(p, n) + Gap(p, n)
    ensures Gap(p, n) > 0 && Time(p, 0) == 0 && Gap(p, 0) == p.c.t1
  {
    IntervalsGrow(p.c, n, n);
  }

  lemma {:induction false} TimeBounded(p: Plan, n: nat, m: nat)
    requires Works(p) && n <= m
    ensures Time(p, n) <= Time(p, m)
    decreases m - n
  {
    if n < m {
      TimeStep(p, n);
      TimeBounded(p, n + 1, m);
    }
  }

  /** What the client does at the `n`-th expiry leads to the next gap. */
  lemma GapIsNext(p: Plan, n: nat)
    requires Works(p)
    ensures var state := if n + 1 < p.i then Client.Trying else Client.Proceeding;
      Client.NextInterval(p.c, state, Gap(p, n)) == Gap(p, n + 1)
  {
    if n + 1 < p.i { IntervalsGrow(p.c, n + 1, p.i - 1); }
  }

  /** The expiries of the run are those of Timer E. */
  lemma {:induction false} TimeIsExpiry(c: Timers, i: nat, k: nat)
    requires i >= 1
    ensures TimeOf(c, i, i + k) == Expiry(c, i, k)
    decreases k
  {
    if k == 0 {
      TimeDoubles(c, i, i);
      DoubledClosedForm(c, i);
    } else {
      TimeIsExpiry(c, i, k - 1);
      NextExpiry(c, i, k - 1);
    }
  }

  lemma {:induction false} TimeDoubles(c: Timers, i: nat, n: nat)
    requires n <= i
    ensures TimeOf(c, i, n) == DoubledOffset(c, n)
  {
    if n > 0 { TimeDoubles(c, i, n - 1); }
  }

  // ----- the states along the run -----

  function Copies(p: Plan, n: nat): seq<Sent<SIPRequest>> {
    if n == 0 then [Sent(0, p.req, First)] else Copies(p, n - 1) + [Sent(Time(p, n), p.req, Timer)]
  }

  /** The client after `n` expiries. */
  function ClientAt(p: Plan, n: nat): Client.Tx {
    var heard := n >= p.i;
    Client.Tx(p.req, if heard then Client.Proceeding else Client.Trying, if heard then Some(p.prov) else None,
              Some(Pulse(Time(p, n) + Gap(p, n), Gap(p, n))), Some(64 * p.c.t1), false, None,
              if heard && !p.read then Some(p.prov) else None, false, Time(p, n), 0, Copies(p, n))
  }

  /** The server, which has answered the first copy twice when it came. */
  function ServerAt(p: Plan, now: nat): Server.Tx {
    Server.Tx(p.req, Server.Completed, Some(p.res), Some(p.lag + 64 * p.c.t1), None, false, true, now,
              [Sent(p.lag, p.prov, User)] + [Sent(p.lag, p.res, User)])
  }

  function CellAt(p: Plan, n: nat): Cell {
    if n < p.i then Cell(ClientAt(p, n), None, 0) else Cell(ClientAt(p, n), Some(ServerAt(p, Time(p, n))), 1)
  }

  lemma {:induction false} CopiesSize(p: Plan, n: nat)
    ensures |Copies(p, n)| == n + 1 && Copies(p, n)[n].msg == p.req
    ensures Time(p, 0) == 0 ==> Copies(p, n)[n].at == Time(p, n)
  {
    if n > 0 { CopiesSize(p, n - 1); }
  }

  // ----- building a run -----

  /** The state with the one branch of the run. */
  function Only(now: nat, cell: Cell): System { System(now, map[B := cell]) }

  /** The run `evs` leads there, with responses the server wrote and, if the plan says so, with
      the client's channel kept free. */
  ghost predicate Reaches(p: Plan, evs: seq<Event>, now: nat, cell: Cell) {
    && Exec(p.c, Net(p), evs) == Only(now, cell) && Authentic(p.c, Net(p), evs)
    && (p.read ==> Drained(p.c, Net(p), evs))
  }

  lemma Register(p: Plan) returns (evs: seq<Event>)
    ensures Reaches(p, evs, 0, Cell(Client.Started(p.c, p.req, 0), None, 0))
  {
    evs := [Event.Register(B, p.req)];
    assert evs[..0] == [];
  }

  /** One more step of the branch, other than the receipt of a response. */
  lemma Next(p: Plan, evs: seq<Event>, now: nat, cell: Cell, ce: CellEvent) returns (longer: seq<Event>)
    requires Reaches(p, evs, now, cell) && !(ce.AtClient? && ce.ce.Receive?) && (p.read ==> Reads(cell, ce))
    ensures Reaches(p, longer, now, ApplyCell(p.c, Net(p), cell, ce))
  {
    longer := evs + [At(B, ce)];
    assert longer[..|evs|] == evs;
  }

  /** The client receives the provisional answer, as long as a copy of it may be under way. */
  lemma Hear(p: Plan, evs: seq<Event>, cell: Cell) returns (longer: seq<Event>)
    requires Reaches(p, evs, 2 * p.lag, cell) && cell.server == Some(ServerAt(p, 2 * p.lag))
    ensures Reaches(p, longer, 2 * p.lag, ApplyCell(p.c, Net(p), cell, AtClient(Client.Receive(p.prov))))
  {
    longer := evs + [At(B, AtClient(Client.Receive(p.prov)))];
    assert longer[..|evs|] == evs && evs[..|evs|] == evs;
    assert cell.server.value.wire[0] == Sent(p.lag, p.prov, User);
    assert UnderWay(Net(p), Only(2 * p.lag, cell), B, p.prov, 2 * p.lag);
  }

  /** The clock goes on, if it is not there yet. */
  lemma Pass(p: Plan, evs: seq<Event>, now: nat, cell: Cell, to: nat) returns (longer: seq<Event>)
    requires Reaches(p, evs, now, cell) && now <= to && (now < to ==> MayPass(cell, to))
    requires cell == PassTo(cell, now)
    ensures Reaches(p, longer, to, PassTo(cell, to))
  {
    longer := evs;
    if now < to {
      longer := evs + [Tick(to)];
      assert longer[..|evs|] == evs;
    }
  }

  // ----- the run up to the last expiry before Timer F -----

  lemma {:induction false} RunReaches(p: Plan, n: nat) returns (evs: seq<Event>)
    requires Works(p) && n <= Last(p)
    ensures Reaches(p, evs, Time(p, n), CellAt(p, n))
    decreases n
  {
    if n == 0 {
      evs := Register(p);
      Begins(p);
    } else if n == p.i {
      evs := RunReaches(p, n - 1);
      evs := FirstHeard(p, evs);
    } else {
      evs := RunReaches(p, n - 1);
      evs := FireAgain(p, n - 1, evs);
    }
  }

  lemma Begins(p: Plan)
    requires Works(p)
    ensures Time(p, 0) == 0 && Cell(Client.Started(p.c, p.req, 0), None, 0) == CellAt(p, 0)
  {
    TimeStep(p, 0);
  }

  lemma FirstHeard(p: Plan, evs: seq<Event>) returns (longer: seq<Event>)
    requires Works(p) && Reaches(p, evs, Time(p, p.i - 1), CellAt(p, p.i - 1))
    ensures Reaches(p, longer, Time(p, p.i), CellAt(p, p.i))
  {
    longer := AskedAndAnswered(p, evs);
    longer := Heard(p, longer);
    longer := FireHeard(p, longer);
  }

  lemma FireAgain(p: Plan, n: nat, evs: seq<Event>) returns (longer: seq<Event>)
    requires Works(p) && n < Last(p) && n + 1 != p.i && Reaches(p, evs, Time(p, n), CellAt(p, n))
    ensures Reaches(p, longer, Time(p, n + 1), CellAt(p, n + 1))
  {
    var cell, to := CellAt(p, n), Time(p, n + 1);
    TimeStep(p, n);
    TimeBounded(p, n + 1, Last(p));
    if n >= p.i { TimeBounded(p, p.i, n); }
    longer := Pass(p, evs, Time(p, n), cell, to);
    FiresNext(p, n, PassTo(cell, to).client);
    longer := Next(p, longer, to, PassTo(cell, to), AtClient(Client.FireE));
  }

  /** Timer E at its next expiry, whatever was heard before. */
  lemma FiresNext(p: Plan, n: nat, t: Client.Tx)
    requires Works(p) && t.now == Time(p, n + 1) && t.e == ClientAt(p, n).e && t.wire == Copies(p, n) && t.req == p.req
    requires t == ClientAt(p, n + 1).(now := t.now, e := t.e, wire := t.wire)
    ensures PulseDue(t.e, t.now) && Client.FiredE(p.c, t) == ClientAt(p, n + 1)
  {
    TimeStep(p, n);
    GapIsNext(p, n);
  }

  /** The first copy arrives after `lag`; the server's user sends both answers at once. */
  lemma AskedAndAnswered(p: Plan, evs: seq<Event>) returns (longer: seq<Event>)
    requires Works(p) && Reaches(p, evs, Time(p, p.i - 1), CellAt(p, p.i - 1))
    ensures Reaches(p, longer, p.lag, Cell(Before(p, p.lag), Some(ServerAt(p, p.lag)), 1))
  {
    longer := FirstArrives(p, evs);
    var t := Server.Started(p.req, p.lag);
    longer := Answer(p, longer, t, p.prov);
    longer := Answer(p, longer, Server.Taken(p.c, t.(slot := Some(p.prov))), p.res);
    BothAnswers(p);
  }

  lemma FirstArrives(p: Plan, evs: seq<Event>) returns (longer: seq<Event>)
    requires Works(p) && Reaches(p, evs, Time(p, p.i - 1), CellAt(p, p.i - 1))
    ensures Reaches(p, longer, p.lag, Cell(Before(p, p.lag), Some(Server.Started(p.req, p.lag)), 1))
  {
    MayArrive(p);
    longer := Pass(p, evs, Time(p, p.i - 1), CellAt(p, p.i - 1), p.lag);
    Arrival(p);
    longer := Next(p, longer, p.lag, Cell(Before(p, p.lag), None, 0), Deliver(0));
  }

  lemma Arrival(p: Plan)
    requires Works(p)
    ensures PassTo(CellAt(p, p.i - 1), p.lag) == Cell(Before(p, p.lag), None, 0)
    ensures ApplyCell(p.c, Net(p), Cell(Before(p, p.lag), None, 0), Deliver(0)) ==
      Cell(Before(p, p.lag), Some(Server.Started(p.req, p.lag)), 1)
  {
    FirstCopy(p, p.i - 1);
  }

  lemma MayArrive(p: Plan)
    requires Works(p)
    ensures Time(p, p.i - 1) < p.lag ==> MayPass(CellAt(p, p.i - 1), p.lag)
  {
    TimeStep(p, p.i - 1);
    TimeBounded(p, p.i, Last(p));
  }

  /** The client between the expiry `i - 1` and the receipt of the provisional answer. */
  function Before(p: Plan, now: nat): Client.Tx
    requires p.i >= 1
  {
    ClientAt(p, p.i - 1).(now := now)
  }

  lemma {:induction false} FirstCopy(p: Plan, n: nat)
    ensures |Copies(p, n)| > 0 && Copies(p, n)[0] == Sent(0, p.req, First)
  {
    if n > 0 { FirstCopy(p, n - 1); }
  }

  lemma Answer(p: Plan, evs: seq<Event>, t: Server.Tx, res: SIPResponse) returns (longer: seq<Event>)
    requires p.i >= 1 && Reaches(p, evs, p.lag, Cell(Before(p, p.lag), Some(t), 1)) && t.slot.None? && t.running
    ensures Reaches(p, longer, p.lag, Cell(Before(p, p.lag), Some(Server.Taken(p.c, t.(slot := Some(res)))), 1))
  {
    var cell := Cell(Before(p, p.lag), Some(t), 1);
    longer := Next(p, evs, p.lag, cell, AtServer(Server.Respond(res)));
    longer := Next(p, longer, p.lag, cell.(server := Some(t.(slot := Some(res)))), AtServer(Server.Take));
  }

  lemma BothAnswers(p: Plan)
    requires Works(p)
    ensures var t := Server.Started(p.req, p.lag);
      var t1 := Server.Taken(p.c, t.(slot := Some(p.prov)));
      Server.Taken(p.c, t1.(slot := Some(p.res))) == ServerAt(p, p.lag)
  {}

  /** The provisional answer takes as long, and the user reads it or not. */
  lemma Heard(p: Plan, evs: seq<Event>) returns (longer: seq<Event>)
    requires Works(p) && Reaches(p, evs, p.lag, Cell(Before(p, p.lag), Some(ServerAt(p, p.lag)), 1))
    ensures Reaches(p, longer, 2 * p.lag, Cell(Hearing(p, 2 * p.lag), Some(ServerAt(p, 2 * p.lag)), 1))
  {
    var now := 2 * p.lag;
    MayHear(p);
    longer := Pass(p, evs, p.lag, Cell(Before(p, p.lag), Some(ServerAt(p, p.lag)), 1), now);
    longer := Hear(p, longer, Cell(Before(p, now), Some(ServerAt(p, now)), 1));
    if p.read {
      longer := Next(p, longer, now, Cell(Unread(p, now), Some(ServerAt(p, now)), 1), AtClient(Client.Drain));
    }
  }

  function Unread(p: Plan, now: nat): Client.Tx
    requires p.i >= 1
  {
    Before(p, now).(state := Client.Proceeding, last := Some(p.prov), slot := Some(p.prov))
  }

  lemma MayHear(p: Plan)
    requires Works(p)
    ensures var cell := Cell(Before(p, p.lag), Some(ServerAt(p, p.lag)), 1);
      p.lag < 2 * p.lag ==> MayPass(cell, 2 * p.lag)
    ensures var now := 2 * p.lag; var heard := AtClient(Client.Receive(p.prov));
      ApplyCell(p.c, Net(p), Cell(Before(p, now), Some(ServerAt(p, now)), 1), heard) ==
        Cell(Unread(p, now), Some(ServerAt(p, now)), 1)
  {
    TimeStep(p, p.i - 1);
    TimeBounded(p, p.i, Last(p));
  }

  /** The client after that, up to the expiry `i`. */
  function Hearing(p: Plan, now: nat): Client.Tx
    requires p.i >= 1
  {
    Before(p, now).(state := Client.Proceeding, last := Some(p.prov), slot := if p.read then None else Some(p.prov))
  }

  lemma FireHeard(p: Plan, evs: seq<Event>) returns (longer: seq<Event>)
    requires Works(p) && Reaches(p, evs, 2 * p.lag, Cell(Hearing(p, 2 * p.lag), Some(ServerAt(p, 2 * p.lag)), 1))
    ensures Reaches(p, longer, Time(p, p.i), CellAt(p, p.i))
  {
    var cell, to := Cell(Hearing(p, 2 * p.lag), Some(ServerAt(p, 2 * p.lag)), 1), Time(p, p.i);
    MayFire(p);
    longer := Pass(p, evs, 2 * p.lag, cell, to);
    FiresHearing(p);
    longer := Next(p, longer, to, Cell(Hearing(p, to), Some(ServerAt(p, to)), 1), AtClient(Client.FireE));
  }

  lemma MayFire(p: Plan)
    requires Works(p)
    ensures var now, to := 2 * p.lag, Time(p, p.i);
      now < to ==> MayPass(Cell(Hearing(p, now), Some(ServerAt(p, now)), 1), to)
  {
    TimeStep(p, p.i - 1);
    TimeBounded(p, p.i, Last(p));
  }

  lemma FiresHearing(p: Plan)
    requires Works(p)
    ensures var to := Time(p, p.i);
      ApplyCell(p.c, Net(p), Cell(Hearing(p, to), Some(ServerAt(p, to)), 1), AtClient(Client.FireE)) == CellAt(p, p.i)
  {
    FiresNext(p, p.i - 1, Hearing(p, Time(p, p.i)));
  }

  function AtTimerF(p: Plan): Cell {
    Cell(ClientAt(p, Last(p)).(now := 64 * p.c.t1), Some(ServerAt(p, 64 * p.c.t1)), 1)
  }

  lemma ToTimerF(p: Plan) returns (evs: seq<Event>)
    requires Works(p) && 64 * p.c.t1 <= Time(p, Last(p) + 1)
    ensures Reaches(p, evs, 64 * p.c.t1, AtTimerF(p))
  {
    evs := RunReaches(p, Last(p));
    TimeStep(p, Last(p));
    evs := Pass(p, evs, Time(p, Last(p)), CellAt(p, Last(p)), 64 * p.c.t1);
  }

  /** Timer J ends the server transaction and the branch is freed. */
  lemma Free(p: Plan, evs: seq<Event>, now: nat, cell: Cell) returns (longer: seq<Event>)
    requires Reaches(p, evs, now, cell) && now == p.lag + 64 * p.c.t1 && cell.server == Some(ServerAt(p, now))
    ensures Reaches(p, longer, now, cell.(server := None))
  {
    longer := Next(p, evs, now, cell, AtServer(Server.FireJ));
    var c1 := ApplyCell(p.c, Net(p), cell, AtServer(Server.FireJ));
    assert c1 == cell.(server := Some(Server.Ended(cell.server.value.(j := None))));
    longer := Next(p, longer, now, c1, Reap);
  }

  ghost predicate Twice(c: Timers, d: Delays, evs: seq<Event>) {
    B in Exec(c, d, evs).cells && Exec(c, d, evs).cells[B].seen == 2
  }

  /** A copy that arrives at a free branch is taken for a new request. */
  lemma TakenForNew(p: Plan, evs: seq<Event>, now: nat, cell: Cell, k: nat) returns (longer: seq<Event>)
    requires Reaches(p, evs, now, cell) && cell.server.None? && cell.seen == 1 && cell.client.now == now
    requires k < |cell.client.wire| && cell.client.wire[k].at + p.lag <= now <= cell.client.wire[k].at + p.lag + p.spare
    ensures Authentic(p.c, Net(p), longer) && (p.read ==> Drained(p.c, Net(p), longer)) && Twice(p.c, Net(p), longer)
  {
    longer := Next(p, evs, now, cell, Deliver(k));
  }

  // ----- a late expiry -----

  function GaveUp(p: Plan, now: nat): Client.Tx {
    Client.Ended(ClientAt(p, Last(p)).(now := now, f := None, slot := Some(Client.TIMEOUT)))
  }

  /** Timer F fires, and the clock goes on to the end of the server transaction. */
  lemma ToTimerJ(p: Plan) returns (evs: seq<Event>)
    requires Works(p) && p.read && 64 * p.c.t1 <= Time(p, Last(p) + 1)
    ensures var now := p.lag + 64 * p.c.t1; Reaches(p, evs, now, GivenUp(p, now))
  {
    evs := ToTimerF(p);
    evs := GiveUp(p, evs);
    evs := WaitForJ(p, evs);
  }

  lemma WaitForJ(p: Plan, evs: seq<Event>) returns (longer: seq<Event>)
    requires Reaches(p, evs, 64 * p.c.t1, GivenUp(p, 64 * p.c.t1))
    ensures var now := p.lag + 64 * p.c.t1; Reaches(p, longer, now, GivenUp(p, now))
  {
    NothingDue(p, p.lag + 64 * p.c.t1);
    longer := Pass(p, evs, 64 * p.c.t1, GivenUp(p, 64 * p.c.t1), p.lag + 64 * p.c.t1);
  }

  function GivenUp(p: Plan, now: nat): Cell { Cell(GaveUp(p, now), Some(ServerAt(p, now)), 1) }

  lemma GiveUp(p: Plan, evs: seq<Event>) returns (longer: seq<Event>)
    requires p.read && Last(p) >= p.i && Reaches(p, evs, 64 * p.c.t1, AtTimerF(p))
    ensures Reaches(p, longer, 64 * p.c.t1, GivenUp(p, 64 * p.c.t1))
  {
    longer := Next(p, evs, 64 * p.c.t1, AtTimerF(p), AtClient(Client.FireF));
  }

  lemma NothingDue(p: Plan, to: nat)
    requires to <= p.lag + 64 * p.c.t1
    ensures var cell := GivenUp(p, 64 * p.c.t1);
      && (64 * p.c.t1 < to ==> MayPass(cell, to)) && cell == PassTo(cell, 64 * p.c.t1)
      && PassTo(cell, to) == GivenUp(p, to)
  {}

  /** A late expiry, every channel kept free: one request is seen twice. */
  lemma SeenTwice(p: Plan)
    requires Works(p) && p.read && 64 * p.c.t1 <= Time(p, Last(p)) + p.spare
    ensures exists evs :: Authentic(p.c, Net(p), evs) && Drained(p.c, Net(p), evs) && Twice(p.c, Net(p), evs)
  {
    TimeStep(p, Last(p));
    TimeStep(p, 0);
    IntervalsGrow(p.c, 0, Last(p));
    var now := p.lag + 64 * p.c.t1;
    var evs := ToTimerJ(p);
    evs := Free(p, evs, now, GivenUp(p, now));
    CopiesSize(p, Last(p));
    evs := TakenForNew(p, evs, now, Cell(GaveUp(p, now), None, 1), Last(p));
  }

  /** The server's user sees each branch at most once in every run over every network whose delays
      differ by less than T1, for requests and responses, as long as client users keep their
      channels free. */
  ghost predicate OnceWhenDrained(c: Timers) {
    forall d, evs, branch ::
      Steady(c, d) && Authentic(c, d, evs) && Drained(c, d, evs) && branch in Exec(c, d, evs).cells ==>
        Exec(c, d, evs).cells[branch].seen <= 1
  }

  function Example(c: Timers, i: nat, k: nat, lag: nat, spare: nat, read: bool): Plan {
    var req := SIPRequest("REGISTER", "sip:a", "SIP/2.0", map[], map[], "");
    Plan(c, i, k, lag, spare, read, req, PlainResponse(100, "Trying", req), PlainResponse(200, "OK", req))
  }

  /** The network delays so much that the provisional answer arrives just before the expiry `i`. */
  function LatePlan(c: Timers, i: nat, k: nat): Plan
    requires i >= 1 && Expiry(c, i, k) <= 64 * c.t1
  {
    Example(c, i, k, TimeOf(c, i, i) / 2, 64 * c.t1 - Expiry(c, i, k), true)
  }

  lemma LateWorks(c: Timers, i: nat, k: nat)
    requires Sane(c) && !c.reliable && Uncapped(c, i) && 63 * c.t1 < Expiry(c, i, k) <= 64 * c.t1
    ensures var p := LatePlan(c, i, k); Works(p) && Time(p, Last(p)) + p.spare == 64 * c.t1
  {
    TimeIsExpiry(c, i, k);
    HalfWay(c, i);
    assert DoubledInterval(c, i - 1) <= c.t2 by { DoubledClosedForm(c, i - 1); }
  }

  lemma FailsWhenLate(c: Timers, i: nat, k: nat)
    requires Sane(c) && !c.reliable && Uncapped(c, i) && 63 * c.t1 < Expiry(c, i, k) <= 64 * c.t1
    ensures !OnceWhenDrained(c)
  {
    LateWorks(c, i, k);
    SeenTwice(LatePlan(c, i, k));
    NotOnce(c, Net(LatePlan(c, i, k)));
  }

  lemma NotOnce(c: Timers, d: Delays)
    requires Steady(c, d) && exists evs :: Authentic(c, d, evs) && Drained(c, d, evs) && Twice(c, d, evs)
    ensures !OnceWhenDrained(c)
  {}

  lemma HalfWay(c: Timers, i: nat)
    requires i >= 1
    ensures TimeOf(c, i, i - 1) <= TimeOf(c, i, i) / 2
  {
    TimeDoubles(c, i, i - 1);
    DoubledClosedForm(c, i - 1);
  }

  /** For all timer values: with channels kept free, retransmissions of a UDP REGISTER are absorbed
      on every such network if and only if Timer E cannot fire in the last T1 before Timer F. */
  lemma AbsorptionIsExact(c: Timers)
    requires Sane(c) && !c.reliable
    ensures OnceWhenDrained(c) <==> !CanFireLate(c)
  {
    if CanFireLate(c) {
      var i: nat, k: nat :| Uncapped(c, i) && 63 * c.t1 < Expiry(c, i, k) <= 64 * c.t1;
      FailsWhenLate(c, i, k);
    } else {
      forall d, evs, branch |
        Steady(c, d) && Authentic(c, d, evs) && Drained(c, d, evs) && branch in Exec(c, d, evs).cells
        ensures Exec(c, d, evs).cells[branch].seen <= 1
      {
        SeenAtMostOnce(c, d, evs, branch);
      }
    }
  }

  /** T1 dividing T2 is not enough: with T2 = T1 Timer E fires at 64*T1. */
  lemma DividingIsNotEnough(t1: nat, t4: nat)
    requires t1 > 0
    ensures CanFireLate(Timers(t1, t1, t4, false))
  {
    var c := Timers(t1, t1, t4, false);
    assert Pow2(0) == 1 && Pow2(1) == 2;
    assert Uncapped(c, 1) && Expiry(c, 1, 63) == 64 * t1;
  }

  // ----- a response left unread -----

  /** The last expiry before Timer F when a provisional answer comes before the first one. */
  lemma LastBefore(c: Timers) returns (n: nat)
    requires Sane(c)
    ensures n >= 1 && TimeOf(c, 1, n) <= 64 * c.t1 < TimeOf(c, 1, n + 1)
  {
    n := 1;
    assert TimeOf(c, 1, 1) == TimeOf(c, 1, 0) + c.t1;
    while TimeOf(c, 1, n + 1) <= 64 * c.t1
      invariant n >= 1 && TimeOf(c, 1, n) <= 64 * c.t1
      decreases 64 * c.t1 - TimeOf(c, 1, n)
    {
      n := n + 1;
    }
  }

  /** Timer F waits behind the unread response. */
  function Waiting(p: Plan, now: nat): Client.Tx { ClientAt(p, Last(p)).(now := now, f := None, fWaits := true) }

  lemma ToWaiting(p: Plan) returns (evs: seq<Event>)
    requires Works(p) && !p.read && p.lag == 0 && 64 * p.c.t1 <= Time(p, Last(p) + 1)
    ensures Reaches(p, evs, 64 * p.c.t1, Cell(Waiting(p, 64 * p.c.t1), None, 1))
  {
    evs := ToTimerF(p);
    evs := Free(p, evs, 64 * p.c.t1, AtTimerF(p));
    evs := Next(p, evs, 64 * p.c.t1, AtTimerF(p).(server := None), AtClient(Client.FireF));
  }

  /** Timer E goes on: one more copy, written after the server is done. */
  lemma UnreadRun(p: Plan) returns (evs: seq<Event>)
    requires Works(p) && !p.read && p.lag == 0 && 64 * p.c.t1 < Time(p, Last(p) + 1)
    ensures Authentic(p.c, Net(p), evs) && Twice(p.c, Net(p), evs)
  {
    var to, cell := Time(p, Last(p) + 1), Cell(Waiting(p, 64 * p.c.t1), None, 1);
    TimeStep(p, Last(p));
    evs := ToWaiting(p);
    evs := Pass(p, evs, 64 * p.c.t1, cell, to);
    evs := Next(p, evs, to, PassTo(cell, to), AtClient(Client.FireE));
    OneMore(p, to);
    evs := TakenForNew(p, evs, to, ApplyCell(p.c, Net(p), PassTo(cell, to), AtClient(Client.FireE)), Last(p) + 1);
  }

  lemma OneMore(p: Plan, to: nat)
    requires Works(p) && !p.read && to == Time(p, Last(p) + 1)
    ensures PulseDue(Waiting(p, to).e, to)
    ensures var t := Client.FiredE(p.c, Waiting(p, to));
      |t.wire| == Last(p) + 2 && t.wire[Last(p) + 1] == Sent(to, p.req, Timer) && t.now == to
  {
    TimeStep(p, Last(p));
    CopiesSize(p, Last(p));
  }

  /** Without the reading users exactly-once fails for all timer values, even with no delay at
      all: one unread response is enough. */
  lemma UnreadSeenTwice(c: Timers)
    requires Sane(c) && !c.reliable
    ensures var d := Delays(0, 0); Steady(c, d) && exists evs :: Authentic(c, d, evs) && Twice(c, d, evs)
  {
    var n := LastBefore(c);
    var p := Example(c, 1, n - 1, 0, 0, false);
    assert Time(p, 0) == 0;
    var evs := UnreadRun(p);
  }
}
