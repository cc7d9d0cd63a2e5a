/** One INVITE client and one INVITE server over a network that may lose, duplicate, delay
    and reorder: whatever either side has ever written may reach the other at any time, any
    number of times, or never. */
module InviteOverNetwork {
  import opened Wrappers
  import opened Message
  import opened Timing
  import Client = InviteClient
  import Server = InviteServer

  datatype System = System(client: Client.Tx, server: Option<Server.Tx>)

  /** `Arrive` is the first copy of the INVITE reaching the server. */
  datatype Event = AtClient(ce: Client.Event) | Arrive(now: nat) | AtServer(se: Server.Event)

  ghost predicate Said(wire: seq<Sent<SIPResponse>>, res: SIPResponse) {
    exists k :: 0 <= k < |wire| && wire[k].msg == res
  }

  ghost predicate Asked(wire: seq<Sent<SIPRequest>>, req: SIPRequest) {
    exists k :: 0 <= k < |wire| && wire[k].msg == req
  }

  /** Responses come from the server's writes and requests from the client's. */
  ghost predicate Possible(s: System, e: Event) {
    match e
    case AtClient(ce) => ce.Receive? ==> s.server.Some? && Said(s.server.value.wire, ce.res)
    case Arrive(_) => s.server.None?
    case AtServer(se) => s.server.Some? && (se.Receive? ==> Asked(s.client.wire, se.req))
  }

  ghost function Apply(c: Timers, s: System, e: Event): System {
    if !Possible(s, e) then s
    else match e
      case AtClient(ce) => s.(client := Client.Apply(c, s.client, ce))
      case Arrive(now) => s.(server := Some(Server.Started(s.client.req, now)))
      case AtServer(se) => s.(server := Some(Server.Apply(c, s.server.value, se)))
  }

  ghost function Started(c: Timers, req: SIPRequest, now: nat): System {
    System(Client.Started(c, req, now), None)
  }

  ghost function Exec(c: Timers, s: System, evs: seq<Event>): System
    decreases |evs|
  {
    if evs == [] then s else Apply(c, Exec(c, s, evs[..|evs| - 1]), evs[|evs| - 1])
  }

  // ----- the two sides of a joint run are runs of the machines -----

  ghost function ClientSide(c: Timers, s: System, evs: seq<Event>): seq<Client.Event>
    decreases |evs|
  {
    if evs == [] then []
    else
      var front, e := evs[..|evs| - 1], evs[|evs| - 1];
      ClientSide(c, s, front)
      + if e.AtClient? && Possible(Exec(c, s, front), e) then [e.ce] else []
  }

  lemma {:induction false} ClientProjects(c: Timers, s: System, evs: seq<Event>)
    ensures Exec(c, s, evs).client == Client.Exec(c, s.client, ClientSide(c, s, evs))
  {
    if evs != [] {
      var front, e := evs[..|evs| - 1], evs[|evs| - 1];
      ClientProjects(c, s, front);
      var ces := ClientSide(c, s, evs);
      if e.AtClient? && Possible(Exec(c, s, front), e) {
        assert ces[..|ces| - 1] == ClientSide(c, s, front);
      } else {
        assert ces == ClientSide(c, s, front);
      }
    }
  }

  /** The server of a joint run is reached by the server machine alone. */
  ghost predicate ServerRun(c: Timers, s: System, ses: seq<Server.Event>, now: nat) {
    s.server.Some? && s.server.value == Server.Exec(c, Server.Started(s.client.req, now), ses)
  }

  lemma {:induction false} ServerProjects(c: Timers, req: SIPRequest, start: nat, evs: seq<Event>)
    ensures var s := Exec(c, Started(c, req, start), evs);
      s.client.req == req && (s.server.Some? ==> exists ses, now :: ServerRun(c, s, ses, now))
  {
    if evs != [] {
      var front, e := evs[..|evs| - 1], evs[|evs| - 1];
      ServerProjects(c, req, start, front);
      var s, s' := Exec(c, Started(c, req, start), front), Exec(c, Started(c, req, start), evs);
      if e.AtClient? && Possible(s, e) { Client.StepHands(c, s.client, e.ce); }
      if s'.server.Some? {
        if s.server.None? {
          assert ServerRun(c, s', [], e.now);
        } else {
          var ses, now :| ServerRun(c, s, ses, now);
          if s'.server != s.server {
            var ses' := ses + [e.se];
            assert ses'[..|ses|] == ses;
            assert ServerRun(c, s', ses', now);
          } else {
            assert ServerRun(c, s', ses, now);
          }
        }
      }
    }
  }

  // ----- what each side knows about the other -----

  /** All responses the client has received were written by the server; an ACK-verb request on
      the client's wire is one of its ACKs; a Confirmed server means such an ACK exists. */
  ghost predicate Linked(s: System, received: seq<Client.Event>) {
    && (forall i :: 0 <= i < |received| && received[i].Receive? ==>
          s.server.Some? && Said(s.server.value.wire, received[i].res))
    && (forall k :: 0 <= k < |s.client.wire| && s.client.wire[k].cause != Ack ==> s.client.wire[k].msg == s.client.req)
    && (s.server.Some? && s.server.value.state == Server.Confirmed ==> Client.Acks(s.client.wire) != [])
    && (s.server.Some? ==> SaidByUser(s.server.value))
  }

  /** Apart from the initial 100, the server writes only what its user offered. */
  ghost predicate SaidByUser(t: Server.Tx) {
    && (forall k :: 0 <= k < |t.wire| ==> t.wire[k].msg.status == 100 || t.wire[k].msg in t.offered)
    && (t.last.Some? ==> t.last.value in t.offered)
    && (t.slot.Some? ==> t.slot.value in t.offered)
  }

  lemma SaidByUserStep(c: Timers, t: Server.Tx, e: Server.Event)
    requires SaidByUser(t)
    ensures SaidByUser(Server.Apply(c, t, e))
    ensures t.wire <= Server.Apply(c, t, e).wire
  {
    var t' := Server.Apply(c, t, e);
    var any := if t.last.Some? then t.last.value else PlainResponse(100, "Trying", t.req);
    if !Server.Enabled(t, e) {
    } else if e.Respond? {
      assert t'.wire == t.wire && t'.offered == t.offered + [e.res];
    } else if e.Take? {
      Server.TakenWrites(c, t);
      Keeps(t, t', t.slot.value);
    } else {
      if e.Receive? { Server.ReceivedWrites(c, t, e.req, any); } else { Server.FiringWrites(c, t, e, any); }
      if t.last.None? { SilentBefore(c, t, e); }
      Keeps(t, t', any);
    }
  }

  lemma Keeps(t: Server.Tx, t': Server.Tx, res: SIPResponse)
    requires SaidByUser(t) && Server.OneWrite(t, t', res)
    requires res in t.offered || (t'.wire == t.wire && t'.last == t.last)
    ensures SaidByUser(t') && t.wire <= t'.wire
  {}

  lemma SilentBefore(c: Timers, t: Server.Tx, e: Server.Event)
    requires t.last.None? && !e.Respond? && !e.Take?
    ensures Server.Apply(c, t, e).wire == t.wire && Server.Apply(c, t, e).last == None
  {}

  lemma SaidKept(wire: seq<Sent<SIPResponse>>, wire': seq<Sent<SIPResponse>>, res: SIPResponse)
    requires wire <= wire' && Said(wire, res)
    ensures Said(wire', res)
  {}

  lemma {:induction false} AckOnWire(wire: seq<Sent<SIPRequest>>, k: nat)
    requires k < |wire| && wire[k].cause == Ack
    ensures wire[k].msg in Client.Acks(wire)
  {
    var n := |wire| - 1;
    if k < n { AckOnWire(wire[..n], k); }
  }

  lemma AcksStay(c: Timers, t: Client.Tx, e: Client.Event)
    ensures Client.Acks(t.wire) <= Client.Acks(Client.Apply(c, t, e).wire)
  {
    Client.StepAcks(c, t, e);
  }

  /** Only copies of the INVITE and ACKs are ever added on the client's side. */
  lemma ClientWrites(c: Timers, t: Client.Tx, e: Client.Event)
    requires forall k :: 0 <= k < |t.wire| && t.wire[k].cause != Ack ==> t.wire[k].msg == t.req
    ensures var w := Client.Apply(c, t, e).wire;
      forall k :: 0 <= k < |w| && w[k].cause != Ack ==> w[k].msg == t.req
  {
    if e.Receive? {
      Client.Reacts(c, t, e.res);
      ReactionWrites(t, e.res, BuildAck(e.res, t.req), Client.Apply(c, t, e));
    }
  }

  lemma ReactionWrites(t: Client.Tx, res: SIPResponse, ack: SIPRequest, t': Client.Tx)
    requires Client.Reaction(t, res, ack, t')
    requires forall k :: 0 <= k < |t.wire| && t.wire[k].cause != Ack ==> t.wire[k].msg == t.req
    ensures forall k :: 0 <= k < |t'.wire| && t'.wire[k].cause != Ack ==> t'.wire[k].msg == t.req
  {}

  lemma ClientStep(c: Timers, s: System, ce: Client.Event, received: seq<Client.Event>)
    requires Linked(s, received) && Possible(s, AtClient(ce))
    ensures Linked(Apply(c, s, AtClient(ce)), received + [ce])
  {
    AcksStay(c, s.client, ce);
    Client.StepHands(c, s.client, ce);
    ClientWrites(c, s.client, ce);
    LinkedMore(s, Client.Apply(c, s.client, ce), received, ce);
  }

  lemma LinkedMore(s: System, t: Client.Tx, received: seq<Client.Event>, ce: Client.Event)
    requires Linked(s, received) && Possible(s, AtClient(ce)) && t.req == s.client.req
    requires Client.Acks(s.client.wire) <= Client.Acks(t.wire)
    requires forall k :: 0 <= k < |t.wire| && t.wire[k].cause != Ack ==> t.wire[k].msg == t.req
    ensures Linked(s.(client := t), received + [ce])
  {}

  lemma ServerStep(c: Timers, s: System, se: Server.Event, received: seq<Client.Event>)
    requires Linked(s, received) && Possible(s, AtServer(se)) && s.client.req.verb != "ACK"
    ensures Linked(Apply(c, s, AtServer(se)), received)
  {
    var t := s.server.value;
    SaidByUserStep(c, t, se);
    if t.state != Server.Confirmed && Server.Apply(c, t, se).state == Server.Confirmed {
      ConfirmedByAck(c, t, se);
      AckAsked(s, se.req);
    }
    ServerMoved(s, Server.Apply(c, t, se), received);
  }

  lemma ConfirmedByAck(c: Timers, t: Server.Tx, e: Server.Event)
    requires t.state != Server.Confirmed && Server.Apply(c, t, e).state == Server.Confirmed
    ensures e.Receive? && e.req.verb == "ACK"
  {}

  lemma AckAsked(s: System, ack: SIPRequest)
    requires Asked(s.client.wire, ack) && ack.verb == "ACK" && s.client.req.verb != "ACK"
    requires forall k :: 0 <= k < |s.client.wire| && s.client.wire[k].cause != Ack ==>
      s.client.wire[k].msg == s.client.req
    ensures Client.Acks(s.client.wire) != []
  {
    var k :| 0 <= k < |s.client.wire| && s.client.wire[k].msg == ack;
    AckOnWire(s.client.wire, k);
  }

  lemma ServerMoved(s: System, t: Server.Tx, received: seq<Client.Event>)
    requires Linked(s, received) && s.server.Some? && s.server.value.wire <= t.wire && SaidByUser(t)
    requires t.state == Server.Confirmed ==> Client.Acks(s.client.wire) != []
    ensures Linked(s.(server := Some(t)), received)
  {
    forall i | 0 <= i < |received| && received[i].Receive? ensures Said(t.wire, received[i].res) {
      SaidKept(s.server.value.wire, t.wire, received[i].res);
    }
  }

  lemma {:induction false} RunLinked(c: Timers, req: SIPRequest, start: nat, evs: seq<Event>)
    requires req.verb != "ACK"
    ensures var s0 := Started(c, req, start);
      Linked(Exec(c, s0, evs), ClientSide(c, s0, evs)) && Exec(c, s0, evs).client.req == req
  {
    ServerProjects(c, req, start, evs);
    if evs != [] {
      var front, e := evs[..|evs| - 1], evs[|evs| - 1];
      var s0 := Started(c, req, start);
      RunLinked(c, req, start, front);
      var s := Exec(c, s0, front);
      if Possible(s, e) {
        match e
        case AtClient(ce) => ClientStep(c, s, ce, ClientSide(c, s0, front));
        case AtServer(se) => ServerStep(c, s, se, ClientSide(c, s0, front));
        case Arrive(now) =>
      }
    }
  }

  // ----- agreement -----

  lemma {:induction false} ErrorsWereReceived(c: Timers, t: Client.Tx, ces: seq<Client.Event>, i: nat)
    requires i < |Client.ErrorsSeen(c, t, ces)|
    ensures var r := Client.ErrorsSeen(c, t, ces)[i];
      r.status >= 300 && exists k :: 0 <= k < |ces| && ces[k] == Client.Receive(r)
    decreases |ces|
  {
    var front := ces[..|ces| - 1];
    if i < |Client.ErrorsSeen(c, t, front)| {
      ErrorsWereReceived(c, t, front, i);
      var r := Client.ErrorsSeen(c, t, front)[i];
      var k :| 0 <= k < |front| && front[k] == Client.Receive(r);
      assert ces[k] == Client.Receive(r);
    } else {
      assert ces[|ces| - 1] == Client.Receive(Client.ErrorsSeen(c, t, ces)[i]);
    }
  }

  /** In every reachable state, a Confirmed server means that the client has received a final
      of 300 or above that this server wrote, and has acknowledged exactly that response. */
  lemma ConfirmedMeansAcked(c: Timers, req: SIPRequest, start: nat, evs: seq<Event>)
    requires req.verb != "ACK"
    requires var s := Exec(c, Started(c, req, start), evs); s.server.Some? && s.server.value.state == Server.Confirmed
    ensures var s := Exec(c, Started(c, req, start), evs);
      exists r ::
        && r in Client.ErrorsSeen(c, Client.Started(c, req, start), ClientSide(c, Started(c, req, start), evs))
        && r.status >= 300 && Said(s.server.value.wire, r)
        && BuildAck(r, req) in Client.Acks(s.client.wire)
  {
    var s0 := Started(c, req, start);
    var ces := ClientSide(c, s0, evs);
    RunLinked(c, req, start, evs);
    ClientProjects(c, s0, evs);
    Client.AckAccounting(c, req, start, ces);
    var errors := Client.ErrorsSeen(c, s0.client, ces);
    ErrorsWereReceived(c, s0.client, ces, 0);
    assert Client.AcksFor(errors, req)[0] == BuildAck(errors[0], req);
    assert errors[0] in errors;
  }

  /** Every final the user of this server offered is the same response. */
  ghost predicate OneFinal(offered: seq<SIPResponse>, f: SIPResponse) {
    forall r :: r in offered && Server.Final(r) ==> r == f
  }

  lemma {:induction false} HandedWereReceived(c: Timers, t: Client.Tx, ces: seq<Client.Event>, r: SIPResponse)
    requires t.handed == [] && r in Client.Exec(c, t, ces).handed
    ensures exists k :: 0 <= k < |ces| && ces[k] == Client.Receive(r)
    decreases |ces|
  {
    if ces != [] {
      var front, e := ces[..|ces| - 1], ces[|ces| - 1];
      var u := Client.Exec(c, t, front);
      if r in u.handed {
        HandedWereReceived(c, t, front, r);
        var k :| 0 <= k < |front| && front[k] == Client.Receive(r);
        assert ces[k] == Client.Receive(r);
      } else {
        if e.Receive? { Client.Reacts(c, u, e.res); }
        assert ces[|ces| - 1] == Client.Receive(r);
      }
    }
  }

  /** If the server's user sends one final only, the client's user is handed no other final
      by `ReceiveResponse`, and at most once; and what the client acknowledges is that one. */
  lemma OneFinalAgreed(c: Timers, req: SIPRequest, start: nat, evs: seq<Event>, f: SIPResponse)
    requires req.verb != "ACK"
    requires var s := Exec(c, Started(c, req, start), evs); s.server.Some? ==> OneFinal(s.server.value.offered, f)
    ensures var s := Exec(c, Started(c, req, start), evs);
      && (forall r :: r in s.client.handed && Client.Final(r) ==> r == f)
      && Client.Finals(s.client.handed) <= 1
      && (forall a :: a in Client.Acks(s.client.wire) ==> a == BuildAck(f, req))
  {
    var s0 := Started(c, req, start);
    var ces := ClientSide(c, s0, evs);
    var s := Exec(c, s0, evs);
    RunLinked(c, req, start, evs);
    ClientProjects(c, s0, evs);
    Client.AckAccounting(c, req, start, ces);
    forall r | r in s.client.handed && Client.Final(r) ensures r == f {
      HandedWereReceived(c, s0.client, ces, r);
      var k :| 0 <= k < |ces| && ces[k] == Client.Receive(r);
      SaidFinal(s.server.value, r, f);
    }
    var errors := Client.ErrorsSeen(c, s0.client, ces);
    forall i | 0 <= i < |errors| ensures errors[i] == f {
      ErrorsWereReceived(c, s0.client, ces, i);
      var k :| 0 <= k < |ces| && ces[k] == Client.Receive(errors[i]);
      SaidFinal(s.server.value, errors[i], f);
    }
    assert forall i :: 0 <= i < |errors| ==> Client.AcksFor(errors, req)[i] == BuildAck(f, req);
  }

  lemma SaidFinal(t: Server.Tx, r: SIPResponse, f: SIPResponse)
    requires SaidByUser(t) && OneFinal(t.offered, f) && Said(t.wire, r) && r.status >= 200
    ensures r == f
  {}

  // ----- the boundary: a second server transaction -----

  /** The first server transaction has ended, and a late copy of the INVITE starts another one at
      `now`. Its user sends `g` and it receives `ack`, which the client wrote. */
  ghost function Reborn(c: Timers, s: System, now: nat, g: SIPResponse, ack: SIPRequest): Server.Tx {
    var t0 := Server.Started(s.client.req, now);
    var t1 := Server.Apply(c, t0, Server.Respond(g));
    Server.Apply(c, Server.Apply(c, t1, Server.Take), Server.Receive(ack))
  }

  /** One exchange over UDP: the final `f` is received and acknowledged, and the server ends. */
  function Exchange(c: Timers, req: SIPRequest, f: SIPResponse): seq<Event> {
    Answered(f)
    + [AtServer(Server.Receive(BuildAck(f, req)))] + [AtServer(Server.Tick(c.t4))] + [AtServer(Server.FireI)]
  }

  lemma ExecSnoc(c: Timers, s: System, evs: seq<Event>, e: Event)
    ensures Exec(c, s, evs + [e]) == Apply(c, Exec(c, s, evs), e)
  {
    assert (evs + [e])[..|evs|] == evs;
  }

  lemma ServerOnly(c: Timers, s0: System, evs: seq<Event>, t: Server.Tx, se: Server.Event)
    requires Exec(c, s0, evs).server == Some(t)
    requires se.Receive? ==> Asked(Exec(c, s0, evs).client.wire, se.req)
    ensures Exec(c, s0, evs + [AtServer(se)]) == Exec(c, s0, evs).(server := Some(Server.Apply(c, t, se)))
  {
    ExecSnoc(c, s0, evs, AtServer(se));
  }

  lemma FinalSaid(c: Timers, req: SIPRequest, f: SIPResponse)
    ensures var t := Server.Apply(c, Server.Started(req, 0), Server.Respond(f));
      && t == Server.Started(req, 0).(slot := Some(f), offered := [f])
      && Server.Apply(c, t, Server.Take) == Server.Taken(c, t) && Said(Server.Taken(c, t).wire, f)
  {
    var t := Server.Started(req, 0).(slot := Some(f), offered := [f]);
    assert [] + [f] == [f];
    assert Server.Taken(c, t).wire[1].msg == f;
  }

  /** The exchange up to the client's ACK. */
  function Answered(f: SIPResponse): seq<Event> {
    [] + [Arrive(0)] + [AtServer(Server.Respond(f))] + [AtServer(Server.Take)] + [AtClient(Client.Receive(f))]
  }

  lemma ExchangeAcked(c: Timers, req: SIPRequest, f: SIPResponse)
    ensures var s := Exec(c, Started(c, req, 0), Answered(f));
      && s.server == Some(Server.Taken(c, Server.Started(req, 0).(slot := Some(f), offered := [f])))
      && s.client == Client.Received(c, Client.Started(c, req, 0), f)
  {
    var s0, t := Started(c, req, 0), Server.Started(req, 0);
    FinalSaid(c, req, f);
    ExecSnoc(c, s0, [], Arrive(0));
    var evs := [] + [Arrive(0)];
    assert Exec(c, s0, evs) == System(s0.client, Some(t));
    ServerOnly(c, s0, evs, t, Server.Respond(f));
    evs := evs + [AtServer(Server.Respond(f))];
    ServerOnly(c, s0, evs, t.(slot := Some(f), offered := [f]), Server.Take);
    evs := evs + [AtServer(Server.Take)];
    ExecSnoc(c, s0, evs, AtClient(Client.Receive(f)));
  }

  /** The server's side of the rest: confirmed by the ACK, ended by Timer I. */
  lemma ServerEnds(c: Timers, req: SIPRequest, f: SIPResponse, ack: SIPRequest)
    requires Sane(c) && !c.reliable && 0 < c.t4 && 300 <= f.status < 700 && ack.verb == "ACK"
    ensures var t := Server.Taken(c, Server.Started(req, 0).(slot := Some(f), offered := [f]));
      var t1 := Server.Apply(c, t, Server.Receive(ack));
      Server.Apply(c, Server.Apply(c, t1, Server.Tick(c.t4)), Server.FireI).done
  {
    var t := Server.Taken(c, Server.Started(req, 0).(slot := Some(f), offered := [f]));
    assert t.state == Server.Completed && t.strayG == [] && t.strayEnds == [] && t.i.None? && t.now == 0;
    var t1 := Server.Apply(c, t, Server.Receive(ack));
    assert t1.state == Server.Confirmed && t1.i == Some(c.t4) && t1.g.None? && t1.h.None? && Server.MayPass(t1, c.t4);
  }

  lemma ExchangeEnds(c: Timers, req: SIPRequest, f: SIPResponse)
    requires Sane(c) && !c.reliable && 0 < c.t4 && 300 <= f.status < 700 && req.verb != "ACK"
    ensures var s := Exec(c, Started(c, req, 0), Exchange(c, req, f));
      && s.server.Some? && s.server.value.done
      && s.client == Client.Received(c, Client.Started(c, req, 0), f)
  {
    var s0, ack := Started(c, req, 0), BuildAck(f, req);
    var evs := Answered(f);
    var t := Server.Taken(c, Server.Started(req, 0).(slot := Some(f), offered := [f]));
    ExchangeAcked(c, req, f);
    AckWritten(c, req, f);
    ServerOnly(c, s0, evs, t, Server.Receive(ack));
    var t1 := Server.Apply(c, t, Server.Receive(ack));
    evs := evs + [AtServer(Server.Receive(ack))];
    ServerOnly(c, s0, evs, t1, Server.Tick(c.t4));
    evs := evs + [AtServer(Server.Tick(c.t4))];
    ServerOnly(c, s0, evs, Server.Apply(c, t1, Server.Tick(c.t4)), Server.FireI);
    ServerEnds(c, req, f, ack);
  }

  lemma AckWritten(c: Timers, req: SIPRequest, f: SIPResponse)
    requires f.status >= 300
    ensures Asked(Client.Received(c, Client.Started(c, req, 0), f).wire, BuildAck(f, req))
    ensures Asked(Client.Received(c, Client.Started(c, req, 0), f).wire, req)
  {
    var t := Client.Received(c, Client.Started(c, req, 0), f);
    assert t.wire[0].msg == req && t.wire[1].msg == BuildAck(f, req);
  }

  /** Why the theorems speak of one server transaction: after it has ended, a late copy of the
      INVITE starts a second one, and the old ACK, duplicated by the network, confirms a final
      `g` that the client has never received. */
  lemma OldAckConfirmsNewFinal(c: Timers, req: SIPRequest, f: SIPResponse, g: SIPResponse)
    requires Sane(c) && !c.reliable && 0 < c.t4 && req.verb != "ACK"
    requires 300 <= f.status < 700 && 300 <= g.status < 700 && f != g
    ensures var s := Exec(c, Started(c, req, 0), Exchange(c, req, f));
      && s.server.Some? && s.server.value.done
      && Asked(s.client.wire, req) && Asked(s.client.wire, BuildAck(f, req))
      && Reborn(c, s, c.t4, g, BuildAck(f, req)).state == Server.Confirmed
      && g !in s.client.handed && BuildAck(f, req) == s.client.wire[|s.client.wire| - 1].msg && s.client.last == Some(f)
  {
    ExchangeEnds(c, req, f);
    AckWritten(c, req, f);
    var s := Exec(c, Started(c, req, 0), Exchange(c, req, f));
    assert s.client.handed == [] + [f];
    RebornConfirms(c, s, g, BuildAck(f, req));
  }

  lemma RebornConfirms(c: Timers, s: System, g: SIPResponse, ack: SIPRequest)
    requires !c.reliable && 300 <= g.status < 700 && ack.verb == "ACK"
    ensures Reborn(c, s, c.t4, g, ack).state == Server.Confirmed
  {
    var t1 := Server.Apply(c, Server.Started(s.client.req, c.t4), Server.Respond(g));
    var t2 := Server.Apply(c, t1, Server.Take);
    assert t2.state == Server.Completed;
  }
}
