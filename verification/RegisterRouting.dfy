/** The REGISTER runs of `Absorption` are runs of `handleRequest`: the transactions its branches
    hold are the table of `Dispatch`, and what its user sees is what the routing hands up. */
module RegisterRouting {
  import opened Wrappers
  import opened Message
  import opened Timing
  import Absorption
  import Client = NonInviteClient
  import Dispatch
  import ExactlyOnce
  import Vias

  /** A REGISTER under a branch of its own, outside the known dialogs, that has not passed this
      server before. */
  predicate Plain(site: Dispatch.Site, dialogs: set<string>, branch: string, req: SIPRequest) {
    && req.verb == "REGISTER" && !Dispatch.Looping(site, req) && Dispatch.DialogOf(req) !in dialogs
    && Vias.BranchFor(req) == Some(branch) && Dispatch.COOKIE <= branch
  }

  predicate AllPlain(site: Dispatch.Site, dialogs: set<string>, evs: seq<Absorption.Event>) {
    forall i :: 0 <= i < |evs| && evs[i].Register? ==> Plain(site, dialogs, evs[i].branch, evs[i].req)
  }

  /** What a step of the run means to the server's table. */
  function Step(d: Absorption.Delays, s: Absorption.System, e: Absorption.Event): seq<Dispatch.Event> {
    if !e.At? || e.branch !in s.cells || !Absorption.Possible(d, s.cells[e.branch], e.ce) then []
    else match e.ce
      case Deliver(k) => [Dispatch.Request(s.cells[e.branch].client.wire[k].msg)]
      case Reap => [Dispatch.Close(e.branch)]
      case _ => []
  }

  function Trace(c: Timers, d: Absorption.Delays, evs: seq<Absorption.Event>): seq<Dispatch.Event>
    decreases |evs|
  {
    if evs == [] then []
    else
      var front, e := evs[..|evs| - 1], evs[|evs| - 1];
      Trace(c, d, front) + Step(d, Absorption.Exec(c, d, front), e)
  }

  /** The server's log after a run of `Absorption`. */
  function Routed(
    site: Dispatch.Site, dialogs: set<string>, c: Timers, d: Absorption.Delays,
    evs: seq<Absorption.Event>): Dispatch.Log
  {
    Dispatch.Exec(site, [Dispatch.Dialogs(dialogs)] + Trace(c, d, evs))
  }

  /** The table holds the branches with a transaction, and handed requests up as often as seen. */
  ghost predicate Mirrors(s: Absorption.System, l: Dispatch.Log) {
    && (forall b :: b in l.txs <==> b in s.cells && s.cells[b].server.Some?)
    && (forall b :: b in l.txs ==> l.txs[b] == Dispatch.NonInviteServer)
    && (forall b :: l.created[b] == if b in s.cells then s.cells[b].seen else 0)
  }

  /** Every branch carries copies of its one request, which satisfies `ok`. */
  ghost predicate Own(ok: (string, SIPRequest) -> bool, s: Absorption.System) {
    forall b :: b in s.cells ==> Absorption.Genuine(s.cells[b].client) && ok(b, s.cells[b].client.req)
  }

  /** `Decided` on such a REGISTER is what `Absorption.Handled` does with it. */
  lemma PlainDecided(site: Dispatch.Site, txs: Dispatch.Table, dialogs: set<string>, branch: string, req: SIPRequest)
    requires Plain(site, dialogs, branch, req) && (branch in txs ==> txs[branch] == Dispatch.NonInviteServer)
    ensures Dispatch.Decided(site, txs, dialogs, req) ==
      if branch in txs then Dispatch.Absorbed(branch) else Dispatch.Created(branch, Dispatch.NonInviteServer)
  {
    assert |"REGISTER"| == 8 && |"INVITE"| == 6 && |"CANCEL"| == 6 && |"ACK"| == 3;
  }

  lemma CopyRouted(site: Dispatch.Site, s: Absorption.System, l: Dispatch.Log, branch: string)
    requires Mirrors(s, l) && branch in s.cells && Plain(site, l.dialogs, branch, s.cells[branch].client.req)
    ensures var req := s.cells[branch].client.req; var l' := Dispatch.Apply(site, l, Dispatch.Request(req));
      Mirrors(With(s, branch, Absorption.Handled(s.cells[branch], req)), l') && l'.dialogs == l.dialogs
  {
    var cell := s.cells[branch];
    PlainDecided(site, l.txs, l.dialogs, branch, cell.client.req);
    if cell.server.Some? {
      assert Dispatch.Apply(site, l, Dispatch.Request(cell.client.req)) == l;
      QuietRouted(s, l, branch, Absorption.Handled(cell, cell.client.req));
    } else {
      NewRouted(s, l, branch, Absorption.Handled(cell, cell.client.req));
    }
  }

  function With(s: Absorption.System, branch: string, cell: Absorption.Cell): Absorption.System {
    s.(cells := s.cells[branch := cell])
  }

  lemma QuietRouted(s: Absorption.System, l: Dispatch.Log, branch: string, cell: Absorption.Cell)
    requires Mirrors(s, l)
    requires branch in s.cells ==>
      (cell.server.Some? <==> s.cells[branch].server.Some?) && cell.seen == s.cells[branch].seen
    requires branch !in s.cells ==> cell.server.None? && cell.seen == 0
    ensures Mirrors(With(s, branch, cell), l)
  {}

  lemma NewRouted(s: Absorption.System, l: Dispatch.Log, branch: string, cell: Absorption.Cell)
    requires Mirrors(s, l) && branch in s.cells && s.cells[branch].server.None?
    requires cell.server.Some? && cell.seen == s.cells[branch].seen + 1
    ensures Mirrors(With(s, branch, cell), Dispatch.Entered(l, Dispatch.Created(branch, Dispatch.NonInviteServer)))
  {}

  lemma ReapRouted(site: Dispatch.Site, s: Absorption.System, l: Dispatch.Log, branch: string)
    requires Mirrors(s, l) && branch in s.cells && s.cells[branch].server.Some?
    ensures Mirrors(With(s, branch, s.cells[branch].(server := None)), Dispatch.Apply(site, l, Dispatch.Close(branch)))
  {}

  lemma TickRouted(c: Timers, d: Absorption.Delays, s: Absorption.System, l: Dispatch.Log, to: nat)
    requires Mirrors(s, l)
    ensures Mirrors(Absorption.Apply(c, d, s, Absorption.Tick(to)), l)
  {}

  lemma StepRouted(
      site: Dispatch.Site, c: Timers, d: Absorption.Delays, s: Absorption.System, l: Dispatch.Log, e: Absorption.Event)
    requires Mirrors(s, l) && Own((b, req) => Plain(site, l.dialogs, b, req), s)
    ensures var l' := After(site, l, Step(d, s, e));
      Mirrors(Absorption.Apply(c, d, s, e), l') && l'.dialogs == l.dialogs
  {
    match e
    case Tick(to) => TickRouted(c, d, s, l, to);
    case Register(b, req) =>
      if b !in s.cells { QuietRouted(s, l, b, Absorption.Cell(Client.Started(c, req, s.now), None, 0)); }
    case At(b, ce) =>
      if b in s.cells { CellRouted(site, c, d, s, l, b, ce); }
  }

  lemma CellRouted(
      site: Dispatch.Site, c: Timers, d: Absorption.Delays, s: Absorption.System, l: Dispatch.Log,
      b: string, ce: Absorption.CellEvent)
    requires Mirrors(s, l) && b in s.cells && Absorption.Genuine(s.cells[b].client)
    requires Plain(site, l.dialogs, b, s.cells[b].client.req)
    ensures var l' := After(site, l, Step(d, s, Absorption.At(b, ce)));
      Mirrors(With(s, b, Absorption.ApplyCell(c, d, s.cells[b], ce)), l') && l'.dialogs == l.dialogs
  {
    if !Absorption.Possible(d, s.cells[b], ce) || ce.AtClient? || ce.AtServer? {
      UnnoticedRouted(c, d, s, l, b, ce);
    } else if ce.Deliver? {
      DeliveryRouted(site, c, d, s, l, b, ce.k);
    } else {
      ReapingRouted(site, c, d, s, l, b);
    }
  }

  lemma ReapingRouted(
      site: Dispatch.Site, c: Timers, d: Absorption.Delays, s: Absorption.System, l: Dispatch.Log, b: string)
    requires Mirrors(s, l) && b in s.cells && Absorption.Possible(d, s.cells[b], Absorption.Reap)
    ensures var l' := After(site, l, Step(d, s, Absorption.At(b, Absorption.Reap)));
      Mirrors(With(s, b, Absorption.ApplyCell(c, d, s.cells[b], Absorption.Reap)), l') && l'.dialogs == l.dialogs
  {
    ReapRouted(site, s, l, b);
  }

  lemma DeliveryRouted(
      site: Dispatch.Site, c: Timers, d: Absorption.Delays, s: Absorption.System, l: Dispatch.Log, b: string, k: nat)
    requires Mirrors(s, l) && b in s.cells && Absorption.Genuine(s.cells[b].client)
    requires Plain(site, l.dialogs, b, s.cells[b].client.req)
      && Absorption.Possible(d, s.cells[b], Absorption.Deliver(k))
    ensures var l' := After(site, l, Step(d, s, Absorption.At(b, Absorption.Deliver(k))));
      Mirrors(With(s, b, Absorption.ApplyCell(c, d, s.cells[b], Absorption.Deliver(k))), l') && l'.dialogs == l.dialogs
  {
    Arrives(c, d, s.cells[b], k);
    CopyRouted(site, s, l, b);
  }

  lemma UnnoticedRouted(
      c: Timers, d: Absorption.Delays, s: Absorption.System, l: Dispatch.Log, b: string, ce: Absorption.CellEvent)
    requires Mirrors(s, l) && b in s.cells
    requires !Absorption.Possible(d, s.cells[b], ce) || ce.AtClient? || ce.AtServer?
    ensures Step(d, s, Absorption.At(b, ce)) == []
    ensures Mirrors(With(s, b, Absorption.ApplyCell(c, d, s.cells[b], ce)), l)
  {
    Unnoticed(c, d, s.cells[b], ce);
    QuietRouted(s, l, b, Absorption.ApplyCell(c, d, s.cells[b], ce));
  }

  lemma Unnoticed(c: Timers, d: Absorption.Delays, cell: Absorption.Cell, ce: Absorption.CellEvent)
    requires !Absorption.Possible(d, cell, ce) || ce.AtClient? || ce.AtServer?
    ensures var cell' := Absorption.ApplyCell(c, d, cell, ce);
      (cell'.server.Some? <==> cell.server.Some?) && cell'.seen == cell.seen
  {}

  lemma Arrives(c: Timers, d: Absorption.Delays, cell: Absorption.Cell, k: nat)
    requires Absorption.Genuine(cell.client) && Absorption.Possible(d, cell, Absorption.Deliver(k))
    ensures cell.client.wire[k].msg == cell.client.req
    ensures Absorption.ApplyCell(c, d, cell, Absorption.Deliver(k)) == Absorption.Handled(cell, cell.client.req)
  {}

  function After(site: Dispatch.Site, l: Dispatch.Log, step: seq<Dispatch.Event>): Dispatch.Log {
    if step == [] then l else Dispatch.Apply(site, l, step[0])
  }

  lemma StaysOwn(
      ok: (string, SIPRequest) -> bool, c: Timers, d: Absorption.Delays, s: Absorption.System, e: Absorption.Event)
    requires Own(ok, s) && (e.Register? ==> ok(e.branch, e.req))
    ensures Own(ok, Absorption.Apply(c, d, s, e))
  {
    match e
    case Tick(to) =>
    case Register(b, req) =>
    case At(b, ce) =>
      if b in s.cells { StaysGenuine(c, d, s.cells[b], ce); }
  }

  lemma StaysGenuine(c: Timers, d: Absorption.Delays, cell: Absorption.Cell, ce: Absorption.CellEvent)
    requires Absorption.Genuine(cell.client)
    ensures var t := Absorption.ApplyCell(c, d, cell, ce).client; Absorption.Genuine(t) && t.req == cell.client.req
  {
    if ce.AtClient? && !ce.ce.Tick? { Absorption.ClientFrame(c, cell.client, ce.ce); }
  }

  lemma {:induction false} RunOwn(
      ok: (string, SIPRequest) -> bool, c: Timers, d: Absorption.Delays, evs: seq<Absorption.Event>)
    requires forall i :: 0 <= i < |evs| && evs[i].Register? ==> ok(evs[i].branch, evs[i].req)
    ensures Own(ok, Absorption.Exec(c, d, evs))
    decreases |evs|
  {
    if evs != [] {
      var front := evs[..|evs| - 1];
      RunOwn(ok, c, d, front);
      StaysOwn(ok, c, d, Absorption.Exec(c, d, front), evs[|evs| - 1]);
    }
  }

  /** Every run over REGISTERs of this kind is a run of the routing. */
  lemma {:induction false} RegistersRouted(
      site: Dispatch.Site, dialogs: set<string>, c: Timers, d: Absorption.Delays, evs: seq<Absorption.Event>)
    requires AllPlain(site, dialogs, evs)
    ensures Mirrors(Absorption.Exec(c, d, evs), Routed(site, dialogs, c, d, evs))
    ensures Routed(site, dialogs, c, d, evs).dialogs == dialogs
    decreases |evs|
  {
    if evs == [] {
      OnlyDialogs(site, dialogs);
    } else {
      var front, e := evs[..|evs| - 1], evs[|evs| - 1];
      RegistersRouted(site, dialogs, c, d, front);
      RunOwn((b, req) => Plain(site, dialogs, b, req), c, d, front);
      StepRouted(site, c, d, Absorption.Exec(c, d, front), Routed(site, dialogs, c, d, front), e);
      OneStepMore(site, [Dispatch.Dialogs(dialogs)] + Trace(c, d, front), Step(d, Absorption.Exec(c, d, front), e));
      assert [Dispatch.Dialogs(dialogs)] + Trace(c, d, evs)
          == [Dispatch.Dialogs(dialogs)] + Trace(c, d, front) + Step(d, Absorption.Exec(c, d, front), e);
    }
  }

  lemma OnlyDialogs(site: Dispatch.Site, dialogs: set<string>)
    ensures var l := Dispatch.Exec(site, [Dispatch.Dialogs(dialogs)] + []);
      l.txs == map[] && l.created == multiset{} && l.dialogs == dialogs
  {
    var es := [Dispatch.Dialogs(dialogs)];
    assert es + [] == es && es[..0] == [];
  }

  lemma OneStepMore(site: Dispatch.Site, es: seq<Dispatch.Event>, step: seq<Dispatch.Event>)
    requires |step| <= 1
    ensures Dispatch.Exec(site, es + step) == After(site, Dispatch.Exec(site, es), step)
  {
    if step == [] {
      assert es + step == es;
    } else {
      assert (es + step)[..|es|] == es && (es + step)[|es|] == step[0];
    }
  }

  /** So `handleRequest` hands each such REGISTER up at most once. */
  lemma HandedUpOnce(
      site: Dispatch.Site, dialogs: set<string>, c: Timers, d: Absorption.Delays, evs: seq<Absorption.Event>,
      branch: string)
    requires AllPlain(site, dialogs, evs) && Absorption.Steady(c, d)
    requires !ExactlyOnce.CanFireLate(c) && ExactlyOnce.Drained(c, d, evs)
    ensures Routed(site, dialogs, c, d, evs).created[branch] <= 1
  {
    RegistersRouted(site, dialogs, c, d, evs);
    if branch in Absorption.Exec(c, d, evs).cells {
      ExactlyOnce.SeenAtMostOnce(c, d, evs, branch);
    }
  }
}
