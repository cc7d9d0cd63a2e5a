/** `handleRequest`: which requests reach a transaction, start one, or are answered without. */
module Dispatch {
  import opened Wrappers
  import opened Text
  import opened Message
  import B2bua
  import Codec
  import Transactions
  import Vias

  datatype Kind = InviteServer | NonInviteServer | Client

  /** Host and port of the listening address. */
  datatype Site = Site(host: string, port: string)

  const COOKIE: string := "z9hG4bK"

  /** What becomes of a request. `InDialog` and `Created` start a transaction and hand the
      request to its user; `Absorbed` is a copy for a server transaction. */
  datatype Outcome =
    | Unreadable | Looped | NoVia | Cancelled | AckDropped | Stateless | Ignored
    | AckFor(branch: string)
    | Absorbed(branch: string)
    | InDialog(branch: string)
    | Created(branch: string, kind: Kind)

  predicate IsOwn(site: Site, via: Vias.Via) {
    via.host == site.host && (if via.port == "" then "5060" else via.port) == site.port
  }

  /** The request has passed this server before; not looked at when some Via is malformed. */
  predicate Looping(site: Site, req: SIPRequest) {
    var list := Vias.AllViasOf(req);
    list.ok && exists i :: 0 <= i < |list.vias| && IsOwn(site, list.vias[i])
  }

  function DialogOf(req: SIPRequest): string {
    req.Header("Call-ID") + ":" + B2bua.TagOf(req.Header("From")) + ":" + B2bua.TagOf(req.Header("To"))
  }

  type Table = map<string, Kind>

  /** Which transaction a new request gets, if its method is handled statefully. */
  function KindFor(verb: string): Option<Kind> {
    match verb
    case "REGISTER" => Some(NonInviteServer)
    case "INVITE" => Some(InviteServer)
    case "UPDATE" => Some(InviteServer)
    case "BYE" => Some(NonInviteServer)
    case _ => None
  }

  function AckOutcome(txs: Table, req: SIPRequest): Outcome {
    match Vias.RequestTopVia(req)
    case Failure(_) => AckDropped
    case Success(via) =>
      var branch := via.Branch();
      if branch in txs && txs[branch] == InviteServer then AckFor(branch) else AckDropped
  }

  function NewOutcome(txs: Table, req: SIPRequest): Outcome {
    match Vias.RequestTopVia(req)
    case Failure(_) => NoVia
    case Success(via) =>
      var branch := via.Branch();
      if !(COOKIE <= branch) then Stateless
      else if branch in txs then if txs[branch] == Client then Ignored else Absorbed(branch)
      else match KindFor(req.verb)
        case None => Stateless
        case Some(kind) => Created(branch, kind)
  }

  function OutsideDialogs(txs: Table, req: SIPRequest): Outcome {
    if req.verb == "CANCEL" then Cancelled
    else if req.verb == "ACK" then AckOutcome(txs, req)
    else NewOutcome(txs, req)
  }

  function Decided(site: Site, txs: Table, dialogs: set<string>, req: SIPRequest): Outcome {
    if Looping(site, req) then Looped
    else if req.verb != "INVITE" && DialogOf(req) in dialogs then
      match Vias.BranchFor(req)
      case None => NoVia
      case Some(branch) => InDialog(branch)
    else OutsideDialogs(txs, req)
  }

  function TableAfter(txs: Table, o: Outcome): Table {
    match o
    case InDialog(branch) => txs[branch := NonInviteServer]
    case Created(branch, kind) => txs[branch := kind]
    case _ => txs
  }

  class SIPServer {
    const site: Site
    const txManager: Transactions.TransactionManager<Kind>
    var dialogs: set<string>

    constructor (site: Site)
      ensures this.site == site && fresh(txManager) && txManager.transactions == map[] && dialogs == {}
    {
      this.site, dialogs := site, {};
      txManager := new Transactions.TransactionManager<Kind>();
    }

    method LoopDetected(req: SIPRequest) returns (found: bool)
      ensures found == Looping(site, req)
    {
      var vias, ok := Vias.AllVias(req);
      if !ok { return false; }
      for i := 0 to |vias|
        invariant forall j :: 0 <= j < i ==> !IsOwn(site, vias[j])
      {
        var port := vias[i].port;
        if port == "" { port := "5060"; }
        if vias[i].host == site.host && port == site.port { return true; }
      }
      found := false;
    }

    method NewServerTx(req: SIPRequest, kind: Kind) returns (branch: Option<string>)
      modifies txManager
      ensures branch == Vias.BranchFor(req)
      ensures txManager.transactions ==
        if branch.Some? then old(txManager.transactions)[branch.value := kind] else old(txManager.transactions)
    {
      branch := Vias.BranchFor(req);
      if branch.Some? { txManager.Add(branch.value, kind); }
    }

    method HandleRequest(raw: string) returns (o: Outcome)
      modifies txManager
      ensures o == match Codec.ParsedRequest(raw)
                   case Failure(_) => Unreadable
                   case Success(req) => Decided(site, old(txManager.transactions), dialogs, req)
      ensures txManager.transactions == TableAfter(old(txManager.transactions), o)
    {
      var parsed := Codec.ParseSIPRequest(raw);
      if parsed.Failure? { return Unreadable; }
      o := Route(parsed.value);
    }

    method Route(req: SIPRequest) returns (o: Outcome)
      modifies txManager
      ensures o == Decided(site, old(txManager.transactions), dialogs, req)
      ensures txManager.transactions == TableAfter(old(txManager.transactions), o)
    {
      var looped := LoopDetected(req);
      if looped { return Looped; }
      if req.verb != "INVITE" && DialogOf(req) in dialogs {
        var branch := NewServerTx(req, NonInviteServer);
        return if branch.Some? then InDialog(branch.value) else NoVia;
      }
      o := RouteOutside(req);
    }

    method RouteOutside(req: SIPRequest) returns (o: Outcome)
      modifies txManager
      ensures o == OutsideDialogs(old(txManager.transactions), req)
      ensures txManager.transactions == TableAfter(old(txManager.transactions), o)
    {
      if req.verb == "CANCEL" { return Cancelled; }
      if req.verb == "ACK" {
        o := RouteAck(req);
        return;
      }
      o := RouteNew(req);
    }

    method RouteAck(req: SIPRequest) returns (o: Outcome)
      ensures o == AckOutcome(txManager.transactions, req)
    {
      var top := Vias.RequestTopVia(req);
      if top.Success? {
        var tx := txManager.Get(top.value.Branch());
        if tx == Some(InviteServer) { return AckFor(top.value.Branch()); }
      }
      return AckDropped;
    }

    method RouteNew(req: SIPRequest) returns (o: Outcome)
      modifies txManager
      ensures o == NewOutcome(old(txManager.transactions), req)
      ensures txManager.transactions == TableAfter(old(txManager.transactions), o)
    {
      var top := Vias.RequestTopVia(req);
      if top.Failure? { return NoVia; }
      var branch := top.value.Branch();
      if !(COOKIE <= branch) { return Stateless; }
      var tx := txManager.Get(branch);
      if tx.Some? { return if tx.value == Client then Ignored else Absorbed(branch); }
      var kind := KindFor(req.verb);
      if kind.None? { return Stateless; }
      txManager.Add(branch, kind.value);
      o := Created(branch, kind.value);
    }

    /** The client transaction that is given the response, if any. */
    method HandleResponse(raw: string) returns (branch: Option<string>)
      ensures branch == match Codec.ParsedResponse(raw)
                        case Failure(_) => None
                        case Success(res) => ClientFor(txManager.transactions, res)
    {
      var parsed := Codec.ParseSIPResponse(raw);
      if parsed.Failure? { return None; }
      var top := Vias.TopVia(parsed.value.Header("Via"));
      if top.Failure? { return None; }
      var tx := txManager.Get(top.value.Branch());
      return if tx == Some(Client) then Some(top.value.Branch()) else None;
    }
  }

  // ----- responses -----

  /** The client transaction a response is for: the one whose branch its top Via carries. */
  function ClientFor(txs: Table, res: SIPResponse): Option<string> {
    match Vias.TopVia(res.Header("Via"))
    case Failure(_) => None
    case Success(via) => if via.Branch() in txs && txs[via.Branch()] == Client then Some(via.Branch()) else None
  }

  /** A server that answers with `BuildResponse` a request the server sent with its own Via: the
      response, whatever is added to it besides a Via, finds the client transaction again. */
  lemma ResponseFindsClient(
      txs: Table, status: int, reason: string, req: SIPRequest, extra: Headers, order: seq<string>,
      proto: string, addr: string, branch: string)
    requires Vias.ViaSafe(proto) && Vias.ViaSafe(addr) && addr != "" && Vias.ViaSafe(branch)
    requires req.Header("Via") == Vias.OwnVia(proto, addr, branch)
    requires forall k :: k in order ==> k in extra && Title(k) != "Via"
    ensures ClientFor(txs, ResponseTo(status, reason, req, extra, order)) ==
      if branch in txs && txs[branch] == Client then Some(branch) else None
  {
    var h := Vias.OwnVia(proto, addr, branch);
    var res := ResponseTo(status, reason, req, extra, order);
    KnownNames();
    PutAllAt(CopiedHeaders(req), extra, order, "Via");
    assert h != "" && ',' !in h by { Vias.OwnViaShape(proto, addr, branch); assert h[0] == 'S'; }
    assert COPIED[0] == "Via";
    assert res.Header("Via") == h;
    IndexAbsent(h, ",");
    Vias.OwnViaReadsBack(proto, addr, branch);
  }

  // ----- when a copy is absorbed -----

  predicate HandsUp(o: Outcome) { o.InDialog? || o.Created? }

  /** A request under a branch that a transaction holds is handed to a user again exactly when
      it is not an INVITE and lies in a dialog the server knows: there copies are not absorbed. */
  lemma CopyHandedUp(site: Site, txs: Table, dialogs: set<string>, req: SIPRequest)
    requires !Looping(site, req) && Vias.BranchFor(req).Some? && Vias.BranchFor(req).value in txs
    ensures HandsUp(Decided(site, txs, dialogs, req)) <==> req.verb != "INVITE" && DialogOf(req) in dialogs
  {}

  /** A BYE in a dialog, as a user agent sends and resends it. */
  const BYE: SIPRequest :=
    SIPRequest("BYE", "sip:a", "SIP/2.0", map["Via" := Vias.OwnVia("UDP", "a", "z9hG4bK1")], map[], "")

  lemma ByeBranch()
    ensures Vias.BranchFor(BYE) == Some("z9hG4bK1")
  {
    KnownNames();
    var p, a, b := "UDP", "a", "z9hG4bK1";
    assert forall i :: 0 <= i < |p| ==> !IsSpace(p[i]) && p[i] !in {';', ',', '"'};
    assert forall i :: 0 <= i < |b| ==> !IsSpace(b[i]) && b[i] !in {';', ',', '"'};
    assert Vias.ViaSafe(p) && Vias.ViaSafe(a) && Vias.ViaSafe(b);
    Vias.OwnViaReadsBack(p, a, b);
    assert |Vias.OwnVia(p, a, b)| > 0;
  }

  /** The request is handed up, and handed up again while its first transaction is held. */
  ghost predicate HandedUpTwice(site: Site, dialogs: set<string>, req: SIPRequest) {
    var s1 := Exec(site, [Dialogs(dialogs)]);
    var s2 := Apply(site, s1, Request(req));
    && HandsUp(Decided(site, s1.txs, s1.dialogs, req))
    && Vias.BranchFor(req).Some? && Vias.BranchFor(req).value in s2.txs
    && HandsUp(Decided(site, s2.txs, s2.dialogs, req))
  }

  lemma InDialogTwice(site: Site, req: SIPRequest, branch: string)
    requires req.verb != "INVITE" && !Looping(site, req) && Vias.BranchFor(req) == Some(branch)
    ensures HandedUpTwice(site, {DialogOf(req)}, req)
  {
    var es := [Dialogs({DialogOf(req)})];
    assert es[..0] == [];
    var s1 := Exec(site, es);
    assert s1.dialogs == {DialogOf(req)};
    assert Decided(site, s1.txs, s1.dialogs, req) == InDialog(branch);
    var s2 := Apply(site, s1, Request(req));
    assert s2.txs == s1.txs[branch := NonInviteServer] && s2.dialogs == s1.dialogs;
  }

  lemma PortlessNeverLoops(site: Site, req: SIPRequest)
    requires site.port == ""
    ensures !Looping(site, req)
  {
    assert forall via: Vias.Via :: !IsOwn(site, via);
  }

  /** The exception is real: in a known dialog the same BYE, received twice, is handed up twice. */
  lemma ByeHandedUpTwice() returns (site: Site, dialogs: set<string>, req: SIPRequest)
    ensures req.verb == "BYE" && HandedUpTwice(site, dialogs, req)
  {
    site, req := Site("b", ""), BYE;
    dialogs := {DialogOf(req)};
    ByeBranch();
    PortlessNeverLoops(site, req);
    NotInvite(req);
    InDialogTwice(site, req, "z9hG4bK1");
  }

  lemma NotInvite(req: SIPRequest)
    requires req.verb == "BYE"
    ensures req.verb != "INVITE"
  {
    assert |req.verb| == 3 && |"INVITE"| == 6;
  }

  /** The server's table over time, with how often each branch was created and closed, and the
      branches that in-dialog requests or the server's own client transactions used. */
  datatype Log = Log(
    txs: Table, dialogs: set<string>, created: multiset<string>, closed: multiset<string>, foreign: set<string>)

  datatype Event =
    | Request(req: SIPRequest)
    | Start(branch: string)
    | Close(branch: string)
    | Dialogs(dialogs: set<string>)

  function Entered(s: Log, o: Outcome): Log {
    var s' := s.(txs := TableAfter(s.txs, o));
    if o.Created? then s'.(created := s.created + multiset{o.branch})
    else if o.InDialog? then s'.(foreign := s.foreign + {o.branch})
    else s'
  }

  function Apply(site: Site, s: Log, e: Event): Log {
    match e
    case Request(req) => Entered(s, Decided(site, s.txs, s.dialogs, req))
    case Start(branch) => s.(txs := s.txs[branch := Client], foreign := s.foreign + {branch})
    case Close(branch) =>
      if branch in s.txs then s.(txs := s.txs - {branch}, closed := s.closed + multiset{branch}) else s
    case Dialogs(dialogs) => s.(dialogs := dialogs)
  }

  function Exec(site: Site, es: seq<Event>): Log
    decreases |es|
  {
    if es == [] then Log(map[], {}, multiset{}, multiset{}, {})
    else Apply(site, Exec(site, es[..|es| - 1]), es[|es| - 1])
  }

  // ----- loops -----

  /** The entry names this server's host and port; without a port it stands for 5060. */
  predicate NamesServer(site: Site, via: Vias.Via) {
    && via.host == site.host
    && ((via.port != "" && via.port == site.port) || (via.port == "" && site.port == "5060"))
  }

  /** Over a readable list of Vias a request is a loop if and only if some entry names this server. */
  lemma LoopExactly(site: Site, req: SIPRequest, ps: seq<string>)
    requires Vias.EntryList(ps) && req.Header("Via") == Join(ps, ",")
    ensures Looping(site, req) <==> exists i :: 0 <= i < |ps| && NamesServer(site, Vias.EntryOf(ps[i]))
  {
    Vias.PopsYieldAll(req.headers, req, ps);
    Vias.PopsYieldEntries(req.headers, ps);
    EntriesLoop(site, req, ps);
  }

  lemma EntriesLoop(site: Site, req: SIPRequest, ps: seq<string>)
    requires Vias.EntryList(ps) && Vias.AllViasOf(req) == Vias.ViaList(Vias.Parsed(ps), true)
    ensures Looping(site, req) <==> exists i :: 0 <= i < |ps| && NamesServer(site, Vias.EntryOf(ps[i]))
  {
    forall i | 0 <= i < |ps| ensures IsOwn(site, Vias.Parsed(ps)[i]) <==> NamesServer(site, Vias.EntryOf(ps[i])) {
      OwnIsNamed(site, Vias.EntryOf(ps[i]));
    }
    if Looping(site, req) {
      var i :| 0 <= i < |Vias.Parsed(ps)| && IsOwn(site, Vias.Parsed(ps)[i]);
      assert NamesServer(site, Vias.EntryOf(ps[i]));
    }
  }

  lemma OwnIsNamed(site: Site, via: Vias.Via)
    ensures IsOwn(site, via) <==> NamesServer(site, via)
  {}

  /** So a request that carries the Via this server wrote comes back as a loop. */
  lemma OwnViaLoops(site: Site, req: SIPRequest, proto: string, branch: string)
    requires Vias.ViaSafe(proto) && Vias.ViaSafe(branch) && Vias.ViaSafe(site.host) && Vias.ViaSafe(site.port)
    requires site.host != "" && ':' !in site.host && site.port != ""
    requires req.Header("Via") == Vias.OwnVia(proto, site.host + (":" + site.port), branch)
    ensures Looping(site, req)
  {
    var own := Vias.OwnVia(proto, site.host + (":" + site.port), branch);
    Vias.OwnViaIs(proto, site.host, site.port, branch);
    Vias.AddrSplits(site.host, site.port);
    Vias.OwnViaReadsBack(proto, site.host + (":" + site.port), branch);
    OnlyVia(req, own);
    assert IsOwn(site, Vias.AllViasOf(req).vias[0]);
  }

  lemma OnlyVia(req: SIPRequest, own: string)
    requires req.Header("Via") == own != "" && Vias.SplitQuoted(own, false) == [own]
    requires TrimSpace(own) == own && Vias.ParsedVia(own).Success?
    ensures Vias.AllViasOf(req) == Vias.ViaList([Vias.ParsedVia(own).value], true)
  {
    OneVia(own);
  }

  lemma OneVia(value: string)
    requires TrimSpace(value) == value != "" && Vias.ParsedVia(value).Success?
    ensures Vias.ViasOf([value]) == Vias.ViaList([Vias.ParsedVia(value).value], true)
  {
    assert [value][1..] == [];
  }

  // ----- dialogs -----

  /** The dialog a request names: its Call-ID and the tags of From and To, in this order. */
  lemma DialogNamed(req: SIPRequest, from: string, a: string, to: string, b: string)
    requires B2bua.TagText(a) && B2bua.TagText(b) && !B2bua.Tagged(from) && !B2bua.Tagged(to)
    requires req.Header("From") == from + ";tag=" + a && req.Header("To") == to + ";tag=" + b
    ensures DialogOf(req) == req.Header("Call-ID") + ":" + a + ":" + b
  {
    B2bua.TagAppended(from, a);
    B2bua.TagAppended(to, b);
  }

  // ----- which transaction a request gets -----

  /** Not a loop, not in a known dialog, and under a branch of the current style. */
  predicate Ordinary(site: Site, s: Log, req: SIPRequest, branch: string) {
    && !Looping(site, req) && (req.verb == "INVITE" || DialogOf(req) !in s.dialogs)
    && Vias.BranchFor(req) == Some(branch) && COOKIE <= branch
  }

  /** A request under a new branch: INVITE and UPDATE get an INVITE server transaction, REGISTER
      and BYE the other one, and both are handed up; no other method changes the table. */
  lemma NewRequest(site: Site, s: Log, req: SIPRequest, branch: string)
    requires Ordinary(site, s, req, branch) && branch !in s.txs
    ensures Apply(site, s, Request(req)).txs ==
      if req.verb in {"INVITE", "UPDATE"} then s.txs[branch := InviteServer]
      else if req.verb in {"REGISTER", "BYE"} then s.txs[branch := NonInviteServer]
      else s.txs
    ensures HandsUp(Decided(site, s.txs, s.dialogs, req)) <==> req.verb in {"INVITE", "UPDATE", "REGISTER", "BYE"}
  {
    var o := Decided(site, s.txs, s.dialogs, req);
    if req.verb in {"INVITE", "UPDATE", "REGISTER", "BYE"} {
      NewStateful(site, s.txs, s.dialogs, req, branch);
    } else {
      NewStateless(site, s.txs, s.dialogs, req);
      NothingEntered(s.txs, o);
    }
    EnteredTable(s, o);
  }

  lemma EnteredTable(s: Log, o: Outcome)
    ensures Entered(s, o).txs == TableAfter(s.txs, o)
  {}

  lemma NothingEntered(txs: Table, o: Outcome)
    requires !o.Created? && !o.InDialog?
    ensures TableAfter(txs, o) == txs
  {}

  lemma NewStateful(site: Site, txs: Table, dialogs: set<string>, req: SIPRequest, branch: string)
    requires !Looping(site, req) && (req.verb == "INVITE" || DialogOf(req) !in dialogs)
    requires Vias.BranchFor(req) == Some(branch) && COOKIE <= branch && branch !in txs
    requires req.verb in {"INVITE", "UPDATE", "REGISTER", "BYE"}
    ensures Decided(site, txs, dialogs, req) ==
      Created(branch, if req.verb in {"INVITE", "UPDATE"} then InviteServer else NonInviteServer)
  {
    VerbsDiffer();
  }

  lemma NewStateless(site: Site, txs: Table, dialogs: set<string>, req: SIPRequest)
    requires req.verb !in {"INVITE", "UPDATE", "REGISTER", "BYE"} && DialogOf(req) !in dialogs
    ensures var o := Decided(site, txs, dialogs, req); !o.Created? && !o.InDialog?
  {
    NoneCreated(txs, req);
  }

  lemma NoneCreated(txs: Table, req: SIPRequest)
    requires req.verb !in {"INVITE", "UPDATE", "REGISTER", "BYE"}
    ensures var o := NewOutcome(txs, req); !o.Created? && !o.InDialog?
  {}

  lemma VerbsDiffer()
    ensures "INVITE" !in {"CANCEL", "ACK", "REGISTER", "UPDATE", "BYE"}
    ensures "UPDATE" !in {"CANCEL", "ACK", "REGISTER", "BYE"}
    ensures "REGISTER" !in {"CANCEL", "ACK", "BYE"} && "BYE" !in {"CANCEL", "ACK"}
  {
    assert |"INVITE"| == 6 && |"CANCEL"| == 6 && |"ACK"| == 3 && |"REGISTER"| == 8 && |"UPDATE"| == 6 && |"BYE"| == 3;
    assert "INVITE"[0] == 'I' && "CANCEL"[0] == 'C' && "UPDATE"[0] == 'U' && "ACK"[0] == 'A' && "BYE"[0] == 'B';
  }

  /** A request under a branch that is held: an ACK goes to an INVITE server transaction and to no
      other, a CANCEL goes its own way, anything else is a copy for the server transaction, or is
      ignored if a client transaction has the branch. The table stays as it is. */
  lemma HeldRequest(site: Site, s: Log, req: SIPRequest, branch: string)
    requires Ordinary(site, s, req, branch) && branch in s.txs
    ensures var o := Decided(site, s.txs, s.dialogs, req);
      && (req.verb == "ACK" ==> o == if s.txs[branch] == InviteServer then AckFor(branch) else AckDropped)
      && (req.verb == "CANCEL" ==> o == Cancelled)
      && (req.verb !in {"ACK", "CANCEL"} ==> o == if s.txs[branch] == Client then Ignored else Absorbed(branch))
    ensures Apply(site, s, Request(req)) == s
  {
    assert |"CANCEL"| == 6 && |"ACK"| == 3;
  }

  /** While these events happen nothing else takes or frees the branch. */
  ghost predicate Undisturbed(site: Site, es: seq<Event>, more: seq<Event>, branch: string) {
    forall i :: 0 <= i < |more| ==> Spares(site, Exec(site, es + more[..i]), more[i], branch)
  }

  lemma {:induction false} StaysHeld(site: Site, es: seq<Event>, more: seq<Event>, branch: string)
    requires branch in Exec(site, es).txs && Undisturbed(site, es, more, branch)
    ensures var txs := Exec(site, es + more).txs; branch in txs && txs[branch] == Exec(site, es).txs[branch]
    decreases |more|
  {
    if more == [] {
      assert es + more == es;
    } else {
      var n := |more| - 1;
      LessUndisturbed(site, es, more, branch);
      StaysHeld(site, es, more[..n], branch);
      StepHolds(site, Exec(site, es + more[..n]), more[n], branch);
      LastApplied(site, es, more);
    }
  }

  lemma LastApplied(site: Site, es: seq<Event>, more: seq<Event>)
    requires more != []
    ensures var n := |more| - 1; Exec(site, es + more) == Apply(site, Exec(site, es + more[..n]), more[n])
  {
    var n := |more| - 1;
    assert es + more == es + more[..n] + [more[n]];
    ExecSnoc(site, es + more[..n], more[n]);
  }

  predicate Spares(site: Site, s: Log, e: Event, branch: string) {
    match e
    case Request(req) => Decided(site, s.txs, s.dialogs, req) != InDialog(branch)
    case Start(b) => b != branch
    case Close(b) => b != branch
    case Dialogs(_) => true
  }

  lemma LessUndisturbed(site: Site, es: seq<Event>, more: seq<Event>, branch: string)
    requires more != [] && Undisturbed(site, es, more, branch)
    ensures var n := |more| - 1;
      Undisturbed(site, es, more[..n], branch) && Spares(site, Exec(site, es + more[..n]), more[n], branch)
  {
    assert forall i :: 0 <= i < |more| - 1 ==> more[..|more| - 1][..i] == more[..i];
  }

  lemma StepHolds(site: Site, s: Log, e: Event, branch: string)
    requires branch in s.txs && Spares(site, s, e, branch)
    ensures var txs := Apply(site, s, e).txs; branch in txs && txs[branch] == s.txs[branch]
  {
    if e.Request? {
      CreatedIsNew(site, s.txs, s.dialogs, e.req);
      OutcomeHolds(s.txs, Decided(site, s.txs, s.dialogs, e.req), branch);
    }
  }

  lemma OutcomeHolds(txs: Table, o: Outcome, branch: string)
    requires branch in txs && o != InDialog(branch) && (o.Created? ==> o.branch !in txs)
    ensures branch in TableAfter(txs, o) && TableAfter(txs, o)[branch] == txs[branch]
  {}

  lemma ExecSnoc(site: Site, es: seq<Event>, e: Event)
    ensures Exec(site, es + [e]) == Apply(site, Exec(site, es), e)
  {
    assert (es + [e])[..|es|] == es;
  }

  /** Over every run: an INVITE or UPDATE that comes under a new branch starts the transaction to
      which an ACK under the same branch is given, as long as that transaction is held. */
  lemma AckReachesInvite(
      site: Site, es: seq<Event>, invite: SIPRequest, more: seq<Event>, ack: SIPRequest, branch: string)
    requires Ordinary(site, Exec(site, es), invite, branch) && invite.verb in {"INVITE", "UPDATE"}
    requires branch !in Exec(site, es).txs && Undisturbed(site, es + [Request(invite)], more, branch)
    requires ack.verb == "ACK" && Ordinary(site, Exec(site, es + [Request(invite)] + more), ack, branch)
    ensures var s := Exec(site, es + [Request(invite)] + more);
      Decided(site, s.txs, s.dialogs, ack) == AckFor(branch)
  {
    ExecSnoc(site, es, Request(invite));
    NewRequest(site, Exec(site, es), invite, branch);
    StaysHeld(site, es + [Request(invite)], more, branch);
    HeldRequest(site, Exec(site, es + [Request(invite)] + more), ack, branch);
  }

  /** And every copy of a stateful request is absorbed, as long as its transaction is held. */
  lemma CopyReachesServer(site: Site, es: seq<Event>, req: SIPRequest, more: seq<Event>, branch: string)
    requires Ordinary(site, Exec(site, es), req, branch) && req.verb in {"INVITE", "UPDATE", "REGISTER", "BYE"}
    requires branch !in Exec(site, es).txs && Undisturbed(site, es + [Request(req)], more, branch)
    requires Ordinary(site, Exec(site, es + [Request(req)] + more), req, branch)
    ensures var s := Exec(site, es + [Request(req)] + more);
      Decided(site, s.txs, s.dialogs, req) == Absorbed(branch)
  {
    ExecSnoc(site, es, Request(req));
    NewRequest(site, Exec(site, es), req, branch);
    StaysHeld(site, es + [Request(req)], more, branch);
    VerbsDiffer();
    HeldRequest(site, Exec(site, es + [Request(req)] + more), req, branch);
  }

  ghost predicate Balanced(s: Log) {
    forall b: string :: b !in s.foreign ==> s.created[b] == s.closed[b] + if b in s.txs then 1 else 0
  }

  lemma NewIsNew(txs: Table, req: SIPRequest)
    ensures var o := NewOutcome(txs, req); o.Created? ==> o.branch !in txs
  {}

  lemma CreatedIsNew(site: Site, txs: Table, dialogs: set<string>, req: SIPRequest)
    ensures var o := Decided(site, txs, dialogs, req); o.Created? ==> o.branch !in txs
  {
    NewIsNew(txs, req);
  }

  lemma RequestBalanced(site: Site, s: Log, req: SIPRequest)
    requires Balanced(s)
    ensures Balanced(Apply(site, s, Request(req)))
  {
    var o := Decided(site, s.txs, s.dialogs, req);
    CreatedIsNew(site, s.txs, s.dialogs, req);
    OutcomeBalanced(s, o);
  }

  lemma OutcomeBalanced(s: Log, o: Outcome)
    requires Balanced(s) && (o.Created? ==> o.branch !in s.txs)
    ensures Balanced(Entered(s, o))
  {}

  /** In every run, each branch that no in-dialog request and no client transaction used was
      handed to a user once per transaction: as often as its transaction was closed, plus once
      if one is open now. */
  lemma {:induction false} OncePerTransaction(site: Site, es: seq<Event>)
    ensures Balanced(Exec(site, es))
    decreases |es|
  {
    if es != [] {
      var s, e := Exec(site, es[..|es| - 1]), es[|es| - 1];
      OncePerTransaction(site, es[..|es| - 1]);
      if e.Request? { RequestBalanced(site, s, e.req); }
    }
  }
}
