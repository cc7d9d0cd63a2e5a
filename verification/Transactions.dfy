/** The table of active transactions, keyed by branch, and the constructors, which refuse a
    request without a usable top Via. */
module Transactions {
  import opened Wrappers
  import opened Message
  import opened Timing
  import InviteClient
  import InviteServer
  import NonInviteClient
  import NonInviteServer
  import Vias

  class TransactionManager<T> {
    var transactions: map<string, T>

    constructor ()
      ensures transactions == map[]
    {
      transactions := map[];
    }

    method Get(branch: string) returns (tx: Option<T>)
      ensures tx == if branch in transactions then Some(transactions[branch]) else None
    {
      tx := if branch in transactions then Some(transactions[branch]) else None;
    }

    /** Once `tx` has closed `done`, the branch is removed, whatever it stands for by then: the
        uses `Closed` below, and `Close` in `Dispatch`. */
    method Add(branch: string, tx: T)
      modifies this
      ensures transactions == old(transactions)[branch := tx]
    {
      transactions := transactions[branch := tx];
    }
  }

  // ----- creation -----

  method NewInviteServerTx(req: SIPRequest, timers: Timers, now: nat)
    returns (id: Option<string>, tx: InviteServer.InviteServerTx?)
    ensures id == Vias.BranchFor(req) && (tx == null <==> id.None?)
    ensures tx != null ==> fresh(tx) && tx.Model() == InviteServer.Started(req, now) && tx.timers == timers
  {
    id, tx := None, null;
    var top := Vias.RequestTopVia(req);
    if top.Failure? { return; }
    var branch := top.value.Branch();
    if branch == "" { return; }
    id := Some(branch);
    tx := new InviteServer.InviteServerTx(req, timers, now);
  }

  method NewNonInviteServerTx(req: SIPRequest, timers: Timers, now: nat)
    returns (id: Option<string>, tx: NonInviteServer.NonInviteServerTx?)
    ensures id == Vias.BranchFor(req) && (tx == null <==> id.None?)
    ensures tx != null ==> fresh(tx) && tx.Model() == NonInviteServer.Started(req, now) && tx.timers == timers
  {
    id, tx := None, null;
    var top := Vias.RequestTopVia(req);
    if top.Failure? { return; }
    var branch := top.value.Branch();
    if branch == "" { return; }
    id := Some(branch);
    tx := new NonInviteServer.NonInviteServerTx(req, timers, now);
  }

  /** A client transaction may be created under an empty branch. */
  method NewInviteClientTx(req: SIPRequest, timers: Timers, now: nat)
    returns (id: string, tx: InviteClient.InviteClientTx?)
    ensures tx == null <==> Vias.RequestTopVia(req).Failure?
    ensures tx != null ==> id == Vias.RequestTopVia(req).value.Branch()
    ensures tx != null ==> fresh(tx) && tx.Model() == InviteClient.Started(timers, req, now) && tx.timers == timers
  {
    id, tx := "", null;
    var top := Vias.RequestTopVia(req);
    if top.Failure? { return; }
    id := top.value.Branch();
    tx := new InviteClient.InviteClientTx(req, timers, now);
  }

  /** A client transaction may be created under an empty branch. */
  method NewNonInviteClientTx(req: SIPRequest, timers: Timers, now: nat)
    returns (id: string, tx: NonInviteClient.NonInviteClientTx?)
    ensures tx == null <==> Vias.RequestTopVia(req).Failure?
    ensures tx != null ==> id == Vias.RequestTopVia(req).value.Branch()
    ensures tx != null ==> fresh(tx) && tx.Model() == NonInviteClient.Started(timers, req, now) && tx.timers == timers
  {
    id, tx := "", null;
    var top := Vias.RequestTopVia(req);
    if top.Failure? { return; }
    id := top.value.Branch();
    tx := new NonInviteClient.NonInviteClientTx(req, timers, now);
  }

  // ----- what a lookup means -----

  /** One use of the table: transaction `n` is added under a branch, or closes `done` and is
      removed under the branch it was added with. */
  datatype Use = Added(branch: string, n: nat) | Closed(branch: string, n: nat)

  /** The table and the transactions that are open; a number is used once and closed once. */
  datatype Log = Log(table: map<string, nat>, open: map<nat, string>, used: set<nat>)

  predicate Enabled(s: Log, u: Use) {
    match u
    case Added(_, n) => n !in s.used
    case Closed(branch, n) => n in s.open && s.open[n] == branch
  }

  function Apply(s: Log, u: Use): Log {
    if !Enabled(s, u) then s
    else match u
      case Added(branch, n) => Log(s.table[branch := n], s.open[n := branch], s.used + {n})
      case Closed(branch, n) => Log(s.table - {branch}, s.open - {n}, s.used)
  }

  function Exec(us: seq<Use>): Log
    decreases |us|
  {
    if us == [] then Log(map[], map[], {}) else Apply(Exec(us[..|us| - 1]), us[|us| - 1])
  }

  /** A lookup finds exactly the open transaction of its branch. */
  ghost predicate Exact(s: Log) {
    && (forall n :: n in s.open ==> s.open[n] in s.table && s.table[s.open[n]] == n)
    && (forall b :: b in s.table ==> s.table[b] in s.open && s.open[s.table[b]] == b)
  }

  /** The `i`-th use adds a transaction under a branch that is still held. */
  predicate Overwrites(us: seq<Use>, i: nat)
    requires i < |us|
  {
    us[i].Added? && Enabled(Exec(us[..i]), us[i]) && us[i].branch in Exec(us[..i]).table
  }

  /** Lookups are exact after every prefix of the run. */
  ghost predicate AlwaysExact(us: seq<Use>) { forall i :: 0 <= i <= |us| ==> Exact(Exec(us[..i])) }

  /** In every prefix of a run lookups are exact if and only if no branch is ever added while it
      is held. */
  lemma {:induction false} LookupsAreExact(us: seq<Use>)
    ensures AlwaysExact(us) <==> forall i :: 0 <= i < |us| ==> !Overwrites(us, i)
    decreases |us|
  {
    if us == [] {
      assert us[..0] == us;
    } else {
      var front, n := us[..|us| - 1], |us| - 1;
      LookupsAreExact(front);
      SamePrefixes(us);
      if Exact(Exec(front)) {
        OpenWereUsed(front);
        OneUse(Exec(front), us[n]);
      }
    }
  }

  /** What goes wrong otherwise: the end of the older transaction takes the newer one, still open,
      out of the table. */
  lemma OlderRemovesNewer(us: seq<Use>, branch: string, older: nat, newer: nat)
    requires older in Exec(us).open && Exec(us).open[older] == branch && newer !in Exec(us).used
    ensures var s := Exec(us + [Added(branch, newer)] + [Closed(branch, older)]);
      newer in s.open && s.open[newer] == branch && branch !in s.table
  {
    OpenWereUsed(us);
    var more := us + [Added(branch, newer)];
    assert more[..|us|] == us && (more + [Closed(branch, older)])[..|more|] == more;
  }

  /** The shortest such run, for every branch and every two transactions. */
  lemma NewerLost(branch: string, older: nat, newer: nat)
    requires older != newer
    ensures var s := Exec([Added(branch, older), Added(branch, newer), Closed(branch, older)]);
      newer in s.open && s.open[newer] == branch && branch !in s.table
  {
    var us := [Added(branch, older)];
    assert us[..0] == [];
    OlderRemovesNewer(us, branch, older, newer);
    assert us + [Added(branch, newer)] + [Closed(branch, older)]
        == [Added(branch, older), Added(branch, newer), Closed(branch, older)];
  }

  lemma SamePrefixes(us: seq<Use>)
    requires us != []
    ensures var front, n := us[..|us| - 1], |us| - 1;
      && (AlwaysExact(us) <==> AlwaysExact(front) && Exact(Exec(us)))
      && (AlwaysExact(front) ==> Exact(Exec(front)))
      && (forall i :: 0 <= i < n ==> Overwrites(us, i) == Overwrites(front, i))
      && (Overwrites(us, n) == (us[n].Added? && Enabled(Exec(front), us[n]) && us[n].branch in Exec(front).table))
  {
    var front, n := us[..|us| - 1], |us| - 1;
    assert forall i :: 0 <= i <= n ==> us[..i] == front[..i];
    assert front[..n] == front && us[..|us|] == us;
  }

  lemma {:induction false} OpenWereUsed(us: seq<Use>)
    ensures Exec(us).open.Keys <= Exec(us).used
    decreases |us|
  {
    if us != [] { OpenWereUsed(us[..|us| - 1]); }
  }

  lemma OneUse(s: Log, u: Use)
    requires Exact(s) && s.open.Keys <= s.used
    ensures Exact(Apply(s, u)) <==> !(u.Added? && Enabled(s, u) && u.branch in s.table)
  {
    if u.Added? && Enabled(s, u) && u.branch in s.table {
      var older := s.table[u.branch];
      assert older in Apply(s, u).open;
    }
  }
}
