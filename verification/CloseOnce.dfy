/** The locking skeleton of the four transactions. Every entry point is written down as the
    list of its lock, write and close operations; any number of goroutines run entry points
    interleaved one operation at a time, so `state = Terminated` and `close(done)` are separate
    steps and a write can fail. */
module CloseOnce {
  import opened Wrappers

  datatype Machine = InviteClient | InviteServer | NonInviteClient | NonInviteServer

  /** `Mark` sets the state to Terminated; `MarkEarly` is the same assignment in the INVITE
      client's 2xx branch, outside `Terminate`. `OnTerminated(escape)` continues with `escape`
      when the state is Terminated and with the next operation otherwise. */
  datatype Op =
    | Lock | Unlock | RLock | RUnlock | Write | Mark | MarkEarly | CloseDone
    | OnTerminated(escape: seq<Op>)

  const TERMINATE: seq<Op> := [Lock, OnTerminated([Unlock]), Mark, Unlock, CloseDone]

  /** The paths through the code of each machine. `Terminate` and `LastResponse` are common; so
      are the timers that only call `Terminate`. */
  predicate Entry(m: Machine, p: seq<Op>) {
    || p == TERMINATE
    || p == [RLock, RUnlock]
    || match m
       case InviteClient =>
         || p == [Write] + TERMINATE
         || p == [Lock, OnTerminated([Unlock]), Unlock]
         || p == [Lock, OnTerminated([Unlock]), Write, Unlock]
         || p == [Lock, OnTerminated([Unlock]), Write, Unlock] + TERMINATE
         || p == [Lock, OnTerminated([Unlock]), MarkEarly, Unlock] + TERMINATE
       case InviteServer =>
         || p == [Write]
         || p == [Lock, Unlock]
         || p == [Lock, Unlock] + TERMINATE
         || p == [Lock, OnTerminated([Unlock]), Write, Unlock]
         || p == [Lock, OnTerminated([Unlock] + TERMINATE), Write, Unlock]
         || p == [Lock, OnTerminated([Unlock] + TERMINATE), Write, Unlock] + TERMINATE
       case NonInviteClient =>
         || p == [Write] + TERMINATE
         || p == [Lock, OnTerminated([Unlock]), Unlock]
         || p == [Lock, OnTerminated([Unlock]), Unlock] + TERMINATE
         || p == [Lock, OnTerminated([Unlock]), Write, Unlock]
       case NonInviteServer =>
         || p == [RLock, OnTerminated([RUnlock]), Write, RUnlock]
         || p == [Lock, OnTerminated([Unlock] + TERMINATE), Unlock]
         || p == [Lock, OnTerminated([Unlock] + TERMINATE), Write, Unlock]
         || p == [Lock, OnTerminated([Unlock] + TERMINATE), Write, Unlock] + TERMINATE
  }

  /** The mutex, the flags and what each goroutine still has to do. `early`: the state was set
      by `MarkEarly`. `closer`: the goroutine that ran `Mark`. `jammed`: the goroutines whose
      write failed while they held the mutex. */
  datatype World = World(marked: bool, early: bool, closes: nat, owner: Option<nat>, readers: set<nat>,
                         closer: Option<nat>, jammed: set<nat>, rest: map<nat, seq<Op>>)

  function Rest(s: World, t: nat): seq<Op> { if t in s.rest then s.rest[t] else [] }

  function Begun(): World { World(false, false, 0, None, {}, None, {}, map[]) }

  predicate Holds(s: World, t: nat) { s.owner == Some(t) || t in s.readers }

  /** `Start` runs an entry point on an idle goroutine; `Run` takes a goroutine's next
      operation, `ok` being the outcome if that is a write. */
  datatype Step = Start(t: nat, p: seq<Op>) | Run(t: nat, ok: bool)

  predicate Enabled(m: Machine, s: World, e: Step) {
    var r := Rest(s, e.t);
    match e
    case Start(_, p) => r == [] && Entry(m, p)
    case Run(_, _) =>
      && r != []
      && (r[0] == Lock ==> s.owner.None? && s.readers == {})
      && (r[0] == RLock ==> s.owner.None?)
  }

  function Go(s: World, t: nat, r: seq<Op>): World { s.(rest := s.rest[t := r]) }

  /** A failed write calls `Terminate` on the spot. */
  function Operate(s: World, t: nat, ok: bool): World
    requires Rest(s, t) != []
  {
    var r := Rest(s, t);
    var next := Go(s, t, r[1..]);
    match r[0]
    case Lock => next.(owner := Some(t))
    case Unlock => next.(owner := None)
    case RLock => next.(readers := s.readers + {t})
    case RUnlock => next.(readers := s.readers - {t})
    case Write =>
      if ok then next
      else Go(s, t, TERMINATE + r[1..]).(jammed := if Holds(s, t) then s.jammed + {t} else s.jammed)
    case Mark => next.(marked := true, closer := Some(t))
    case MarkEarly => next.(marked := true, early := true)
    case CloseDone => next.(closes := s.closes + 1)
    case OnTerminated(escape) => if s.marked then Go(s, t, escape) else next
  }

  function Apply(m: Machine, s: World, e: Step): World {
    if !Enabled(m, s, e) then s
    else match e
      case Start(t, p) => Go(s, t, p)
      case Run(t, ok) => Operate(s, t, ok)
  }

  function Exec(m: Machine, es: seq<Step>): World
    decreases |es|
  {
    if es == [] then Begun() else Apply(m, Exec(m, es[..|es| - 1]), es[|es| - 1])
  }

  // Lock discipline of what a goroutine still has to do: holding nothing, holding the write
  // lock (`live`: the state is known not to be Terminated), holding the read lock.

  predicate Outside(m: Machine, r: seq<Op>)
    decreases r
  {
    || r == []
    || (r[0] == Write && Outside(m, r[1..]))
    || (r[0] == Lock && Inside(m, r[1..], false))
    || (r[0] == RLock && Reading(m, r[1..]))
  }

  predicate Inside(m: Machine, r: seq<Op>, live: bool)
    decreases r
  {
    && r != []
    && match r[0]
       case Unlock => Outside(m, r[1..])
       case Write => Inside(m, r[1..], live)
       case OnTerminated(escape) => Inside(m, escape, false) && Inside(m, r[1..], true)
       case Mark => live && Owing(m, r[1..])
       case MarkEarly => live && m == InviteClient && Inside(m, r[1..], false)
       case _ => false
  }

  predicate Reading(m: Machine, r: seq<Op>)
    decreases r
  {
    && r != []
    && match r[0]
       case RUnlock => Outside(m, r[1..])
       case Write => Reading(m, r[1..])
       case OnTerminated(escape) => Reading(m, escape) && Reading(m, r[1..])
       case _ => false
  }

  /** After `Mark`: give the mutex back, then close. */
  predicate Owing(m: Machine, r: seq<Op>)
    decreases r
  {
    |r| >= 2 && r[0] == Unlock && r[1] == CloseDone && Outside(m, r[2..])
  }

  predicate Closing(m: Machine, r: seq<Op>) { r != [] && r[0] == CloseDone && Outside(m, r[1..]) }

  lemma {:induction false} InsideLive(m: Machine, r: seq<Op>, live: bool)
    requires Inside(m, r, false)
    ensures Inside(m, r, live)
    decreases |r|
  {
    if r[0] == Write { InsideLive(m, r[1..], live); }
  }

  /** `Terminate` can be put in front of anything that is run without the mutex. */
  lemma TerminateOutside(m: Machine, r: seq<Op>)
    requires Outside(m, r)
    ensures Outside(m, TERMINATE + r)
  {
    var p := TERMINATE + r;
    assert p[1..][1..][1..] == [Unlock, CloseDone] + r;
    assert ([Unlock, CloseDone] + r)[2..] == r;
    assert Owing(m, p[1..][1..][1..]);
    assert Inside(m, p[1..][1..], true);
    assert [Unlock][1..] == [];
    assert Inside(m, [Unlock], false);
    assert Inside(m, p[1..], false);
  }

  function Bracket(escape: seq<Op>, mid: seq<Op>, after: seq<Op>): seq<Op> {
    [Lock, OnTerminated(escape)] + (mid + ([Unlock] + after))
  }

  predicate MidOf(m: Machine, mid: seq<Op>) {
    mid in {[], [Write]} || (mid == [MarkEarly] && m == InviteClient)
  }

  lemma BracketOutside(m: Machine, escape: seq<Op>, mid: seq<Op>, after: seq<Op>)
    requires Inside(m, escape, false) && Outside(m, after) && MidOf(m, mid)
    ensures Outside(m, Bracket(escape, mid, after))
  {
    var r := [Unlock] + after;
    assert r[1..] == after;
    assert Inside(m, r, false) && Inside(m, r, true);
    assert Inside(m, mid + r, true) by {
      if mid == [] { assert mid + r == r; } else { assert (mid + r)[1..] == r; }
    }
    assert Bracket(escape, mid, after)[1..][1..] == mid + r;
    assert Inside(m, Bracket(escape, mid, after)[1..], false);
  }

  lemma UnlockInside(m: Machine, after: seq<Op>)
    requires Outside(m, after)
    ensures Inside(m, [Unlock] + after, false) && Outside(m, [Lock] + ([Unlock] + after))
  {}

  lemma ReadersOutside(m: Machine)
    ensures Outside(m, [RLock, RUnlock]) && Outside(m, [RLock, OnTerminated([RUnlock]), Write, RUnlock])
  {}

  /** Every entry point keeps the discipline from start to end. */
  lemma EntryOutside(m: Machine, p: seq<Op>)
    requires Entry(m, p)
    ensures Outside(m, p)
  {
    TerminateOutside(m, []);
    assert TERMINATE + [] == TERMINATE;
    ReadersOutside(m);
    UnlockInside(m, []);
    UnlockInside(m, TERMINATE);
    assert [Unlock] + [] == [Unlock];
    assert ([Write] + TERMINATE)[1..] == TERMINATE && [Write][1..] == [];
    forall escape, mid, after | escape in {[Unlock], [Unlock] + TERMINATE} && MidOf(m, mid) && after in {[], TERMINATE}
      ensures Outside(m, Bracket(escape, mid, after))
    {
      BracketOutside(m, escape, mid, after);
    }
    EntryShape(m, p);
  }

  lemma EntryShape(m: Machine, p: seq<Op>)
    requires Entry(m, p)
    ensures
      || p in {TERMINATE, [RLock, RUnlock], [RLock, OnTerminated([RUnlock]), Write, RUnlock],
               [Write], [Write] + TERMINATE, [Lock] + ([Unlock] + []), [Lock] + ([Unlock] + TERMINATE)}
      || exists escape, mid, after :: p == Bracket(escape, mid, after)
           && escape in {[Unlock], [Unlock] + TERMINATE} && MidOf(m, mid) && after in {[], TERMINATE}
  {
    assert [Lock, Unlock] == [Lock] + ([Unlock] + []);
    assert [Lock, Unlock] + TERMINATE == [Lock] + ([Unlock] + TERMINATE);
    forall e | e in {[Unlock], [Unlock] + TERMINATE}
      ensures [Lock, OnTerminated(e), Unlock] == Bracket(e, [], [])
      ensures [Lock, OnTerminated(e), Unlock] + TERMINATE == Bracket(e, [], TERMINATE)
      ensures [Lock, OnTerminated(e), Write, Unlock] == Bracket(e, [Write], [])
      ensures [Lock, OnTerminated(e), Write, Unlock] + TERMINATE == Bracket(e, [Write], TERMINATE)
      ensures [Lock, OnTerminated(e), MarkEarly, Unlock] + TERMINATE == Bracket(e, [MarkEarly], TERMINATE)
    {
    }
  }

  ghost predicate ThreadOk(m: Machine, s: World, t: nat) {
    var r := Rest(s, t);
    if t in s.jammed then
      Holds(s, t) && r != [] && r[0] == Lock
    else if s.owner == Some(t) then
      Inside(m, r, !s.marked) || (Owing(m, r) && s.closer == Some(t) && s.closes == 0)
    else if t in s.readers then
      Reading(m, r)
    else
      Outside(m, r) || (Closing(m, r) && s.closer == Some(t) && s.closes == 0)
  }

  ghost predicate FlagsOk(m: Machine, s: World) {
    && (s.owner.Some? ==> s.readers == {})
    && s.closes <= 1
    && (s.closes == 1 ==> s.closer.Some?)
    && (s.marked <==> s.early || s.closer.Some?)
    && (s.early ==> s.closer.None? && m == InviteClient)
    && (s.closer.Some? && s.closes == 0 ==> OwesClose(m, s, s.closer.value))
  }

  /** The goroutine is between `state = Terminated` and `close(done)`. */
  predicate OwesClose(m: Machine, s: World, t: nat) {
    && t !in s.jammed && t !in s.readers
    && if s.owner == Some(t) then Owing(m, Rest(s, t)) else Closing(m, Rest(s, t))
  }

  ghost predicate Sound(m: Machine, s: World) {
    FlagsOk(m, s) && forall t: nat :: ThreadOk(m, s, t)
  }

  /** A goroutine that does not move is unaffected unless the mutex or the closer it depends on changes. */
  lemma OthersOk(m: Machine, s: World, s': World, t: nat, u: nat)
    requires u != t && ThreadOk(m, s, u)
    requires Rest(s', u) == Rest(s, u) && (u in s'.jammed <==> u in s.jammed)
    requires (s'.owner == Some(u) <==> s.owner == Some(u)) && (u in s'.readers <==> u in s.readers)
    requires s.owner == Some(u) ==> s'.marked == s.marked
    requires s.closer == Some(u) ==> s'.closer == s.closer && s'.closes == s.closes
    ensures ThreadOk(m, s', u)
  {}

  lemma LockStep(m: Machine, s: World, t: nat, ok: bool)
    requires Sound(m, s) && Enabled(m, s, Run(t, ok)) && Rest(s, t)[0] in {Lock, RLock, Unlock, RUnlock}
    ensures Sound(m, Operate(s, t, ok))
  {
    var s' := Operate(s, t, ok);
    assert ThreadOk(m, s, t);
    if Rest(s, t)[0] == Lock && !s.marked { InsideLive(m, Rest(s, t)[1..], true); }
    assert Rest(s', t) == Rest(s, t)[1..];
    assert ThreadOk(m, s', t);
    forall u: nat | u != t ensures ThreadOk(m, s', u) { assert ThreadOk(m, s, u); OthersOk(m, s, s', t, u); }
  }

  lemma MarkStep(m: Machine, s: World, t: nat, ok: bool)
    requires Sound(m, s) && Enabled(m, s, Run(t, ok)) && Rest(s, t)[0] in {Mark, MarkEarly, CloseDone}
    ensures Sound(m, Operate(s, t, ok))
  {
    var s' := Operate(s, t, ok);
    assert ThreadOk(m, s, t);
    assert Rest(s', t) == Rest(s, t)[1..];
    assert ThreadOk(m, s', t);
    forall u: nat | u != t ensures ThreadOk(m, s', u) { assert ThreadOk(m, s, u); OthersOk(m, s, s', t, u); }
  }

  lemma PassStep(m: Machine, s: World, t: nat, ok: bool)
    requires Sound(m, s) && Enabled(m, s, Run(t, ok)) && (Rest(s, t)[0] == Write || Rest(s, t)[0].OnTerminated?)
    ensures Sound(m, Operate(s, t, ok))
  {
    var s' := Operate(s, t, ok);
    assert ThreadOk(m, s, t);
    if Rest(s, t)[0] == Write && !ok && !Holds(s, t) { TerminateOutside(m, Rest(s, t)[1..]); }
    assert ThreadOk(m, s', t);
    OthersPass(m, s, t, ok);
  }

  lemma OthersPass(m: Machine, s: World, t: nat, ok: bool)
    requires Sound(m, s) && Enabled(m, s, Run(t, ok)) && (Rest(s, t)[0] == Write || Rest(s, t)[0].OnTerminated?)
    ensures forall u: nat :: u != t ==> ThreadOk(m, Operate(s, t, ok), u)
  {
    forall u: nat | u != t ensures ThreadOk(m, Operate(s, t, ok), u) {
      assert ThreadOk(m, s, u);
      OthersOk(m, s, Operate(s, t, ok), t, u);
    }
  }

  lemma StartStep(m: Machine, s: World, t: nat, p: seq<Op>)
    requires Sound(m, s) && Enabled(m, s, Start(t, p))
    ensures Sound(m, Go(s, t, p))
  {
    EntryOutside(m, p);
    var s' := Go(s, t, p);
    assert ThreadOk(m, s, t);
    forall u: nat | u != t ensures ThreadOk(m, s', u) { assert ThreadOk(m, s, u); OthersOk(m, s, s', t, u); }
  }

  lemma OperateSound(m: Machine, s: World, t: nat, ok: bool)
    requires Sound(m, s) && Enabled(m, s, Run(t, ok))
    ensures Sound(m, Operate(s, t, ok))
  {
    var op := Rest(s, t)[0];
    if op in {Lock, RLock, Unlock, RUnlock} { LockStep(m, s, t, ok); }
    else if op in {Mark, MarkEarly, CloseDone} { MarkStep(m, s, t, ok); }
    else { PassStep(m, s, t, ok); }
  }

  lemma {:induction false} RunSound(m: Machine, es: seq<Step>)
    ensures Sound(m, Exec(m, es))
    decreases |es|
  {
    if es != [] {
      var s, e := Exec(m, es[..|es| - 1]), es[|es| - 1];
      RunSound(m, es[..|es| - 1]);
      if Enabled(m, s, e) {
        match e
        case Start(t, p) => StartStep(m, s, t, p);
        case Run(t, ok) => OperateSound(m, s, t, ok);
      }
    }
  }

  /** In every interleaving, write failures included, `done` is closed at most once and only in
      Terminated. Once Terminated, either it is closed, or some goroutine is between the two
      steps, or the state was set by the INVITE client's 2xx branch, and then it is never closed. */
  lemma ClosedOnce(m: Machine, es: seq<Step>)
    ensures var s := Exec(m, es);
      && s.closes <= 1
      && (s.closes == 1 ==> s.marked)
      && (s.marked ==> s.closes == 1 || s.early || exists t: nat :: OwesClose(m, s, t))
      && (s.early ==> s.closes == 0 && m == InviteClient)
  {
    RunSound(m, es);
  }

  /** A goroutine waits for the mutex while holding it exactly when one of its writes failed
      under the mutex; so when writes succeed no path takes it twice. */
  lemma WaitsForItself(m: Machine, es: seq<Step>, t: nat)
    ensures var s := Exec(m, es);
      (Holds(s, t) && Rest(s, t) != [] && Rest(s, t)[0] in {Lock, RLock}) <==> t in s.jammed
    ensures (forall i :: 0 <= i < |es| && es[i].Run? ==> es[i].ok) ==> Exec(m, es).jammed == {}
  {
    RunSound(m, es);
    assert ThreadOk(m, Exec(m, es), t);
    if forall i :: 0 <= i < |es| && es[i].Run? ==> es[i].ok { NeverJammed(m, es); }
  }

  lemma StepNoJam(m: Machine, s: World, e: Step)
    requires s.jammed == {} && (e.Run? ==> e.ok)
    ensures Apply(m, s, e).jammed == {}
  {
    if Enabled(m, s, e) && e.Run? { OperateNoJam(s, e.t); }
  }

  lemma OperateNoJam(s: World, t: nat)
    requires Rest(s, t) != []
    ensures Operate(s, t, true).jammed == s.jammed
  {}

  lemma {:induction false} NeverJammed(m: Machine, es: seq<Step>)
    requires forall i :: 0 <= i < |es| && es[i].Run? ==> es[i].ok
    ensures Exec(m, es).jammed == {}
    decreases |es|
  {
    if es != [] {
      NeverJammed(m, es[..|es| - 1]);
      StepNoJam(m, Exec(m, es[..|es| - 1]), es[|es| - 1]);
    }
  }

  /** When no write failed, a goroutine that cannot get the mutex waits for another one that
      can move. */
  lemma HolderMoves(m: Machine, es: seq<Step>, t: nat)
    requires Exec(m, es).jammed == {} && Rest(Exec(m, es), t) != [] && !Enabled(m, Exec(m, es), Run(t, true))
    ensures exists u: nat :: u != t && Holds(Exec(m, es), u) && Enabled(m, Exec(m, es), Run(u, true))
  {
    RunSound(m, es);
    var s := Exec(m, es);
    assert ThreadOk(m, s, t);
    var u: nat;
    if s.owner.Some? { u := s.owner.value; } else { u :| u in s.readers; }
    assert ThreadOk(m, s, u);
    assert Enabled(m, s, Run(u, true));
  }

  /** What goroutine 0 brings about alone by running `p` for `n` operations, the last one with
      outcome `ok` and the others succeeding. */
  function Solo(m: Machine, p: seq<Op>, n: nat, ok: bool): seq<Step> {
    if n == 0 then [Start(0, p)] else Solo(m, p, n - 1, true) + [Run(0, ok)]
  }

  lemma SoloStep(m: Machine, p: seq<Op>, n: nat, ok: bool)
    requires n == 0 ==> Entry(m, p)
    ensures n == 0 ==> Exec(m, Solo(m, p, n, ok)) == Go(Begun(), 0, p)
    ensures n > 0 ==> Exec(m, Solo(m, p, n, ok)) == Apply(m, Exec(m, Solo(m, p, n - 1, true)), Run(0, ok))
  {}

  /** The 2xx branch alone: the client is Terminated, nobody has anything left to do, and
      `done` is open. */
  lemma SuccessLeavesDoneOpen()
    ensures exists es :: var s := Exec(InviteClient, es);
      s.marked && s.closes == 0 && s.owner.None? && forall t: nat :: Rest(s, t) == []
  {
    var p := [Lock, OnTerminated([Unlock]), MarkEarly, Unlock] + TERMINATE;
    SoloStep(InviteClient, p, 0, true);
    SoloStep(InviteClient, p, 1, true);
    SoloStep(InviteClient, p, 2, true);
    SoloStep(InviteClient, p, 3, true);
    SoloStep(InviteClient, p, 4, true);
    var w := Exec(InviteClient, Solo(InviteClient, p, 4, true));
    assert w == World(true, true, 0, None, {}, None, {}, map[0 := TERMINATE]);
    SoloStep(InviteClient, p, 5, true);
    SoloStep(InviteClient, p, 6, true);
    SoloStep(InviteClient, p, 7, true);
    var s := Exec(InviteClient, Solo(InviteClient, p, 7, true));
    assert s == World(true, true, 0, None, {}, None, {}, map[0 := []]);
  }

  lemma SoloStarts(m: Machine, p: seq<Op>)
    requires Entry(m, p)
    ensures Exec(m, Solo(m, p, 0, true)) == World(false, false, 0, None, {}, None, {}, map[0 := p])
  {}

  lemma TakesMutex(m: Machine, s: World, p: seq<Op>)
    requires Rest(s, 0) == p && p != [] && p[0] in {Lock, RLock} && s.owner.None? && s.readers == {}
    ensures var s' := Apply(m, s, Run(0, true)); Rest(s', 0) == p[1..] && Holds(s', 0) && s'.marked == s.marked
  {}

  lemma PassesTest(m: Machine, s: World, escape: seq<Op>, r: seq<Op>)
    requires Rest(s, 0) == [OnTerminated(escape)] + r && Holds(s, 0) && !s.marked
    ensures var s' := Apply(m, s, Run(0, true)); Rest(s', 0) == r && Holds(s', 0)
  {}

  /** A resend takes the mutex, passes the test of the state, and its write fails. */
  lemma ResendFails(m: Machine, p: seq<Op>, escape: seq<Op>, last: Op)
    requires Exec(m, Solo(m, p, 0, true)) == World(false, false, 0, None, {}, None, {}, map[0 := p])
    requires |p| == 4 && p[0] in {Lock, RLock} && p[1..] == [OnTerminated(escape)] + [Write, last]
    ensures 0 in Exec(m, Solo(m, p, 3, false)).jammed
  {
    SoloStep(m, p, 1, true);
    TakesMutex(m, Exec(m, Solo(m, p, 0, true)), p);
    SoloStep(m, p, 2, true);
    PassesTest(m, Exec(m, Solo(m, p, 1, true)), escape, [Write, last]);
    SoloStep(m, p, 3, false);
    WriteFails(m, Exec(m, Solo(m, p, 2, true)), last);
  }

  lemma WriteFails(m: Machine, s: World, last: Op)
    requires Rest(s, 0) == [Write, last] && Holds(s, 0)
    ensures 0 in Apply(m, s, Run(0, false)).jammed
  {}

  /** The write-failure exception is real in every machine: a resend whose write fails waits
      for itself. */
  lemma FailedWriteJams(m: Machine)
    ensures exists es :: 0 in Exec(m, es).jammed
  {
    var shared := m == NonInviteServer;
    var p :=
      if shared then [RLock, OnTerminated([RUnlock]), Write, RUnlock]
      else [Lock, OnTerminated([Unlock]), Write, Unlock];
    SoloStarts(m, p);
    ResendFails(m, p, if shared then [RUnlock] else [Unlock], if shared then RUnlock else Unlock);
  }
}
