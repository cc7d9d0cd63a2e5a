/** The registrar: per user an ordered list of contacts, updated by REGISTER and pruned by
    INVITE. Times are in seconds. */
module Registrar {
  import opened Wrappers
  import opened Text
  import opened Message

  datatype Registration = Registration(contact: string, expiresAt: int)

  type Book = map<string, seq<Registration>>

  // ----- the expiry a REGISTER asks for -----

  const EXPIRES: string := "expires="

  /** The first `expires=` parameter with a number for a value. */
  function ExpiresParam(parts: seq<string>): Option<int> {
    if parts == [] then None
    else if EXPIRES <= parts[0] && Atoi(parts[0][|EXPIRES|..]).Some? then Atoi(parts[0][|EXPIRES|..])
    else ExpiresParam(parts[1..])
  }

  function ExpiresHeader(value: string): int {
    if value != "" && Atoi(value).Some? then Atoi(value).value else 3600
  }

  function ExpiresOf(req: SIPRequest): int {
    match ExpiresParam(Split(req.Header("Contact"), ";"))
    case Some(seconds) => seconds
    case None => ExpiresHeader(req.Header("Expires"))
  }

  /** The guard in front of the loop over the parameters changes nothing. */
  lemma {:induction false} NoParamWithoutText(contact: string)
    requires !Contains(contact, EXPIRES)
    ensures ExpiresParam(Split(contact, ";")) == None
    decreases |contact|
  {
    var i := Index(contact, ";");
    if i < 0 {
      assert Split(contact, ";") == [contact];
    } else {
      var head, tail := contact[..i], contact[i + 1..];
      assert contact == contact[..i + 1] + tail;
      if Contains(tail, EXPIRES) { ContainsSuffix(contact[..i + 1], tail, EXPIRES); }
      NoParamWithoutText(tail);
      assert EXPIRES <= head ==> EXPIRES <= contact;
      assert Split(contact, ";")[1..] == Split(tail, ";");
    }
  }

  lemma {:induction false} ContainsSuffix(p: string, s: string, sub: string)
    requires Contains(s, sub)
    ensures Contains(p + s, sub)
  {
    if p == "" {
      assert p + s == s;
    } else {
      assert (p + s)[1..] == p[1..] + s;
      ContainsSuffix(p[1..], s, sub);
    }
  }

  method Expires(req: SIPRequest) returns (expires: int)
    ensures expires == ExpiresOf(req)
  {
    expires := 3600;
    var contact := req.Header("Contact");
    if Contains(contact, "expires=") {
      var parts := Split(contact, ";");
      for i := 0 to |parts|
        invariant ExpiresParam(parts) == ExpiresParam(parts[i..])
      {
        if "expires=" <= parts[i] {
          var seconds := Atoi(parts[i][|"expires="|..]);
          if seconds.Some? { return seconds.value; }
        }
        assert parts[i..][1..] == parts[i + 1..];
      }
      assert parts[|parts|..] == [];
    } else {
      NoParamWithoutText(contact);
    }
    var text := req.Header("Expires");
    if text != "" {
      var seconds := Atoi(text);
      if seconds.Some? { expires := seconds.value; }
    }
  }

  // ----- the commands a REGISTER or an INVITE amounts to -----

  /** The URI between the angle brackets, or the whole text without brackets. `None`: a `>`
      precedes the `<`, the slice bounds cross and the program stops. */
  function ContactOf(piece: string): Option<string> {
    var text := TrimSpace(piece);
    var start, end := Index(text, "<"), Index(text, ">");
    if start == -1 || end == -1 then Some(text)
    else if end < start + 1 then None
    else Some(text[start + 1..end])
  }

  datatype Command =
    | Bind(user: string, contact: string, expiresAt: int)
    | Unbind(user: string, contact: string)
    | Clear(user: string)
    | Prune(user: string, now: int)

  function CommandFor(user: string, contact: string, expires: int, now: int): Command {
    if expires > 0 then Bind(user, contact, now + expires) else Unbind(user, contact)
  }

  predicate AllReadable(pieces: seq<string>) { forall i :: 0 <= i < |pieces| ==> ContactOf(pieces[i]).Some? }

  predicate Readable(contact: string, expires: int) {
    (contact == "*" && expires == 0) || AllReadable(Split(contact, ","))
  }

  /** Such a Contact header stops the program, whatever the expiry. */
  lemma CrossedBrackets(expires: int)
    ensures ContactOf("><").None? && !Readable("><", expires)
  {
    var text := "><";
    TrimmedIsFixed(text);
    assert Index(text, ">") == 0 && !("<" <= text) && text[1..] == "<" && Index(text, "<") == 1;
    SplitOne(text, ",");
    assert Split(text, ",")[0] == text && |text| == 2 && |"*"| == 1;
  }

  /** One command per contact, up to the first one the program cannot read. */
  function PieceCommands(user: string, pieces: seq<string>, expires: int, now: int): seq<Command>
    decreases |pieces|
  {
    if pieces == [] then []
    else
      var n := |pieces| - 1;
      PieceCommands(user, pieces[..n], expires, now)
      + if AllReadable(pieces) then [CommandFor(user, ContactOf(pieces[n]).value, expires, now)] else []
  }

  lemma {:induction false} UnreadableStops(user: string, pieces: seq<string>, expires: int, now: int, i: nat)
    requires i < |pieces| && ContactOf(pieces[i]).None?
    ensures PieceCommands(user, pieces, expires, now) == PieceCommands(user, pieces[..i], expires, now)
    decreases |pieces|
  {
    var n := |pieces| - 1;
    if i < n {
      UnreadableStops(user, pieces[..n], expires, now, i);
      assert pieces[..n][..i] == pieces[..i];
    }
  }

  function CommandsOf(user: string, contact: string, expires: int, now: int): seq<Command> {
    if contact == "*" && expires == 0 then [Clear(user)]
    else PieceCommands(user, Split(contact, ","), expires, now)
  }

  /** The user a REGISTER is for, as authenticated. */
  function UserOf(req: SIPRequest): string {
    if "username" in req.authorization then req.authorization["username"] else ""
  }

  // ----- the lists -----

  function ListOf(book: Book, user: string): seq<Registration> { if user in book then book[user] else [] }

  /** An empty list is not kept. */
  function Store(book: Book, user: string, regs: seq<Registration>): Book {
    if regs == [] then book - {user} else book[user := regs]
  }

  /** A known contact gets the new expiry in its place, a new one goes to the end. */
  function Renewed(regs: seq<Registration>, contact: string, at: int): (r: seq<Registration>)
    ensures r != []
  {
    if regs == [] then [Registration(contact, at)]
    else if regs[0].contact == contact then [Registration(contact, at)] + regs[1..]
    else [regs[0]] + Renewed(regs[1..], contact, at)
  }

  function Without(regs: seq<Registration>, contact: string): seq<Registration>
    decreases |regs|
  {
    if regs == [] then []
    else
      var last := regs[|regs| - 1];
      Without(regs[..|regs| - 1], contact) + if last.contact == contact then [] else [last]
  }

  function Active(regs: seq<Registration>, now: int): seq<Registration>
    decreases |regs|
  {
    if regs == [] then []
    else
      var last := regs[|regs| - 1];
      Active(regs[..|regs| - 1], now) + if now < last.expiresAt then [last] else []
  }

  function Perform(book: Book, c: Command): Book {
    match c
    case Bind(user, contact, at) => book[user := Renewed(ListOf(book, user), contact, at)]
    case Unbind(user, contact) => Store(book, user, Without(ListOf(book, user), contact))
    case Clear(user) => book - {user}
    case Prune(user, now) => Store(book, user, Active(ListOf(book, user), now))
  }

  function Exec(book: Book, cs: seq<Command>): Book
    decreases |cs|
  {
    if cs == [] then book else Perform(Exec(book, cs[..|cs| - 1]), cs[|cs| - 1])
  }

  /** What a REGISTER leaves; `RegisterText` says what that is in terms of its header text. */
  function Registered(book: Book, req: SIPRequest, now: int): Book {
    Exec(book, CommandsOf(UserOf(req), req.Header("Contact"), ExpiresOf(req), now))
  }

  lemma ExecSnoc(book: Book, cs: seq<Command>, c: Command)
    ensures Exec(book, cs + [c]) == Perform(Exec(book, cs), c)
  {}

  lemma OneCommand(book: Book, c: Command)
    ensures Exec(book, [c]) == Perform(book, c)
  {}

  lemma OneMoreReadable(pieces: seq<string>, i: nat)
    requires i < |pieces| && AllReadable(pieces[..i]) && ContactOf(pieces[i]).Some?
    ensures var more := pieces[..i + 1]; AllReadable(more) && more[..i] == pieces[..i] && more[i] == pieces[i]
  {}

  /** Renewing by position: the first entry for the contact is overwritten, or a new one added. */
  lemma {:induction false} RenewedAt(regs: seq<Registration>, contact: string, at: int, i: nat)
    requires i <= |regs| && forall j :: 0 <= j < i ==> regs[j].contact != contact
    ensures i == |regs| ==> Renewed(regs, contact, at) == regs + [Registration(contact, at)]
    ensures i < |regs| && regs[i].contact == contact ==>
      Renewed(regs, contact, at) == regs[i := Registration(contact, at)]
  {
    if i > 0 {
      RenewedAt(regs[1..], contact, at, i - 1);
    }
  }

  // ----- the program -----

  class Server {
    var registrations: Book

    constructor ()
      ensures registrations == map[]
    {
      registrations := map[];
    }

    method AddOrUpdateContact(username: string, contact: string, expires: int, now: int)
      modifies this
      ensures registrations == Perform(old(registrations), Bind(username, contact, now + expires))
    {
      var regs := if username in registrations then registrations[username] else [];
      ghost var was := regs;
      var found := false;
      var i := 0;
      while i < |regs|
        invariant 0 <= i <= |regs| && regs == was && !found
        invariant forall j :: 0 <= j < i ==> regs[j].contact != contact
      {
        if regs[i].contact == contact {
          regs := regs[i := Registration(contact, now + expires)];
          found := true;
          break;
        }
        i := i + 1;
      }
      RenewedAt(was, contact, now + expires, i);
      if !found {
        regs := regs + [Registration(contact, now + expires)];
      }
      registrations := registrations[username := regs];
    }

    method RemoveContact(username: string, contact: string)
      modifies this
      ensures registrations == Perform(old(registrations), Unbind(username, contact))
    {
      if username !in registrations {
        assert registrations - {username} == registrations;
        return;
      }
      var regs := registrations[username];
      var updated := [];
      for i := 0 to |regs|
        invariant updated == Without(regs[..i], contact)
      {
        assert regs[..i + 1][..i] == regs[..i];
        if regs[i].contact != contact {
          updated := updated + [regs[i]];
        }
      }
      assert regs[..|regs|] == regs;
      if |updated| > 0 {
        registrations := registrations[username := updated];
      } else {
        registrations := registrations - {username};
      }
    }

    /** `crashed`: a contact could not be sliced; the contacts before it have been handled. */
    method UpdateRegistration(req: SIPRequest, now: int) returns (crashed: bool)
      modifies this
      ensures registrations == Registered(old(registrations), req, now)
      ensures crashed <==> !Readable(req.Header("Contact"), ExpiresOf(req))
    {
      var username := UserOf(req);
      var header := req.Header("Contact");
      var expires := Expires(req);
      if header == "*" && expires == 0 {
        registrations := registrations - {username};
        OneCommand(old(registrations), Clear(username));
        return false;
      }
      crashed := UpdateContacts(username, Split(header, ","), expires, now);
    }

    method UpdateContacts(username: string, pieces: seq<string>, expires: int, now: int) returns (crashed: bool)
      modifies this
      ensures registrations == Exec(old(registrations), PieceCommands(username, pieces, expires, now))
      ensures crashed <==> !AllReadable(pieces)
    {
      for i := 0 to |pieces|
        invariant registrations == Exec(old(registrations), PieceCommands(username, pieces[..i], expires, now))
        invariant AllReadable(pieces[..i])
      {
        crashed := UpdateContact(username, pieces[i], expires, now);
        if crashed {
          UnreadableStops(username, pieces, expires, now, i);
          return true;
        }
        OneMoreReadable(pieces, i);
        ExecSnoc(
          old(registrations), PieceCommands(username, pieces[..i], expires, now),
          CommandFor(username, ContactOf(pieces[i]).value, expires, now));
      }
      assert pieces[..|pieces|] == pieces;
      crashed := false;
    }

    method UpdateContact(username: string, piece: string, expires: int, now: int) returns (crashed: bool)
      modifies this
      ensures crashed <==> ContactOf(piece).None?
      ensures registrations == if crashed then old(registrations)
        else Perform(old(registrations), CommandFor(username, ContactOf(piece).value, expires, now))
    {
      var text := TrimSpace(piece);
      var start := Index(text, "<");
      var end := Index(text, ">");
      var contact := text;
      if start != -1 && end != -1 {
        if end < start + 1 { return true; }
        contact := text[start + 1..end];
      }
      if expires > 0 {
        AddOrUpdateContact(username, contact, expires, now);
      } else {
        RemoveContact(username, contact);
      }
      crashed := false;
    }

    /** The first critical section of an INVITE: read the callee's list. */
    method Look(user: string) returns (regs: Option<seq<Registration>>)
      ensures regs == if user in registrations then Some(registrations[user]) else None
    {
      regs := if user in registrations then Some(registrations[user]) else None;
    }

    /** The second one: keep the active entries of the list read before, and choose. */
    method Settle(user: string, regs: Option<seq<Registration>>, now: int) returns (target: Option<string>)
      modifies this
      ensures registrations == Settled(old(registrations), user, regs, now)
      ensures target == Target(if regs.Some? then regs.value else [], now)
    {
      var active := [];
      if regs.Some? {
        for i := 0 to |regs.value|
          invariant active == Active(regs.value[..i], now)
        {
          assert regs.value[..i + 1][..i] == regs.value[..i];
          if now < regs.value[i].expiresAt {
            active := active + [regs.value[i]];
          }
        }
        assert regs.value[..|regs.value|] == regs.value;
        if |active| > 0 {
          registrations := registrations[user := active];
        } else {
          registrations := registrations - {user};
        }
      }
      target := if |active| == 0 then None else Some(active[0].contact);
    }

    /** Both sections back to back, as `handleInvite` has them when nobody comes between: a prune
        in one step, and the contact it finds. */
    method RouteInvite(user: string, now: int) returns (target: Option<string>)
      modifies this
      ensures registrations == Perform(old(registrations), Prune(user, now))
      ensures target == Target(ListOf(old(registrations), user), now)
    {
      var regs := Look(user);
      if regs.None? { assert registrations - {user} == registrations; }
      target := Settle(user, regs, now);
    }
  }

  /** What the second critical section leaves, given the list the first one read. */
  function Settled(book: Book, user: string, regs: Option<seq<Registration>>, now: int): Book {
    match regs
    case None => book
    case Some(list) => Store(book, user, Active(list, now))
  }

  /** The contact an INVITE is sent to; `None` is the answer 480. */
  function Target(regs: seq<Registration>, now: int): Option<string> {
    var active := Active(regs, now);
    if active == [] then None else Some(active[0].contact)
  }

  // ----- lists and sublists -----

  ghost predicate Distinct(regs: seq<Registration>) {
    forall i, j :: 0 <= i < j < |regs| ==> regs[i].contact != regs[j].contact
  }

  /** No user has an empty list, and no list has a contact twice. */
  ghost predicate Tidy(book: Book) { forall u :: u in book ==> book[u] != [] && Distinct(book[u]) }

  /** `a` consists of elements of `b` in the order of `b`. */
  ghost predicate Within(a: seq<Registration>, b: seq<Registration>) {
    && (forall i :: 0 <= i < |a| ==> a[i] in b)
    && (forall i, j :: 0 <= i < j < |a| ==> InOrder(a[i], a[j], b))
  }

  ghost predicate InOrder(x: Registration, y: Registration, b: seq<Registration>) {
    exists p, q :: 0 <= p < q < |b| && b[p] == x && b[q] == y
  }

  lemma WithinSnoc(a: seq<Registration>, b: seq<Registration>, r: Registration)
    requires Within(a, b)
    ensures Within(a, b + [r]) && Within(a + [r], b + [r])
  {
    var b' := b + [r];
    forall i, j | 0 <= i < j < |a| ensures InOrder(a[i], a[j], b') {
      var p, q :| 0 <= p < q < |b| && b[p] == a[i] && b[q] == a[j];
      assert b'[p] == a[i] && b'[q] == a[j];
    }
    forall i | 0 <= i < |a| ensures a[i] in b' && InOrder(a[i], r, b') {
      var p :| 0 <= p < |b| && b[p] == a[i];
      assert b'[p] == a[i] && b'[|b|] == r;
    }
    assert b'[|b|] == r;
  }

  lemma {:induction false} ActiveWithin(regs: seq<Registration>, now: int)
    ensures Within(Active(regs, now), regs)
    ensures forall r :: r in Active(regs, now) <==> r in regs && now < r.expiresAt
    decreases |regs|
  {
    if regs != [] {
      var front, last := regs[..|regs| - 1], regs[|regs| - 1];
      assert regs == front + [last];
      ActiveWithin(front, now);
      WithinSnoc(Active(front, now), front, last);
    }
  }

  lemma {:induction false} WithoutWithin(regs: seq<Registration>, contact: string)
    ensures Within(Without(regs, contact), regs)
    ensures forall r :: r in Without(regs, contact) <==> r in regs && r.contact != contact
    decreases |regs|
  {
    if regs != [] {
      var front, last := regs[..|regs| - 1], regs[|regs| - 1];
      assert regs == front + [last];
      WithoutWithin(front, contact);
      WithinSnoc(Without(front, contact), front, last);
    }
  }

  lemma SubDistinct(a: seq<Registration>, b: seq<Registration>)
    requires Within(a, b) && Distinct(b)
    ensures Distinct(a)
  {}

  /** Where the entry for a contact stands, or would be added. */
  lemma Place(regs: seq<Registration>, contact: string) returns (i: nat)
    ensures i <= |regs| && (forall j :: 0 <= j < i ==> regs[j].contact != contact)
    ensures i < |regs| ==> regs[i].contact == contact
  {
    i := 0;
    while i < |regs| && regs[i].contact != contact
      invariant i <= |regs| && forall j :: 0 <= j < i ==> regs[j].contact != contact
    {
      i := i + 1;
    }
  }

  lemma RenewedMembers(regs: seq<Registration>, contact: string, at: int)
    requires Distinct(regs)
    ensures var r := Renewed(regs, contact, at);
      && Distinct(r)
      && forall x :: x in r <==> x == Registration(contact, at) || (x in regs && x.contact != contact)
  {}

  // ----- the finite map -----

  /** What the lists mean: the expiry of each bound (user, contact). */
  type Bindings = map<(string, string), int>

  function Contacts(regs: seq<Registration>): set<string> { set r | r in regs :: r.contact }

  function ExpiryIn(regs: seq<Registration>, contact: string): int
    requires contact in Contacts(regs)
  {
    if regs[0].contact == contact then regs[0].expiresAt
    else
      assert contact in Contacts(regs[1..]) by {
        var r :| r in regs && r.contact == contact;
        assert r in regs[1..];
      }
      ExpiryIn(regs[1..], contact)
  }

  lemma {:induction false} ExpiryOf(regs: seq<Registration>, r: Registration)
    requires Distinct(regs) && r in regs
    ensures ExpiryIn(regs, r.contact) == r.expiresAt
  {
    if regs[0] != r {
      assert r in regs[1..];
      ExpiryOf(regs[1..], r);
    }
  }

  function BindingsOf(book: Book): Bindings {
    map u, c | u in book && c in Contacts(book[u]) :: (u, c) := ExpiryIn(book[u], c)
  }

  predicate IsBound(book: Book, u: string, c: string) { u in book && c in Contacts(book[u]) }

  lemma BoundIff(book: Book, u: string, c: string)
    ensures (u, c) in BindingsOf(book) <==> IsBound(book, u, c)
  {}

  /** The meaning of a command on the finite map. */
  function Meant(m: Bindings, c: Command): Bindings {
    match c
    case Bind(user, contact, at) => m[(user, contact) := at]
    case Unbind(user, contact) => m - {(user, contact)}
    case Clear(user) => map k | k in m && k.0 != user :: m[k]
    case Prune(user, now) => map k | k in m && (k.0 != user || now < m[k]) :: m[k]
  }

  function MeantBy(cs: seq<Command>): Bindings
    decreases |cs|
  {
    if cs == [] then map[] else Meant(MeantBy(cs[..|cs| - 1]), cs[|cs| - 1])
  }

  predicate MapsTo(m: Bindings, k: (string, string), e: int) { k in m && m[k] == e }

  /** In a tidy book a binding is an entry. */
  lemma BindingIs(book: Book, u: string, c: string, e: int)
    requires Tidy(book)
    ensures MapsTo(BindingsOf(book), (u, c), e) <==> Registration(c, e) in ListOf(book, u)
  {
    var regs := ListOf(book, u);
    if Registration(c, e) in regs {
      ExpiryOf(regs, Registration(c, e));
    } else if (u, c) in BindingsOf(book) {
      var r :| r in regs && r.contact == c;
      ExpiryOf(regs, r);
    }
  }

  lemma SameBindings(m: Bindings, n: Bindings)
    requires forall k, e :: MapsTo(m, k, e) <==> MapsTo(n, k, e)
    ensures m == n
  {
    assert forall k :: k in m ==> MapsTo(m, k, m[k]) && MapsTo(n, k, m[k]);
    assert forall k :: k in n ==> MapsTo(n, k, n[k]) && MapsTo(m, k, n[k]);
  }

  lemma PerformTidy(book: Book, c: Command)
    requires Tidy(book)
    ensures Tidy(Perform(book, c))
  {
    match c
    case Bind(user, contact, at) => RenewedMembers(ListOf(book, user), contact, at);
    case Unbind(user, contact) =>
      WithoutWithin(ListOf(book, user), contact);
      SubDistinct(Without(ListOf(book, user), contact), ListOf(book, user));
    case Clear(user) =>
    case Prune(user, now) =>
      ActiveWithin(ListOf(book, user), now);
      SubDistinct(Active(ListOf(book, user), now), ListOf(book, user));
  }

  /** Which entries each command leaves. */
  lemma EntriesAfter(book: Book, c: Command, u: string, x: Registration)
    requires Tidy(book)
    ensures x in ListOf(Perform(book, c), u) <==>
      match c
      case Bind(user, contact, at) =>
        if u == user && x.contact == contact then x.expiresAt == at else x in ListOf(book, u)
      case Unbind(user, contact) => x in ListOf(book, u) && !(u == user && x.contact == contact)
      case Clear(user) => x in ListOf(book, u) && u != user
      case Prune(user, now) => x in ListOf(book, u) && (u != user || now < x.expiresAt)
  {
    match c
    case Bind(user, contact, at) => RenewedMembers(ListOf(book, user), contact, at);
    case Unbind(user, contact) => WithoutWithin(ListOf(book, user), contact);
    case Clear(user) =>
    case Prune(user, now) => ActiveWithin(ListOf(book, user), now);
  }

  /** Which bindings each command means to leave. */
  lemma MeantAt(m: Bindings, c: Command, u: string, x: Registration)
    ensures MapsTo(Meant(m, c), (u, x.contact), x.expiresAt) <==>
      var was := MapsTo(m, (u, x.contact), x.expiresAt);
      match c
      case Bind(user, contact, at) => if u == user && x.contact == contact then x.expiresAt == at else was
      case Unbind(user, contact) => was && !(u == user && x.contact == contact)
      case Clear(user) => was && u != user
      case Prune(user, now) => was && (u != user || now < x.expiresAt)
  {}

  /** Each command does to the lists what it means on the finite map. */
  lemma PerformRefines(book: Book, c: Command)
    requires Tidy(book)
    ensures BindingsOf(Perform(book, c)) == Meant(BindingsOf(book), c)
  {
    PerformTidy(book, c);
    forall k: (string, string), e
      ensures MapsTo(BindingsOf(Perform(book, c)), k, e) <==> MapsTo(Meant(BindingsOf(book), c), k, e)
    {
      var u, x := k.0, Registration(k.1, e);
      BindingIs(Perform(book, c), u, x.contact, x.expiresAt);
      BindingIs(book, u, x.contact, x.expiresAt);
      EntriesAfter(book, c, u, x);
      MeantAt(BindingsOf(book), c, u, x);
    }
    SameBindings(BindingsOf(Perform(book, c)), Meant(BindingsOf(book), c));
  }

  /** Over every sequence of commands the lists stay tidy and agree with the finite map. */
  lemma {:induction false} RegistrarRefines(cs: seq<Command>)
    ensures Tidy(Exec(map[], cs)) && BindingsOf(Exec(map[], cs)) == MeantBy(cs)
    decreases |cs|
  {
    if cs != [] {
      var front, last := cs[..|cs| - 1], cs[|cs| - 1];
      RegistrarRefines(front);
      PerformTidy(Exec(map[], front), last);
      PerformRefines(Exec(map[], front), last);
    }
  }

  // ----- which contact an INVITE is sent to -----

  /** The command that added the present binding of (user, contact). */
  function Born(cs: seq<Command>, user: string, contact: string): nat
    decreases |cs|
  {
    if cs == [] then 0
    else
      var front, last := cs[..|cs| - 1], cs[|cs| - 1];
      if last.Bind? && last.user == user && last.contact == contact
        && contact !in Contacts(ListOf(Exec(map[], front), user))
      then |front|
      else Born(front, user, contact)
  }

  /** Every list is ordered by age, oldest first. */
  ghost predicate OldestFirst(cs: seq<Command>, u: string, regs: seq<Registration>) {
    && (forall i :: 0 <= i < |regs| ==> Born(cs, u, regs[i].contact) < |cs|)
    && (forall i, j :: 0 <= i < j < |regs| ==> Born(cs, u, regs[i].contact) < Born(cs, u, regs[j].contact))
  }

  lemma AgeKept(cs: seq<Command>, c: Command, u: string, regs: seq<Registration>)
    requires OldestFirst(cs, u, regs)
    requires forall r :: r in regs ==>
      !(c.Bind? && c.user == u && c.contact == r.contact && r.contact !in Contacts(ListOf(Exec(map[], cs), u)))
    ensures OldestFirst(cs + [c], u, regs)
    ensures forall i :: 0 <= i < |regs| ==> Born(cs + [c], u, regs[i].contact) < |cs|
  {}

  lemma SubOldestFirst(cs: seq<Command>, u: string, a: seq<Registration>, b: seq<Registration>)
    requires Within(a, b) && OldestFirst(cs, u, b)
    ensures OldestFirst(cs, u, a)
  {}

  lemma NewIsYoungest(cs: seq<Command>, u: string, regs: seq<Registration>, r: Registration)
    requires OldestFirst(cs, u, regs) && Born(cs, u, r.contact) < |cs|
    requires forall i :: 0 <= i < |regs| ==> Born(cs, u, regs[i].contact) < Born(cs, u, r.contact)
    ensures OldestFirst(cs, u, regs + [r])
  {}

  lemma RenewalKeepsPlaces(cs: seq<Command>, u: string, regs: seq<Registration>, i: nat, r: Registration)
    requires OldestFirst(cs, u, regs) && i < |regs| && regs[i].contact == r.contact
    ensures OldestFirst(cs, u, regs[i := r])
  {}

  lemma {:induction false} BornNow(cs: seq<Command>, user: string, contact: string, at: int)
    requires contact !in Contacts(ListOf(Exec(map[], cs), user))
    ensures Born(cs + [Bind(user, contact, at)], user, contact) == |cs|
  {
    assert (cs + [Bind(user, contact, at)])[..|cs|] == cs;
  }

  lemma AbsentContact(regs: seq<Registration>, contact: string)
    requires forall j :: 0 <= j < |regs| ==> regs[j].contact != contact
    ensures contact !in Contacts(regs)
  {}

  lemma BindKeepsAge(cs: seq<Command>, user: string, contact: string, at: int, regs: seq<Registration>)
    requires regs == ListOf(Exec(map[], cs), user) && OldestFirst(cs, user, regs)
    ensures OldestFirst(cs + [Bind(user, contact, at)], user, Renewed(regs, contact, at))
  {
    var i := Place(regs, contact);
    RenewedAt(regs, contact, at, i);
    assert forall r :: r in regs ==> r.contact in Contacts(regs);
    AgeKept(cs, Bind(user, contact, at), user, regs);
    if i == |regs| {
      AbsentContact(regs, contact);
      BornNow(cs, user, contact, at);
      NewIsYoungest(cs + [Bind(user, contact, at)], user, regs, Registration(contact, at));
    } else {
      RenewalKeepsPlaces(cs + [Bind(user, contact, at)], user, regs, i, Registration(contact, at));
    }
  }

  lemma {:induction false} ListsOldestFirst(cs: seq<Command>, u: string)
    ensures OldestFirst(cs, u, ListOf(Exec(map[], cs), u))
    decreases |cs|
  {
    if cs != [] {
      var front, c := cs[..|cs| - 1], cs[|cs| - 1];
      var book := Exec(map[], front);
      var regs := ListOf(book, u);
      assert cs == front + [c];
      ListsOldestFirst(front, u);
      RegistrarRefines(front);
      assert forall r :: r in regs ==> r.contact in Contacts(regs);
      AgeKept(front, c, u, regs);
      if c.user == u {
        match c
        case Bind(_, contact, at) => BindKeepsAge(front, u, contact, at, regs);
        case Unbind(_, contact) =>
          WithoutWithin(regs, contact);
          SubOldestFirst(cs, u, Without(regs, contact), regs);
        case Clear(_) =>
        case Prune(_, now) =>
          ActiveWithin(regs, now);
          SubOldestFirst(cs, u, Active(regs, now), regs);
      }
    }
  }

  predicate Live(m: Bindings, user: string, contact: string, now: int) {
    (user, contact) in m && now < m[(user, contact)]
  }

  /** An INVITE is answered 480 exactly when the callee has no unexpired binding, and otherwise
      goes to the unexpired binding that was added first. */
  lemma InviteTarget(cs: seq<Command>, user: string, now: int)
    ensures var m := MeantBy(cs); var target := Target(ListOf(Exec(map[], cs), user), now);
      match target
      case None => forall c :: !Live(m, user, c, now)
      case Some(c) =>
        && Live(m, user, c, now)
        && forall d :: Live(m, user, d, now) && d != c ==> Born(cs, user, c) < Born(cs, user, d)
  {
    var book := Exec(map[], cs);
    var regs := ListOf(book, user);
    var active := Active(regs, now);
    RegistrarRefines(cs);
    ListsOldestFirst(cs, user);
    ActiveWithin(regs, now);
    SubOldestFirst(cs, user, active, regs);
    forall d | Live(MeantBy(cs), user, d, now) ensures exists j :: 0 <= j < |active| && active[j].contact == d {
      BindingIs(book, user, d, MeantBy(cs)[(user, d)]);
      assert Registration(d, MeantBy(cs)[(user, d)]) in active;
    }
    if active != [] {
      BindingIs(book, user, active[0].contact, active[0].expiresAt);
      assert active[0] in active;
    }
  }

  // ----- the prune in two critical sections -----

  /** The book and the lists that INVITEs have read and not yet settled. */
  datatype Desk = Desk(book: Book, looks: map<nat, Reading>)

  datatype Reading = Reading(user: string, regs: Option<seq<Registration>>)

  /** `Settle` works on the list read before; renewals since then may show in its expiries,
      because a renewal overwrites the entry in place. */
  datatype Move =
    | Do(c: Command)
    | Look(k: nat, user: string)
    | Settle(k: nat, now: int, seen: seq<int>)

  function Aged(regs: seq<Registration>, seen: seq<int>): seq<Registration>
    requires |seen| == |regs|
  {
    seq(|regs|, i requires 0 <= i < |regs| => Registration(regs[i].contact, seen[i]))
  }

  predicate CanSettle(d: Desk, m: Move) {
    m.Settle? && m.k in d.looks && match d.looks[m.k].regs case None => true case Some(regs) => |m.seen| == |regs|
  }

  function AgedReading(r: Reading, seen: seq<int>): Option<seq<Registration>>
    requires match r.regs case None => true case Some(regs) => |seen| == |regs|
  {
    match r.regs case None => None case Some(regs) => Some(Aged(regs, seen))
  }

  function Turn(d: Desk, m: Move): Desk {
    match m
    case Do(c) => d.(book := Perform(d.book, c))
    case Look(k, user) => d.(looks := d.looks[k := Reading(user, if user in d.book then Some(d.book[user]) else None)])
    case Settle(k, now, seen) =>
      if !CanSettle(d, m) then d
      else Desk(Settled(d.book, d.looks[k].user, AgedReading(d.looks[k], seen), now), d.looks - {k})
  }

  function Turns(ms: seq<Move>): Desk
    decreases |ms|
  {
    if ms == [] then Desk(map[], map[]) else Turn(Turns(ms[..|ms| - 1]), ms[|ms| - 1])
  }

  ghost predicate TidyDesk(d: Desk) {
    && Tidy(d.book)
    && forall k :: k in d.looks && d.looks[k].regs.Some? ==> Distinct(d.looks[k].regs.value)
  }

  /** Non-emptiness and distinctness survive any interleaving of REGISTERs with the two
      critical sections of any number of INVITEs. */
  lemma {:induction false} SplitPruneTidy(ms: seq<Move>)
    ensures TidyDesk(Turns(ms))
    decreases |ms|
  {
    if ms != [] {
      var d, m := Turns(ms[..|ms| - 1]), ms[|ms| - 1];
      SplitPruneTidy(ms[..|ms| - 1]);
      match m
      case Do(c) => PerformTidy(d.book, c);
      case Look(_, _) =>
      case Settle(k, now, seen) =>
        if CanSettle(d, m) && d.looks[k].regs.Some? {
          var aged := Aged(d.looks[k].regs.value, seen);
          ActiveWithin(aged, now);
          SubDistinct(Active(aged, now), aged);
        }
    }
  }

  lemma TurnsSnoc(ms: seq<Move>, m: Move)
    ensures Turns(ms + [m]) == Turn(Turns(ms), m)
  {}

  /** Two sections with nobody in between are a prune in one step. */
  lemma SettleIsPrune(book: Book, user: string, regs: seq<Registration>, now: int)
    requires Tidy(book)
    ensures Settled(book, user, Some(regs), now) == Perform(book, Prune(user, now))
        <==> Active(regs, now) == Active(ListOf(book, user), now)
  {
    var was, pruned := Active(regs, now), Active(ListOf(book, user), now);
    assert ListOf(Store(book, user, was), user) == was && ListOf(Store(book, user, pruned), user) == pruned;
  }

  predicate LiveIn(regs: seq<Registration>, contact: string, now: int) {
    exists i :: 0 <= i < |regs| && regs[i].contact == contact && now < regs[i].expiresAt
  }

  lemma LiveIsActive(regs: seq<Registration>, c: string, now: int)
    ensures LiveIn(regs, c, now) <==> c in Contacts(Active(regs, now))
  {
    var active := Active(regs, now);
    ActiveWithin(regs, now);
    if LiveIn(regs, c, now) {
      var i :| 0 <= i < |regs| && regs[i].contact == c && now < regs[i].expiresAt;
      assert regs[i] in active;
    }
    if c in Contacts(active) {
      var r :| r in active && r.contact == c;
      var i :| 0 <= i < |regs| && regs[i] == r;
    }
  }

  lemma StoredContacts(book: Book, user: string, regs: seq<Registration>, u: string, c: string)
    ensures IsBound(Store(book, user, regs), u, c) <==> if u == user then c in Contacts(regs) else IsBound(book, u, c)
  {}

  /** Which contacts settling leaves to the callee: the unexpired ones of the list read before,
      and nothing of what the book held meanwhile. Other users keep theirs. */
  lemma SettledBindings(book: Book, user: string, regs: seq<Registration>, now: int, u: string, c: string)
    ensures IsBound(Settled(book, user, Some(regs), now), u, c) <==>
      if u == user then LiveIn(regs, c, now) else IsBound(book, u, c)
  {
    LiveIsActive(regs, c, now);
    StoredContacts(book, user, Active(regs, now), u, c);
  }

  /** In every run, when an INVITE settles: an unexpired binding survives if and only if it is
      another user's or its contact is unexpired in the list read before, and a contact that is
      not bound comes back if and only if it is unexpired in that list. */
  lemma SettleEffect(ms: seq<Move>, k: nat, now: int, seen: seq<int>, u: string, c: string)
    requires CanSettle(Turns(ms), Settle(k, now, seen)) && Turns(ms).looks[k].regs.Some?
    ensures var d := Turns(ms); var d' := Turns(ms + [Settle(k, now, seen)]);
      var user := d.looks[k].user; var list := Aged(d.looks[k].regs.value, seen);
      && (Live(BindingsOf(d.book), u, c, now) ==>
            ((u, c) in BindingsOf(d'.book) <==> u != user || LiveIn(list, c, now)))
      && ((u, c) !in BindingsOf(d.book) ==>
            ((u, c) in BindingsOf(d'.book) <==> u == user && LiveIn(list, c, now)))
  {
    TurnsSnoc(ms, Settle(k, now, seen));
    SettledBindings(Turns(ms).book, Turns(ms).looks[k].user, Aged(Turns(ms).looks[k].regs.value, seen), now, u, c);
    BoundIff(Turns(ms).book, u, c);
    BoundIff(Turns(ms + [Settle(k, now, seen)]).book, u, c);
  }

  /** A second contact is bound after an INVITE has read the list with the first. */
  const BOUND_BETWEEN: seq<Move> := [] + [Do(Bind("bob", "a", 10))] + [Look(0, "bob")] + [Do(Bind("bob", "b", 10))]

  /** Agreement with the finite map does not survive: a contact bound between the two
      sections is lost although it has not expired. */
  lemma SplitPruneLosesBinding()
    ensures MapsTo(BindingsOf(Turns(BOUND_BETWEEN).book), ("bob", "b"), 10)
    ensures ("bob", "b") !in BindingsOf(Turns(BOUND_BETWEEN + [Settle(0, 5, [10])]).book)
  {
    var a, b := Registration("a", 10), Registration("b", 10);
    BoundBetween();
    BothBound(a, b);
    assert !LiveIn([a], "b", 5);
    SettledAfter(BOUND_BETWEEN, a, "b");
    BoundIff(Turns(BOUND_BETWEEN + [Settle(0, 5, [10])]).book, "bob", "b");
  }

  /** Settling a list without the contact loses it, one with the contact revives it. */
  lemma SettledAfter(ms: seq<Move>, r: Registration, c: string)
    requires Turns(ms).looks == map[0 := Reading("bob", Some([r]))] && r.expiresAt == 10
    ensures IsBound(Turns(ms + [Settle(0, 5, [10])]).book, "bob", c) <==> LiveIn([r], c, 5)
  {
    TurnsSnoc(ms, Settle(0, 5, [10]));
    SettlesOne(Turns(ms), r);
    SettledBindings(Turns(ms).book, "bob", [r], 5, "bob", c);
  }

  lemma SettlesOne(d: Desk, r: Registration)
    requires d.looks == map[0 := Reading("bob", Some([r]))] && r.expiresAt == 10
    ensures Turn(d, Settle(0, 5, [10])).book == Settled(d.book, "bob", Some([r]), 5)
  {
    assert Aged([r], [10]) == [r];
  }

  lemma BothBound(a: Registration, b: Registration)
    requires a == Registration("a", 10) && b == Registration("b", 10)
    ensures MapsTo(BindingsOf(map["bob" := [a, b]]), ("bob", "b"), 10)
  {
    var book: Book := map["bob" := [a, b]];
    assert b in ListOf(book, "bob") by { assert [a, b][1] == b; }
    BindingIs(book, "bob", "b", 10);
  }

  lemma BoundBetween()
    ensures Turns(BOUND_BETWEEN)
         == Desk(map["bob" := [Registration("a", 10), Registration("b", 10)]],
                 map[0 := Reading("bob", Some([Registration("a", 10)]))])
  {
    var m1, m2, m3 := Do(Bind("bob", "a", 10)), Look(0, "bob"), Do(Bind("bob", "b", 10));
    var a, b := Registration("a", 10), Registration("b", 10);
    LookedUp();
    TurnsSnoc([] + [m1] + [m2], m3);
    RenewedAt([a], "b", 10, 1);
    assert Renewed([a], "b", 10) == [a, b];
  }

  /** The only contact is unbound after an INVITE has read the list. */
  const UNBOUND_BETWEEN: seq<Move> := [] + [Do(Bind("bob", "a", 10))] + [Look(0, "bob")] + [Do(Unbind("bob", "a"))]

  /** Nor do removals: a contact unbound between the two sections comes back. */
  lemma SplitPruneRevivesBinding()
    ensures ("bob", "a") !in BindingsOf(Turns(UNBOUND_BETWEEN).book)
    ensures ("bob", "a") in BindingsOf(Turns(UNBOUND_BETWEEN + [Settle(0, 5, [10])]).book)
  {
    var a := Registration("a", 10);
    UnboundBetween();
    BoundIff(map[], "bob", "a");
    assert LiveIn([a], "a", 5) by { assert [a][0] == a; }
    SettledAfter(UNBOUND_BETWEEN, a, "a");
    BoundIff(Turns(UNBOUND_BETWEEN + [Settle(0, 5, [10])]).book, "bob", "a");
  }

  lemma UnboundBetween()
    ensures Turns(UNBOUND_BETWEEN) == Desk(map[], map[0 := Reading("bob", Some([Registration("a", 10)]))])
  {
    var m1, m2, m3 := Do(Bind("bob", "a", 10)), Look(0, "bob"), Do(Unbind("bob", "a"));
    var a := Registration("a", 10);
    LookedUp();
    TurnsSnoc([] + [m1] + [m2], m3);
    assert Without([a], "a") == [] by { assert [a][..0] == []; }
  }

  /** A contact is bound and an INVITE reads the list. */
  lemma LookedUp()
    ensures Turns([] + [Do(Bind("bob", "a", 10))] + [Look(0, "bob")])
         == Desk(map["bob" := [Registration("a", 10)]], map[0 := Reading("bob", Some([Registration("a", 10)]))])
  {
    var m1, m2 := Do(Bind("bob", "a", 10)), Look(0, "bob");
    TurnsSnoc([], m1);
    assert Turns([] + [m1]) == Desk(map["bob" := [Registration("a", 10)]], map[]);
    TurnsSnoc([] + [m1], m2);
  }
}
