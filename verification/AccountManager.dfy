/** The nonce allocator of source/libraries/AccountManager.ts. `getNonce` may
    wait once, for the connector's transaction count; other calls run while it
    does, so the model cuts it there and lets the pieces interleave at will. */
module AccountManager {
  import opened Options

  type Address = string

  datatype Manager = Manager(accounts: set<Address>, nonces: map<Address, nat>)

  /** What the first piece of a call comes to. */
  datatype Reply = Nonce(nonce: nat) | Waits | NotManaged

  /** The first piece: up to the await, or to the end if there is no await. */
  function Begin(m: Manager, address: Address): (Manager, Reply) {
    if address !in m.accounts then (m, NotManaged)
    else if address in m.nonces then
      var nonce := m.nonces[address] + 1;
      (m.(nonces := m.nonces[address := nonce]), Nonce(nonce))
    else (m, Waits)
  }

  /** The second piece: from the answer of the connector on. */
  function Finish(m: Manager, address: Address, count: nat): (Manager, nat) {
    var nonce := if address in m.nonces then m.nonces[address] + 1 else count;
    (m.(nonces := m.nonces[address := nonce]), nonce)
  }

  class AccountManagerObject {
    var accounts: set<Address>
    var nonces: map<Address, nat>

    function View(): Manager
      reads this
    {
      Manager(accounts, nonces)
    }

    constructor (first: Address)
      ensures View() == Manager({first}, map[])
    {
      accounts, nonces := {first}, map[];
    }

    method AddAccount(address: Address)
      modifies this
      ensures View() == old(View()).(accounts := old(accounts) + {address})
    {
      accounts := accounts + {address};
    }

    method BeginGetNonce(address: Address) returns (r: Reply)
      modifies this
      ensures (View(), r) == Begin(old(View()), address)
      ensures accounts == old(accounts)
      ensures if address !in accounts then r == NotManaged && nonces == old(nonces)
              else if address !in old(nonces) then r == Waits && nonces == old(nonces)
              else r == Nonce(old(nonces)[address] + 1) && nonces == old(nonces)[address := old(nonces)[address] + 1]
    {
      if address !in accounts {
        return NotManaged;
      }
      if address in nonces {
        var nonce := nonces[address] + 1;
        nonces := nonces[address := nonce];
        return Nonce(nonce);
      }
      return Waits;
    }

    method FinishGetNonce(address: Address, count: nat) returns (nonce: nat)
      modifies this
      ensures (View(), nonce) == Finish(old(View()), address, count)
      ensures accounts == old(accounts) && nonces == old(nonces)[address := nonce]
      ensures nonce == if address in old(nonces) then old(nonces)[address] + 1 else count
    {
      nonce := count;
      if address in nonces {
        nonce := nonces[address] + 1;
      }
      nonces := nonces[address := nonce];
    }
  }

  // Every interleaving of calls.

  /** Calls for one address are told apart by a number. The connector may
      answer with any count, in any order, or fail. */
  datatype Event =
    | AddAccount(address: Address)
    | Start(address: Address, call: nat)
    | Answer(address: Address, call: nat, count: nat)
    | Failure(address: Address, call: nat)

  datatype Phase = Waiting | Granted(nonce: nat) | Threw

  datatype Grant = Grant(address: Address, call: nat, nonce: nat)

  /** `grants` lists the calls that returned a nonce, in the order they did. */
  datatype State = State(m: Manager, calls: map<(Address, nat), Phase>, grants: seq<Grant>)

  predicate IsWaiting(s: State, address: Address, call: nat) {
    (address, call) in s.calls && s.calls[(address, call)] == Waiting
  }

  function Settle(s: State, m: Manager, address: Address, call: nat, nonce: nat): State {
    State(m, s.calls[(address, call) := Granted(nonce)], s.grants + [Grant(address, call, nonce)])
  }

  /** An event that is not possible does nothing. */
  function Next(s: State, e: Event): State {
    match e
    case AddAccount(a) => s.(m := s.m.(accounts := s.m.accounts + {a}))
    case Start(a, call) =>
      if (a, call) in s.calls then s else
        var (m, r) := Begin(s.m, a);
        (match r
         case Nonce(n) => Settle(s, m, a, call, n)
         case Waits => State(m, s.calls[(a, call) := Waiting], s.grants)
         case NotManaged => State(m, s.calls[(a, call) := Threw], s.grants))
    case Answer(a, call, count) =>
      if !IsWaiting(s, a, call) then s else
        var (m, n) := Finish(s.m, a, count);
        Settle(s, m, a, call, n)
    case Failure(a, call) =>
      if !IsWaiting(s, a, call) then s else s.(calls := s.calls[(a, call) := Threw])
  }

  function Run(s: State, events: seq<Event>): State
    decreases |events|
  {
    if events == [] then s else Run(Next(s, events[0]), events[1..])
  }

  function Fresh(accounts: set<Address>): State {
    State(Manager(accounts, map[]), map[], [])
  }

  /** The nonces granted for an address, in the order they were. */
  function NoncesOf(grants: seq<Grant>, a: Address): seq<nat> {
    if grants == [] then [] else
      var last := grants[|grants| - 1];
      var rest := NoncesOf(grants[..|grants| - 1], a);
      if last.address == a then rest + [last.nonce] else rest
  }

  lemma NoncesOfAppend(grants: seq<Grant>, g: Grant, a: Address)
    ensures NoncesOf(grants + [g], a) == if g.address == a then NoncesOf(grants, a) + [g.nonce] else NoncesOf(grants, a)
  {
    assert (grants + [g])[..|grants|] == grants;
  }

  /** The event is an answer that a call for the address waits for. */
  predicate Answers(s: State, e: Event, a: Address) {
    e.Answer? && e.address == a && IsWaiting(s, a, e.call)
  }

  /** The count seen by the first call for the address to resume, if one does. */
  function FirstAnswer(s: State, events: seq<Event>, a: Address): Option<nat>
    decreases |events|
  {
    if events == [] then None
    else if Answers(s, events[0], a) then Some(events[0].count)
    else FirstAnswer(Next(s, events[0]), events[1..], a)
  }

  function FirstOf(ns: seq<nat>): Option<nat> {
    if ns == [] then None else Some(ns[0])
  }

  /** The nonces of an address count up by one, and the last is remembered. */
  ghost predicate CountsUp(s: State, a: Address) {
    var ns := NoncesOf(s.grants, a);
    && (a in s.m.nonces <==> ns != [])
    && (forall k :: 0 <= k < |ns| ==> ns[k] == ns[0] + k)
    && (ns != [] ==> s.m.nonces[a] == ns[|ns| - 1])
  }

  lemma SettleCountsUp(s: State, m: Manager, b: Address, call: nat, nonce: nat, a: Address)
    requires CountsUp(s, a) && m == s.m.(nonces := s.m.nonces[b := nonce])
    requires b in s.m.nonces ==> nonce == s.m.nonces[b] + 1
    ensures var s' := Settle(s, m, b, call, nonce);
      && CountsUp(s', a)
      && NoncesOf(s'.grants, a) == if a == b then NoncesOf(s.grants, a) + [nonce] else NoncesOf(s.grants, a)
  {
    NoncesOfAppend(s.grants, Grant(b, call, nonce), a);
    hide NoncesOf;
  }

  /** What a step adds to the nonces of an address: at most one, and the first
      one is the answer of the connector. */
  ghost predicate AddsNonce(s: State, e: Event, s': State, a: Address) {
    var ns, ns' := NoncesOf(s.grants, a), NoncesOf(s'.grants, a);
    && ns <= ns'
    && (ns == [] && ns' != [] ==> Answers(s, e, a) && ns' == [e.count])
    && (Answers(s, e, a) ==> ns' != [])
  }

  lemma NextCountsUp(s: State, e: Event, a: Address)
    requires CountsUp(s, a)
    ensures CountsUp(Next(s, e), a) && AddsNonce(s, e, Next(s, e), a)
  {
    hide NoncesOf, Settle;
    match e
    case AddAccount(_) =>
    case Start(b, call) =>
      if (b, call) !in s.calls {
        var (m, r) := Begin(s.m, b);
        if r.Nonce? { SettleCountsUp(s, m, b, call, r.nonce, a); }
      }
    case Answer(b, call, count) =>
      if IsWaiting(s, b, call) {
        var (m, n) := Finish(s.m, b, count);
        SettleCountsUp(s, m, b, call, n, a);
      }
    case Failure(_, _) =>
  }

  lemma {:induction false} RunCountsUp(s: State, events: seq<Event>, a: Address)
    requires CountsUp(s, a)
    ensures CountsUp(Run(s, events), a)
    ensures NoncesOf(s.grants, a) <= NoncesOf(Run(s, events).grants, a)
    ensures NoncesOf(s.grants, a) == [] ==> FirstOf(NoncesOf(Run(s, events).grants, a)) == FirstAnswer(s, events, a)
    decreases |events|
  {
    if events != [] {
      NextCountsUp(s, events[0], a);
      hide CountsUp, Next;
      RunCountsUp(Next(s, events[0]), events[1..], a);
    }
  }

  /** Under every interleaving, the calls for an address return, in the order
      they return, n, n + 1, n + 2, ... where n is the count that the first of
      them to resume was given. */
  lemma NoncesInOrder(accounts: set<Address>, events: seq<Event>, a: Address)
    ensures var ns := NoncesOf(Run(Fresh(accounts), events).grants, a);
      var first := FirstAnswer(Fresh(accounts), events, a);
      (ns == [] <==> first.None?) && forall k :: 0 <= k < |ns| ==> ns[k] == first.value + k
  {
    RunCountsUp(Fresh(accounts), events, a);
  }

  // How every call ends.

  /** The addresses managed after the events: the first ones, and those added. */
  function Managed(accounts: set<Address>, events: seq<Event>): set<Address> {
    accounts + set e | e in events && e.AddAccount? :: e.address
  }

  lemma {:induction false} RunManages(s: State, events: seq<Event>)
    ensures Run(s, events).m.accounts == Managed(s.m.accounts, events)
    decreases |events|
  {
    if events != [] {
      var s1 := Next(s, events[0]);
      RunManages(s1, events[1..]);
      assert s1.m.accounts == s.m.accounts + if events[0].AddAccount? then {events[0].address} else {};
      assert forall e :: e in events <==> e == events[0] || e in events[1..];
    }
  }

  /** The nonce that follows those already granted, or else the count. */
  function Following(ns: seq<nat>, count: nat): nat {
    if ns == [] then count else ns[|ns| - 1] + 1
  }

  /** What an event makes of a call. A fresh call for a managed address gets the
      next nonce at once, or waits for a first one; one that waits gets it with
      the answer, unless the connector fails; no other event touches it. */
  function Fate(
      before: Option<Phase>, managed: bool, ns: seq<nat>, e: Event, a: Address, call: nat): Option<Phase> {
    if before.None? && e == Start(a, call) then
      if !managed then Some(Threw) else if ns == [] then Some(Waiting) else Some(Granted(Following(ns, 0)))
    else if before == Some(Waiting) && e.Answer? && e.address == a && e.call == call then
      Some(Granted(Following(ns, e.count)))
    else if before == Some(Waiting) && e == Failure(a, call) then
      Some(Threw)
    else
      before
  }

  function PhaseOf(s: State, a: Address, call: nat): Option<Phase> {
    if (a, call) in s.calls then Some(s.calls[(a, call)]) else None
  }

  lemma NextFate(s: State, e: Event, a: Address, call: nat)
    requires CountsUp(s, a)
    ensures PhaseOf(Next(s, e), a, call) ==
      Fate(PhaseOf(s, a, call), a in s.m.accounts, NoncesOf(s.grants, a), e, a, call)
  {
    hide NoncesOf;
  }

  /** After every run, whatever comes next, and so at every point of every run,
      each call fares as Fate says. */
  lemma CallsFare(accounts: set<Address>, events: seq<Event>, next: Event, a: Address, call: nat)
    ensures var s := Run(Fresh(accounts), events);
      var ns := NoncesOf(s.grants, a);
      PhaseOf(Next(s, next), a, call) ==
        Fate(PhaseOf(s, a, call), a in Managed(accounts, events), ns, next, a, call)
  {
    RunCountsUp(Fresh(accounts), events, a);
    RunManages(Fresh(accounts), events);
    NextFate(Run(Fresh(accounts), events), next, a, call);
  }

  /** Only these two events make a call throw: it starts when its address is not
      managed, or the connector fails it while it waits. */
  predicate Throws(accounts: set<Address>, events: seq<Event>, i: nat, a: Address, call: nat)
    requires i < |events|
  {
    var before := PhaseOf(Run(Fresh(accounts), events[..i]), a, call);
    || (events[i] == Start(a, call) && before.None? && a !in Managed(accounts, events[..i]))
    || (events[i] == Failure(a, call) && before == Some(Waiting))
  }

  lemma {:induction false} RunLast(s: State, events: seq<Event>)
    requires events != []
    ensures Run(s, events) == Next(Run(s, events[..|events| - 1]), events[|events| - 1])
    decreases |events|
  {
    hide Next;
    if |events| == 1 {
      assert events[1..] == [] && events[..0] == [];
    } else {
      var most := events[..|events| - 1];
      RunLast(Next(s, events[0]), events[1..]);
      assert events[1..][..|events| - 2] == most[1..];
    }
  }

  /** A call of a run threw if and only if one of them happened to it. */
  lemma {:induction false} ThrewExactly(accounts: set<Address>, events: seq<Event>, a: Address, call: nat)
    ensures PhaseOf(Run(Fresh(accounts), events), a, call) == Some(Threw) <==>
      exists i :: 0 <= i < |events| && Throws(accounts, events, i, a, call)
    decreases |events|
  {
    if events != [] {
      var n := |events| - 1;
      var most := events[..n];
      ThrewExactly(accounts, most, a, call);
      RunLast(Fresh(accounts), events);
      CallsFare(accounts, most, events[n], a, call);
      forall i | 0 <= i < n
        ensures Throws(accounts, most, i, a, call) == Throws(accounts, events, i, a, call)
      {
        assert most[..i] == events[..i];
      }
      assert Throws(accounts, events, n, a, call) <==>
        PhaseOf(Run(Fresh(accounts), most), a, call) != Some(Threw)
        && PhaseOf(Run(Fresh(accounts), events), a, call) == Some(Threw);
      hide Next, Throws, Run;
      if PhaseOf(Run(Fresh(accounts), events), a, call) == Some(Threw) {
        if i :| 0 <= i < n && Throws(accounts, most, i, a, call) {
          assert Throws(accounts, events, i, a, call);
        } else {
          assert Throws(accounts, events, n, a, call);
        }
      }
    }
  }

  // No nonce twice.

  /** Every call that was granted a nonce is listed once, and only such. */
  ghost predicate Listed(s: State) {
    && (forall i :: 0 <= i < |s.grants| ==>
          var g := s.grants[i];
          && (g.address, g.call) in s.calls && s.calls[(g.address, g.call)] == Granted(g.nonce)
          && g.address in s.m.accounts && g.address in s.m.nonces && g.nonce <= s.m.nonces[g.address])
    && (forall i, j :: 0 <= i < j < |s.grants| && s.grants[i].address == s.grants[j].address ==>
          s.grants[i].call != s.grants[j].call && s.grants[i].nonce < s.grants[j].nonce)
    && (forall a, c :: (a, c) in s.calls && s.calls[(a, c)].Granted? ==> Grant(a, c, s.calls[(a, c)].nonce) in s.grants)
    && (forall a, c :: (a, c) in s.calls && s.calls[(a, c)].Waiting? ==> a in s.m.accounts)
  }

  lemma SettleListsCall(s: State, m: Manager, a: Address, call: nat, nonce: nat, b: Address, c: nat)
    requires Listed(s) && (b, c) in Settle(s, m, a, call, nonce).calls
    requires Settle(s, m, a, call, nonce).calls[(b, c)].Granted?
    ensures var s' := Settle(s, m, a, call, nonce); Grant(b, c, s'.calls[(b, c)].nonce) in s'.grants
  {
    var s' := Settle(s, m, a, call, nonce);
    if (b, c) == (a, call) {
      assert s'.grants[|s.grants|] == Grant(a, call, nonce);
    } else {
      assert Grant(b, c, s.calls[(b, c)].nonce) in s.grants;
    }
  }

  lemma SettleListed(s: State, m: Manager, a: Address, call: nat, nonce: nat)
    requires Listed(s) && m == s.m.(nonces := s.m.nonces[a := nonce]) && a in s.m.accounts
    requires (a, call) in s.calls ==> s.calls[(a, call)] == Waiting
    requires a in s.m.nonces ==> s.m.nonces[a] < nonce
    ensures Listed(Settle(s, m, a, call, nonce))
  {
    var s' := Settle(s, m, a, call, nonce);
    forall b, c | (b, c) in s'.calls && s'.calls[(b, c)].Granted?
      ensures Grant(b, c, s'.calls[(b, c)].nonce) in s'.grants
    {
      SettleListsCall(s, m, a, call, nonce, b, c);
    }
  }

  lemma NextListed(s: State, e: Event)
    requires Listed(s)
    ensures Listed(Next(s, e))
  {
    match e
    case AddAccount(_) =>
    case Start(a, call) =>
      if (a, call) !in s.calls {
        var (m, r) := Begin(s.m, a);
        if r.Nonce? { SettleListed(s, m, a, call, r.nonce); }
      }
    case Answer(a, call, count) =>
      if IsWaiting(s, a, call) {
        var (m, n) := Finish(s.m, a, count);
        SettleListed(s, m, a, call, n);
      }
    case Failure(_, _) =>
  }

  lemma {:induction false} RunListed(s: State, events: seq<Event>)
    requires Listed(s)
    ensures Listed(Run(s, events))
    decreases |events|
  {
    if events != [] {
      NextListed(s, events[0]);
      RunListed(Next(s, events[0]), events[1..]);
    }
  }

  /** No two calls for one address are ever given the same nonce, and only
      managed addresses are given any. */
  lemma NoncesAreDistinct(accounts: set<Address>, events: seq<Event>, a: Address, c: nat, c': nat)
    requires var calls := Run(Fresh(accounts), events).calls;
      && (a, c) in calls && calls[(a, c)].Granted?
      && (a, c') in calls && calls[(a, c')].Granted? && c != c'
    ensures var s := Run(Fresh(accounts), events);
      s.calls[(a, c)].nonce != s.calls[(a, c')].nonce && a in s.m.accounts
  {
    RunListed(Fresh(accounts), events);
    var s := Run(Fresh(accounts), events);
    var i :| 0 <= i < |s.grants| && s.grants[i] == Grant(a, c, s.calls[(a, c)].nonce);
    var j :| 0 <= j < |s.grants| && s.grants[j] == Grant(a, c', s.calls[(a, c')].nonce);
    assert i < j || j < i;
  }

  // Addresses do not affect each other.

  /** The events that concern an address. */
  function Concerning(events: seq<Event>, a: Address): seq<Event> {
    if events == [] then []
    else (if events[0].address == a then [events[0]] else []) + Concerning(events[1..], a)
  }

  /** The two states are the same for the address. */
  ghost predicate SameFor(s: State, s': State, a: Address) {
    && (a in s.m.accounts <==> a in s'.m.accounts)
    && (a in s.m.nonces <==> a in s'.m.nonces)
    && (a in s.m.nonces ==> s.m.nonces[a] == s'.m.nonces[a])
    && (forall c :: (a, c) in s.calls <==> (a, c) in s'.calls)
    && (forall c :: (a, c) in s.calls ==> s.calls[(a, c)] == s'.calls[(a, c)])
    && NoncesOf(s.grants, a) == NoncesOf(s'.grants, a)
  }

  lemma SettleSame(s: State, m: Manager, call: nat, nonce: nat, s': State, m': Manager, a: Address)
    requires SameFor(s, s', a)
    requires m == s.m.(nonces := s.m.nonces[a := nonce]) && m' == s'.m.(nonces := s'.m.nonces[a := nonce])
    ensures SameFor(Settle(s, m, a, call, nonce), Settle(s', m', a, call, nonce), a)
  {
    NoncesOfAppend(s.grants, Grant(a, call, nonce), a);
    NoncesOfAppend(s'.grants, Grant(a, call, nonce), a);
  }

  lemma NextSame(s: State, s': State, e: Event, a: Address)
    requires SameFor(s, s', a) && e.address == a
    ensures SameFor(Next(s, e), Next(s', e), a)
  {
    match e
    case AddAccount(_) =>
    case Start(_, call) =>
      if (a, call) !in s.calls {
        var (m, r) := Begin(s.m, a);
        if r.Nonce? { SettleSame(s, m, call, r.nonce, s', Begin(s'.m, a).0, a); }
      }
    case Answer(_, call, count) =>
      if IsWaiting(s, a, call) {
        var (m, n) := Finish(s.m, a, count);
        SettleSame(s, m, call, n, s', Finish(s'.m, a, count).0, a);
      }
    case Failure(_, _) =>
  }

  lemma NextElsewhere(s: State, e: Event, a: Address)
    requires e.address != a
    ensures SameFor(Next(s, e), s, a)
  {
    var s' := Next(s, e);
    if s'.grants != s.grants {
      var g := s'.grants[|s.grants|];
      assert s'.grants == s.grants + [g];
      NoncesOfAppend(s.grants, g, a);
    }
  }

  lemma {:induction false} RunSame(s: State, s': State, events: seq<Event>, a: Address)
    requires SameFor(s, s', a)
    ensures SameFor(Run(s, events), Run(s', Concerning(events, a)), a)
    decreases |events|
  {
    if events != [] {
      var e := events[0];
      if e.address == a {
        NextSame(s, s', e, a);
        RunSame(Next(s, e), Next(s', e), events[1..], a);
        assert Concerning(events, a)[1..] == Concerning(events[1..], a);
      } else {
        NextElsewhere(s, e, a);
        RunSame(Next(s, e), s', events[1..], a);
        assert Concerning(events, a) == Concerning(events[1..], a);
      }
    }
  }

  /** What becomes of the calls for an address depends on the events that
      concern it alone. */
  lemma AddressesAreIndependent(accounts: set<Address>, events: seq<Event>, a: Address)
    ensures SameFor(Run(Fresh(accounts), events), Run(Fresh(accounts), Concerning(events, a)), a)
  {
    RunSame(Fresh(accounts), Fresh(accounts), events, a);
  }
}
