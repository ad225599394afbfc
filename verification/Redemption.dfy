/** Settlement as the holders see it: everyone can be paid, in any order, by
    claims that anyone may send at any time once they are open. */
module Redemption {
  import opened Foundations
  import opened Sums
  import opened Markets
  import opened Controllers
  import opened CompleteSets
  import opened ClaimTradingProceeds
  import opened Protocol
  import opened Escrow
  import opened EscrowRuns
  import opened Settlement
  import opened Payouts
  import opened Listing
  import opened Transactions

  /** One transaction after the other; all must succeed. */
  function RunAll(w: World, events: seq<Event>): Outcome<World>
    decreases |events|
  {
    if events == [] then Done(w) else
      var w1 :- Transact(w, events[0]);
      RunAll(w1, events[1..])
  }

  /** A run in which all succeed is a run. */
  lemma {:induction false} RunAllIsRun(s: State, events: seq<Event>)
    requires RunAll(s.w, events).Done?
    ensures RunState(s, events).w == RunAll(s.w, events).value
    decreases |events|
  {
    hide Try, Settle, Charge, Post;
    if events != [] {
      assert NextState(s, events[0]).w == Transact(s.w, events[0]).value;
      RunAllIsRun(NextState(s, events[0]), events[1..]);
    }
  }

  /** A claim on the market a for someone else. */
  predicate ClaimsOn(e: Event, a: Address) {
    e.step.Claim? && e.step.market == a && e.step.holder != a
  }

  function Holders(events: seq<Event>): set<Address> {
    set e | e in events && e.step.Claim? :: e.step.holder
  }

  /** What one claim in full does to the market it is on. */
  lemma ClaimStep(s: State, e: Event, a: Address)
    requires Accounted(s) && ClaimsOn(e, a) && Try(s.w, e).Done?
    ensures Accounted(NextState(s, e)) && a in s.books && a in NextState(s, e).books
    ensures AfterClaim(s.w, Try(s.w, e).value, a, e.step.holder)
    ensures SameFor(Try(s.w, e).value, NextState(s, e).w, a)
    ensures NextState(s, e).books[a] == s.books[a]
    ensures Backed(NextState(s, e).w.markets[a], s.books[a]) == Backed(s.w.markets[a], s.books[a])
  {
    hide Try, Invariant, Consistent, NextState, Settle, Charge, AfterClaim, Backed, Entry;
    StepKeepsAccounts(s, e);
    TradeSettles(s, e);
    ClaimDoes(s, e, a, e.step.holder);
    AllSoundTokens(s);
    hide Accounted;
    assert a in s.w.markets by { TryClaim(s.w, e, a, e.step.holder); }
    ClaimEntry(s.w, e, a, e.step.holder, s.books[a]);
    StaysBacked(s.w, Try(s.w, e).value, a, e.step.holder, s.books[a]);
  }

  lemma OpenStaysOpen(w: World, w1: World, w': World, a: Address, holder: Address, now: uint256)
    requires AfterClaim(w, w1, a, holder) && SameFor(w1, w', a) && ClaimsOpen(w, a, now)
    ensures ClaimsOpen(w', a, now)
  {
    AfterClaimIsResolved(w, w1, a, holder);
    hide AfterClaim;
  }

  lemma AllowanceStays(w: World, w1: World, w': World, a: Address, holder: Address)
    requires AfterClaim(w, w1, a, holder) && SameFor(w1, w', a) && holder != a
    requires var token := w.tokens[w.markets[a].token]; token.Balance(a) <= token.Allowance(a, CLAIM_TRADING_PROCEEDS)
    ensures a in w'.markets && w'.markets[a].token in w'.tokens
    ensures var token := w'.tokens[w'.markets[a].token];
      token.Balance(a) <= token.Allowance(a, CLAIM_TRADING_PROCEEDS)
  {
    ClaimMoves(w, w1, a, holder);
    AfterClaimIsResolved(w, w1, a, holder);
    hide AfterClaim, Dot;
  }

  lemma ClaimSucceedsNow(s: State, e: Event, a: Address)
    requires Accounted(s) && ClaimsOn(e, a) && MayCall(e.caller) && ClaimsOpen(s.w, a, e.now)
    ensures a in s.books && s.w.markets[a].token in s.w.tokens
    ensures !Backed(s.w.markets[a], s.books[a]) ==> Try(s.w, e).Reverted?
    ensures var token := s.w.tokens[s.w.markets[a].token];
      Backed(s.w.markets[a], s.books[a]) && token.Balance(a) <= token.Allowance(a, CLAIM_TRADING_PROCEEDS) ==>
        Try(s.w, e).Done?
  {
    hide Try, Invariant, Consistent, Dot, CanClaim, Slack, Entry;
    ClaimSucceeds(s, e, a, e.step.holder);
    if Backed(s.w.markets[a], s.books[a]) {
      EscrowCovers(s, a, e.step.holder);
    }
  }

  /** Once claims are open on a market that is backed and whose approval covers
      its escrow, any sequence of claims for others than the market succeeds,
      whoever sends them and whenever. */
  lemma {:induction false} EveryClaimSucceeds(s: State, a: Address, events: seq<Event>)
    requires Accounted(s) && a in s.w.markets && s.w.markets[a].token in s.w.tokens
    requires forall e :: e in events ==> ClaimsOn(e, a) && MayCall(e.caller) && ClaimsOpen(s.w, a, e.now)
    requires a in s.books && Backed(s.w.markets[a], s.books[a])
    requires var token := s.w.tokens[s.w.markets[a].token];
      token.Balance(a) <= token.Allowance(a, CLAIM_TRADING_PROCEEDS)
    ensures RunAll(s.w, events).Done?
    decreases |events|
  {
    hide Try, Invariant, Consistent, NextState, Settle, AfterClaim, Backed, ClaimsOpen, SameFor, Accounted, Charge;
    if events != [] {
      var e := events[0];
      assert e in events;
      ClaimSucceedsNow(s, e, a);
      ClaimStep(s, e, a);
      var s1 := NextState(s, e);
      AllowanceStays(s.w, Try(s.w, e).value, s1.w, a, e.step.holder);
      forall e' | e' in events[1..]
        ensures ClaimsOn(e', a) && MayCall(e'.caller) && ClaimsOpen(s1.w, a, e'.now)
      {
        assert e' in events;
        OpenStaysOpen(s.w, Try(s.w, e).value, s1.w, a, e.step.holder, e'.now);
      }
      EveryClaimSucceeds(s1, a, events[1..]);
      NextIsTransact(s, e);
    }
  }

  lemma NextIsTransact(s: State, e: Event)
    requires Try(s.w, e).Done?
    ensures Transact(s.w, e) == Done(NextState(s, e).w)
  {
    hide Try, Settle, Charge, Post;
  }

  /** What a sequence of claims leaves behind in the market a. */
  ghost predicate AfterClaims(w: World, w': World, a: Address, holders: set<Address>) {
    && a in w.markets && a in w'.markets && w.markets[a].token in w.tokens && w.markets[a].token in w'.tokens
    && var (m, m') := (w.markets[a], w'.markets[a]);
    && m' == m.(shares := m'.shares) && |m'.shares| == |m.shares| == |m.payouts|
    && w.tokens[m.token].Balance(a) - w'.tokens[m.token].Balance(a) ==
         Dot(Supplies(m.shares), m.payouts, 0) - Dot(Supplies(m'.shares), m.payouts, 0)
    && forall i, x :: 0 <= i < |m.shares| ==>
         m'.shares[i].Balance(x) == if x in holders then 0 else m.shares[i].Balance(x)
  }

  lemma AfterClaimsNext(
      w: World, w1: World, w2: World, w': World, a: Address, holder: Address, holders: set<Address>)
    requires holder != a && AfterClaim(w, w1, a, holder) && SameFor(w1, w2, a) && AfterClaims(w2, w', a, holders)
    ensures AfterClaims(w, w', a, {holder} + holders)
  {
    ClaimMoves(w, w1, a, holder);
    hide AfterClaim, Dot;
    var m, m1, m' := w.markets[a], w1.markets[a], w'.markets[a];
    forall i, x | 0 <= i < |m.shares|
      ensures m'.shares[i].Balance(x) == if x in {holder} + holders then 0 else m.shares[i].Balance(x)
    {
      assert m'.shares[i].Balance(x) == if x in holders then 0 else m1.shares[i].Balance(x);
    }
  }

  lemma NoClaims(s: State, a: Address)
    requires Accounted(s) && a in s.w.markets && s.w.markets[a].IsResolved()
    ensures AfterClaims(s.w, s.w, a, Holders([]))
  {
    OneMarket(s, a);
    hide Balanced, Consistent;
  }

  /** A sequence of claims takes the holders' shares and nobody else's, and
      the escrow pays exactly what those shares were owed. */
  lemma {:induction false} ClaimsPayWhatIsOwed(s: State, a: Address, events: seq<Event>)
    requires Accounted(s) && a in s.w.markets && s.w.markets[a].IsResolved()
    requires (forall e :: e in events ==> ClaimsOn(e, a)) && RunAll(s.w, events).Done?
    ensures AfterClaims(s.w, RunAll(s.w, events).value, a, Holders(events))
    ensures Accounted(RunState(s, events)) && RunState(s, events).w == RunAll(s.w, events).value
    decreases |events|
  {
    hide Try, Invariant, Consistent, NextState, Settle, AfterClaim, AfterClaims, SameFor, Accounted, Charge, Backed;
    RunAllIsRun(s, events);
    RunKeepsAccounts(s, events);
    if events == [] {
      NoClaims(s, a);
    } else {
      var e := events[0];
      assert e in events;
      ClaimStep(s, e, a);
      NextIsTransact(s, e);
      var s1 := NextState(s, e);
      StaysResolved(s.w, Try(s.w, e).value, s1.w, a, e.step.holder);
      ClaimsPayWhatIsOwed(s1, a, events[1..]);
      assert Holders(events) == {e.step.holder} + Holders(events[1..]);
      AfterClaimsNext(s.w, Try(s.w, e).value, s1.w, RunAll(s.w, events).value, a, e.step.holder, Holders(events[1..]));
    }
  }

  lemma StaysResolved(w: World, w1: World, w': World, a: Address, holder: Address)
    requires AfterClaim(w, w1, a, holder) && SameFor(w1, w', a)
    ensures a in w'.markets && w'.markets[a].IsResolved()
  {
    AfterClaimIsResolved(w, w1, a, holder);
  }

  /** Once everybody but the market has claimed, nobody else holds a share: the
      supply of each outcome is what was sent to the market itself. */
  lemma OnlyOwnSharesLeft(s: State, a: Address, events: seq<Event>)
    requires Accounted(s) && a in s.w.markets && s.w.markets[a].IsResolved()
    requires (forall e :: e in events ==> ClaimsOn(e, a)) && RunAll(s.w, events).Done?
    requires forall i, x :: 0 <= i < |s.w.markets[a].shares| && s.w.markets[a].shares[i].Balance(x) > 0 ==>
      x == a || x in Holders(events)
    ensures var w' := RunAll(s.w, events).value;
      AfterClaims(s.w, w', a, Holders(events)) &&
      forall i :: 0 <= i < |s.w.markets[a].shares| ==>
        w'.markets[a].shares[i].totalSupply == s.w.markets[a].shares[i].Balance(a)
  {
    hide Invariant, Consistent, RunAll, RunState, Dot, Balanced;
    ClaimsPayWhatIsOwed(s, a, events);
    OneMarket(RunState(s, events), a);
    OwnSharesLeft(s.w, RunState(s, events).w, a, Holders(events));
  }

  lemma OwnSharesLeft(w: World, w': World, a: Address, holders: set<Address>)
    requires AfterClaims(w, w', a, holders) && AllSound(w'.markets[a].shares) && a !in holders
    requires forall i, x :: 0 <= i < |w.markets[a].shares| && w.markets[a].shares[i].Balance(x) > 0 ==>
      x == a || x in holders
    ensures forall i :: 0 <= i < |w.markets[a].shares| ==>
        w'.markets[a].shares[i].totalSupply == w.markets[a].shares[i].Balance(a)
  {
    hide Dot;
    var m, m' := w.markets[a], w'.markets[a];
    forall i | 0 <= i < |m.shares|
      ensures m'.shares[i].totalSupply == m.shares[i].Balance(a)
    {
      forall x | x != a
        ensures At(m'.shares[i].balances, x) == 0
      {
        assert m'.shares[i].Balance(x) == if x in holders then 0 else m.shares[i].Balance(x);
      }
      TotalOfOne(m'.shares[i].balances, a);
      assert m'.shares[i].Balance(a) == m.shares[i].Balance(a);
    }
  }

  /** A fresh approval, in full. */
  lemma ApproveStep(s: State, e: Event, a: Address)
    requires Accounted(s) && e.step == Step.ApproveSpenders(a) && MayCall(e.caller)
    requires a in s.w.markets && !s.w.controller.stopped
    ensures Try(s.w, e).Done? && Accounted(NextState(s, e))
    ensures a in s.books && s.w.markets[a].token in s.w.tokens
    ensures var w' := NextState(s, e).w;
      && a in w'.markets && w'.markets[a] == s.w.markets[a] && w'.IsLegit(a) == s.w.IsLegit(a)
      && w'.controller == s.w.controller && s.w.markets[a].token in w'.tokens
      && w'.tokens[s.w.markets[a].token].Allowance(a, CLAIM_TRADING_PROCEEDS) == MAX_WORD
    ensures a in NextState(s, e).books && NextState(s, e).books[a] == s.books[a]
  {
    hide Invariant, Consistent, NextState, Settle, Charge, Balanced, MarketOk;
    OneMarket(s, a);
    var m := s.w.markets[a];
    ApproveAllDoes(s.w.controller, s.w.tokens[m.token], a);
    hide ApproveAll;
    var token' := ApproveAll(s.w.controller, s.w.tokens[m.token], a).value;
    assert Try(s.w, e) == Done(s.w.Install(a, token', m));
    hide Try;
    StepKeepsAccounts(s, e);
    TradeSettles(s, e);
  }

  /** Everyone can be paid. Once claims are open, refresh the approval, and every
      sequence of claims for others than the market succeeds, whoever sends them
      and whenever, exactly if the check on the escrow passes now. */
  lemma EveryoneIsPaid(s: State, approve: Event, a: Address, events: seq<Event>)
    requires Accounted(s) && a in s.w.markets && !s.w.controller.stopped
    requires approve.step == Step.ApproveSpenders(a) && MayCall(approve.caller)
    requires forall e :: e in events ==> ClaimsOn(e, a) && MayCall(e.caller) && ClaimsOpen(s.w, a, e.now)
    ensures s.w.markets[a].token in s.w.tokens
    ensures RunAll(s.w, [approve]).Done?
    ensures events != [] ==>
      (RunAll(s.w, [approve] + events).Done? <==>
        AssertBalances(s.w.markets[a], s.w.tokens[s.w.markets[a].token].Balance(a)).Done?)
  {
    hide Try, Invariant, Consistent, NextState, Settle, Charge, Balanced, Backed, AssertBalances;
    OneMarket(s, a);
    BalancedIsSolvent(s.w, s.w.tokens[s.w.markets[a].token], a, s.w.markets[a], s.books[a]);
    hide MarketOk;
    ApproveStep(s, approve, a);
    NextIsTransact(s, approve);
    assert ([approve] + events)[1..] == events;
    assert RunAll(s.w, [approve] + events) == RunAll(NextState(s, approve).w, events);
    assert [approve][1..] == [];
    if events != [] {
      ClaimsAfterApproval(NextState(s, approve), a, events);
    }
  }

  lemma ClaimsAfterApproval(s: State, a: Address, events: seq<Event>)
    requires Accounted(s) && events != [] && a in s.books && a in s.w.markets && s.w.markets[a].token in s.w.tokens
    requires s.w.tokens[s.w.markets[a].token].Allowance(a, CLAIM_TRADING_PROCEEDS) == MAX_WORD
    requires forall e :: e in events ==> ClaimsOn(e, a) && MayCall(e.caller) && ClaimsOpen(s.w, a, e.now)
    ensures RunAll(s.w, events).Done? <==> Backed(s.w.markets[a], s.books[a])
  {
    hide Try, Accounted, NextState, Settle, Charge, Backed, ClaimsOpen;
    if Backed(s.w.markets[a], s.books[a]) {
      EveryClaimSucceeds(s, a, events);
    } else {
      assert events[0] in events;
      ClaimSucceedsNow(s, events[0], a);
    }
  }
}
