/** The main results, for every run from a deployment. */
module Deployment {
  import opened Foundations
  import opened Sums
  import opened Markets
  import opened Controllers
  import opened Protocol
  import opened Escrow
  import opened EscrowRuns
  import opened Settlement
  import opened Membership
  import opened Listing
  import opened Redemption
  import opened Lending

  /** A deployment: the controller knows the two trading contracts, the tokens
      are sound, and there are no universes and no markets. */
  ghost predicate Deploy(s: State) {
    Genesis(s) && s.w.universes == map[]
  }

  lemma DeploymentIsAccounted(s: State)
    requires Deploy(s)
    ensures Accounted(s)
  {
    GenesisInvariant(s);
    hide Invariant;
  }

  /** Every run ends in a state of the invariant: what holds of one, in the other
      modules, holds in every run. */
  lemma Reachable(s: State, events: seq<Event>)
    requires Deploy(s)
    ensures Accounted(RunState(s, events))
    ensures Invariant(RunState(s, events)) && Index(RunState(s, events).w)
  {
    DeploymentIsAccounted(s);
    hide Invariant, Index, Synced, InOrder, Deploy;
    RunKeepsAccounts(s, events);
  }

  /** The market is over a token that was there from the start, or no claim of
      the run cashed in what it holds. */
  predicate Untouched(s: State, events: seq<Event>, a: Address) {
    var w := RunState(s, events).w;
    (a in w.markets && w.markets[a].token in s.w.tokens) || NeverCashedIn(s.w, events, a)
  }

  lemma NothingLostYet(s: State, a: Address)
    requires Deploy(s)
    ensures LostOf(s, a) == 0
  {
  }

  lemma LostIsTaken(s: State, events: seq<Event>, a: Address)
    requires Deploy(s) && a in RunState(s, events).w.markets
    ensures a in RunState(s, events).books && RunState(s, events).books[a].lost == Taken(s, events, a)
    ensures NeverCashedIn(s.w, events, a) ==> Taken(s, events, a) == 0
  {
    hide Accounted, Invariant, RunState, Index, NeverCashedIn, Taken;
    NothingLostYet(s, a);
    hide Deploy;
    Reachable(s, events);
    DeploymentIsAccounted(s);
    AllSoundTokens(RunState(s, events));
    LossesAddUp(s, events, a);
  }

  /** Markets over the tokens of the deployment are never cashed in. */
  lemma DeployedTokensAreNoShares(s: State, events: seq<Event>, a: Address)
    requires Deploy(s) && a in RunState(s, events).w.markets && Untouched(s, events, a)
    ensures NeverCashedIn(s.w, events, a)
  {
    var t := RunState(s, events).w.markets[a].token;
    if t in s.w.tokens {
      assert NoShare(s.w, t);
      hide Accounted, RunState, NeverCashedIn;
      DeploymentIsAccounted(s);
      NoShareNeverCashedIn(s, events, a, t);
    }
  }

  lemma UntouchedLosesNothing(s: State, events: seq<Event>, a: Address)
    requires Deploy(s) && a in RunState(s, events).w.markets && Untouched(s, events, a)
    ensures a in RunState(s, events).books && RunState(s, events).books[a].lost == 0
  {
    hide Deploy, RunState, Untouched, NeverCashedIn, Taken;
    DeployedTokensAreNoShares(s, events, a);
    LostIsTaken(s, events, a);
  }

  /** The books of every market balance in every run, over whatever token it is,
      with what claims cashed in as all that it ever lost; and the check on its
      escrow passes exactly if that is made up for. */
  lemma EveryRunBalances(s: State, events: seq<Event>, a: Address)
    requires Deploy(s) && a in RunState(s, events).w.markets
    ensures var r := RunState(s, events);
      && r.w.markets[a].token in r.w.tokens && a in r.books
      && var (m, token, b) := (r.w.markets[a], r.w.tokens[r.w.markets[a].token], r.books[a]);
      && Balanced(token, a, m, b)
      && b.lost == Taken(s, events, a)
      && (Untouched(s, events, a) ==> b.lost == 0)
      && (AssertBalances(m, token.Balance(a)).Done? <==> Backed(m, b))
  {
    hide Invariant, Accounted, RunState, Deploy, Index, AssertBalances, Balanced, Backed, Untouched, Taken;
    Reachable(s, events);
    var r := RunState(s, events);
    OneMarket(r, a);
    BalancedIsSolvent(r.w, r.w.tokens[r.w.markets[a].token], a, r.w.markets[a], r.books[a]);
    LostIsTaken(s, events, a);
    if Untouched(s, events, a) {
      UntouchedLosesNothing(s, events, a);
    }
  }

  /** In every run, whatever else happens in it, every market over a token of the
      deployment holds at least what its shares are owed, and so does every market
      over a share token until its escrow is cashed in. */
  lemma EveryRunIsSolvent(s: State, events: seq<Event>, a: Address)
    requires Deploy(s) && a in RunState(s, events).w.markets && Untouched(s, events, a)
    ensures var w := RunState(s, events).w;
      && w.markets[a].token in w.tokens
      && AssertBalances(w.markets[a], w.tokens[w.markets[a].token].Balance(a)).Done?
  {
    hide Invariant, Accounted, RunState, Deploy, Index, AssertBalances, Balanced, Backed, Untouched;
    Reachable(s, events);
    var r := RunState(s, events);
    OneMarket(r, a);
    UntouchedLosesNothing(s, events, a);
    BalancedIsSolvent(r.w, r.w.tokens[r.w.markets[a].token], a, r.w.markets[a], r.books[a]);
  }

  /** No transaction that comes next fails an assert, unless it is a purchase,
      sale or claim on a market whose escrow was cashed in. */
  lemma NoRunAsserts(s: State, events: seq<Event>, next: Event)
    requires Deploy(s)
    requires Checked(next).Some? ==> Untouched(s, events, Checked(next).value)
    ensures Transact(RunState(s, events).w, next) != Reverted(Assert)
  {
    hide Invariant, Accounted, RunState, Deploy, Index, Try, Settle, Backed, Entry, Untouched;
    Reachable(s, events);
    var r := RunState(s, events);
    if Checked(next).Some? && Checked(next).value in r.w.markets {
      UntouchedLosesNothing(s, events, Checked(next).value);
    }
    NoAssertFires(r, next);
  }

  /** Until a market is resolved its share tokens all have the same supply, the
      number of complete sets out. So what the check computes from the first
      token alone is what the shares are owed under any resolution that pays
      all the ticks. */
  lemma OneTokenStandsForAll(s: State, events: seq<Event>, a: Address, payouts: seq<uint256>)
    requires Deploy(s)
    requires var w := RunState(s, events).w;
      && a in w.markets && !w.markets[a].IsResolved()
      && |payouts| == |w.markets[a].shares| && Sum(payouts, 0) == w.markets[a].numTicks
    ensures var r := RunState(s, events);
      var m := r.w.markets[a];
      && a in r.books && |m.shares| > 0
      && (forall i :: 0 <= i < |m.shares| ==> m.shares[i].totalSupply == r.books[a].bought - r.books[a].sold)
      && m.shares[0].totalSupply as int * m.numTicks == Dot(Supplies(m.shares), payouts, 0)
  {
    hide Deploy, Invariant, Accounted, Index;
    Reachable(s, events);
    hide RunState;
    var r := RunState(s, events);
    OneMarket(r, a);
    var m := r.w.markets[a];
    DotConstant(Supplies(m.shares), m.shares[0].totalSupply, payouts, 0);
  }

  /** In every run, once a market is resolved and while the protocol is not
      stopped and its contracts are whitelisted, everyone can be paid: refresh the
      approval, and any sequence of claims for holders other than the market,
      each sent by anyone at any time after the resolution, succeeds, exactly if
      the check on the escrow passes; if the market is untouched, it does. */
  lemma EveryRunPaysEveryone(s: State, events: seq<Event>, approve: Event, a: Address, claims: seq<Event>)
    requires Deploy(s)
    requires approve.step == Step.ApproveSpenders(a) && MayCall(approve.caller)
    requires var w := RunState(s, events).w;
      && a in w.markets && w.markets[a].IsResolved()
      && !w.controller.stopped && CLAIM_TRADING_PROCEEDS in w.controller.whitelist
      && forall e :: e in claims ==> ClaimsOn(e, a) && MayCall(e.caller) && e.now > w.markets[a].resolutionTime
    ensures var w := RunState(s, events).w;
      && w.markets[a].token in w.tokens
      && RunAll(w, [approve]).Done?
      && (claims != [] ==>
           (RunAll(w, [approve] + claims).Done? <==>
             AssertBalances(w.markets[a], w.tokens[w.markets[a].token].Balance(a)).Done?))
      && (Untouched(s, events, a) ==> RunAll(w, [approve] + claims).Done?)
  {
    hide Invariant, Accounted, RunState, Deploy, AssertBalances, Untouched, RunAll;
    Reachable(s, events);
    var r := RunState(s, events);
    assert r.w.IsLegit(a);
    hide Index;
    EveryoneIsPaid(r, approve, a, claims);
    if Untouched(s, events, a) {
      EveryRunIsSolvent(s, events, a);
    }
    assert claims == [] ==> [approve] + claims == [approve];
  }

  /** In every run every share token of every market is accepted by its own
      universe, and by no other, on the answers that were stored in it. */
  lemma EveryTokenIsAccepted(s: State, events: seq<Event>, a: Address, i: nat, u: Address)
    requires Deploy(s)
    requires var w := RunState(s, events).w; a in w.markets && i < |w.markets[a].shareTokens| && u in w.universes
    ensures var w := RunState(s, events).w;
      var t := w.markets[a].shareTokens[i];
      && t.initialized && t.answers.market == a && t.answers.outcome == i
      && UniverseContains(w, u, t.self, t.answers) == Done(u == w.markets[a].universe)
  {
    hide Invariant, RunState;
    Reachable(s, events);
    CreatedTokensAreAccepted(RunState(s, events).w, a, i, u);
  }
}
