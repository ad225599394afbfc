/** Two runs from a deployment. One goes through everything: a universe, a market,
    a purchase, a resolution and a claim. In the other a second market is made over
    a share of the first, and its escrow is cashed in. So the premises of the
    general results can all be met, and their conditions are needed. */
module Walkthrough {
  import opened Foundations
  import opened Sums
  import opened Ledgers
  import opened Markets
  import opened Controllers
  import opened ClaimTradingProceeds
  import opened Protocol
  import opened Escrow
  import opened EscrowRuns
  import opened Settlement
  import opened Payouts
  import opened Trades
  import opened Membership
  import opened Listing
  import opened Transactions
  import opened Redemption
  import opened Lending
  import opened Deployment

  const OWNER: Address := Account(0)
  const TRADER: Address := Account(1)
  const ORACLE: Address := Account(2)
  const TOKEN: Address := Account(3)
  const UNIVERSE: Address := Contract(3)
  const MARKET: Address := Contract(4)

  const TERMS: Terms := Terms("Will it rain?", UNIVERSE, 100, 50, TOKEN, ORACLE)
  const FRESH: Market := NewMarket(TERMS, 4, 2, 10000)

  const DEPLOYED: World := World(
    Controller(OWNER, {COMPLETE_SETS, CLAIM_TRADING_PROCEEDS},
               map["CompleteSets" := Details(COMPLETE_SETS, 0),
                   "ClaimTradingProceeds" := Details(CLAIM_TRADING_PROCEEDS, 0),
                   "AugurLite" := Details(AUGUR_LITE, 0)],
               false),
    map[TOKEN := Ledger(map[TRADER := 40000], map[(TRADER, AUGUR_LITE) := 40000], 40000, Null)],
    map[], map[], 3)

  const START: State := State(DEPLOYED, map[])

  const UNIVERSE_CREATED: Event := Event(OWNER, 1, CreateUniverse(TOKEN))
  const MARKET_CREATED: Event := Event(OWNER, 2, CreateYesNoMarket(TERMS))
  const BOUGHT: Event := Event(TRADER, 3, Buy(MARKET, 4))
  const RESOLVED: Event := Event(ORACLE, 101, Step.Resolve(MARKET, [10000, 0], false))
  const CLAIMED: Event := Event(TRADER, 102, Step.Claim(MARKET, TRADER))

  lemma IsDeployment()
    ensures Deploy(START)
  {
    TotalOfOne(map[TRADER := 40000], TRADER);
  }

  // The market, and a purchase.

  /** The market is as it was created, but for its shares. */
  ghost predicate Trading(w: World) {
    && MARKET in w.markets && w.markets[MARKET] == FRESH.(shares := w.markets[MARKET].shares)
    && |w.markets[MARKET].shares| == 2 && w.markets[MARKET].token == TOKEN
    && w.controller == DEPLOYED.controller && TOKEN in w.tokens
    && w.tokens[TOKEN].Allowance(MARKET, CLAIM_TRADING_PROCEEDS) == MAX_WORD
  }

  lemma TryCreates()
    ensures var w := DEPLOYED.(universes := map[UNIVERSE := Universe(TOKEN, {})], next := 4);
      && Try(DEPLOYED, UNIVERSE_CREATED) == Done(w)
      && Try(w, MARKET_CREATED).Done?
      && var w2 := Try(w, MARKET_CREATED).value;
      && Trading(w2) && w2.markets.Keys == {MARKET} && w2.tokens.Keys == {TOKEN} && w2.next == 7
      && w2.markets[MARKET] == FRESH
      && w2.tokens[TOKEN].balances == map[TRADER := 40000]
      && w2.tokens[TOKEN].Allowance(TRADER, AUGUR_LITE) == 40000
  {
    ApproveAllDoes(DEPLOYED.controller, DEPLOYED.tokens[TOKEN], MARKET);
    hide ApproveAll;
    var w := DEPLOYED.(universes := map[UNIVERSE := Universe(TOKEN, {})], next := 4);
    assert Try(DEPLOYED, UNIVERSE_CREATED) == Done(w);
  }

  /** After the market is created. */
  ghost predicate Opened(w: World) {
    && Trading(w) && w.markets[MARKET] == FRESH && w.next == 7
    && w.tokens[TOKEN].Balance(TRADER) == 40000
    && w.tokens[TOKEN].Allowance(TRADER, AUGUR_LITE) == 40000
  }

  lemma OpensUp(w: World)
    requires Index(w) && Trading(w) && w.markets.Keys == {MARKET} && w.tokens.Keys == {TOKEN} && w.next == 7
    requires w.markets[MARKET] == FRESH && w.tokens[TOKEN].balances == map[TRADER := 40000]
    requires w.tokens[TOKEN].Allowance(TRADER, AUGUR_LITE) == 40000
    ensures Opened(SettleMarket(w, MARKET))
  {
    assert InOrder(w);
    hide Index, InOrder;
    SettleLeaves(w, MARKET);
    SettleKeepsKeys(DEPLOYED, BOUGHT, w);
  }

  lemma Creates()
    ensures var s := NextState(NextState(START, UNIVERSE_CREATED), MARKET_CREATED); Accounted(s) && Opened(s.w)
  {
    hide Try, Invariant, Index, Synced, InOrder, Deploy, Trading, Opened, SettleMarket, FRESH;
    IsDeployment();
    DeploymentIsAccounted(START);
    TryCreates();
    var s1 := NextState(START, UNIVERSE_CREATED);
    StepKeepsAccounts(START, UNIVERSE_CREATED);
    StepKeepsAccounts(s1, MARKET_CREATED);
    ConsistentIndex(s1.w);
    TryKeepsIndex(s1.w, MARKET_CREATED);
    OpensUp(Try(s1.w, MARKET_CREATED).value);
  }

  /** Nothing is taken from the market by any transaction. */
  lemma MarketLosesNothing(s: State, e: Event)
    requires Accounted(s) && (MARKET in s.w.markets ==> s.w.markets[MARKET].token == TOKEN)
    ensures LostOf(NextState(s, e), MARKET) == LostOf(s, MARKET)
  {
    ConsistentIndex(s.w);
    hide Accounted, NextState, CashesIn, Synced, InOrder;
    forall b | b in s.w.markets
      ensures !Keeps(s.w.markets[b], TOKEN)
    {
      KeepsOwn(s.w, b, TOKEN);
    }
    hide Index;
    if MARKET in s.w.markets {
      NoShareIsNotCashed(s.w, e, MARKET, TOKEN);
    } else {
      UnknownIsNotCashed(s.w, e, MARKET);
    }
    LosesOnlyInStep(s, e, MARKET);
  }

  /** The trader holds four complete sets, and has nothing else left. */
  ghost predicate Held(w: World) {
    && Trading(w) && w.next == 7
    && w.markets[MARKET].shares[0].Balance(TRADER) == 4
    && w.markets[MARKET].shares[1].Balance(TRADER) == 4
    && w.tokens[TOKEN].Balance(TRADER) == 0
  }

  lemma TryBuys(s: State)
    requires Invariant(s) && Opened(s.w) && s.w.IsLegit(MARKET) && LostOf(s, MARKET) == 0
    ensures Try(s.w, BOUGHT).Done? && Held(Try(s.w, BOUGHT).value)
  {
    hide Invariant, Try, Backed, Entry;
    OneMarket(s, MARKET);
    hide Balanced, MarketOk;
    BuySucceeds(s, BOUGHT, MARKET, 4);
    BuyDoes(s, BOUGHT, MARKET, 4);
    var w := Try(s.w, BOUGHT).value;
    MovedAt(s.w.tokens[TOKEN], w.tokens[TOKEN], TRADER, MARKET, 40000, TRADER);
    assert Issued(s.w.markets[MARKET].shares[0], w.markets[MARKET].shares[0], TRADER, 4);
    assert Issued(s.w.markets[MARKET].shares[1], w.markets[MARKET].shares[1], TRADER, 4);
  }

  lemma Buys(s: State)
    requires Accounted(s) && Opened(s.w) && LostOf(s, MARKET) == 0
    ensures Try(s.w, BOUGHT).Done?
    ensures var s' := NextState(s, BOUGHT); Accounted(s') && Held(s'.w) && LostOf(s', MARKET) == 0
  {
    hide Invariant, Consistent, Try, NextState, FRESH, LostOf;
    assert s.w.IsLegit(MARKET) by { ConsistentIndex(s.w); }
    TryBuys(s);
    StepKeepsAccounts(s, BOUGHT);
    MarketLosesNothing(s, BOUGHT);
    TradeSettles(s, BOUGHT);
    hide Accounted;
    SameNext(s, BOUGHT);
  }

  lemma SameNext(s: State, e: Event)
    requires Try(s.w, e).Done?
    ensures NextState(s, e).w.next == Try(s.w, e).value.next
  {
    hide Try, Settle, Post, Charge;
    SettleKeepsKeys(s.w, e, Try(s.w, e).value);
  }

  // The first run: a resolution and a claim.

  lemma Resolves(s: State)
    requires Trading(s.w) && s.w.IsLegit(MARKET)
    ensures var m := s.w.markets[MARKET].(resolutionTime := 101, payouts := [10000, 0]);
      Try(s.w, RESOLVED) == Done(s.w.(markets := s.w.markets[MARKET := m]))
  {
    var m := s.w.markets[MARKET];
    assert Sum([10000, 0], 0) == 10000;
    VerifyResolutionExact(m, [10000, 0], false);
    hide VerifyResolution;
  }

  /** The market after its first outcome won. */
  ghost predicate Decided(w: World) {
    && MARKET in w.markets && |w.markets[MARKET].shares| == 2
    && w.markets[MARKET] == FRESH.(resolutionTime := 101, payouts := [10000, 0], shares := w.markets[MARKET].shares)
    && w.markets[MARKET].token == TOKEN
    && w.controller == DEPLOYED.controller && TOKEN in w.tokens
    && w.tokens[TOKEN].Allowance(MARKET, CLAIM_TRADING_PROCEEDS) == MAX_WORD
  }

  lemma Decides(s: State)
    requires Accounted(s) && Trading(s.w) && LostOf(s, MARKET) == 0
    ensures Try(s.w, RESOLVED).Done?
    ensures var s' := NextState(s, RESOLVED);
      && Accounted(s') && Decided(s'.w) && LostOf(s', MARKET) == 0
      && s'.w == s.w.(markets := s.w.markets[MARKET := s'.w.markets[MARKET]])
      && s'.w.markets[MARKET].shares == s.w.markets[MARKET].shares
  {
    hide Invariant, Consistent, Try, FRESH, LostOf, Charge, Post;
    assert s.w.IsLegit(MARKET) by { ConsistentIndex(s.w); }
    Resolves(s);
    StepKeepsAccounts(s, RESOLVED);
    MarketLosesNothing(s, RESOLVED);
  }

  lemma DecidedIsOpen(s: State, now: uint256)
    requires Accounted(s) && Decided(s.w) && LostOf(s, MARKET) == 0 && now > 101
    ensures ClaimsOpen(s.w, MARKET, now)
    ensures MARKET in s.books && Backed(s.w.markets[MARKET], s.books[MARKET])
  {
    ConsistentIndex(s.w);
    hide Consistent;
    assert s.w.IsLegit(MARKET);
    OneMarket(s, MARKET);
    hide Index, Synced, InOrder;
    BalancedIsSolvent(s.w, s.w.tokens[TOKEN], MARKET, s.w.markets[MARKET], s.books[MARKET]);
  }

  /** Four winning shares at 10000 ticks each, less the creator's fiftieth. */
  lemma Proceeds(m: Market)
    requires |m.shares| == 2 && m.payouts == [10000, 0] && m.feeDivisor == 50
    requires m.shares[0].Balance(TRADER) == m.shares[1].Balance(TRADER) == 4
    ensures HolderTotal(m, TRADER) == 39200
  {
    var hs := Holdings(m.shares, TRADER);
    assert Dot(hs, m.payouts, 1) == 0 && Fees(m, hs, 1) == 0;
  }

  lemma Pays(w: World, w': World)
    requires Decided(w) && AfterClaim(w, w', MARKET, TRADER) && w.tokens[TOKEN].Balance(TRADER) == 0
    requires w.markets[MARKET].shares[0].Balance(TRADER) == w.markets[MARKET].shares[1].Balance(TRADER) == 4
    ensures MARKET in w'.markets && w'.markets[MARKET].token == TOKEN && TOKEN in w'.tokens
    ensures w'.tokens[TOKEN].Balance(TRADER) == 39200
  {
    AfterClaimIsResolved(w, w', MARKET, TRADER);
    ClaimBalances(w, w', MARKET, TRADER, TRADER);
    hide AfterClaim;
    Proceeds(w.markets[MARKET]);
  }

  lemma Claims(s: State)
    requires Accounted(s) && Decided(s.w) && LostOf(s, MARKET) == 0 && s.w.tokens[TOKEN].Balance(TRADER) == 0
    requires s.w.markets[MARKET].shares[0].Balance(TRADER) == s.w.markets[MARKET].shares[1].Balance(TRADER) == 4
    ensures Transact(s.w, CLAIMED).Done? && TOKEN in Transact(s.w, CLAIMED).value.tokens
    ensures Transact(s.w, CLAIMED).value.tokens[TOKEN].Balance(TRADER) == 39200
  {
    hide Invariant, Consistent, Try, FRESH, LostOf, AfterClaim, Backed, ClaimsOpen, NextState;
    DecidedIsOpen(s, 102);
    ClaimSucceedsNow(s, CLAIMED, MARKET);
    ClaimStep(s, CLAIMED, MARKET);
    NextIsTransact(s, CLAIMED);
    Pays(s.w, Try(s.w, CLAIMED).value);
  }

  lemma {:induction false} RunMore(s: State, events: seq<Event>, e: Event)
    ensures RunState(s, events + [e]) == NextState(RunState(s, events), e)
    decreases |events|
  {
    hide NextState;
    if events == [] {
      assert ([] + [e])[1..] == [];
    } else {
      assert (events + [e])[1..] == events[1..] + [e];
      RunMore(NextState(s, events[0]), events[1..], e);
    }
  }

  const OPENING: seq<Event> := [] + [UNIVERSE_CREATED] + [MARKET_CREATED] + [BOUGHT]

  lemma Opens()
    ensures var s := RunState(START, OPENING); Accounted(s) && Held(s.w) && LostOf(s, MARKET) == 0
  {
    hide Accounted, NextState, Opened, Held;
    RunMore(START, [], UNIVERSE_CREATED);
    RunMore(START, [] + [UNIVERSE_CREATED], MARKET_CREATED);
    RunMore(START, [] + [UNIVERSE_CREATED] + [MARKET_CREATED], BOUGHT);
    Creates();
    IsDeployment();
    DeploymentIsAccounted(START);
    var s1 := NextState(START, UNIVERSE_CREATED);
    StepKeepsAccounts(START, UNIVERSE_CREATED);
    MarketLosesNothing(START, UNIVERSE_CREATED);
    NoMarketYet(s1);
    MarketLosesNothing(s1, MARKET_CREATED);
    hide LostOf, RunState;
    Buys(NextState(s1, MARKET_CREATED));
  }

  lemma NoMarketYet(s: State)
    requires s == NextState(START, UNIVERSE_CREATED)
    ensures MARKET !in s.w.markets
  {
    TryCreates();
    hide Charge;
  }

  /** Every transaction of the run completes, the market ends up resolved, and
      the trader who paid 40000 for four sets is paid 39200 for them. */
  lemma FromDeploymentToClaim()
    ensures Deploy(START)
    ensures var s := RunState(START, OPENING + [RESOLVED]);
      && MARKET in s.w.markets && s.w.markets[MARKET].IsResolved()
      && Transact(s.w, CLAIMED).Done? && TOKEN in Transact(s.w, CLAIMED).value.tokens
      && Transact(s.w, CLAIMED).value.tokens[TOKEN].Balance(TRADER) == 39200
  {
    IsDeployment();
    Opens();
    RunMore(START, OPENING, RESOLVED);
    hide Accounted, NextState, RunState, LostOf, Deploy, Transact, FRESH;
    var s := RunState(START, OPENING);
    Decides(s);
    Claims(NextState(s, RESOLVED));
  }
}
