/** A second run: a market is made over a share of the first, a claim cashes in
    what it holds, and the next purchase fails the check on its escrow. */
module OverShares {
  import opened Foundations
  import opened Sums
  import opened Ledgers
  import opened Markets
  import opened Controllers
  import opened CompleteSets
  import opened ClaimTradingProceeds
  import opened Protocol
  import opened Escrow
  import opened EscrowRuns
  import opened Settlement
  import opened Payouts
  import opened Trades
  import opened Membership
  import opened Listing
  import opened Transactions
  import opened Redemption
  import opened Governance
  import opened Lending
  import opened Deployment
  import opened Walkthrough

  const SHARE: Address := Contract(5)
  const SECOND: Address := Contract(8)
  const SECOND_TERMS: Terms := Terms("Will it pay?", Contract(7), 100, 50, SHARE, ORACLE)
  const SECOND_FRESH: Market := NewMarket(SECOND_TERMS, 8, 2, 2)

  const SHARE_APPROVED: Event := Event(TRADER, 4, TokenCall(SHARE, Call.Approve(AUGUR_LITE, 4)))
  const SECOND_UNIVERSE: Event := Event(OWNER, 5, CreateUniverse(SHARE))
  const SECOND_CREATED: Event := Event(OWNER, 6, CreateScalarMarket(SECOND_TERMS, 0, 1, 2))
  const SECOND_BOUGHT: Event := Event(TRADER, 7, Buy(SECOND, 1))
  const CASHED: Event := Event(ORACLE, 102, Step.Claim(MARKET, SECOND))
  const BOUGHT_AGAIN: Event := Event(TRADER, 103, Buy(SECOND, 1))

  /** The trader has k of the first outcome's shares, all for AugurLite to take. */
  ghost predicate TraderHas(w: World, k: nat) {
    && SHARE in w.tokens && w.tokens[SHARE].Balance(TRADER) == k
    && w.tokens[SHARE].Allowance(TRADER, AUGUR_LITE) == k
  }

  lemma ShareIsListed(s: State)
    requires Accounted(s) && MARKET in s.w.markets
    ensures |s.w.markets[MARKET].shareTokens| == |s.w.markets[MARKET].shares|
    ensures |s.w.markets[MARKET].shares| > 0 ==>
      && SHARE in s.w.tokens && s.w.tokens[SHARE] == s.w.markets[MARKET].shares[0]
      && s.w.markets[MARKET].shareTokens[0].self == SHARE && Keeps(s.w.markets[MARKET], SHARE)
  {
    ConsistentIndex(s.w);
    hide Invariant;
    KeepsOwn(s.w, MARKET, SHARE);
    if |s.w.markets[MARKET].shares| > 0 { assert IsListed(s.w, MARKET, 0); }
  }

  lemma SameTrading(w: World, w': World)
    requires Trading(w) && MARKET in w'.markets && w'.controller == w.controller
    requires w'.markets[MARKET] == w.markets[MARKET].(shares := w'.markets[MARKET].shares)
    requires |w'.markets[MARKET].shares| == |w.markets[MARKET].shares|
    requires TOKEN in w'.tokens && w'.tokens[TOKEN] == w.tokens[TOKEN]
    ensures Trading(w')
  {
    hide FRESH;
  }

  lemma SharePerOutcome(s: State)
    requires Accounted(s) && MARKET in s.w.markets
    ensures |s.w.markets[MARKET].shares| == s.w.markets[MARKET].numOutcomes
  {
    ConsistentIndex(s.w);
    assert TokensOk(s.w, MARKET, s.w.markets[MARKET]);
  }

  lemma Approves(s: State)
    requires Accounted(s) && Held(s.w) && LostOf(s, MARKET) == 0
    ensures Try(s.w, SHARE_APPROVED).Done?
    ensures var s' := NextState(s, SHARE_APPROVED);
      Accounted(s') && Trading(s'.w) && s'.w.next == 7 && TraderHas(s'.w, 4) && LostOf(s', MARKET) == 0
  {
    hide Invariant, Consistent, FRESH, LostOf, Charge, Post, TellMarkets;
    ShareIsListed(s);
    ApproveSets(s.w.tokens[SHARE], TRADER, AUGUR_LITE, 4);
    var l := s.w.tokens[SHARE].Approve(TRADER, AUGUR_LITE, 4).value;
    var w1 := s.w.(tokens := s.w.tokens[SHARE := l]);
    assert Try(s.w, SHARE_APPROVED) == Done(w1);
    hide Try;
    StepKeepsAccounts(s, SHARE_APPROVED);
    MarketLosesNothing(s, SHARE_APPROVED);
    TellKeepsTerms(w1, SHARE, MARKET);
    TellKeepsTokens(w1, SHARE);
    SettleKeepsController(s.w, SHARE_APPROVED, w1);
    SettleKeepsKeys(s.w, SHARE_APPROVED, w1);
    var s' := NextState(s, SHARE_APPROVED);
    SharePerOutcome(s');
    SharePerOutcome(s);
    SameTrading(s.w, s'.w);
  }

  lemma MakesUniverse(s: State)
    requires Accounted(s) && Trading(s.w) && s.w.next == 7 && TraderHas(s.w, 4) && LostOf(s, MARKET) == 0
    ensures Try(s.w, SECOND_UNIVERSE).Done?
    ensures var s' := NextState(s, SECOND_UNIVERSE);
      && Accounted(s') && Trading(s'.w) && s'.w.next == 8 && TraderHas(s'.w, 4) && LostOf(s', MARKET) == 0
      && Contract(7) in s'.w.universes && s'.w.universes[Contract(7)].token == SHARE
  {
    hide Invariant, Consistent, FRESH, LostOf, Charge, Post;
    StepKeepsAccounts(s, SECOND_UNIVERSE);
    MarketLosesNothing(s, SECOND_UNIVERSE);
    hide Accounted;
  }

  /** The second market, made over the share. */
  ghost predicate Second(w: World, supply: nat) {
    && SECOND in w.markets && SHARE in w.tokens
    && w.markets[SECOND] == SECOND_FRESH.(shares := w.markets[SECOND].shares)
    && |w.markets[SECOND].shares| == 2 && w.markets[SECOND].token == SHARE && w.markets[SECOND].numTicks == 2
    && w.markets[SECOND].shares[0].totalSupply == w.markets[SECOND].shares[1].totalSupply == supply
  }

  lemma TrySecond(w: World)
    requires w.controller == DEPLOYED.controller && w.next == 8 && SHARE in w.tokens
    requires Contract(7) in w.universes && w.universes[Contract(7)].token == SHARE
    ensures Try(w, SECOND_CREATED).Done? && Created(w, Try(w, SECOND_CREATED).value, SECOND_TERMS, 2, 2)
    ensures Try(w, SECOND_CREATED).value.markets[SECOND] == SECOND_FRESH
  {
    ApproveAllDoes(w.controller, w.tokens[SHARE], SECOND);
    hide ApproveAll;
  }

  /** What settling the creation leaves of it. */
  lemma SettledSecond(w: World, w1: World)
    requires Consistent(w) && Trading(w) && w.next == 8 && TraderHas(w, 4) && SECOND !in w.markets
    requires Created(w, w1, SECOND_TERMS, 2, 2) && Index(w1) && w1.markets[SECOND] == SECOND_FRESH
    ensures var w' := SettleMarket(w1, SECOND);
      && TOKEN in w'.tokens && w'.tokens[TOKEN] == w.tokens[TOKEN]
      && TraderHas(w', 4) && SECOND in w'.markets && w'.markets[SECOND] == SECOND_FRESH
      && MARKET in w'.markets && w'.markets[MARKET] == w.markets[MARKET].(shares := w'.markets[MARKET].shares)
  {
    assert Deployed(w.controller);
    ApproveAllDoes(w.controller, w.tokens[SHARE], SECOND);
    var approved := ApproveAll(w.controller, w.tokens[SHARE], SECOND).value;
    assert w1.tokens == w.tokens[SHARE := approved];
    assert MARKET in w1.markets && w1.markets[MARKET] == w.markets[MARKET];
    ListSharesIs(w1, SECOND);
    SettleMarketKeepsTerms(w1, SECOND, MARKET);
    TellKeepsTokens(ListShares(w1, SECOND), SHARE);
    KeepsOwn(w1, SECOND, SHARE);
    hide Consistent, Index, Created, ApproveAll, ListShares, TellMarkets, Keeps, Deployed;
    TellLeaves(ListShares(w1, SECOND), SHARE, SECOND);
  }

  lemma SecondWorld(w: World)
    requires Consistent(w) && Trading(w) && w.next == 8 && TraderHas(w, 4) && SECOND !in w.markets
    requires Contract(7) in w.universes && w.universes[Contract(7)].token == SHARE
    ensures Try(w, SECOND_CREATED).Done?
    ensures var w' := Settle(w, SECOND_CREATED, Try(w, SECOND_CREATED).value);
      && TOKEN in w'.tokens && w'.tokens[TOKEN] == w.tokens[TOKEN] && w'.controller == w.controller
      && TraderHas(w', 4) && SECOND in w'.markets && w'.markets[SECOND] == SECOND_FRESH
      && MARKET in w'.markets && w'.markets[MARKET] == w.markets[MARKET].(shares := w'.markets[MARKET].shares)
  {
    hide Try, Index, Synced, InOrder, FRESH, SECOND_FRESH, SettleMarket, Created;
    TrySecond(w);
    OtherStepsKeepController(w, SECOND_CREATED);
    TryKeepsIndex(w, SECOND_CREATED);
    SettledSecond(w, Try(w, SECOND_CREATED).value);
    SettleKeepsController(w, SECOND_CREATED, Try(w, SECOND_CREATED).value);
  }

  lemma NoSecondYet(s: State)
    requires Accounted(s) && s.w.next == 8
    ensures SECOND !in s.w.markets
  {
    AllSoundTokens(s);
    hide Accounted;
    FreshAddress(s.w);
  }

  lemma MakesSecond(s: State)
    requires Accounted(s) && Trading(s.w) && s.w.next == 8 && TraderHas(s.w, 4) && LostOf(s, MARKET) == 0
    requires Contract(7) in s.w.universes && s.w.universes[Contract(7)].token == SHARE
    ensures Try(s.w, SECOND_CREATED).Done?
    ensures var s' := NextState(s, SECOND_CREATED);
      && Accounted(s') && Trading(s'.w) && TraderHas(s'.w, 4) && LostOf(s', MARKET) == 0
      && SECOND in s'.w.markets && s'.w.markets[SECOND] == SECOND_FRESH && LostOf(s', SECOND) == 0
  {
    hide Try, Settle, Invariant, Index, Synced, InOrder, FRESH, SECOND_FRESH, LostOf, Post, Charge;
    NoSecondYet(s);
    SecondWorld(s.w);
    StepKeepsAccounts(s, SECOND_CREATED);
    MarketLosesNothing(s, SECOND_CREATED);
    var s' := NextState(s, SECOND_CREATED);
    SharePerOutcome(s);
    SharePerOutcome(s');
    hide Accounted;
    SameTrading(s.w, s'.w);
    NewBook(s, SECOND_CREATED, SECOND);
    NewLosesNothing(s', SECOND);
  }

  lemma NewLosesNothing(s: State, a: Address)
    requires a in s.books && s.books[a].lost == 0
    ensures LostOf(s, a) == 0
  {
  }

  // A purchase there.

  lemma CanBuySecond(w: World)
    requires Trading(w) && TraderHas(w, 4) && SECOND in w.markets && w.markets[SECOND] == SECOND_FRESH
    ensures w.markets[SECOND].token == SHARE
    ensures CanBuy(w.controller, w.tokens[SHARE], SECOND, w.markets[SECOND], TRADER, 1)
  {
  }

  lemma BoughtSecond(w: World, w': World)
    requires SECOND in w.markets && w.markets[SECOND] == SECOND_FRESH && TraderHas(w, 4)
    requires AfterBuy(w, w', SECOND, TRADER, 1)
    ensures Second(w', 1) && TraderHas(w', 2)
  {
    MovedAt(w.tokens[SHARE], w'.tokens[SHARE], TRADER, SECOND, 2, TRADER);
    assert Issued(w.markets[SECOND].shares[0], w'.markets[SECOND].shares[0], TRADER, 1);
    assert Issued(w.markets[SECOND].shares[1], w'.markets[SECOND].shares[1], TRADER, 1);
    hide Moved, Issued;
  }

  lemma TryBuysSecond(s: State)
    requires Invariant(s) && Trading(s.w) && TraderHas(s.w, 4) && LostOf(s, SECOND) == 0
    requires SECOND in s.w.markets && s.w.markets[SECOND] == SECOND_FRESH && s.w.IsLegit(SECOND)
    ensures Try(s.w, SECOND_BOUGHT).Done?
    ensures var w := Try(s.w, SECOND_BOUGHT).value; Second(w, 1) && TraderHas(w, 2)
  {
    hide Invariant, Try, Backed, Entry, Second, TraderHas, AfterBuy, SECOND_FRESH, FRESH, CanBuy;
    BuySucceeds(s, SECOND_BOUGHT, SECOND, 1);
    CanBuySecond(s.w);
    BuyDoes(s, SECOND_BOUGHT, SECOND, 1);
    BoughtSecond(s.w, Try(s.w, SECOND_BOUGHT).value);
  }

  /** What a trade on the second market leaves of the first. */
  lemma OtherTrade(w: World, w1: World)
    requires Index(w1) && Traded(w, w1, SECOND, Null) && Trading(w)
    ensures var w' := SettleMarket(w1, SECOND);
      && MARKET in w'.markets && w'.markets[MARKET] == w.markets[MARKET].(shares := w'.markets[MARKET].shares)
      && w'.controller == w.controller
      && (w.markets[SECOND].token == SHARE ==> TOKEN in w'.tokens && w'.tokens[TOKEN] == w.tokens[TOKEN])
  {
    assert MARKET != SECOND && w1.markets[MARKET] == w.markets[MARKET];
    ListSharesIs(w1, SECOND);
    hide Index, FRESH, Follows, SameIssue, ListShares;
    SettleMarketKeepsTerms(w1, SECOND, MARKET);
    TellKeepsTokens(ListShares(w1, SECOND), w1.markets[SECOND].token);
  }

  lemma BuysSecond(s: State)
    requires Accounted(s) && Trading(s.w) && TraderHas(s.w, 4) && LostOf(s, MARKET) == 0 && LostOf(s, SECOND) == 0
    requires SECOND in s.w.markets && s.w.markets[SECOND] == SECOND_FRESH
    ensures Try(s.w, SECOND_BOUGHT).Done?
    ensures var s' := NextState(s, SECOND_BOUGHT);
      Accounted(s') && Trading(s'.w) && Second(s'.w, 1) && TraderHas(s'.w, 2) && LostOf(s', MARKET) == 0
  {
    hide Invariant, Synced, InOrder, Try, FRESH, SECOND_FRESH, LostOf, Traded, Takes, SettleMarket, Post, Charge;
    assert s.w.IsLegit(SECOND) && s.w.markets[SECOND].token == SHARE by { ConsistentIndex(s.w); SecondToken(); }
    hide Index;
    TryBuysSecond(s);
    var w1 := Try(s.w, SECOND_BOUGHT).value;
    StepKeepsAccounts(s, SECOND_BOUGHT);
    MarketLosesNothing(s, SECOND_BOUGHT);
    TradeSettles(s, SECOND_BOUGHT);
    TradeInOrder(s, SECOND_BOUGHT);
    StepTrades(s, SECOND_BOUGHT);
    SettlesTrade(s.w, SECOND_BOUGHT, w1);
    OtherTrade(s.w, w1);
    SharePerOutcome(s);
    SharePerOutcome(NextState(s, SECOND_BOUGHT));
    hide Accounted;
    SameTrading(s.w, NextState(s, SECOND_BOUGHT).w);
  }

  lemma SecondToken()
    ensures SECOND_FRESH.token == SHARE
  {
  }

  // The claim, and the purchase after it.

  /** Before the claim: the first market is resolved, the second holds shares. */
  ghost predicate Lent(s: State) {
    Accounted(s) && Decided(s.w) && LostOf(s, MARKET) == 0 && Second(s.w, 1) && TraderHas(s.w, 2)
  }

  lemma ResolvesFirst(s: State)
    requires Accounted(s) && Trading(s.w) && Second(s.w, 1) && TraderHas(s.w, 2) && LostOf(s, MARKET) == 0
    ensures Lent(NextState(s, RESOLVED))
  {
    hide Accounted, FRESH, SECOND_FRESH, LostOf, NextState;
    Decides(s);
  }

  lemma CashesSecond(s: State)
    requires Lent(s)
    ensures CashesIn(s.w, CASHED, SECOND)
    ensures AfterClaim(s.w, Try(s.w, CASHED).value, MARKET, SECOND)
  {
    hide Invariant, Consistent, Try, FRESH, SECOND_FRESH, LostOf, AfterClaim, Backed, ClaimsOpen, NextState;
    ShareIsListed(s);
    DecidedIsOpen(s, 102);
    ClaimSucceedsNow(s, CASHED, MARKET);
    ClaimStep(s, CASHED, MARKET);
  }

  /** The claim leaves the trader's shares alone. */
  lemma TraderKeeps(s: State)
    requires Lent(s) && Try(s.w, CASHED).Done? && AfterClaim(s.w, Try(s.w, CASHED).value, MARKET, SECOND)
    ensures Accounted(NextState(s, CASHED)) && TraderHas(NextState(s, CASHED).w, 2)
  {
    hide Invariant, Consistent, Try, FRESH, SECOND_FRESH, LostOf, NextState, Dot, Fees;
    StepKeepsAccounts(s, CASHED);
    TradeSettles(s, CASHED);
    ShareIsListed(s);
    ShareIsListed(NextState(s, CASHED));
    var m, m' := s.w.markets[MARKET], Try(s.w, CASHED).value.markets[MARKET];
    assert Destroyed(m.shares[0], m'.shares[0], SECOND);
    hide Accounted, AfterClaim;
  }

  /** After the claim the second market holds nothing. */
  lemma Cashes(s: State)
    requires Lent(s)
    ensures CashesIn(s.w, CASHED, SECOND)
    ensures var s' := NextState(s, CASHED);
      Accounted(s') && Second(s'.w, 1) && TraderHas(s'.w, 2) && s'.w.tokens[SHARE].Balance(SECOND) == 0
    ensures NextState(s, CASHED).w.controller == s.w.controller
  {
    hide Accounted, Try, SECOND_FRESH, FRESH, LostOf, AfterClaim, NextState, AssertBalances, Owed, HeldBy;
    CashesSecond(s);
    TraderKeeps(s);
    CashingInTakesAll(s, CASHED, SECOND);
    OnlyRulingsChangeController(s.w, CASHED);
    NextIsNext(s, CASHED);
  }

  lemma CanBuyAgain(w: World)
    requires Second(w, 1) && TraderHas(w, 2) && w.controller == DEPLOYED.controller
    ensures CanBuy(w.controller, w.tokens[SHARE], SECOND, w.markets[SECOND], TRADER, 1)
  {
    hide SECOND_FRESH;
  }

  /** Two sets are out, and what the second one cost is all that is held. */
  lemma BoughtAgain(m: Market, m': Market, token: Ledger, token': Ledger)
    requires |m.shares| == 2 && m.numTicks == 2 && !m.IsResolved() && m.shares[0].totalSupply == 1
    requires Bought(token, token', SECOND, m, m', TRADER, 1) && token.Balance(SECOND) == 0
    ensures AssertBalances(m', token'.Balance(SECOND)) == Reverted(Assert)
  {
    hide AssertBalances;
    MovedAt(token, token', TRADER, SECOND, 2, SECOND);
    assert Issued(m.shares[0], m'.shares[0], TRADER, 1);
    AssertBalancesExact(m', token'.Balance(SECOND));
  }

  lemma SecondPurchaseAsserts(s: State)
    requires Accounted(s) && Second(s.w, 1) && TraderHas(s.w, 2) && s.w.tokens[SHARE].Balance(SECOND) == 0
    requires s.w.controller == DEPLOYED.controller
    ensures Transact(s.w, BOUGHT_AGAIN) == Reverted(Assert)
  {
    hide Invariant, Consistent, Try, AssertBalances, Balanced, BuyCompleteSets, CanBuy, Bought, Settle;
    assert s.w.IsLegit(SECOND) by { ConsistentIndex(s.w); }
    OneMarket(s, SECOND);
    var m, token := s.w.markets[SECOND], s.w.tokens[SHARE];
    assert AllSound(m.shares) && !m.IsResolved();
    hide MarketOk, SECOND_FRESH;
    CanBuyAgain(s.w);
    BuyExact(s.w.controller, token, SECOND, m, TRADER, 1);
    TryBuyIs(s.w, BOUGHT_AGAIN, SECOND, 1);
    var (token', m') := BuyCompleteSets(s.w.controller, token, SECOND, m, TRADER, 1).value;
    BoughtAgain(m, m', token, token');
  }

  const LENDING: seq<Event> := OPENING + [SHARE_APPROVED] + [SECOND_UNIVERSE] + [SECOND_CREATED]
  const BEFORE_CLAIM: seq<Event> := LENDING + [SECOND_BOUGHT] + [RESOLVED]

  lemma Lends()
    ensures var s := RunState(START, LENDING);
      && Accounted(s) && Trading(s.w) && TraderHas(s.w, 4) && LostOf(s, MARKET) == 0
      && SECOND in s.w.markets && s.w.markets[SECOND] == SECOND_FRESH && LostOf(s, SECOND) == 0
  {
    Opens();
    RunMore(START, OPENING, SHARE_APPROVED);
    RunMore(START, OPENING + [SHARE_APPROVED], SECOND_UNIVERSE);
    RunMore(START, OPENING + [SHARE_APPROVED] + [SECOND_UNIVERSE], SECOND_CREATED);
    hide Accounted, NextState, RunState, LostOf, Trading, TraderHas, SECOND_FRESH, OPENING, Held;
    var s3 := RunState(START, OPENING);
    Approves(s3);
    var s4 := NextState(s3, SHARE_APPROVED);
    MakesUniverse(s4);
    MakesSecond(NextState(s4, SECOND_UNIVERSE));
  }

  lemma ReachesLent()
    ensures Lent(RunState(START, BEFORE_CLAIM))
  {
    Lends();
    RunMore(START, LENDING, SECOND_BOUGHT);
    RunMore(START, LENDING + [SECOND_BOUGHT], RESOLVED);
    hide Accounted, NextState, RunState, LostOf, Trading, TraderHas, SECOND_FRESH, LENDING, Second, Lent;
    BuysSecond(RunState(START, LENDING));
    ResolvesFirst(NextState(RunState(START, LENDING), SECOND_BOUGHT));
  }

  /** The conditions of the general results are needed: this run starts from a
      deployment and makes a second market over a share of the first; the claim on
      the first market for the second completes and cashes in its escrow; and the
      purchase that comes next fails the assert. */
  lemma EscrowCashedIn()
    ensures Deploy(START) && SHARE !in START.w.tokens
    ensures var s := RunState(START, BEFORE_CLAIM);
      && SECOND in s.w.markets && s.w.markets[SECOND].token == SHARE
      && CashesIn(s.w, CASHED, SECOND) && Transact(s.w, CASHED).Done?
    ensures Transact(RunState(START, BEFORE_CLAIM + [CASHED]).w, BOUGHT_AGAIN) == Reverted(Assert)
  {
    IsDeployment();
    ReachesLent();
    RunMore(START, BEFORE_CLAIM, CASHED);
    var s := RunState(START, BEFORE_CLAIM);
    assert Decided(s.w) && Second(s.w, 1);
    hide Accounted, NextState, RunState, LostOf, SECOND_FRESH, FRESH, BEFORE_CLAIM, Lent, Deploy, Transact, CashesIn;
    Cashes(s);
    SecondPurchaseAsserts(NextState(s, CASHED));
    CashedCompletes(s);
  }

  lemma CashedCompletes(s: State)
    requires CashesIn(s.w, CASHED, SECOND)
    ensures Transact(s.w, CASHED).Done?
  {
    hide Try, Settle;
  }
}
