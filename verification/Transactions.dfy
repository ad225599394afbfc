/** What is said of a transaction itself holds of the transaction in full: for
    the market it is on, nothing follows that was not in it. */
module Transactions {
  import opened Foundations
  import opened Ledgers
  import opened Markets
  import opened CompleteSets
  import opened ClaimTradingProceeds
  import opened Protocol
  import opened Escrow
  import opened EscrowRuns
  import opened Membership
  import opened Listing

  /** The two worlds look the same to the market a. */
  ghost predicate SameFor(w: World, w': World, a: Address) {
    && a in w.markets && a in w'.markets && w'.markets[a] == w.markets[a]
    && w'.IsLegit(a) == w.IsLegit(a) && w'.controller == w.controller
    && w.markets[a].token in w.tokens && w.markets[a].token in w'.tokens
    && w'.tokens[w.markets[a].token] == w.tokens[w.markets[a].token]
  }

  lemma OwnTokenNotKept(w: World, a: Address)
    requires Index(w) && InOrder(w) && a in w.markets
    ensures !Keeps(w.markets[a], w.markets[a].token)
    ensures !Own(a, w.markets[a], w.markets[a].token, 0)
  {
    KeepsOwn(w, a, w.markets[a].token);
    hide Index, Keeps;
  }

  lemma TellLeaves(w: World, t: Address, a: Address)
    requires a in w.markets && t in w.tokens && !Keeps(w.markets[a], t)
    ensures TellMarkets(w, t).markets[a] == w.markets[a]
  {
    var m := w.markets[a];
    assert TakeOver(m, t, w.tokens[t]).shares == m.shares;
  }

  lemma SettleLeaves(w: World, a: Address)
    requires Index(w) && InOrder(w) && a in w.markets && w.markets[a].token in w.tokens
    ensures SameFor(w, SettleMarket(w, a), a)
  {
    OwnTokenNotKept(w, a);
    ListSharesIs(w, a);
    hide Index, InOrder, Keeps, ListShares;
    TellLeaves(ListShares(w, a), w.markets[a].token, a);
  }

  lemma SettlesTrade(w: World, e: Event, w1: World)
    requires TradeStep(e.step) && e.step.market in w1.markets
    ensures Settle(w, e, w1) == SettleMarket(w1, e.step.market)
  {
    hide TellMarkets, ListShares;
  }

  lemma TradeInOrder(s: State, e: Event)
    requires Accounted(s) && TradeStep(e.step) && Try(s.w, e).Done?
    ensures var w1 := Try(s.w, e).value;
      && Index(w1) && InOrder(w1) && e.step.market in w1.markets && w1.markets[e.step.market].token in w1.tokens
  {
    hide Try, Index, Synced;
    TryKeepsIndex(s.w, e);
    StepTrades(s, e);
    hide Invariant, Follows, SameIssue, Takes;
  }

  /** A transaction on a market leaves it, its token and its book as the
      transaction itself did. */
  lemma TradeSettles(s: State, e: Event)
    requires Accounted(s) && TradeStep(e.step) && Try(s.w, e).Done?
    ensures SameFor(Try(s.w, e).value, NextState(s, e).w, e.step.market)
    ensures e.step.market in TryState(s, e).books && e.step.market in NextState(s, e).books
    ensures NextState(s, e).books[e.step.market] == TryState(s, e).books[e.step.market]
  {
    hide Try, Index, Synced, Post, SameFor, Invariant, InOrder, Traded, SettleMarket, Settle, Keeps, Loss, HeldBy;
    TradeInOrder(s, e);
    var a, w1 := e.step.market, Try(s.w, e).value;
    SettleLeaves(w1, a);
    SettlesTrade(s.w, e, w1);
    StepTrades(s, e);
    TradeKeeps(s.w, w1, a, Loser(e.step), a);
    OwnTokenNotKept(s.w, a);
    TryKeepsInvariant(s, e);
    AllSoundTokens(TryState(s, e));
    assert Loss(s.w, e, a) == 0;
  }

  // Two transactions on one market.

  lemma BuyOrSellReads(w: World, w': World, e: Event)
    requires (e.step.Buy? || e.step.Sell?) && SameFor(w, w', e.step.market)
    ensures Try(w, e).Done? ==>
      var (a, w1) := (e.step.market, Try(w, e).value);
      && a in w1.markets && w.markets[a].token in w1.tokens
      && w1 == w.Install(a, w1.tokens[w.markets[a].token], w1.markets[a])
      && Try(w', e) == Done(w'.Install(a, w1.tokens[w.markets[a].token], w1.markets[a]))
    ensures Try(w, e).Reverted? ==> Try(w', e) == Try(w, e)
  {
    hide PublicBuy, PublicSell, World.IsLegit;
  }

  lemma ClaimOrApproveReads(w: World, w': World, e: Event)
    requires (e.step.Claim? || e.step.ApproveSpenders?) && SameFor(w, w', e.step.market)
    ensures Try(w, e).Done? ==>
      var (a, w1) := (e.step.market, Try(w, e).value);
      && a in w1.markets && w.markets[a].token in w1.tokens
      && w1 == w.Install(a, w1.tokens[w.markets[a].token], w1.markets[a])
      && Try(w', e) == Done(w'.Install(a, w1.tokens[w.markets[a].token], w1.markets[a]))
    ensures Try(w, e).Reverted? ==> Try(w', e) == Try(w, e)
  {
    hide ClaimTradingProceeds.Claim, ApproveAll, World.IsLegit;
  }

  lemma TakenOverTwice(m: Market, t: Address, l: Ledger, l': Ledger)
    ensures TakeOver(TakeOver(m, t, l), t, l') == TakeOver(m, t, l')
  {
    assert TakeOver(TakeOver(m, t, l), t, l').shares == TakeOver(m, t, l').shares;
  }

  lemma ListedOnce(w: World, a: Address, token: Ledger, m: Market)
    requires a in w.markets && Numbered(a, w.markets[a]) && Numbered(a, m)
    requires !Own(a, w.markets[a], w.markets[a].token, 0) && |m.shares| == |w.markets[a].shares|
    requires m.token == w.markets[a].token && m.token in w.tokens && a in SettleMarket(w, a).markets
    requires SettleMarket(w, a).markets[a].token == m.token
    ensures ListShares(SettleMarket(w, a).Install(a, token, m), a).tokens ==
            ListShares(w.Install(a, token, m), a).tokens
  {
    ListNumbered(w, a);
    var v, v' := w.Install(a, token, m), SettleMarket(w, a).Install(a, token, m);
    assert v'.tokens == ListShares(w, a).tokens[m.token := token];
    hide ListShares, TellMarkets, SettleMarket;
    ListNumbered(v, a);
    ListNumbered(v', a);
  }

  /** Settling a trade makes up for what settling the one before it would have
      done. */
  lemma SettledOnce(w: World, a: Address, token: Ledger, m: Market)
    requires Index(w) && InOrder(w) && a in w.markets && w.markets[a].token in w.tokens
    requires Numbered(a, m) && m.token == w.markets[a].token && |m.shares| == |w.markets[a].shares|
    ensures a in SettleMarket(w, a).markets && SettleMarket(w, a).markets[a].token == m.token
    ensures SettleMarket(SettleMarket(w, a).Install(a, token, m), a) == SettleMarket(w.Install(a, token, m), a)
  {
    hide Index, InOrder, TakeOver, Keeps, ListShares;
    OwnTokenNotKept(w, a);
    SettleLeaves(w, a);
    ListSharesIs(w, a);
    ListedOnce(w, a, token, m);
    var t := m.token;
    var w2 := ListShares(w, a);
    var v, v' := w.Install(a, token, m), SettleMarket(w, a).Install(a, token, m);
    var v2, v2' := ListShares(v, a), ListShares(v', a);
    ListNumbered(v, a);
    ListNumbered(v', a);
    hide Own, Numbered;
    assert t in v2.tokens && v2.tokens[t] == v2'.tokens[t];
    assert v2.markets.Keys == v2'.markets.Keys;
    forall c | c in v2.markets
      ensures TakeOver(v2'.markets[c], t, v2'.tokens[t]) == TakeOver(v2.markets[c], t, v2.tokens[t])
    {
      if c != a { TakenOverTwice(w.markets[c], t, w2.tokens[t], v2.tokens[t]); }
    }
    assert TellMarkets(v2', t) == TellMarkets(v2, t);
  }

  lemma TradeReads(w: World, w': World, e: Event)
    requires TradeStep(e.step) && SameFor(w, w', e.step.market)
    ensures Try(w, e).Done? ==>
      var (a, w1) := (e.step.market, Try(w, e).value);
      && a in w1.markets && w.markets[a].token in w1.tokens
      && w1 == w.Install(a, w1.tokens[w.markets[a].token], w1.markets[a])
      && Try(w', e) == Done(w'.Install(a, w1.tokens[w.markets[a].token], w1.markets[a]))
    ensures Try(w, e).Reverted? ==> Try(w', e) == Try(w, e)
  {
    hide Try, SameFor;
    if e.step.Buy? || e.step.Sell? {
      BuyOrSellReads(w, w', e);
    } else {
      ClaimOrApproveReads(w, w', e);
    }
  }

  /** What the second of two transactions finds is what it would have found had
      the first not been settled, and what they leave is that settled. */
  lemma TwoTransactions(s: State, e: Event, e': Event)
    requires Accounted(s) && TradeStep(e.step) && TradeStep(e'.step) && e.step.market == e'.step.market
    requires Try(s.w, e).Done?
    ensures var w1 := Try(s.w, e).value;
      Transact(NextState(s, e).w, e') ==
        match Try(w1, e')
        case Done(w2) => Done(Settle(w1, e', w2))
        case Reverted(f) => Reverted(f)
  {
    hide Try, Index, Synced, InOrder, Invariant, SameFor, SettleMarket, Post, Charge;
    var w1 := Try(s.w, e).value;
    TradeSettles(s, e);
    TradeInOrder(s, e);
    SettlesTrade(s.w, e, w1);
    TryKeepsInvariant(s, e);
    hide Accounted;
    TradeReads(w1, NextState(s, e).w, e');
    if Try(w1, e').Done? {
      SecondSettles(TryState(s, e), NextState(s, e).w, e');
    }
  }

  lemma SecondSettles(s1: State, w': World, e': Event)
    requires Invariant(s1) && TradeStep(e'.step) && Try(s1.w, e').Done?
    requires Index(s1.w) && InOrder(s1.w)
    requires SameFor(s1.w, w', e'.step.market) && w' == SettleMarket(s1.w, e'.step.market)
    ensures Transact(w', e') == Done(Settle(s1.w, e', Try(s1.w, e').value))
  {
    hide Try, Index, InOrder, Invariant, SettleMarket, Settle, Traded, Takes;
    var a, w2 := e'.step.market, Try(s1.w, e').value;
    TradeReads(s1.w, w', e');
    StepTrades(s1, e');
    ListSharesIs(s1.w, a);
    TradedNumbers(s1.w, w2, a, Loser(e'.step));
    SettledOnce(s1.w, a, w2.tokens[s1.w.markets[a].token], w2.markets[a]);
    SettlesTrade(s1.w, e', w2);
    SettlesTrade(w', e', w'.Install(a, w2.tokens[s1.w.markets[a].token], w2.markets[a]));
  }

  lemma TradedNumbers(w: World, w1: World, a: Address, loser: Address)
    requires Traded(w, w1, a, loser) && Numbered(a, w.markets[a])
    ensures a in w1.markets && Numbered(a, w1.markets[a]) && w1.markets[a].token == w.markets[a].token
    ensures |w1.markets[a].shares| == |w.markets[a].shares|
  {
    hide Follows, SameIssue;
  }
}
