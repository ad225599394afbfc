/** Share tokens are tokens too, and may be held in escrow by other markets. What
    a transaction does to a share token is seen by its market and by all who hold
    it, and the books of every market balance through it. */
module Listing {
  import opened Foundations
  import opened Ledgers
  import opened Sums
  import opened Markets
  import opened CompleteSets
  import opened ClaimTradingProceeds
  import opened Protocol
  import opened Escrow
  import opened EscrowRuns
  import opened Membership
  import opened Payouts
  import opened Trades

  /** A share token is listed with the ledger that its market keeps. */
  ghost predicate IsListed(w: World, a: Address, i: nat)
    requires a in w.markets && i < |w.markets[a].shareTokens|
  {
    var m := w.markets[a];
    && i < |m.shares| && m.shareTokens[i].self in w.tokens
    && w.tokens[m.shareTokens[i].self] == m.shares[i]
  }

  ghost predicate Synced(w: World) {
    forall a, i :: a in w.markets && 0 <= i < |w.markets[a].shareTokens| ==> IsListed(w, a, i)
  }

  /** Addresses are given out in order, and a market's token is there before it. */
  ghost predicate InOrder(w: World) {
    && (forall t :: t in w.tokens && t.Contract? ==> t.id < w.next)
    && (forall a :: a in w.markets ==>
          a.Contract? && (w.markets[a].token.Contract? ==> w.markets[a].token.id < a.id))
  }

  ghost predicate Consistent(w: World) {
    Index(w) && Synced(w) && InOrder(w)
  }

  /** What holds between any two transactions. */
  ghost predicate Accounted(s: State) {
    Invariant(s) && Consistent(s.w)
  }

  // The token's side follows.

  /** The token t was created with the market at a, as one of its outcomes from
      the i-th on. */
  predicate Own(a: Address, m: Market, t: Address, i: nat) {
    a.Contract? && t.Contract? && a.id + 1 + i <= t.id <= a.id + |m.shares|
  }

  ghost predicate Numbered(a: Address, m: Market) {
    && a.Contract? && |m.shareTokens| == |m.shares|
    && forall i :: 0 <= i < |m.shareTokens| ==> m.shareTokens[i].self == Contract(a.id + 1 + i)
  }

  lemma {:induction false} ListFromIs(tokens: map<Address, Ledger>, a: Address, m: Market, i: nat)
    requires Numbered(a, m) && i <= |m.shares|
    ensures var r := ListFrom(tokens, m, i);
      && (forall t :: t in r <==> t in tokens || Own(a, m, t, i))
      && (forall t :: t in r ==> r[t] == if Own(a, m, t, i) then m.shares[t.id - a.id - 1] else tokens[t])
    decreases |m.shares| - i
  {
    if i < |m.shares| {
      ListFromIs(tokens[m.shareTokens[i].self := m.shares[i]], a, m, i + 1);
    }
  }

  lemma KeepsOwn(w: World, a: Address, t: Address)
    requires Index(w) && a in w.markets
    ensures Numbered(a, w.markets[a])
    ensures Keeps(w.markets[a], t) <==> Own(a, w.markets[a], t, 0)
  {
    var m := w.markets[a];
    assert TokensOk(w, a, m);
    if Own(a, m, t, 0) {
      assert m.shareTokens[t.id - a.id - 1].self == t;
    }
  }

  /** Ledgers were replaced or added, and no contract gained a spender. */
  ghost predicate Relisted(w: World, w': World) {
    && w' == w.(tokens := w'.tokens)
    && w.tokens.Keys <= w'.tokens.Keys
    && TokensSound(w')
    && forall t, k, x :: t in w'.tokens && w'.tokens[t].Allowance(Contract(k), x) > 0 ==>
         t in w.tokens && w.tokens[t].Allowance(Contract(k), x) > 0
  }

  /** Where a market's balance fell, its book says by how much. */
  ghost predicate Charged(s: State, s': State)
    requires s'.w.markets == s.w.markets && s.w.tokens.Keys <= s'.w.tokens.Keys
  {
    && s'.books.Keys == s.books.Keys
    && forall b :: b in s.w.markets && b in s.books && s.w.markets[b].token in s.w.tokens ==>
         && s'.books[b] == s.books[b].(lost := s'.books[b].lost)
         && s'.w.tokens[s.w.markets[b].token].Balance(b) + s'.books[b].lost ==
              s.w.tokens[s.w.markets[b].token].Balance(b) + s.books[b].lost
  }

  lemma LossKeepsBalance(token: Ledger, token': Ledger, a: Address, m: Market, b: Book, b': Book)
    requires Balanced(token, a, m, b) && b' == b.(lost := b'.lost)
    requires token'.Balance(a) + b'.lost == token.Balance(a) + b.lost
    ensures Balanced(token', a, m, b')
  {
  }

  lemma RelistedKeepsMarkets(w: World, w': World)
    requires MarketsOk(w) && Relisted(w, w')
    ensures MarketsOk(w')
  {
    forall a | a in w'.markets
      ensures MarketOk(w', a, w'.markets[a])
    {
      assert MarketOk(w, a, w.markets[a]);
    }
  }

  lemma RelistedKeepsBalances(s: State, s': State)
    requires MarketsOk(s.w) && AllBalanced(s) && Relisted(s.w, s'.w) && Charged(s, s')
    ensures AllBalanced(s')
  {
    hide Balanced;
    forall a | a in s'.w.markets && s'.w.markets[a].token in s'.w.tokens
      ensures Balanced(s'.w.tokens[s'.w.markets[a].token], a, s'.w.markets[a], s'.books[a])
    {
      assert MarketOk(s.w, a, s.w.markets[a]);
      var t := s.w.markets[a].token;
      LossKeepsBalance(s.w.tokens[t], s'.w.tokens[t], a, s.w.markets[a], s.books[a], s'.books[a]);
    }
  }

  lemma RelistedKeepsInvariant(s: State, s': State)
    requires Invariant(s) && Relisted(s.w, s'.w) && Charged(s, s')
    ensures Invariant(s')
  {
    assert OnlySpenders(s'.w);
    RelistedKeepsMarkets(s.w, s'.w);
    RelistedKeepsBalances(s, s');
  }

  // The market's side follows.

  ghost predicate SameIssue(l: Ledger, l': Ledger) {
    l'.totalSupply == l.totalSupply && l'.owner == l.owner
  }

  /** The share token is in step, or it is t and only moved since. */
  ghost predicate InStep(w: World, t: Address, a: Address, i: nat)
    requires t in w.tokens && a in w.markets && i < |w.markets[a].shareTokens|
  {
    var m := w.markets[a];
    && i < |m.shares|
    && if m.shareTokens[i].self == t then SameIssue(m.shares[i], w.tokens[t]) else IsListed(w, a, i)
  }

  /** All but the token t is in step. */
  ghost predicate Pending(w: World, t: Address) {
    && Index(w) && InOrder(w) && t in w.tokens
    && forall a, i :: a in w.markets && 0 <= i < |w.markets[a].shareTokens| ==> InStep(w, t, a, i)
  }

  lemma TellKeepsMarket(w: World, t: Address, a: Address)
    requires Pending(w, t) && TokensSound(w) && a in w.markets && MarketOk(w, a, w.markets[a])
    ensures MarketOk(TellMarkets(w, t), a, TakeOver(w.markets[a], t, w.tokens[t]))
    ensures var (m, m') := (w.markets[a], TakeOver(w.markets[a], t, w.tokens[t]));
      && m' == m.(shares := m'.shares) && |m'.shares| == |m.shares|
      && forall i :: 0 <= i < |m.shares| ==> m'.shares[i].totalSupply == m.shares[i].totalSupply
  {
    var m, m' := w.markets[a], TakeOver(w.markets[a], t, w.tokens[t]);
    forall i | 0 <= i < |m.shares|
      ensures SameIssue(m.shares[i], m'.shares[i])
    {
      assert i < |m.shareTokens| ==> InStep(w, t, a, i);
    }
    hide Pending, TakeOver;
    SharesKeepMarketOk(w, a, m, m');
  }

  lemma TellKeepsMarkets(w: World, t: Address)
    requires Pending(w, t) && TokensSound(w) && MarketsOk(w)
    ensures MarketsOk(TellMarkets(w, t))
  {
    assert t in w.tokens;
    hide Pending, MarketOk, TakeOver, TokensSound;
    forall a | a in w.markets
      ensures MarketOk(TellMarkets(w, t), a, TakeOver(w.markets[a], t, w.tokens[t]))
    {
      TellKeepsMarket(w, t, a);
    }
  }

  lemma TellKeepsBalances(s: State, t: Address)
    requires Pending(s.w, t) && TokensSound(s.w) && MarketsOk(s.w) && AllBalanced(s)
    ensures AllBalanced(State(TellMarkets(s.w, t), s.books))
  {
    assert t in s.w.tokens;
    hide Pending, MarketOk, TakeOver, Balanced, TokensSound;
    forall a | a in s.w.markets && s.w.markets[a].token in s.w.tokens
      ensures var m' := TakeOver(s.w.markets[a], t, s.w.tokens[t]);
        m'.token == s.w.markets[a].token && Balanced(s.w.tokens[s.w.markets[a].token], a, m', s.books[a])
    {
      TellKeepsMarket(s.w, t, a);
      var m := s.w.markets[a];
      SupplyKeepsBalance(s.w.tokens[m.token], a, m, TakeOver(m, t, s.w.tokens[t]), s.books[a]);
    }
  }

  lemma TellKeepsSpenders(w: World, t: Address)
    requires OnlySpenders(w) && t in w.tokens
    ensures OnlySpenders(TellMarkets(w, t))
  {
  }

  lemma TellKeepsInvariant(s: State, t: Address)
    requires Invariant(s) && Pending(s.w, t)
    ensures Invariant(State(TellMarkets(s.w, t), s.books))
  {
    assert t in s.w.tokens;
    hide Pending, MarketsOk, AllBalanced, OnlySpenders;
    TellKeepsMarkets(s.w, t);
    TellKeepsBalances(s, t);
    TellKeepsSpenders(s.w, t);
  }

  lemma TellIsSameIndex(w: World, t: Address)
    ensures SameIndex(w, TellMarkets(w, t))
  {
  }

  lemma TellSyncs(w: World, t: Address)
    requires Pending(w, t)
    ensures Synced(TellMarkets(w, t))
  {
    hide Index, InOrder;
    var w' := TellMarkets(w, t);
    forall a, i | a in w'.markets && 0 <= i < |w'.markets[a].shareTokens|
      ensures IsListed(w', a, i)
    {
      assert InStep(w, t, a, i);
    }
  }

  lemma TellKeepsAccounts(s: State, t: Address)
    requires Invariant(s) && Pending(s.w, t)
    ensures Accounted(State(TellMarkets(s.w, t), s.books))
  {
    hide Invariant;
    TellKeepsInvariant(s, t);
    TellSyncs(s.w, t);
    TellIsSameIndex(s.w, t);
    assert Index(s.w) && InOrder(TellMarkets(s.w, t));
    hide Pending, SameIndex, Index, TellMarkets, InOrder, Synced;
    SameIndexKeeps(s.w, TellMarkets(s.w, t));
  }

  // Transactions on one market.

  /** What contracts have of a share token is as before, but that a claim took
      what `loser` held. */
  ghost predicate Follows(l: Ledger, l': Ledger, loser: Address) {
    && (forall k: nat :: l'.Balance(Contract(k)) == if Contract(k) == loser then 0 else l.Balance(Contract(k)))
    && (forall k: nat, x :: l'.Allowance(Contract(k), x) == l.Allowance(Contract(k), x))
  }

  ghost predicate Traded(w: World, w1: World, a: Address, loser: Address) {
    && a in w.markets && w.markets[a].token in w.tokens && a in w1.markets && w.markets[a].token in w1.tokens
    && w1 == w.Install(a, w1.tokens[w.markets[a].token], w1.markets[a])
    && SameIssue(w.tokens[w.markets[a].token], w1.tokens[w.markets[a].token])
    && var (m, m') := (w.markets[a], w1.markets[a]);
    && m' == m.(shares := m'.shares) && |m'.shares| == |m.shares|
    && forall i :: 0 <= i < |m.shares| ==> Follows(m.shares[i], m'.shares[i], loser)
  }

  /** What the transaction on the market a takes from other markets, it takes
      from `loser`. */
  ghost predicate Takes(w: World, e: Event, a: Address, loser: Address)
    requires a in w.markets
  {
    forall b :: b in w.markets ==>
      Loss(w, e, b) == if b == loser && Keeps(w.markets[a], w.markets[b].token) then HeldBy(w, b) else 0
  }

  lemma OnlyClaimsTake(w: World, e: Event, a: Address)
    requires a in w.markets && !e.step.Claim? && forall b :: b in w.markets ==> b.Contract?
    ensures Takes(w, e, a, Null)
  {
    hide HeldBy, Keeps;
  }

  lemma BoughtTrades(w: World, w1: World, a: Address, sender: Address, k: uint256)
    requires AfterBuy(w, w1, a, sender, k) && MayCall(sender)
    ensures Traded(w, w1, a, Null)
  {
    hide Spent;
    var m, m' := w.markets[a], w1.markets[a];
    forall i | 0 <= i < |m.shares|
      ensures Follows(m.shares[i], m'.shares[i], Null)
    {
      assert Issued(m.shares[i], m'.shares[i], sender, k);
    }
  }

  lemma SoldTrades(w: World, w1: World, a: Address, sender: Address, k: uint256)
    requires AfterSell(w, w1, a, sender, k) && MayCall(sender)
    ensures Traded(w, w1, a, Null)
  {
    hide Spent;
    var m, m' := w.markets[a], w1.markets[a];
    forall i | 0 <= i < |m.shares|
      ensures Follows(m.shares[i], m'.shares[i], Null)
    {
      assert Issued(m.shares[i], m'.shares[i], sender, 0 - k);
    }
  }

  lemma ClaimedTrades(w: World, w1: World, a: Address, holder: Address)
    requires AfterClaim(w, w1, a, holder)
    ensures Traded(w, w1, a, holder)
  {
    hide Spent, Dot, Fees;
    var m, m' := w.markets[a], w1.markets[a];
    forall i | 0 <= i < |m.shares|
      ensures Follows(m.shares[i], m'.shares[i], holder)
    {
      assert Destroyed(m.shares[i], m'.shares[i], holder);
    }
  }

  /** Whom a transaction on a market takes share tokens from. */
  function Loser(step: Step): Address {
    if step.Claim? then step.holder else Null
  }

  predicate TradeStep(step: Step) {
    step.Buy? || step.Sell? || step.Claim? || step.ApproveSpenders?
  }

  lemma StepTrades(s: State, e: Event)
    requires Invariant(s) && TradeStep(e.step) && Try(s.w, e).Done?
    ensures Traded(s.w, Try(s.w, e).value, e.step.market, Loser(e.step))
    ensures Takes(s.w, e, e.step.market, Loser(e.step))
  {
    hide Try;
    OneMarketOfAll(s);
    hide Invariant, Traded, AfterBuy, AfterSell, AfterClaim, BuyCompleteSets, SellCompleteSets;
    match e.step
    case Buy(a, k) =>
      TryBuy(s.w, e, a, k);
      BuyDoes(s, e, a, k);
      BoughtTrades(s.w, Try(s.w, e).value, a, e.caller, k);
      OnlyClaimsTake(s.w, e, a);
    case Sell(a, k) =>
      TrySell(s.w, e, a, k);
      Trades.SellDoes(s, e, a, k);
      SoldTrades(s.w, Try(s.w, e).value, a, e.caller, k);
      OnlyClaimsTake(s.w, e, a);
    case Claim(a, holder) =>
      ClaimDoes(s, e, a, holder);
      ClaimedTrades(s.w, Try(s.w, e).value, a, holder);
      ClaimTakes(s.w, e, a, holder);
    case ApproveSpenders(a) =>
      ApproveTrades(s, e, a);
      OnlyClaimsTake(s.w, e, a);
  }

  lemma ClaimTakes(w: World, e: Event, a: Address, holder: Address)
    requires e.step == Step.Claim(a, holder) && a in w.markets
    ensures Takes(w, e, a, holder)
  {
    hide HeldBy, Keeps;
  }

  lemma ApproveTrades(s: State, e: Event, a: Address)
    requires Invariant(s) && e.step == Step.ApproveSpenders(a) && Try(s.w, e).Done?
    ensures Traded(s.w, Try(s.w, e).value, a, Null)
  {
    hide Try;
    OneMarketOfAll(s);
    TryApprove(s.w, e, a);
    ApproveAllDoes(s.w.controller, s.w.tokens[s.w.markets[a].token], a);
    hide Invariant, ApproveAll;
  }

  lemma OneMarketOfAll(s: State)
    requires Invariant(s)
    ensures Deployed(s.w.controller) && forall b :: b in s.w.markets ==> b.Contract?
  {
    forall b | b in s.w.markets
      ensures b.Contract?
    {
      assert MarketOk(s.w, b, s.w.markets[b]);
    }
  }

  /** What the tokens are once a market's shares are listed. */
  lemma ListSharesIs(w: World, a: Address)
    requires Index(w) && a in w.markets
    ensures Numbered(a, w.markets[a])
    ensures var w2 := ListShares(w, a);
      && w2 == w.(tokens := w2.tokens)
      && (forall t :: t in w2.tokens <==> t in w.tokens || Own(a, w.markets[a], t, 0))
      && (forall t :: t in w2.tokens ==>
            w2.tokens[t] == if Own(a, w.markets[a], t, 0) then w.markets[a].shares[t.id - a.id - 1] else w.tokens[t])
  {
    KeepsOwn(w, a, a);
    hide Index, ListShares;
    ListNumbered(w, a);
  }

  lemma ListNumbered(w: World, a: Address)
    requires a in w.markets && Numbered(a, w.markets[a])
    ensures var w2 := ListShares(w, a);
      && w2 == w.(tokens := w2.tokens)
      && (forall t :: t in w2.tokens <==> t in w.tokens || Own(a, w.markets[a], t, 0))
      && (forall t :: t in w2.tokens ==>
            w2.tokens[t] == if Own(a, w.markets[a], t, 0) then w.markets[a].shares[t.id - a.id - 1] else w.tokens[t])
  {
    ListFromIs(w.tokens, a, w.markets[a], 0);
  }

  /** A market's own share tokens before a trade on it. */
  lemma OwnBefore(w: World, w1: World, a: Address, loser: Address, t: Address)
    requires Consistent(w) && Traded(w, w1, a, loser) && Own(a, w.markets[a], t, 0)
    ensures t != w.markets[a].token && t in w.tokens
    ensures var i := t.id - a.id - 1;
      && 0 <= i < |w.markets[a].shares| == |w1.markets[a].shares|
      && w1.tokens[t] == w.tokens[t] == w.markets[a].shares[i]
      && Follows(w.markets[a].shares[i], w1.markets[a].shares[i], loser)
  {
    KeepsOwn(w, a, t);
    assert IsListed(w, a, t.id - a.id - 1);
    hide Index, Synced, SameIssue;
  }

  lemma TradeKeeps(w: World, w1: World, a: Address, loser: Address, t: Address)
    requires Traded(w, w1, a, loser)
    ensures a in w.markets && a in w1.markets && Own(a, w1.markets[a], t, 0) == Own(a, w.markets[a], t, 0)
    ensures w1.tokens.Keys == w.tokens.Keys && w1.markets.Keys == w.markets.Keys
    ensures forall b :: b in w.markets ==> w1.markets[b].token == w.markets[b].token
  {
    hide Follows, SameIssue;
  }

  /** What a trade, and the listing after it, made of a token. */
  lemma ListedLedger(w: World, w1: World, a: Address, loser: Address, t: Address)
    requires Consistent(w) && Index(w1) && Traded(w, w1, a, loser)
    ensures t in ListShares(w1, a).tokens <==> t in w1.tokens
    ensures t in w1.tokens ==>
      var l := ListShares(w1, a).tokens[t];
      if Keeps(w.markets[a], t) then t in w.tokens && w1.tokens[t] == w.tokens[t] && Follows(w.tokens[t], l, loser)
      else l == w1.tokens[t]
  {
    hide Index, Traded, Keeps, Follows, ListShares, Synced, InOrder;
    TradeKeeps(w, w1, a, loser, t);
    KeepsOwn(w, a, t);
    ListSharesIs(w1, a);
    hide Own;
    if Own(a, w.markets[a], t, 0) {
      OwnBefore(w, w1, a, loser, t);
    }
  }

  /** Listing a market's shares after a trade lowers what other markets hold by
      what was taken from them. */
  lemma ListedBalance(w: World, w1: World, e: Event, a: Address, loser: Address, b: Address)
    requires Consistent(w) && Index(w1) && Traded(w, w1, a, loser) && Takes(w, e, a, loser)
    requires b in w.markets && b.Contract? && w.markets[b].token in w1.tokens
    ensures var t := w.markets[b].token;
      && t in ListShares(w1, a).tokens
      && ListShares(w1, a).tokens[t].Balance(b) + Loss(w, e, b) == w1.tokens[t].Balance(b)
  {
    hide Consistent, Index, Traded, ListShares, Loss, Keeps;
    ListedLedger(w, w1, a, loser, w.markets[b].token);
  }

  lemma ListedSpenders(w: World, w1: World, a: Address, loser: Address, t: Address, k: nat, x: Address)
    requires Consistent(w) && Index(w1) && Traded(w, w1, a, loser) && t in ListShares(w1, a).tokens
    ensures t in w1.tokens
    ensures ListShares(w1, a).tokens[t].Allowance(Contract(k), x) == w1.tokens[t].Allowance(Contract(k), x)
  {
    hide Consistent, Index, Traded, ListShares, Keeps;
    ListedLedger(w, w1, a, loser, t);
  }

  lemma ListedSound(w: World, a: Address)
    requires Index(w) && a in w.markets && MarketOk(w, a, w.markets[a]) && TokensSound(w)
    ensures TokensSound(ListShares(w, a))
  {
    ListSharesIs(w, a);
    hide Index, ListShares;
  }

  lemma TradeRelists(w: World, w1: World, a: Address, loser: Address)
    requires Consistent(w) && Index(w1) && Traded(w, w1, a, loser)
    requires TokensSound(w1) && MarketOk(w1, a, w1.markets[a])
    ensures Relisted(w1, ListShares(w1, a))
  {
    ListedSound(w1, a);
    ListSharesIs(w1, a);
    hide Index, Consistent, Traded, ListShares, MarketOk, TokensSound, Own;
    var w2 := ListShares(w1, a);
    forall t, k, x | t in w2.tokens && w2.tokens[t].Allowance(Contract(k), x) > 0
      ensures t in w1.tokens && w1.tokens[t].Allowance(Contract(k), x) > 0
    {
      ListedSpenders(w, w1, a, loser, t, k, x);
    }
  }

  lemma TradeCharges(w: World, s1: State, e: Event, a: Address, loser: Address)
    requires Consistent(w) && Index(s1.w) && Traded(w, s1.w, a, loser) && Takes(w, e, a, loser)
    requires Relisted(s1.w, ListShares(s1.w, a)) && forall b :: b in w.markets ==> b.Contract?
    requires s1.books.Keys == s1.w.markets.Keys
    ensures Charged(s1, State(ListShares(s1.w, a), Charge(w, e, s1.books)))
  {
    hide Index, Consistent, Traded, Takes, ListShares, Loss, Relisted, Own, TokensSound;
    var w2 := ListShares(s1.w, a);
    TradeKeeps(w, s1.w, a, loser, a);
    ListSharesIs(s1.w, a);
    forall b | b in w.markets && s1.w.markets[b].token in s1.w.tokens
      ensures var t := s1.w.markets[b].token;
        t in w2.tokens && w2.tokens[t].Balance(b) + Loss(w, e, b) == s1.w.tokens[t].Balance(b)
    {
      ListedBalance(w, s1.w, e, a, loser, b);
    }
  }

  lemma TradeKeepsOrder(w: World, w1: World, a: Address, loser: Address)
    requires InOrder(w) && Index(w1) && Traded(w, w1, a, loser)
    ensures InOrder(ListShares(w1, a))
  {
    assert w1.next == w.next && TokensOk(w1, a, w1.markets[a]);
    TradeKeeps(w, w1, a, loser, a);
    ListSharesIs(w1, a);
    hide Index, Traded, ListShares, TokensOk;
  }

  lemma OwnListed(w: World, a: Address, i: nat)
    requires Index(w) && a in w.markets && i < |w.markets[a].shareTokens|
    ensures IsListed(ListShares(w, a), a, i)
  {
    KeepsOwn(w, a, a);
    hide Index, Keeps;
    ListSharesIs(w, a);
    hide ListShares;
  }

  lemma NotKept(w: World, a: Address, c: Address, i: nat)
    requires Index(w) && a in w.markets && c in w.markets && c != a && i < |w.markets[c].shareTokens|
    ensures !Keeps(w.markets[a], w.markets[c].shareTokens[i].self)
  {
    hide Index;
    var m, t := w.markets[a], w.markets[c].shareTokens[i].self;
    if j: nat :| j < |m.shareTokens| && m.shareTokens[j].self == t {
      TokensDistinct(w, a, j, c, i);
    }
  }

  lemma OtherListed(w: World, w1: World, a: Address, loser: Address, c: Address, i: nat)
    requires Consistent(w) && Index(w1) && Traded(w, w1, a, loser)
    requires c in w.markets && c != a && i < |w.markets[c].shareTokens|
    requires w.markets[c].shareTokens[i].self != w.markets[a].token
    ensures c in w1.markets && w1.markets[c] == w.markets[c] && IsListed(ListShares(w1, a), c, i)
  {
    assert IsListed(w, c, i);
    assert w1.tokens == w.tokens[w.markets[a].token := w1.tokens[w.markets[a].token]];
    assert c in w1.markets && w1.markets[c] == w.markets[c];
    hide Index, Synced, InOrder, Traded, Keeps, ListShares, Own;
    NotKept(w, a, c, i);
    ListSharesIs(w1, a);
    ListedLedger(w, w1, a, loser, w.markets[c].shareTokens[i].self);
  }

  lemma OwnTokenElsewhere(w: World, a: Address, i: nat)
    requires Index(w) && InOrder(w) && a in w.markets && i < |w.markets[a].shareTokens|
    ensures w.markets[a].shareTokens[i].self != w.markets[a].token
  {
    assert TokensOk(w, a, w.markets[a]);
  }

  lemma MovedListed(w: World, w1: World, a: Address, loser: Address, c: Address, i: nat)
    requires Consistent(w) && Index(w1) && Traded(w, w1, a, loser)
    requires c in w.markets && i < |w.markets[c].shareTokens| && w.markets[c].shareTokens[i].self == w.markets[a].token
    ensures c in w1.markets && i < |w1.markets[c].shares|
    ensures w.markets[a].token in ListShares(w1, a).tokens
    ensures SameIssue(w1.markets[c].shares[i], ListShares(w1, a).tokens[w.markets[a].token])
  {
    assert IsListed(w, c, i);
    var t := w.markets[a].token;
    assert t in w.tokens && t in w1.tokens && SameIssue(w.tokens[t], w1.tokens[t]);
    assert c != a ==> c in w1.markets && w1.markets[c] == w.markets[c];
    hide Traded, Keeps, ListShares, Own, Synced, Index;
    if c == a {
      OwnTokenElsewhere(w, a, i);
    } else {
      NotKept(w, a, c, i);
      ListedLedger(w, w1, a, loser, t);
    }
  }

  /** After a trade and the listing only the market's own token is out of step. */
  lemma TradeLists(w: World, w1: World, a: Address, loser: Address, c: Address, i: nat)
    requires Consistent(w) && Index(w1) && Traded(w, w1, a, loser)
    requires c in w1.markets && i < |w1.markets[c].shareTokens|
    ensures var (w2, t) := (ListShares(w1, a), w.markets[a].token);
      w2.markets == w1.markets && t in w2.tokens && InStep(w2, t, c, i)
  {
    hide Index, Synced, Keeps, Follows, SameIssue, Own, IsListed;
    TradeKeeps(w, w1, a, loser, a);
    ListSharesIs(w1, a);
    var t := w.markets[a].token;
    ListedLedger(w, w1, a, loser, t);
    assert w1.markets[c].shareTokens == w.markets[c].shareTokens;
    assert t in w1.tokens;
    hide Traded, ListShares;
    if w1.markets[c].shareTokens[i].self == t {
      MovedListed(w, w1, a, loser, c, i);
    } else if c == a {
      OwnListed(w1, a, i);
      ListedHas(w1, a, i);
    } else {
      OtherListed(w, w1, a, loser, c, i);
      ListedHas(w1, c, i);
    }
  }

  lemma ListedHas(w: World, a: Address, i: nat)
    requires Index(w) && a in w.markets && i < |w.markets[a].shareTokens|
    ensures i < |w.markets[a].shares|
  {
    assert TokensOk(w, a, w.markets[a]);
  }

  lemma TradePends(w: World, w1: World, a: Address, loser: Address)
    requires Consistent(w) && Index(w1) && Traded(w, w1, a, loser)
    ensures Pending(ListShares(w1, a), w.markets[a].token)
  {
    hide Index, Synced, Keeps, Follows, SameIssue, Own, IsListed;
    TradeKeeps(w, w1, a, loser, a);
    TradeKeepsOrder(w, w1, a, loser);
    ListSharesIs(w1, a);
    ListedLedger(w, w1, a, loser, w.markets[a].token);
    assert w.markets[a].token in w1.tokens;
    var w2 := ListShares(w1, a);
    SameIndexKeeps(w1, w2);
    hide Traded, InOrder, ListShares, SameIndex, Consistent, InStep;
    forall c, i | c in w2.markets && 0 <= i < |w2.markets[c].shareTokens|
      ensures InStep(w2, w.markets[a].token, c, i)
    {
      TradeLists(w, w1, a, loser, c, i);
    }
  }

  lemma NextTrade(s: State, e: Event)
    requires TradeStep(e.step) && Try(s.w, e).Done? && e.step.market in Try(s.w, e).value.markets
    ensures var (s1, a) := (TryState(s, e), e.step.market);
      NextState(s, e) == State(TellMarkets(ListShares(s1.w, a), s1.w.markets[a].token), Charge(s.w, e, s1.books))
  {
    hide Try, Charge, Post, TellMarkets;
  }

  lemma SettledTrade(s: State, s1: State, e: Event, a: Address, loser: Address)
    requires Consistent(s.w) && Invariant(s1) && Index(s1.w)
    requires Traded(s.w, s1.w, a, loser) && Takes(s.w, e, a, loser) && forall b :: b in s.w.markets ==> b.Contract?
    ensures var t := s1.w.markets[a].token;
      Accounted(State(TellMarkets(ListShares(s1.w, a), t), Charge(s.w, e, s1.books)))
  {
    hide Invariant, Consistent, Index, Traded, Takes, Loss, ListShares, TellMarkets, Relisted, Charged, Pending;
    hide MarketOk, Balanced, Charge, Accounted;
    TradeKeeps(s.w, s1.w, a, loser, a);
    OneMarket(s1, a);
    assert TokensSound(s1.w) by { AllSoundTokens(s1); }
    TradeRelists(s.w, s1.w, a, loser);
    TradeCharges(s.w, s1, e, a, loser);
    var s2 := State(ListShares(s1.w, a), Charge(s.w, e, s1.books));
    RelistedKeepsInvariant(s1, s2);
    TradePends(s.w, s1.w, a, loser);
    TellKeepsAccounts(s2, s1.w.markets[a].token);
  }

  lemma AllSoundTokens(s: State)
    requires Invariant(s)
    ensures TokensSound(s.w) && MarketsOk(s.w) && s.books.Keys == s.w.markets.Keys
  {
  }

  lemma TradeKeepsAccounts(s: State, e: Event)
    requires Accounted(s) && TradeStep(e.step) && Try(s.w, e).Done?
    ensures Accounted(NextState(s, e))
  {
    hide Invariant, Consistent, Try, Post, Charge, Traded, Takes, Index, NextState;
    assert Index(s.w) by { ConsistentIndex(s.w); }
    OneMarketOfAll(s);
    TryKeepsInvariant(s, e);
    TryKeepsIndex(s.w, e);
    StepTrades(s, e);
    var s1 := TryState(s, e);
    TradeKeeps(s.w, s1.w, e.step.market, Loser(e.step), e.step.market);
    SettledTrade(s, s1, e, e.step.market, Loser(e.step));
    NextTrade(s, e);
  }

  lemma ConsistentIndex(w: World)
    requires Consistent(w)
    ensures Index(w) && Synced(w) && InOrder(w)
  {
  }

  // Calls on tokens.

  lemma NothingCharged(w: World, e: Event, books: map<Address, Book>)
    requires !e.step.Claim?
    ensures Charge(w, e, books) == books
  {
    hide HeldBy, Keeps;
  }

  lemma TokenCallPends(s: State, e: Event, t: Address, call: Call)
    requires Accounted(s) && e.step == TokenCall(t, call) && Try(s.w, e).Done?
    ensures Pending(Try(s.w, e).value, t)
  {
    hide Try, Invariant, Index;
    TryTokenCall(s.w, e, t, call);
    TryKeepsIndex(s.w, e);
    var w1 := Try(s.w, e).value;
    AllSoundTokens(s);
    hide Apply;
    forall a, i | a in w1.markets && 0 <= i < |w1.markets[a].shareTokens|
      ensures InStep(w1, t, a, i)
    {
      assert IsListed(s.w, a, i);
      if w1.markets[a].shareTokens[i].self == t {
        assert MarketOk(s.w, a, s.w.markets[a]);
        UnownedCall(s.w.tokens[t], e.caller, call);
      }
    }
  }

  lemma TokenCallKeepsAccounts(s: State, e: Event, t: Address, call: Call)
    requires Accounted(s) && e.step == TokenCall(t, call) && Try(s.w, e).Done?
    ensures Accounted(NextState(s, e))
  {
    hide Invariant, Consistent, Try, Pending, Post, TellMarkets, Charge;
    TryKeepsInvariant(s, e);
    TokenCallPends(s, e, t, call);
    hide Accounted;
    var s1 := TryState(s, e);
    NothingCharged(s.w, e, s1.books);
    TellKeepsAccounts(s1, t);
  }

  // New markets.

  /** What a creation leaves as it was, and what the new market brings. */
  lemma CreatedBrings(w: World, w1: World, terms: Terms, n: uint256, ticks: uint256)
    requires Deployed(w.controller) && InOrder(w) && Created(w, w1, terms, n, ticks) && Contract(w.next) !in w.markets
    ensures var self := Contract(w.next);
      && w1.markets == w.markets[self := w1.markets[self]]
      && w1.markets[self].token == terms.token && |w1.markets[self].shares| == n
      && w1.next == w.next + 1 + n
      && forall i :: 0 <= i < n ==> w1.markets[self].shares[i] == EMPTY
    ensures terms.token in w.tokens && w1.tokens == w.tokens[terms.token := w1.tokens[terms.token]]
    ensures SameIssue(w.tokens[terms.token], w1.tokens[terms.token])
    ensures forall t :: t in w1.tokens && t.Contract? ==> t.id < w.next
  {
    ApproveAllDoes(w.controller, w.tokens[terms.token], Contract(w.next));
    hide ApproveAll;
  }

  lemma CreatedRelists(w: World, w1: World, terms: Terms, n: uint256, ticks: uint256)
    requires Deployed(w.controller) && InOrder(w) && Created(w, w1, terms, n, ticks) && Contract(w.next) !in w.markets
    requires Index(w1) && TokensSound(w1) && MarketOk(w1, Contract(w.next), w1.markets[Contract(w.next)])
    ensures var w2 := ListShares(w1, Contract(w.next));
      && Relisted(w1, w2)
      && forall t :: t in w1.tokens ==> t in w2.tokens && w2.tokens[t] == w1.tokens[t]
  {
    CreatedBrings(w, w1, terms, n, ticks);
    ListSharesIs(w1, Contract(w.next));
    ListedSound(w1, Contract(w.next));
    hide Index, ListShares, Created, InOrder, MarketOk, TokensSound;
    var w2 := ListShares(w1, Contract(w.next));
    forall t, k, x | t in w2.tokens && w2.tokens[t].Allowance(Contract(k), x) > 0
      ensures t in w1.tokens && w1.tokens[t].Allowance(Contract(k), x) > 0
    {
      assert EMPTY.Allowance(Contract(k), x) == 0;
    }
  }

  lemma CreatedInStep(w: World, w1: World, terms: Terms, n: uint256, ticks: uint256, c: Address, i: nat)
    requires Deployed(w.controller) && Consistent(w) && Created(w, w1, terms, n, ticks)
    requires Contract(w.next) !in w.markets && Index(w1)
    requires c in w1.markets && i < |w1.markets[c].shareTokens|
    ensures var w2 := ListShares(w1, Contract(w.next));
      c in w2.markets && i < |w2.markets[c].shareTokens| && terms.token in w2.tokens && InStep(w2, terms.token, c, i)
  {
    var self := Contract(w.next);
    CreatedBrings(w, w1, terms, n, ticks);
    ListSharesIs(w1, self);
    ListedHas(w1, c, i);
    assert c != self ==> IsListed(w, c, i);
    hide Index, ListShares, Created, Synced, InOrder, Keeps, SameIssue;
    if c == self {
      OwnListed(w1, self, i);
      KeepsOwn(w1, self, self);
    } else {
      NotKept(w1, self, c, i);
      KeepsOwn(w1, self, w1.markets[c].shareTokens[i].self);
    }
  }

  lemma CreatedPends(w: World, w1: World, terms: Terms, n: uint256, ticks: uint256)
    requires Deployed(w.controller) && Consistent(w) && Created(w, w1, terms, n, ticks)
    requires Contract(w.next) !in w.markets && Index(w1)
    ensures Pending(ListShares(w1, Contract(w.next)), terms.token)
  {
    hide Index, Synced, ListShares, Created, InStep, IsListed, SameIssue;
    var w2 := ListShares(w1, Contract(w.next));
    CreatedBrings(w, w1, terms, n, ticks);
    ListSharesIs(w1, Contract(w.next));
    assert InOrder(w2);
    hide InOrder, Own;
    SameIndexKeeps(w1, w2);
    forall c, i | c in w2.markets && 0 <= i < |w2.markets[c].shareTokens|
      ensures InStep(w2, terms.token, c, i)
    {
      CreatedInStep(w, w1, terms, n, ticks, c, i);
    }
  }

  lemma NextCreate(s: State, e: Event)
    requires CreateStep(e.step) && Try(s.w, e).Done? && Contract(s.w.next) in Try(s.w, e).value.markets
    ensures var (s1, self) := (TryState(s, e), Contract(s.w.next));
      NextState(s, e) == State(TellMarkets(ListShares(s1.w, self), s1.w.markets[self].token), s1.books)
  {
    hide Try, Post, TellMarkets;
    NothingCharged(s.w, e, TryState(s, e).books);
    hide Charge;
  }

  lemma SettledCreation(s: State, s1: State, terms: Terms, n: uint256, ticks: uint256)
    requires Accounted(s) && Invariant(s1) && Index(s1.w) && Created(s.w, s1.w, terms, n, ticks)
    ensures Contract(s.w.next) in s1.w.markets && s1.w.markets[Contract(s.w.next)].token == terms.token
    ensures Accounted(State(TellMarkets(ListShares(s1.w, Contract(s.w.next)), terms.token), s1.books))
  {
    var self := Contract(s.w.next);
    hide Invariant, Consistent, Index, Created, InOrder, ListShares, TellMarkets, Relisted, Pending, Synced;
    hide Balanced, TokensSound, Own, SameIssue;
    OneMarketOfAll(s);
    AllSoundTokens(s);
    AllSoundTokens(s1);
    ConsistentIndex(s.w);
    hide Accounted;
    FreshAddress(s.w);
    CreatedBrings(s.w, s1.w, terms, n, ticks);
    CreatedRelists(s.w, s1.w, terms, n, ticks);
    ListSharesIs(s1.w, self);
    var s2 := State(ListShares(s1.w, self), s1.books);
    hide MarketsOk, MarketOk, TokensSound;
    assert Charged(s1, s2);
    RelistedKeepsInvariant(s1, s2);
    CreatedPends(s.w, s1.w, terms, n, ticks);
    TellKeepsAccounts(s2, terms.token);
  }

  lemma CreateKeepsAccounts(s: State, e: Event)
    requires Accounted(s) && CreateStep(e.step) && Try(s.w, e).Done?
    ensures Accounted(NextState(s, e))
  {
    hide Try, Invariant, Index, Synced, InOrder, Post, NextState, Created;
    TryKeepsInvariant(s, e);
    TryKeepsIndex(s.w, e);
    var s1 := TryState(s, e);
    var terms, n, ticks := TryCreate(s.w, e);
    SettledCreation(s, s1, terms, n, ticks);
    hide Accounted;
    NextCreate(s, e);
  }

  // Every transaction.

  lemma QuietKeepsConsistent(w: World, e: Event)
    requires Consistent(w) && Try(w, e).Done? && (e.step.Resolve? || ControlStep(e.step))
    ensures Consistent(Try(w, e).value)
  {
    TryKeepsIndex(w, e);
    QuietSame(w, e);
    hide Index, Try;
    var w1 := Try(w, e).value;
    forall a, i | a in w1.markets && 0 <= i < |w1.markets[a].shareTokens|
      ensures IsListed(w1, a, i)
    {
      assert IsListed(w, a, i);
    }
  }

  lemma QuietSame(w: World, e: Event)
    requires Try(w, e).Done? && (e.step.Resolve? || ControlStep(e.step))
    ensures var w1 := Try(w, e).value;
      && w1.tokens == w.tokens && w1.next >= w.next && w1.markets.Keys == w.markets.Keys
      && forall a :: a in w.markets ==>
           && w1.markets[a].shares == w.markets[a].shares && w1.markets[a].shareTokens == w.markets[a].shareTokens
           && w1.markets[a].token == w.markets[a].token
  {
    if e.step.Resolve? {
      hide Try;
      TryResolve(w, e, e.step.market, e.step.payouts, e.step.invalid);
      hide VerifyResolution;
    } else {
      ControlSame(w, e);
    }
  }

  lemma ControlSame(w: World, e: Event)
    requires Try(w, e).Done? && ControlStep(e.step)
    ensures var w1 := Try(w, e).value;
      w1.tokens == w.tokens && w1.next >= w.next && w1.markets == w.markets
  {
  }

  /** Every transaction, on whatever token, keeps the books of every market
      balanced, the index exact, and the two sides of every share token in step. */
  lemma StepKeepsAccounts(s: State, e: Event)
    requires Accounted(s)
    ensures Accounted(NextState(s, e))
  {
    if Try(s.w, e).Done? {
      if TradeStep(e.step) {
        TradeKeepsAccounts(s, e);
      } else if CreateStep(e.step) {
        CreateKeepsAccounts(s, e);
      } else if e.step.TokenCall? {
        TokenCallKeepsAccounts(s, e, e.step.token, e.step.call);
      } else if e.step.InitializeShare? {
        InitializeShareFails(s, e);
      } else {
        QuietKeepsAccounts(s, e);
      }
    }
  }

  lemma QuietKeepsAccounts(s: State, e: Event)
    requires Accounted(s) && Try(s.w, e).Done? && (e.step.Resolve? || ControlStep(e.step))
    ensures Accounted(NextState(s, e))
  {
    hide Try, Invariant, Consistent, Post;
    TryKeepsInvariant(s, e);
    QuietKeepsConsistent(s.w, e);
    NothingCharged(s.w, e, TryState(s, e).books);
    hide Charge;
  }

  /** So it is after every run. */
  lemma {:induction false} RunKeepsAccounts(s: State, events: seq<Event>)
    requires Accounted(s)
    ensures Accounted(RunState(s, events))
    decreases |events|
  {
    hide Accounted, NextState;
    if events != [] {
      StepKeepsAccounts(s, events[0]);
      RunKeepsAccounts(NextState(s, events[0]), events[1..]);
    }
  }
}
