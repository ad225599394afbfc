/** What the balanced books are for: the run-time check never fires, and
    purchases, sales and claims succeed exactly when their terms are met. */
module Settlement {
  import opened Options
  import opened Foundations
  import opened Sums
  import opened Ledgers
  import opened Markets
  import opened Controllers
  import opened CompleteSets
  import opened ClaimTradingProceeds
  import opened Protocol
  import opened Escrow
  import opened EscrowRuns

  // The outcome of each of the three, up to the check on the escrow.

  lemma TryBuyIs(w: World, e: Event, a: Address, k: uint256)
    requires e.step == Buy(a, k) && a in w.markets && w.markets[a].token in w.tokens
    ensures var r := BuyCompleteSets(w.controller, w.tokens[w.markets[a].token], a, w.markets[a], e.caller, k);
      && (!(MayCall(e.caller) && w.IsLegit(a) && !w.controller.stopped && r.Done?) ==> Try(w, e) == Reverted(Require))
      && (MayCall(e.caller) && w.IsLegit(a) && !w.controller.stopped && r.Done? ==>
          Try(w, e) == match AssertBalances(r.value.1, r.value.0.Balance(a))
                       case Done(_) => Done(w.Install(a, r.value.0, r.value.1))
                       case Reverted(f) => Reverted(f))
  {
    hide BuyCompleteSets, AssertBalances;
  }

  lemma TrySellIs(w: World, e: Event, a: Address, k: uint256)
    requires e.step == Sell(a, k) && a in w.markets && w.markets[a].token in w.tokens
    ensures var r := SellCompleteSets(w.controller, w.tokens[w.markets[a].token], a, w.markets[a], e.caller, k);
      && (!(MayCall(e.caller) && w.IsLegit(a) && !w.controller.stopped && r.Done?) ==> Try(w, e) == Reverted(Require))
      && (MayCall(e.caller) && w.IsLegit(a) && !w.controller.stopped && r.Done? ==>
          Try(w, e) == match AssertBalances(r.value.1, r.value.0.Balance(a))
                       case Done(_) => Done(w.Install(a, r.value.0, r.value.1))
                       case Reverted(f) => Reverted(f))
  {
    hide SellCompleteSets, AssertBalances;
  }

  lemma TryClaimIs(w: World, e: Event, a: Address, holder: Address)
    requires e.step == Step.Claim(a, holder) && a in w.markets && w.markets[a].token in w.tokens
    ensures var r := ClaimFrom(w.controller, w.tokens[w.markets[a].token], a, w.markets[a], holder, 0);
      var ready := MayCall(e.caller) && w.IsLegit(a) && !w.controller.stopped && e.now > w.markets[a].resolutionTime;
      && (!(ready && r.Done?) ==> Try(w, e) == Reverted(Require))
      && (ready && r.Done? ==>
          Try(w, e) == match AssertBalances(r.value.1, r.value.0.Balance(a))
                       case Done(_) => Done(w.Install(a, r.value.0, r.value.1))
                       case Reverted(f) => Reverted(f))
  {
    hide ClaimFrom, AssertBalances;
  }

  // What the check says of each.

  lemma BoughtIsChecked(w: World, token: Ledger, a: Address, m: Market, b: Book, sender: Address, k: uint256)
    requires MarketOk(w, a, m) && token.Sound() && Balanced(token, a, m, b) && sender != a
    requires BuyCompleteSets(w.controller, token, a, m, sender, k).Done?
    ensures var r := BuyCompleteSets(w.controller, token, a, m, sender, k).value;
      AssertBalances(r.1, r.0.Balance(a)).Done? <==> Backed(m, b.(bought := b.bought + k))
    ensures b.lost <= b.gifts ==> Backed(m, b.(bought := b.bought + k))
  {
    hide BuyCompleteSets, Balanced, AssertBalances, Owed;
    var (token', m') := BuyCompleteSets(w.controller, token, a, m, sender, k).value;
    BuyExact(w.controller, token, a, m, sender, k);
    BuyKeepsBalance(token, token', a, m, m', b, sender, k);
    SharesKeepMarketOk(w, a, m, m');
    BalancedIsSolvent(w, token', a, m', b.(bought := b.bought + k));
  }

  lemma SoldIsChecked(w: World, token: Ledger, a: Address, m: Market, b: Book, sender: Address, k: uint256)
    requires MarketOk(w, a, m) && token.Sound() && Balanced(token, a, m, b) && sender != a
    requires SellCompleteSets(w.controller, token, a, m, sender, k).Done?
    ensures var r := SellCompleteSets(w.controller, token, a, m, sender, k).value;
      AssertBalances(r.1, r.0.Balance(a)).Done? <==> Backed(m, b.(sold := b.sold + k))
    ensures b.lost <= b.gifts ==> Backed(m, b.(sold := b.sold + k))
  {
    hide SellCompleteSets, Balanced, AssertBalances, Owed;
    var (token', m') := SellCompleteSets(w.controller, token, a, m, sender, k).value;
    SellExact(w.controller, token, a, m, sender, k);
    SellKeepsBalance(token, token', a, m, m', b, sender, k);
    SharesKeepMarketOk(w, a, m, m');
    BalancedIsSolvent(w, token', a, m', b.(sold := b.sold + k));
  }

  lemma ClaimedIsChecked(w: World, token: Ledger, a: Address, m: Market, b: Book, holder: Address)
    requires MarketOk(w, a, m) && token.Sound() && Balanced(token, a, m, b)
    requires ClaimFrom(w.controller, token, a, m, holder, 0).Done?
    ensures m.IsResolved() && |m.payouts| == |m.shares|
    ensures var r := ClaimFrom(w.controller, token, a, m, holder, 0).value;
      AssertBalances(r.1, r.0.Balance(a)).Done? <==>
        Backed(m, if holder == a then b.(gifts := b.gifts + HolderTotal(m, holder)) else b)
    ensures b.lost <= b.gifts ==> Backed(m, if holder == a then b.(gifts := b.gifts + HolderTotal(m, holder)) else b)
  {
    hide ClaimFrom, Balanced, AssertBalances, Owed, Dot, Fees;
    if !m.IsResolved() {
      UnresolvedClaimFails(w.controller, token, a, m, holder);
    }
    var (token', m') := ClaimFrom(w.controller, token, a, m, holder, 0).value;
    ClaimFromDestroys(w.controller, token, a, m, holder, 0);
    ClaimFromPays(w.controller, token, a, m, holder, 0);
    ClaimKeepsBalance(token, token', a, m, m', b, holder);
    SharesKeepMarketOk(w, a, m, m');
    BalancedIsSolvent(w, token', a, m', if holder == a then b.(gifts := b.gifts + HolderTotal(m, holder)) else b);
  }

  /** A purchase succeeds exactly when it may be made and paid for. */
  lemma BuySucceeds(s: State, e: Event, a: Address, k: uint256)
    requires Invariant(s) && e.step == Buy(a, k) && a in s.w.markets
    ensures s.w.markets[a].token in s.w.tokens && a in s.books
    ensures Try(s.w, e).Done? <==>
      && MayCall(e.caller) && s.w.IsLegit(a) && !s.w.controller.stopped
      && CanBuy(s.w.controller, s.w.tokens[s.w.markets[a].token], a, s.w.markets[a], e.caller, k)
      && Backed(s.w.markets[a], Entry(s.w, e, a, s.books[a]))
    ensures Backed(s.w.markets[a], Entry(s.w, e, a, s.books[a])) || s.books[a].lost <= s.books[a].gifts ==>
      Try(s.w, e) != Reverted(Assert)
    ensures s.books[a].lost <= s.books[a].gifts ==>
      (Try(s.w, e).Done? <==>
        && MayCall(e.caller) && s.w.IsLegit(a) && !s.w.controller.stopped
        && CanBuy(s.w.controller, s.w.tokens[s.w.markets[a].token], a, s.w.markets[a], e.caller, k))
  {
    hide Try, Invariant, AllSound, BuyCompleteSets, CanBuy, Balanced, AssertBalances, Bought, Backed;
    OneMarket(s, a);
    var m := s.w.markets[a];
    assert AllSound(m.shares);
    hide MarketOk;
    TryBuyIs(s.w, e, a, k);
    BuyExact(s.w.controller, s.w.tokens[m.token], a, m, e.caller, k);
    if MayCall(e.caller) && BuyCompleteSets(s.w.controller, s.w.tokens[m.token], a, m, e.caller, k).Done? {
      BoughtIsChecked(s.w, s.w.tokens[m.token], a, m, s.books[a], e.caller, k);
    }
  }

  /** A sale succeeds exactly when the seller has the sets and the market's
      allowance and escrow cover them. */
  lemma SellSucceeds(s: State, e: Event, a: Address, k: uint256)
    requires Invariant(s) && e.step == Sell(a, k) && a in s.w.markets
    ensures s.w.markets[a].token in s.w.tokens && a in s.books
    ensures Try(s.w, e).Done? <==>
      && MayCall(e.caller) && s.w.IsLegit(a) && !s.w.controller.stopped
      && CanSell(s.w.controller, s.w.tokens[s.w.markets[a].token], a, s.w.markets[a], e.caller, k)
      && Backed(s.w.markets[a], Entry(s.w, e, a, s.books[a]))
    ensures Backed(s.w.markets[a], Entry(s.w, e, a, s.books[a])) || s.books[a].lost <= s.books[a].gifts ==>
      Try(s.w, e) != Reverted(Assert)
    ensures s.books[a].lost <= s.books[a].gifts ==>
      (Try(s.w, e).Done? <==>
        && MayCall(e.caller) && s.w.IsLegit(a) && !s.w.controller.stopped
        && CanSell(s.w.controller, s.w.tokens[s.w.markets[a].token], a, s.w.markets[a], e.caller, k))
  {
    hide Try, Invariant, AllSound, SellCompleteSets, CanSell, Balanced, AssertBalances, Sold, Backed, Market.DeriveFee;
    OneMarket(s, a);
    var m := s.w.markets[a];
    assert AllSound(m.shares) && m.mailbox.Mailbox?;
    hide MarketOk;
    TrySellIs(s.w, e, a, k);
    SellExact(s.w.controller, s.w.tokens[m.token], a, m, e.caller, k);
    if MayCall(e.caller) && SellCompleteSets(s.w.controller, s.w.tokens[m.token], a, m, e.caller, k).Done? {
      SoldIsChecked(s.w, s.w.tokens[m.token], a, m, s.books[a], e.caller, k);
    }
  }

  /** What a holder's shares are worth. */
  function Worth(m: Market, holder: Address): nat
    requires |m.payouts| == |m.shares|
  {
    Dot(Holdings(m.shares, holder), m.payouts, 0)
  }

  predicate ClaimsOpen(w: World, a: Address, now: uint256) {
    && w.IsLegit(a) && !w.controller.stopped && CLAIM_TRADING_PROCEEDS in w.controller.whitelist
    && w.markets[a].IsResolved() && now > w.markets[a].resolutionTime
  }

  lemma EscrowCovers(s: State, a: Address, holder: Address)
    requires Invariant(s) && a in s.w.markets && s.w.markets[a].IsResolved()
    requires a in s.books && Backed(s.w.markets[a], s.books[a])
    ensures s.w.markets[a].token in s.w.tokens && |s.w.markets[a].payouts| == |s.w.markets[a].shares|
    ensures Worth(s.w.markets[a], holder) <= s.w.tokens[s.w.markets[a].token].Balance(a)
  {
    hide Invariant;
    OneMarket(s, a);
    var m := s.w.markets[a];
    BalancedIsSolvent(s.w, s.w.tokens[m.token], a, m, s.books[a]);
    forall i | 0 <= i < |m.shares|
      ensures m.shares[i].Balance(holder) <= m.shares[i].totalSupply
    {
      TwoAccounts(m.shares[i].balances, holder, holder);
    }
    DotMonotone(Holdings(m.shares, holder), Supplies(m.shares), m.payouts, 0);
  }

  /** A claim succeeds if and only if it is open, the market is backed and can
      pay, and its allowance, the whitelist and, for the market itself, the log
      allow it. A market that was backed before can always pay. In particular,
      while claims are open, a claim for anyone but the market succeeds exactly
      when the market is backed and the allowance covers what the holder's shares
      are worth. */
  lemma ClaimSucceeds(s: State, e: Event, a: Address, holder: Address)
    requires Invariant(s) && e.step == Step.Claim(a, holder) && a in s.w.markets
    ensures s.w.markets[a].token in s.w.tokens && a in s.books
    ensures s.w.markets[a].IsResolved() ==> |s.w.markets[a].payouts| == |s.w.markets[a].shares|
    ensures Try(s.w, e).Done? <==>
      && MayCall(e.caller) && s.w.IsLegit(a) && !s.w.controller.stopped
      && s.w.markets[a].IsResolved() && e.now > s.w.markets[a].resolutionTime
      && CanClaim(s.w.controller, s.w.tokens[s.w.markets[a].token], a, s.w.markets[a], holder, 0)
      && CanPay(s.w.tokens[s.w.markets[a].token], a, s.w.markets[a], holder, 0)
      && Backed(s.w.markets[a], Entry(s.w, e, a, s.books[a]))
    ensures s.w.markets[a].IsResolved() && Backed(s.w.markets[a], s.books[a]) ==>
      CanPay(s.w.tokens[s.w.markets[a].token], a, s.w.markets[a], holder, 0)
    ensures ClaimsOpen(s.w, a, e.now) && MayCall(e.caller) && holder != a ==>
      (Try(s.w, e).Done? <==>
        && Worth(s.w.markets[a], holder) <= s.w.tokens[s.w.markets[a].token].Allowance(a, CLAIM_TRADING_PROCEEDS)
        && Backed(s.w.markets[a], s.books[a]))
    ensures Try(s.w, e).Done? ==> Backed(s.w.markets[a], Entry(s.w, e, a, s.books[a]))
    ensures Backed(s.w.markets[a], Entry(s.w, e, a, s.books[a])) || s.books[a].lost <= s.books[a].gifts ==>
      Try(s.w, e) != Reverted(Assert)
  {
    hide Try, Invariant, ClaimFrom, Balanced, AssertBalances, Dot, LogsFit, Slack, PaysItself;
    OneMarket(s, a);
    var m := s.w.markets[a];
    var token := s.w.tokens[m.token];
    assert AllSound(m.shares) && m.mailbox.Mailbox? && |m.shares| > 0;
    hide MarketOk, AllSound;
    TryClaimIs(s.w, e, a, holder);
    if !m.IsResolved() {
      UnresolvedClaimFails(s.w.controller, token, a, m, holder);
    } else {
      ClaimFromExact(s.w.controller, token, a, m, holder, 0);
      if Backed(m, s.books[a]) {
        EscrowCovers(s, a, holder);
        CoveredCanPay(token, a, m, holder, 0);
      }
    }
    if ClaimFrom(s.w.controller, token, a, m, holder, 0).Done? {
      ClaimedIsChecked(s.w, token, a, m, s.books[a], holder);
    }
  }

  lemma OthersOnlyRequire(w: World, e: Event)
    requires !e.step.Buy? && !e.step.Sell? && !e.step.Claim?
    ensures Try(w, e) != Reverted(Assert)
  {
    hide Apply, VerifyResolution;
    match e.step
    case Resolve(a, payouts, invalid) =>
      if a in w.markets {
        assert VerifyResolution(w.markets[a], payouts, invalid) != Reverted(Assert) by {
          VerifyResolutionRequires(w.markets[a], payouts, invalid);
        }
      }
    case TokenCall(t, call) => if t in w.tokens { CallsRequire(w.tokens[t], e.caller, call); }
    case _ =>
  }

  lemma UnknownOnlyRequires(w: World, e: Event, a: Address)
    requires a !in w.markets
    requires (e.step.Buy? || e.step.Sell? || e.step.Claim?) && e.step.market == a
    ensures Try(w, e) == Reverted(Require)
  {
  }

  /** The market whose check a transaction ends with, if it does with one. */
  function Checked(e: Event): Option<Address> {
    match e.step
    case Buy(a, _) => Some(a)
    case Sell(a, _) => Some(a)
    case Claim(a, _) => Some(a)
    case _ => None
  }

  /** The check that every public entry point ends with fires for no market that
      stays backed, in particular for none that lost nothing. */
  lemma NoAssertFires(s: State, e: Event)
    requires Invariant(s)
    requires Checked(e).Some? && Checked(e).value in s.w.markets && Checked(e).value in s.books ==>
      var a := Checked(e).value;
      Backed(s.w.markets[a], Entry(s.w, e, a, s.books[a])) || s.books[a].lost <= s.books[a].gifts
    ensures Try(s.w, e) != Reverted(Assert)
  {
    assert s.books.Keys == s.w.markets.Keys;
    hide Try, Invariant;
    match e.step
    case Buy(a, k) => if a in s.w.markets { BuySucceeds(s, e, a, k); } else { UnknownOnlyRequires(s.w, e, a); }
    case Sell(a, k) => if a in s.w.markets { SellSucceeds(s, e, a, k); } else { UnknownOnlyRequires(s.w, e, a); }
    case Claim(a, h) => if a in s.w.markets { ClaimSucceeds(s, e, a, h); } else { UnknownOnlyRequires(s.w, e, a); }
    case _ => OthersOnlyRequire(s.w, e);
  }
}
