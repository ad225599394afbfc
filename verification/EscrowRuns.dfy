/** Every transaction keeps the books balanced. */
module EscrowRuns {
  import opened Foundations
  import opened Sums
  import opened Ledgers
  import opened Markets
  import opened Controllers
  import opened CompleteSets
  import opened ClaimTradingProceeds
  import opened Protocol
  import opened Escrow

  lemma GiftKeepsBalance(token: Ledger, token': Ledger, a: Address, m: Market, b: Book, gift: nat)
    requires Balanced(token, a, m, b) && token'.Balance(a) == token.Balance(a) + gift
    ensures Balanced(token', a, m, b.(gifts := b.gifts + gift))
  {
  }

  /** What a transaction on the market a does to the balance and the book of
      every other market: at most a gift. */
  ghost predicate OthersKept(s: State, e: Event, a: Address, t: Address, token': Ledger)
    requires t in s.w.tokens && s.books.Keys == s.w.markets.Keys
  {
    forall b :: b in s.w.markets && b != a ==>
      && Entry(s.w, e, b, s.books[b]) == s.books[b].(gifts := s.books[b].gifts + Gift(s.w, e, b))
      && (s.w.markets[b].token == t ==> token'.Balance(b) == s.w.tokens[t].Balance(b) + Gift(s.w, e, b))
      && (s.w.markets[b].token != t ==> Gift(s.w, e, b) == 0)
  }

  /** No contract but the market a gains a spender, and a only the two. */
  ghost predicate SpendersKept(token: Ledger, token': Ledger, a: Address) {
    forall k, x :: token'.Allowance(Contract(k), x) > 0 ==>
      token.Allowance(Contract(k), x) > 0 || (Contract(k) == a && x in {COMPLETE_SETS, CLAIM_TRADING_PROCEEDS})
  }

  lemma InstallKeepsSpenders(w: World, a: Address, token': Ledger, m': Market)
    requires OnlySpenders(w) && a in w.markets && w.markets[a].token in w.tokens
    requires SpendersKept(w.tokens[w.markets[a].token], token', a) && m'.token == w.markets[a].token
    ensures OnlySpenders(w.Install(a, token', m'))
  {
  }

  lemma InstallKeepsMarkets(w: World, a: Address, token': Ledger, m': Market)
    requires MarketsOk(w) && a in w.markets && w.markets[a].token in w.tokens
    requires MarketOk(w, a, m')
    ensures MarketsOk(w.Install(a, token', m'))
  {
    var w' := w.Install(a, token', m');
    forall b | b in w'.markets
      ensures MarketOk(w', b, w'.markets[b])
    {
      assert w'.tokens.Keys == w.tokens.Keys;
      assert MarketOk(w, b, w'.markets[b]);
    }
  }

  lemma InstallKeepsBalanceOf(s: State, e: Event, a: Address, token': Ledger, b: Address)
    requires AllBalanced(s) && a in s.w.markets && b in s.w.markets && b != a
    requires s.w.markets[a].token in s.w.tokens && s.w.markets[b].token in s.w.tokens
    requires OthersKept(s, e, a, s.w.markets[a].token, token')
    ensures Balanced(s.w.tokens[s.w.markets[a].token := token'][s.w.markets[b].token], b, s.w.markets[b],
                     Entry(s.w, e, b, s.books[b]))
  {
    var t := s.w.markets[b].token;
    hide Gift, Entry;
    GiftKeepsBalance(s.w.tokens[t], s.w.tokens[s.w.markets[a].token := token'][t], b, s.w.markets[b], s.books[b],
        Gift(s.w, e, b));
  }

  lemma InstallKeepsBalances(s: State, e: Event, a: Address, token': Ledger, m': Market)
    requires MarketsOk(s.w) && AllBalanced(s) && a in s.w.markets
    requires s.w.markets[a].token in s.w.tokens && m'.token == s.w.markets[a].token
    requires Balanced(token', a, m', Entry(s.w, e, a, s.books[a]))
    requires OthersKept(s, e, a, m'.token, token')
    ensures var w' := s.w.Install(a, token', m'); AllBalanced(State(w', Post(s, e, w')))
  {
    var w' := s.w.Install(a, token', m');
    var s' := State(w', Post(s, e, w'));
    assert s'.books.Keys == w'.markets.Keys;
    hide Balanced, OthersKept, Entry;
    forall b | b in w'.markets && w'.markets[b].token in w'.tokens
      ensures Balanced(w'.tokens[w'.markets[b].token], b, w'.markets[b], s'.books[b])
    {
      if b != a {
        assert MarketOk(s.w, b, s.w.markets[b]);
        InstallKeepsBalanceOf(s, e, a, token', b);
      }
    }
  }

  /** A transaction on one market and its token keeps the invariant if it
      keeps that market's own balance and gives no more to the others. */
  lemma InstallKeepsInvariant(s: State, e: Event, a: Address, token': Ledger, m': Market)
    requires Invariant(s) && a in s.w.markets && s.w.markets[a].token in s.w.tokens && m'.token == s.w.markets[a].token
    requires token'.Sound() && MarketOk(s.w, a, m')
    requires SpendersKept(s.w.tokens[m'.token], token', a)
    requires Balanced(token', a, m', Entry(s.w, e, a, s.books[a]))
    requires OthersKept(s, e, a, m'.token, token')
    ensures var w' := s.w.Install(a, token', m'); Invariant(State(w', Post(s, e, w')))
  {
    hide Balanced, OthersKept, Post;
    InstallKeepsSpenders(s.w, a, token', m');
    InstallKeepsMarkets(s.w, a, token', m');
    InstallKeepsBalances(s, e, a, token', m');
  }

  /** What the invariant says of one market. */
  lemma OneMarket(s: State, a: Address)
    requires Invariant(s) && a in s.w.markets
    ensures Deployed(s.w.controller) && s.books.Keys == s.w.markets.Keys
    ensures forall b :: b in s.w.markets ==> b.Contract?
    ensures var m := s.w.markets[a];
      && MarketOk(s.w, a, m) && m.token in s.w.tokens
      && s.w.tokens[m.token].Sound() && Balanced(s.w.tokens[m.token], a, m, s.books[a])
  {
    forall b | b in s.w.markets
      ensures b.Contract?
    {
      assert MarketOk(s.w, b, s.w.markets[b]);
    }
  }

  // Buying, selling and claiming.

  lemma TryBuy(w: World, e: Event, a: Address, k: uint256)
    requires e.step == Buy(a, k) && Try(w, e).Done?
    ensures MayCall(e.caller) && a in w.markets && w.markets[a].token in w.tokens
    ensures var r := BuyCompleteSets(w.controller, w.tokens[w.markets[a].token], a, w.markets[a], e.caller, k);
      r.Done? && Try(w, e) == Done(w.Install(a, r.value.0, r.value.1))
    ensures !w.controller.stopped && w.IsLegit(a)
  {
    hide BuyCompleteSets, AssertBalances;
  }

  /** New share states leave a market as sound as before. */
  lemma SharesKeepMarketOk(w: World, a: Address, m: Market, m': Market)
    requires MarketOk(w, a, m) && m' == m.(shares := m'.shares)
    requires |m'.shares| == |m.shares| && AllSound(m'.shares)
    requires forall i :: 0 <= i < |m.shares| ==> m'.shares[i].owner == m.shares[i].owner
    ensures MarketOk(w, a, m')
  {
  }

  lemma BoughtLeavesOthers(s: State, e: Event, a: Address, k: uint256, token': Ledger, m': Market)
    requires MayCall(e.caller) && e.step == Buy(a, k) && s.books.Keys == s.w.markets.Keys
    requires a in s.w.markets && s.w.markets[a].token in s.w.tokens
    requires forall b :: b in s.w.markets ==> b.Contract?
    requires Bought(s.w.tokens[s.w.markets[a].token], token', a, s.w.markets[a], m', e.caller, k)
    ensures SpendersKept(s.w.tokens[s.w.markets[a].token], token', a)
    ensures OthersKept(s, e, a, s.w.markets[a].token, token')
  {
  }

  lemma BoughtKeepsInvariant(s: State, e: Event, a: Address, k: uint256, token': Ledger, m': Market)
    requires Invariant(s) && MayCall(e.caller) && e.step == Buy(a, k)
    requires a in s.w.markets && s.w.markets[a].token in s.w.tokens
    requires token'.Sound() && AllSound(m'.shares)
    requires Bought(s.w.tokens[s.w.markets[a].token], token', a, s.w.markets[a], m', e.caller, k)
    ensures var w' := s.w.Install(a, token', m'); Invariant(State(w', Post(s, e, w')))
  {
    hide Invariant;
    OneMarket(s, a);
    var m := s.w.markets[a];
    hide Balanced, Post, MarketOk, OthersKept, SpendersKept;
    SharesKeepMarketOk(s.w, a, m, m');
    BoughtLeavesOthers(s, e, a, k, token', m');
    BuyKeepsBalance(s.w.tokens[m.token], token', a, m, m', s.books[a], e.caller, k);
    hide Bought;
    InstallKeepsInvariant(s, e, a, token', m');
  }

  lemma BuyKeepsInvariant(s: State, e: Event, a: Address, k: uint256)
    requires Invariant(s) && e.step == Buy(a, k) && Try(s.w, e).Done?
    ensures Invariant(TryState(s, e))
  {
    hide Invariant, Try;
    TryBuy(s.w, e, a, k);
    OneMarket(s, a);
    hide BuyCompleteSets, Post, Bought, Balanced;
    var m := s.w.markets[a];
    BuyExact(s.w.controller, s.w.tokens[m.token], a, m, e.caller, k);
    var (token', m') := BuyCompleteSets(s.w.controller, s.w.tokens[m.token], a, m, e.caller, k).value;
    BoughtKeepsInvariant(s, e, a, k, token', m');
  }

  lemma TrySell(w: World, e: Event, a: Address, k: uint256)
    requires e.step == Sell(a, k) && Try(w, e).Done?
    ensures MayCall(e.caller) && a in w.markets && w.markets[a].token in w.tokens
    ensures var r := SellCompleteSets(w.controller, w.tokens[w.markets[a].token], a, w.markets[a], e.caller, k);
      r.Done? && Try(w, e) == Done(w.Install(a, r.value.0, r.value.1))
    ensures !w.controller.stopped && w.IsLegit(a)
  {
    hide SellCompleteSets, AssertBalances;
  }

  lemma SoldLeavesOthers(s: State, e: Event, a: Address, k: uint256, token': Ledger, m': Market, gross: nat)
    requires MayCall(e.caller) && e.step == Sell(a, k) && s.books.Keys == s.w.markets.Keys
    requires a in s.w.markets && s.w.markets[a].token in s.w.tokens
    requires s.w.markets[a].mailbox.Mailbox? && forall b :: b in s.w.markets ==> b.Contract?
    requires Sold(s.w.tokens[s.w.markets[a].token], token', a, s.w.markets[a], m', e.caller, k, gross)
    ensures SpendersKept(s.w.tokens[s.w.markets[a].token], token', a)
    ensures OthersKept(s, e, a, s.w.markets[a].token, token')
  {
  }

  lemma SoldKeepsInvariant(s: State, e: Event, a: Address, k: uint256, token': Ledger, m': Market)
    requires Invariant(s) && MayCall(e.caller) && e.step == Sell(a, k)
    requires a in s.w.markets && s.w.markets[a].token in s.w.tokens
    requires token'.Sound() && AllSound(m'.shares)
    requires |s.w.markets[a].shares| > 0 ==> k <= s.w.markets[a].shares[0].Balance(e.caller)
    requires 0 <= k * s.w.markets[a].numTicks
    requires Sold(s.w.tokens[s.w.markets[a].token], token', a, s.w.markets[a], m', e.caller, k,
        k * s.w.markets[a].numTicks)
    ensures var w' := s.w.Install(a, token', m'); Invariant(State(w', Post(s, e, w')))
  {
    hide Invariant, Balanced, Post, OthersKept, SpendersKept, Paid, Spent, Market.DeriveFee;
    OneMarket(s, a);
    var m := s.w.markets[a];
    assert m.mailbox.Mailbox? && |m.shares| > 0 && m.shares[0].Sound();
    hide MarketOk;
    SharesKeepMarketOk(s.w, a, m, m');
    SoldLeavesOthers(s, e, a, k, token', m', k * m.numTicks);
    SellKeepsBalance(s.w.tokens[m.token], token', a, m, m', s.books[a], e.caller, k);
    hide Sold;
    InstallKeepsInvariant(s, e, a, token', m');
  }

  lemma SellKeepsInvariant(s: State, e: Event, a: Address, k: uint256)
    requires Invariant(s) && e.step == Sell(a, k) && Try(s.w, e).Done?
    ensures Invariant(TryState(s, e))
  {
    hide Invariant, Try;
    TrySell(s.w, e, a, k);
    OneMarket(s, a);
    hide SellCompleteSets, Post, Sold, Balanced;
    var m := s.w.markets[a];
    SellExact(s.w.controller, s.w.tokens[m.token], a, m, e.caller, k);
    var (token', m') := SellCompleteSets(s.w.controller, s.w.tokens[m.token], a, m, e.caller, k).value;
    SoldKeepsInvariant(s, e, a, k, token', m');
  }

  lemma TryClaim(w: World, e: Event, a: Address, holder: Address)
    requires e.step == Step.Claim(a, holder) && Try(w, e).Done?
    ensures MayCall(e.caller) && a in w.markets && w.markets[a].token in w.tokens
    ensures var r := ClaimFrom(w.controller, w.tokens[w.markets[a].token], a, w.markets[a], holder, 0);
      r.Done? && Try(w, e) == Done(w.Install(a, r.value.0, r.value.1))
    ensures !w.controller.stopped && w.IsLegit(a) && e.now > w.markets[a].resolutionTime
  {
    hide ClaimFrom, AssertBalances;
  }

  /** A claim on a market that is not resolved fails, whatever the time. */
  lemma UnresolvedClaimFails(c: Controller, token: Ledger, a: Address, m: Market, holder: Address)
    requires !m.IsResolved() && |m.shares| > 0
    ensures ClaimFrom(c, token, a, m, holder, 0).Reverted?
  {
  }

  /** What a completed claim does to the token and the market. */
  ghost predicate Claimed(token: Ledger, token': Ledger, a: Address, m: Market, m': Market, holder: Address) {
    && |m.payouts| == |m.shares|
    && m' == m.(shares := m'.shares)
    && AllDestroyed(m.shares, m'.shares, holder, 0)
    && PaysFrom(token, token', a, m, holder, 0)
  }

  lemma ClaimedLeavesOthers(s: State, e: Event, a: Address, holder: Address, token': Ledger, m': Market)
    requires MayCall(e.caller) && e.step == Step.Claim(a, holder) && s.books.Keys == s.w.markets.Keys
    requires a in s.w.markets && s.w.markets[a].token in s.w.tokens
    requires s.w.markets[a].mailbox.Mailbox? && forall b :: b in s.w.markets ==> b.Contract?
    requires Claimed(s.w.tokens[s.w.markets[a].token], token', a, s.w.markets[a], m', holder)
    ensures SpendersKept(s.w.tokens[s.w.markets[a].token], token', a)
    ensures OthersKept(s, e, a, s.w.markets[a].token, token')
  {
    hide AllDestroyed, Dot, Fees;
  }

  lemma ClaimedKeepsInvariant(s: State, e: Event, a: Address, holder: Address, token': Ledger, m': Market)
    requires Invariant(s) && MayCall(e.caller) && e.step == Step.Claim(a, holder)
    requires a in s.w.markets && s.w.markets[a].token in s.w.tokens && s.w.markets[a].IsResolved()
    requires token'.Sound() && AllSound(m'.shares)
    requires Claimed(s.w.tokens[s.w.markets[a].token], token', a, s.w.markets[a], m', holder)
    ensures var w' := s.w.Install(a, token', m'); Invariant(State(w', Post(s, e, w')))
  {
    hide Invariant;
    OneMarket(s, a);
    var m := s.w.markets[a];
    assert m.mailbox.Mailbox?;
    hide Balanced, Post, MarketOk, OthersKept, SpendersKept;
    assert MarketOk(s.w, a, m') by {
      SharesKeepMarketOk(s.w, a, m, m');
    }
    ClaimedLeavesOthers(s, e, a, holder, token', m');
    ClaimKeepsBalance(s.w.tokens[m.token], token', a, m, m', s.books[a], holder);
    hide Claimed;
    InstallKeepsInvariant(s, e, a, token', m');
  }

  lemma ClaimKeepsInvariant(s: State, e: Event, a: Address, holder: Address)
    requires Invariant(s) && e.step == Step.Claim(a, holder) && Try(s.w, e).Done?
    ensures Invariant(TryState(s, e))
  {
    hide Invariant, Try;
    TryClaim(s.w, e, a, holder);
    OneMarket(s, a);
    var m := s.w.markets[a];
    hide ClaimFrom, Post, Balanced, Dot, Fees;
    if !m.IsResolved() {
      UnresolvedClaimFails(s.w.controller, s.w.tokens[m.token], a, m, holder);
    }
    ClaimFromDestroys(s.w.controller, s.w.tokens[m.token], a, m, holder, 0);
    ClaimFromPays(s.w.controller, s.w.tokens[m.token], a, m, holder, 0);
    var (token', m') := ClaimFrom(s.w.controller, s.w.tokens[m.token], a, m, holder, 0).value;
    ClaimedKeepsInvariant(s, e, a, holder, token', m');
  }

  // Resolving and approving.

  lemma TryResolve(w: World, e: Event, a: Address, payouts: seq<uint256>, invalid: bool)
    requires e.step == Step.Resolve(a, payouts, invalid) && Try(w, e).Done?
    ensures a in w.markets
    ensures var m := w.markets[a];
      && !m.IsResolved() && e.now > m.endTime && e.caller == m.oracle && !w.controller.stopped
      && VerifyResolution(m, payouts, invalid).Done?
      && Try(w, e).value == w.(markets :=
          w.markets[a := m.(resolutionTime := e.now, payouts := payouts, invalid := invalid)])
  {
    hide VerifyResolution;
  }

  lemma QuietLeavesOthers(s: State, e: Event, a: Address, t: Address, token': Ledger)
    requires s.books.Keys == s.w.markets.Keys && t in s.w.tokens
    requires e.step.Resolve? || e.step.ApproveSpenders?
    requires SameBalances(s.w.tokens[t], token')
    ensures OthersKept(s, e, a, t, token')
    ensures a in s.w.markets ==> Entry(s.w, e, a, s.books[a]) == s.books[a]
  {
  }

  /** A transaction that touches one market and no token. */
  lemma MarketStepKeepsInvariant(s: State, e: Event, a: Address, m': Market)
    requires Invariant(s) && a in s.w.markets && e.step.Resolve?
    requires s.w.markets[a].token in s.w.tokens && m'.token == s.w.markets[a].token
    requires MarketOk(s.w, a, m') && Balanced(s.w.tokens[m'.token], a, m', s.books[a])
    ensures var w' := s.w.(markets := s.w.markets[a := m']); Invariant(State(w', Post(s, e, w')))
  {
    hide Invariant;
    OneMarket(s, a);
    var token := s.w.tokens[m'.token];
    QuietLeavesOthers(s, e, a, m'.token, token);
    hide Post, MarketOk, Balanced, OthersKept, Entry;
    InstallKeepsInvariant(s, e, a, token, m');
    assert s.w.tokens[m'.token := token] == s.w.tokens;
  }

  lemma ResolveKeepsInvariant(s: State, e: Event, a: Address, payouts: seq<uint256>, invalid: bool)
    requires Invariant(s) && e.step == Step.Resolve(a, payouts, invalid) && Try(s.w, e).Done?
    ensures Invariant(TryState(s, e))
  {
    hide Invariant, Try;
    TryResolve(s.w, e, a, payouts, invalid);
    OneMarket(s, a);
    var m := s.w.markets[a];
    var m' := m.(resolutionTime := e.now, payouts := payouts, invalid := invalid);
    hide Post;
    VerifyResolutionExact(m, payouts, invalid);
    ResolveKeepsBalance(s.w.tokens[m.token], a, m, m', s.books[a]);
    MarketStepKeepsInvariant(s, e, a, m');
  }

  lemma ApproveAllDoes(c: Controller, token: Ledger, self: Address)
    requires Deployed(c)
    ensures ApproveAll(c, token, self).Done? <==> !c.stopped && self != Null
    ensures ApproveAll(c, token, self).Done? ==>
      var token' := ApproveAll(c, token, self).value;
      && token'.balances == token.balances && token'.totalSupply == token.totalSupply && token'.owner == token.owner
      && forall o, x :: token'.Allowance(o, x) ==
           if o == self && x in {COMPLETE_SETS, CLAIM_TRADING_PROCEEDS} then MAX_WORD else token.Allowance(o, x)
  {
    if !c.stopped && self != Null {
      ApproveSets(token, self, COMPLETE_SETS, MAX_WORD);
      ApproveSets(token.Approve(self, COMPLETE_SETS, MAX_WORD).value, self, CLAIM_TRADING_PROCEEDS, MAX_WORD);
    }
  }

  lemma TryApprove(w: World, e: Event, a: Address)
    requires e.step == Step.ApproveSpenders(a) && Try(w, e).Done?
    ensures a in w.markets && w.markets[a].token in w.tokens
    ensures var r := ApproveAll(w.controller, w.tokens[w.markets[a].token], a);
      r.Done? && Try(w, e) == Done(w.Install(a, r.value, w.markets[a]))
  {
    hide ApproveAll;
  }

  lemma ApproveKeepsInvariant(s: State, e: Event, a: Address)
    requires Invariant(s) && e.step == Step.ApproveSpenders(a) && Try(s.w, e).Done?
    ensures Invariant(TryState(s, e))
  {
    hide Invariant, Try, Post, MarketOk, ApproveAll, Balanced, OthersKept;
    TryApprove(s.w, e, a);
    OneMarket(s, a);
    var m := s.w.markets[a];
    var token := s.w.tokens[m.token];
    var token' := ApproveAll(s.w.controller, token, a).value;
    ApproveAllDoes(s.w.controller, token, a);
    QuietLeavesOthers(s, e, a, m.token, token');
    GiftKeepsBalance(token, token', a, m, s.books[a], 0);
    InstallKeepsInvariant(s, e, a, token', m);
  }

  // Share tokens.

  lemma UnownedCall(l: Ledger, caller: Address, call: Call)
    requires l.Sound() && l.owner == Null && caller != Null && Apply(l, caller, call).Done?
    ensures var l' := Apply(l, caller, call).value;
      l'.Sound() && l'.owner == Null && l'.totalSupply == l.totalSupply
  {
    ApplySound(l, caller, call);
  }

  lemma SupplyKeepsBalance(token: Ledger, a: Address, m: Market, m': Market, b: Book)
    requires Balanced(token, a, m, b) && m' == m.(shares := m'.shares) && |m'.shares| == |m.shares|
    requires forall i :: 0 <= i < |m.shares| ==> m'.shares[i].totalSupply == m.shares[i].totalSupply
    ensures Balanced(token, a, m', b)
  {
    if m.IsResolved() {
      DotSame(Supplies(m'.shares), Supplies(m.shares), m.payouts, 0);
    }
  }

  // Calls on tokens.

  /** A call by anyone can only add to what a contract holds that has not
      approved the caller, and approves nobody on its behalf. */
  lemma ForeignCall(l: Ledger, caller: Address, call: Call, k: nat)
    requires l.Sound() && MayCall(caller) && Apply(l, caller, call).Done?
    requires l.Allowance(Contract(k), caller) == 0
    ensures var l' := Apply(l, caller, call).value;
      && l'.Balance(Contract(k)) == l.Balance(Contract(k)) +
           (match call
            case Transfer(to, amount) => if to == Contract(k) then amount else 0
            case TransferFrom(from, to, amount) => if to == Contract(k) then amount else 0
            case _ => 0)
      && forall x :: l'.Allowance(Contract(k), x) == l.Allowance(Contract(k), x)
  {
    var l' := Apply(l, caller, call).value;
    match call
    case Transfer(to, amount) =>
      TransferExact(l, caller, to, amount);
    case TransferFrom(from, to, amount) =>
      TransferFromExact(l, caller, from, to, amount);
      MovedAt(l, l', from, to, amount, Contract(k));
    case Mint(amount) =>
      MintExact(l, caller, amount);
    case _ =>
  }

  lemma TryTokenCall(w: World, e: Event, t: Address, call: Call)
    requires e.step == TokenCall(t, call) && Try(w, e).Done?
    ensures MayCall(e.caller) && t in w.tokens
    ensures var r := Apply(w.tokens[t], e.caller, call);
      r.Done? && Try(w, e).value == w.(tokens := w.tokens[t := r.value])
  {
    hide Apply;
  }

  lemma TokenCallKeepsBalanceOf(s: State, e: Event, t: Address, call: Call, token': Ledger, b: Address)
    requires OnlySpenders(s.w) && TokensSound(s.w) && AllBalanced(s)
    requires b in s.w.markets && b.Contract? && s.w.markets[b].token in s.w.tokens
    requires MayCall(e.caller) && e.step == TokenCall(t, call) && t in s.w.tokens
    requires Apply(s.w.tokens[t], e.caller, call) == Done(token')
    ensures Balanced(s.w.tokens[t := token'][s.w.markets[b].token], b, s.w.markets[b], Entry(s.w, e, b, s.books[b]))
  {
    hide Apply, Balanced;
    var tb := s.w.markets[b].token;
    if tb == t {
      ForeignCall(s.w.tokens[t], e.caller, call, b.id);
    }
    GiftKeepsBalance(s.w.tokens[tb], s.w.tokens[t := token'][tb], b, s.w.markets[b], s.books[b], Gift(s.w, e, b));
  }

  lemma TokenCallKeepsBalances(s: State, e: Event, t: Address, call: Call, token': Ledger)
    requires MarketsOk(s.w) && AllBalanced(s) && OnlySpenders(s.w) && TokensSound(s.w)
    requires MayCall(e.caller) && e.step == TokenCall(t, call) && t in s.w.tokens
    requires Apply(s.w.tokens[t], e.caller, call) == Done(token')
    ensures var w' := s.w.(tokens := s.w.tokens[t := token']); AllBalanced(State(w', Post(s, e, w')))
  {
    var w' := s.w.(tokens := s.w.tokens[t := token']);
    var s' := State(w', Post(s, e, w'));
    assert s'.books.Keys == w'.markets.Keys;
    hide Balanced, Apply, OnlySpenders, TokensSound, Entry;
    forall b | b in w'.markets && w'.markets[b].token in w'.tokens
      ensures Balanced(w'.tokens[w'.markets[b].token], b, w'.markets[b], s'.books[b])
    {
      assert MarketOk(s.w, b, s.w.markets[b]);
      TokenCallKeepsBalanceOf(s, e, t, call, token', b);
    }
  }

  lemma TokenCallKeepsSpenders(w: World, caller: Address, t: Address, call: Call, token': Ledger)
    requires OnlySpenders(w) && TokensSound(w) && MayCall(caller) && t in w.tokens
    requires Apply(w.tokens[t], caller, call) == Done(token')
    ensures OnlySpenders(w.(tokens := w.tokens[t := token']))
  {
    hide Apply;
    forall k: nat, x | token'.Allowance(Contract(k), x) > 0
      ensures w.tokens[t].Allowance(Contract(k), x) > 0
    {
      ForeignCall(w.tokens[t], caller, call, k);
    }
  }

  lemma TokenCallKeepsInvariant(s: State, e: Event, t: Address, call: Call)
    requires Invariant(s) && e.step == TokenCall(t, call) && Try(s.w, e).Done?
    ensures Invariant(TryState(s, e))
  {
    hide Try;
    TryTokenCall(s.w, e, t, call);
    hide Apply, AllBalanced, OnlySpenders, MarketOk, Post;
    var token' := Apply(s.w.tokens[t], e.caller, call).value;
    ApplySound(s.w.tokens[t], e.caller, call);
    TokenCallKeepsBalances(s, e, t, call, token');
    TokenCallKeepsSpenders(s.w, e.caller, t, call, token');
    TokensKeepMarkets(s.w, t, token');
  }

  lemma TokensKeepMarkets(w: World, t: Address, token': Ledger)
    requires MarketsOk(w) && t in w.tokens
    ensures MarketsOk(w.(tokens := w.tokens[t := token']))
  {
    var w' := w.(tokens := w.tokens[t := token']);
    forall a | a in w'.markets
      ensures MarketOk(w', a, w'.markets[a])
    {
      assert MarketOk(w, a, w.markets[a]);
    }
  }

  // The controller, and new universes.

  ghost predicate SameState(w: World, w': World) {
    && w'.tokens == w.tokens && w'.markets == w.markets && w'.next >= w.next && Deployed(w'.controller)
  }

  lemma SameStateKeepsMarkets(w: World, w': World)
    requires MarketsOk(w) && SameState(w, w')
    ensures MarketsOk(w')
  {
    forall a | a in w'.markets
      ensures MarketOk(w', a, w'.markets[a])
    {
      assert MarketOk(w, a, w.markets[a]);
    }
  }

  lemma SameStateKeepsBooks(s: State, e: Event, w': World)
    requires AllBalanced(s) && SameState(s.w, w') && ControlStep(e.step)
    ensures Post(s, e, w') == s.books
    ensures AllBalanced(State(w', s.books))
  {
    hide Balanced, HeldBy;
  }

  lemma SameStateKeepsInvariant(s: State, e: Event, w': World)
    requires Invariant(s) && SameState(s.w, w') && ControlStep(e.step)
    ensures Invariant(State(w', Post(s, e, w')))
  {
    hide AllBalanced, MarketsOk, Post;
    SameStateKeepsMarkets(s.w, w');
    SameStateKeepsBooks(s, e, w');
  }

  predicate ControlStep(step: Step) {
    || step.AddToWhitelist? || step.RemoveFromWhitelist? || step.RegisterContract? || step.TransferControl?
    || step.EmergencyStop? || step.CreateUniverse?
  }

  lemma TryControl(w: World, e: Event)
    requires ControlStep(e.step) && Deployed(w.controller) && Try(w, e).Done?
    ensures SameState(w, Try(w, e).value)
  {
  }

  // New markets.

  predicate CreateStep(step: Step) {
    step.CreateYesNoMarket? || step.CreateCategoricalMarket? || step.CreateScalarMarket?
  }

  /** What a completed creation did: it registered one fresh market with 10000
      ticks, or with two outcomes and an even number of ticks. */
  ghost predicate Created(w: World, w': World, terms: Terms, n: uint256, ticks: uint256) {
    var self := Contract(w.next);
    var m := NewMarket(terms, w.next, n, ticks);
    && !w.controller.stopped
    && m.Configured() && 0 < terms.endTime
    && (ticks == 10000 || (n == 2 && ticks % 2 == 0))
    && terms.universe in w.universes && w.universes[terms.universe].token == terms.token
    && terms.token in w.tokens
    && var approved := ApproveAll(w.controller, w.tokens[terms.token], self);
    && approved.Done?
    && var u := w.universes[terms.universe];
    && w' == w.(tokens := w.tokens[terms.token := approved.value],
                universes := w.universes[terms.universe := u.(markets := u.markets + {self})],
                markets := w.markets[self := m],
                next := w.next + 1 + n)
  }

  lemma TryCreate(w: World, e: Event) returns (terms: Terms, n: uint256, ticks: uint256)
    requires CreateStep(e.step) && Try(w, e).Done?
    ensures Created(w, Try(w, e).value, terms, n, ticks)
  {
    hide ApproveAll;
    match e.step
    case CreateYesNoMarket(ts) => terms, n, ticks := ts, 2, 10000;
    case CreateCategoricalMarket(ts, outcomes) => terms, n, ticks := ts, outcomes, 10000;
    case CreateScalarMarket(ts, _, _, numTicks) => terms, n, ticks := ts, 2, numTicks;
  }

  lemma NewMarketOk(w: World, w': World, terms: Terms, n: uint256, ticks: uint256)
    requires Created(w, w', terms, n, ticks)
    ensures MarketOk(w', Contract(w.next), w'.markets[Contract(w.next)])
  {
    hide ApproveAll;
    assert Total(EMPTY.balances) == 0;
  }

  lemma NewMarketBalanced(token: Ledger, id: nat, terms: Terms, n: uint256, ticks: uint256)
    ensures Balanced(token, Contract(id), NewMarket(terms, id, n, ticks), Book(0, 0, token.Balance(Contract(id)), 0))
  {
  }

  lemma FreshAddress(w: World)
    requires MarketsOk(w)
    ensures Contract(w.next) !in w.markets
  {
    forall a | a in w.markets
      ensures a != Contract(w.next)
    {
      assert MarketOk(w, a, w.markets[a]);
    }
  }

  lemma CreatedKeepsMarkets(w: World, w': World, terms: Terms, n: uint256, ticks: uint256)
    requires MarketsOk(w) && Created(w, w', terms, n, ticks)
    ensures MarketsOk(w')
  {
    NewMarketOk(w, w', terms, n, ticks);
    hide ApproveAll, NewMarket;
    forall a | a in w'.markets && a != Contract(w.next)
      ensures MarketOk(w', a, w'.markets[a])
    {
      assert MarketOk(w, a, w.markets[a]);
    }
  }

  lemma CreatedKeepsSpenders(w: World, w': World, terms: Terms, n: uint256, ticks: uint256)
    requires Deployed(w.controller) && OnlySpenders(w) && MarketsOk(w) && Created(w, w', terms, n, ticks)
    ensures OnlySpenders(w')
  {
    var self := Contract(w.next);
    ApproveAllDoes(w.controller, w.tokens[terms.token], self);
    hide ApproveAll;
    FreshAddress(w);
  }

  lemma CreatedKeepsBalanceOf(s: State, e: Event, w': World, terms: Terms, n: uint256, ticks: uint256, b: Address)
    requires AllBalanced(s) && Deployed(s.w.controller) && b in s.w.markets && s.w.markets[b].token in s.w.tokens
    requires CreateStep(e.step) && Created(s.w, w', terms, n, ticks)
    ensures s.w.markets[b].token in w'.tokens
    ensures Balanced(w'.tokens[s.w.markets[b].token], b, s.w.markets[b], s.books[b])
    ensures Entry(s.w, e, b, s.books[b]) == s.books[b]
  {
    var t := s.w.markets[b].token;
    assert Balanced(s.w.tokens[t], b, s.w.markets[b], s.books[b]);
    hide ApproveAll, NewMarket, Balanced;
    ApproveAllDoes(s.w.controller, s.w.tokens[terms.token], Contract(s.w.next));
    GiftKeepsBalance(s.w.tokens[t], w'.tokens[t], b, s.w.markets[b], s.books[b], 0);
  }

  lemma CreatedKeepsBalances(s: State, e: Event, w': World, terms: Terms, n: uint256, ticks: uint256)
    requires MarketsOk(s.w) && AllBalanced(s) && Deployed(s.w.controller)
    requires CreateStep(e.step) && Created(s.w, w', terms, n, ticks)
    ensures AllBalanced(State(w', Post(s, e, w')))
  {
    var self := Contract(s.w.next);
    var s' := State(w', Post(s, e, w'));
    FreshAddress(s.w);
    NewMarketBalanced(w'.tokens[terms.token], s.w.next, terms, n, ticks);
    hide ApproveAll, NewMarket, Balanced, Entry;
    assert s'.books.Keys == w'.markets.Keys;
    forall b | b in w'.markets && w'.markets[b].token in w'.tokens
      ensures Balanced(w'.tokens[w'.markets[b].token], b, w'.markets[b], s'.books[b])
    {
      if b != self {
        assert MarketOk(s.w, b, s.w.markets[b]);
        CreatedKeepsBalanceOf(s, e, w', terms, n, ticks, b);
      }
    }
  }

  lemma CreatedKeepsTokens(w: World, w': World, terms: Terms, n: uint256, ticks: uint256)
    requires Deployed(w.controller) && TokensSound(w) && Created(w, w', terms, n, ticks)
    ensures TokensSound(w') && Deployed(w'.controller)
  {
    ApproveAllDoes(w.controller, w.tokens[terms.token], Contract(w.next));
    hide ApproveAll, NewMarket;
  }

  lemma CreateKeepsInvariant(s: State, e: Event)
    requires Invariant(s) && CreateStep(e.step) && Try(s.w, e).Done?
    ensures Invariant(TryState(s, e))
  {
    hide Try;
    var terms, n, ticks := TryCreate(s.w, e);
    var w' := Try(s.w, e).value;
    hide Created, AllBalanced, OnlySpenders, Post, MarketsOk, TokensSound;
    CreatedKeepsMarkets(s.w, w', terms, n, ticks);
    CreatedKeepsSpenders(s.w, w', terms, n, ticks);
    CreatedKeepsBalances(s, e, w', terms, n, ticks);
    CreatedKeepsTokens(s.w, w', terms, n, ticks);
  }

  // Every transaction.

  /** No share token is initialized twice, whoever tries. */
  lemma InitializeShareFails(s: State, e: Event)
    requires Invariant(s) && e.step.InitializeShare?
    ensures Try(s.w, e) == Reverted(Require)
  {
    if e.step.market in s.w.markets {
      assert MarketOk(s.w, e.step.market, s.w.markets[e.step.market]);
    }
  }

  lemma TryKeepsInvariant(s: State, e: Event)
    requires Invariant(s)
    ensures Invariant(TryState(s, e))
  {
    if Try(s.w, e).Done? {
      match e.step
      case Buy(a, k) => BuyKeepsInvariant(s, e, a, k);
      case Sell(a, k) => SellKeepsInvariant(s, e, a, k);
      case Claim(a, holder) => ClaimKeepsInvariant(s, e, a, holder);
      case Resolve(a, payouts, invalid) => ResolveKeepsInvariant(s, e, a, payouts, invalid);
      case ApproveSpenders(a) => ApproveKeepsInvariant(s, e, a);
      case TokenCall(t, call) => TokenCallKeepsInvariant(s, e, t, call);
      case InitializeShare(_, _, _, _) => InitializeShareFails(s, e);
      case CreateYesNoMarket(_) => CreateKeepsInvariant(s, e);
      case CreateCategoricalMarket(_, _) => CreateKeepsInvariant(s, e);
      case CreateScalarMarket(_, _, _, _) => CreateKeepsInvariant(s, e);
      case _ =>
        TryControl(s.w, e);
        SameStateKeepsInvariant(s, e, Try(s.w, e).value);
    }
  }
}
