/** How the ways in and out of a market compare: buying then selling, claiming
    a complete set against selling it, and what rounding leaves behind. */
module Trades {
  import opened Foundations
  import opened Sums
  import opened Ledgers
  import opened Markets
  import opened Controllers
  import opened CompleteSets
  import opened ClaimTradingProceeds
  import opened Protocol
  import opened Escrow
  import opened EscrowRuns
  import opened Settlement
  import opened Payouts
  import Arithmetic

  /** w' is w after a purchase (or a sale) of k complete sets. */
  ghost predicate AfterBuy(w: World, w': World, a: Address, sender: Address, k: uint256) {
    && a in w.markets && w.markets[a].token in w.tokens && a in w'.markets && w.markets[a].token in w'.tokens
    && w' == w.Install(a, w'.tokens[w.markets[a].token], w'.markets[a])
    && Bought(w.tokens[w.markets[a].token], w'.tokens[w.markets[a].token], a, w.markets[a], w'.markets[a], sender, k)
  }

  ghost predicate AfterSell(w: World, w': World, a: Address, sender: Address, k: uint256) {
    && a in w.markets && w.markets[a].token in w.tokens && a in w'.markets && w.markets[a].token in w'.tokens
    && 0 <= k * w.markets[a].numTicks
    && w' == w.Install(a, w'.tokens[w.markets[a].token], w'.markets[a])
    && Sold(w.tokens[w.markets[a].token], w'.tokens[w.markets[a].token], a, w.markets[a], w'.markets[a], sender, k,
        k * w.markets[a].numTicks)
  }

  lemma BuyDoes(s: State, e: Event, a: Address, k: uint256)
    requires Invariant(s) && e.step == Buy(a, k) && Try(s.w, e).Done?
    ensures AfterBuy(s.w, Try(s.w, e).value, a, e.caller, k)
  {
    hide Invariant, Try;
    TryBuy(s.w, e, a, k);
    OneMarket(s, a);
    hide BuyCompleteSets, Bought, Balanced;
    BuyExact(s.w.controller, s.w.tokens[s.w.markets[a].token], a, s.w.markets[a], e.caller, k);
  }

  lemma SellDoes(s: State, e: Event, a: Address, k: uint256)
    requires Invariant(s) && e.step == Sell(a, k) && Try(s.w, e).Done?
    ensures AfterSell(s.w, Try(s.w, e).value, a, e.caller, k)
  {
    hide Invariant, Try;
    TrySell(s.w, e, a, k);
    OneMarket(s, a);
    hide SellCompleteSets, Sold, Balanced;
    SellExact(s.w.controller, s.w.tokens[s.w.markets[a].token], a, s.w.markets[a], e.caller, k);
  }

  /** After a purchase, selling the sets back needs nothing but the market's
      allowance to CompleteSets, and that the market was backed before, as it
      always is if it lost nothing. */
  lemma SaleAfterBuySucceeds(s: State, buy: Event, sell: Event, a: Address, k: uint256)
    requires Invariant(s) && buy.step == Buy(a, k) && sell.step == Sell(a, k) && buy.caller == sell.caller
    requires Try(s.w, buy).Done?
    ensures a in s.w.markets && s.w.markets[a].token in s.w.tokens && a in s.books
    ensures Try(Try(s.w, buy).value, sell).Done? <==>
      && k * s.w.markets[a].numTicks <= s.w.tokens[s.w.markets[a].token].Allowance(a, COMPLETE_SETS)
      && Backed(s.w.markets[a], s.books[a])
  {
    hide Try, Invariant, BuyCompleteSets, CanBuy, CanSell, AfterBuy, Balanced;
    TryBuy(s.w, buy, a, k);
    BuySucceeds(s, buy, a, k);
    BuyDoes(s, buy, a, k);
    BuyKeepsInvariant(s, buy, a, k);
    var s1 := TryState(s, buy);
    SellSucceeds(s1, sell, a, k);
    OneMarket(s, a);
    BoughtAllowsSale(s.w, s1.w, a, sell.caller, k);
    SameSets(s.w, s1.w, a, sell.caller, k, s.books[a]);
  }

  /** Sets bought and sold again cancel in the books. */
  lemma SameSets(w: World, w1: World, a: Address, sender: Address, k: uint256, b: Book)
    requires AfterBuy(w, w1, a, sender, k)
    ensures Backed(w1.markets[a], b.(bought := b.bought + k, sold := b.sold + k)) == Backed(w.markets[a], b)
  {
    hide Moved, Spent, AllIssued;
  }

  lemma BoughtAllowsSale(w: World, w1: World, a: Address, sender: Address, k: uint256)
    requires AfterBuy(w, w1, a, sender, k) && a.Contract? && MayCall(sender)
    requires CanBuy(w.controller, w.tokens[w.markets[a].token], a, w.markets[a], sender, k)
    ensures var t := w.markets[a].token;
      CanSell(w1.controller, w1.tokens[t], a, w1.markets[a], sender, k) <==>
        k * w.markets[a].numTicks <= w.tokens[t].Allowance(a, COMPLETE_SETS)
  {
    var token, token1 := w.tokens[w.markets[a].token], w1.tokens[w.markets[a].token];
    MovedAt(token, token1, sender, a, k * w.markets[a].numTicks, a);
    forall j | 0 <= j < |w.markets[a].shares|
      ensures k <= w1.markets[a].shares[j].Balance(sender)
    {
      assert Issued(w.markets[a].shares[j], w1.markets[a].shares[j], sender, k);
    }
  }

  /** Buying k sets and selling them again restores the escrow, every supply
      and every share balance. The trader is down by one part in feeDivisor of
      what the sets cost, rounded down, and the creator's mailbox up by it (by
      nothing if there is no divisor); nobody else is touched. */
  lemma BuyThenSell(s: State, buy: Event, sell: Event, a: Address, k: uint256)
    requires Invariant(s) && buy.step == Buy(a, k) && sell.step == Sell(a, k) && buy.caller == sell.caller
    requires Try(s.w, buy).Done? && Try(Try(s.w, buy).value, sell).Done?
    ensures var w2 := Try(Try(s.w, buy).value, sell).value;
      && a in s.w.markets && a in w2.markets && s.w.markets[a].token in s.w.tokens && s.w.markets[a].token in w2.tokens
      && var (m, m2) := (s.w.markets[a], w2.markets[a]);
      && var (token, token2) := (s.w.tokens[m.token], w2.tokens[m.token]);
      && SameShares(m.shares, m2.shares)
      && Bill(m, k * m.numTicks, token, token2, buy.caller)
  {
    hide Try, Invariant;
    BuyDoes(s, buy, a, k);
    BuyKeepsInvariant(s, buy, a, k);
    var s1 := TryState(s, buy);
    SellDoes(s1, sell, a, k);
    var w2 := Try(s1.w, sell).value;
    BackAndForth(s.w, s1.w, w2, a, buy.caller, k);
    var m := s.w.markets[a];
    FeeExact(m, k * m.numTicks, m.DeriveFee(k * m.numTicks));
  }

  /** The trader paid the creator's fee on the amount, and nothing else moved. */
  ghost predicate Bill(m: Market, amount: int, token: Ledger, token2: Ledger, trader: Address) {
    var loss := token.Balance(trader) - token2.Balance(trader);
    && 0 <= amount
    && (trader != m.mailbox ==>
         IsFee(m, amount, loss) && token2.Balance(m.mailbox) == token.Balance(m.mailbox) + loss)
    && (trader == m.mailbox ==> loss == 0)
    && forall x :: x != trader && x != m.mailbox ==> token2.Balance(x) == token.Balance(x)
  }

  lemma BackAndForth(w: World, w1: World, w2: World, a: Address, sender: Address, k: uint256)
    requires AfterBuy(w, w1, a, sender, k) && AfterSell(w1, w2, a, sender, k)
    ensures SameShares(w.markets[a].shares, w2.markets[a].shares)
    ensures var m := w.markets[a];
      && 0 <= k * m.numTicks
      && var fee := m.DeriveFee(k * m.numTicks);
      && (forall x :: w2.tokens[m.token].Balance(x) == w.tokens[m.token].Balance(x)
            - (if x == sender then fee else 0) + (if x == m.mailbox then fee else 0))
  {
    var m := w.markets[a];
    var gross: nat := k * m.numTicks;
    var fee := m.DeriveFee(gross);
    forall i | 0 <= i < |m.shares|
      ensures SameBalances(m.shares[i], w2.markets[a].shares[i]) && SameAllowances(m.shares[i], w2.markets[a].shares[i])
    {
      IssuedBack(m.shares[i], w1.markets[a].shares[i], w2.markets[a].shares[i], sender, k);
    }
    forall x
      ensures w2.tokens[m.token].Balance(x) == w.tokens[m.token].Balance(x)
        - (if x == sender then fee else 0) + (if x == m.mailbox then fee else 0)
    {
      MovedAt(w.tokens[m.token], w1.tokens[m.token], sender, a, gross, x);
      assert w2.tokens[m.token].Balance(x) ==
          w1.tokens[m.token].Balance(x) + Gain(x, a, sender, gross - fee, m.mailbox, fee);
    }
  }

  lemma IssuedBack(l: Ledger, l1: Ledger, l2: Ledger, account: Address, k: int)
    requires Issued(l, l1, account, k) && Issued(l1, l2, account, 0 - k)
    ensures SameBalances(l, l2) && SameAllowances(l, l2)
  {
  }

  // Rounding.

  /** Rounding down a sum against the sum of what was rounded down. */
  lemma FloorOfSum(m: Market, x: nat, y: nat)
    ensures m.DeriveFee(x) + m.DeriveFee(y) <= m.DeriveFee(x + y) <= m.DeriveFee(x) + m.DeriveFee(y) + 1
    ensures m.DeriveFee(0) == 0
  {
    if m.feeDivisor != 0 {
      Arithmetic.QuotientOfSum(x, y, m.feeDivisor);
      Arithmetic.QuotientIs(0, m.feeDivisor, 0);
    }
  }

  /** Fees taken outcome by outcome lose less than one token per outcome, but
      one, against the fee on the whole. */
  lemma {:induction false} FeesByOutcome(m: Market, hs: seq<uint256>, i: nat, whole: int)
    requires |hs| == |m.payouts| && i <= |hs| && IsFee(m, Dot(hs, m.payouts, i), whole)
    ensures Fees(m, hs, i) <= whole <= Fees(m, hs, i) + (if i + 1 < |hs| then |hs| - i - 1 else 0)
    decreases |hs| - i
  {
    FeeExact(m, Dot(hs, m.payouts, i), whole);
    FloorOfSum(m, 0, 0);
    if i < |hs| {
      var rest := Dot(hs, m.payouts, i + 1);
      FeeExact(m, rest, m.DeriveFee(rest));
      FeesByOutcome(m, hs, i + 1, m.DeriveFee(rest));
      Arithmetic.NonNegative(hs[i], m.payouts[i]);
      FloorOfSum(m, (hs[i] as int) * m.payouts[i], rest);
    }
  }

  /** The fees of a claim by the divisor alone: each is short of its part of the
      proceeds by less than one token. */
  lemma {:induction false} FeesByDivisor(m: Market, hs: seq<uint256>, i: nat)
    requires |hs| == |m.payouts| && i <= |hs|
    ensures m.feeDivisor == 0 ==> Fees(m, hs, i) == 0
    ensures m.feeDivisor != 0 ==>
      Fees(m, hs, i) * m.feeDivisor <= Dot(hs, m.payouts, i)
        <= Fees(m, hs, i) * m.feeDivisor + (|hs| - i) * (m.feeDivisor - 1)
    decreases |hs| - i
  {
    if i < |hs| {
      FeesByDivisor(m, hs, i + 1);
      var proceeds := Proceeds(hs[i], m.payouts[i]);
      var fee, rest := m.DeriveFee(proceeds), Fees(m, hs, i + 1);
      FeeExact(m, proceeds, fee);
      assert Fees(m, hs, i) == fee + rest && Dot(hs, m.payouts, i) == proceeds + Dot(hs, m.payouts, i + 1);
      hide Fees, Dot, Proceeds, Market.DeriveFee;
      Arithmetic.Distribute(fee, rest, m.feeDivisor);
      Arithmetic.Distribute(fee, 1, m.feeDivisor);
      Arithmetic.Distribute(|hs| - i - 1, 1, m.feeDivisor - 1);
    }
  }

  /** Claiming k of every outcome beats selling the k complete sets, when the
      payouts add up to the ticks, by less than one token per outcome. */
  lemma ClaimVersusSell(s: State, claim: Event, sell: Event, a: Address, holder: Address, k: uint256)
    requires Invariant(s) && claim.step == Step.Claim(a, holder) && sell.step == Sell(a, k) && sell.caller == holder
    requires Try(s.w, claim).Done? && Try(s.w, sell).Done?
    requires Sum(s.w.markets[a].payouts, 0) == s.w.markets[a].numTicks
    requires forall i :: 0 <= i < |s.w.markets[a].shares| ==> s.w.markets[a].shares[i].Balance(holder) == k
    ensures var t := s.w.markets[a].token;
      && a in s.w.markets && t in Try(s.w, claim).value.tokens && t in Try(s.w, sell).value.tokens
      && 0 <= Try(s.w, claim).value.tokens[t].Balance(holder) - Try(s.w, sell).value.tokens[t].Balance(holder)
           <= s.w.markets[a].numOutcomes - 1
  {
    hide Try, Invariant;
    ClaimDoes(s, claim, a, holder);
    SellDoes(s, sell, a, k);
    OneMarket(s, a);
    TrySell(s.w, sell, a, k);
    var m := s.w.markets[a];
    var hs := Holdings(m.shares, holder);
    hide Balanced;
    DotConstant(hs, k, m.payouts, 0);
    FeeExact(m, Dot(hs, m.payouts, 0), m.DeriveFee(Dot(hs, m.payouts, 0)));
    FeesByOutcome(m, hs, 0, m.DeriveFee(Dot(hs, m.payouts, 0)));
    assert Dot(hs, m.payouts, 0) == k * m.numTicks;
    ClaimBalances(s.w, Try(s.w, claim).value, a, holder, holder);
    SaleBalances(s.w, Try(s.w, sell).value, a, holder, k, holder);
  }

  lemma SaleBalances(w: World, w': World, a: Address, sender: Address, k: uint256, x: Address)
    requires AfterSell(w, w', a, sender, k)
    ensures var (m, t) := (w.markets[a], w.markets[a].token);
      && 0 <= k * m.numTicks
      && var fee := m.DeriveFee(k * m.numTicks);
      && w'.tokens[t].Balance(x) == w.tokens[t].Balance(x) + Gain(x, a, sender, k * m.numTicks - fee, m.mailbox, fee)
  {
  }

  /** What rounding strands. Yes/no and scalar markets always pay out all their
      ticks, and so does any market that is not invalid; an invalid market of n
      outcomes with 10000 ticks keeps 10000 mod n for every complete set that is
      out. Every share of an invalid market is still worth a tick. */
  lemma StrandedTicks(s: State, a: Address)
    requires Invariant(s) && a in s.w.markets && s.w.markets[a].IsResolved()
    ensures var m := s.w.markets[a];
      && (!m.invalid || m.numOutcomes == 2 ==> Sum(m.payouts, 0) == m.numTicks)
      && (m.invalid ==> m.numTicks - Sum(m.payouts, 0) == m.numTicks % m.numOutcomes)
      && (m.numOutcomes != 2 ==> m.numTicks == 10000)
      && (m.invalid ==> forall i :: 0 <= i < |m.payouts| ==> m.payouts[i] >= 1)
    ensures var (m, b) := (s.w.markets[a], s.books[a]);
      m.token in s.w.tokens && |m.payouts| == |m.shares| &&
      s.w.tokens[m.token].Balance(a) == b.gifts - b.lost + Dot(Supplies(m.shares), m.payouts, 0)
        + (b.bought - b.sold) * (if m.invalid && m.numOutcomes != 2 then 10000 % m.numOutcomes else 0)
  {
    hide Invariant;
    OneMarket(s, a);
    var m := s.w.markets[a];
    if m.invalid {
      EqualShares(m, m.payouts);
      Arithmetic.QuotientAtLeast(m.numTicks, m.numOutcomes, 1);
    }
  }
}
