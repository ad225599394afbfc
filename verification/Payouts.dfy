/** What one claim does, what a second one for the same holder does, and that the
    claims of two holders can come in either order. */
module Payouts {
  import opened Foundations
  import opened Sums
  import opened Ledgers
  import opened Markets
  import opened Controllers
  import opened CompleteSets
  import opened ClaimTradingProceeds
  import opened Protocol
  import opened Escrow
  import opened EscrowRuns
  import opened Settlement
  import Arithmetic

  /** w' is w after a claim on the market a for the holder. */
  ghost predicate AfterClaim(w: World, w': World, a: Address, holder: Address) {
    && a in w.markets && w.markets[a].token in w.tokens && w.markets[a].IsResolved() && w.markets[a].mailbox != a
    && a in w'.markets && w.markets[a].token in w'.tokens
    && w' == w.Install(a, w'.tokens[w.markets[a].token], w'.markets[a])
    && Claimed(w.tokens[w.markets[a].token], w'.tokens[w.markets[a].token], a, w.markets[a], w'.markets[a], holder)
  }

  lemma ClaimDoes(s: State, e: Event, a: Address, holder: Address)
    requires Invariant(s) && e.step == Step.Claim(a, holder) && Try(s.w, e).Done?
    ensures MayCall(e.caller) && AfterClaim(s.w, Try(s.w, e).value, a, holder)
    ensures s.w.IsLegit(a) && !s.w.controller.stopped && e.now > s.w.markets[a].resolutionTime
  {
    hide Invariant, Try;
    TryClaim(s.w, e, a, holder);
    OneMarket(s, a);
    var m := s.w.markets[a];
    assert m.mailbox.Mailbox? && AllSound(m.shares) && |m.shares| > 0;
    assert m.IsResolved() ==> |m.payouts| == |m.shares|;
    hide ClaimFrom, Balanced, Dot, Fees, MarketOk;
    if !m.IsResolved() {
      UnresolvedClaimFails(s.w.controller, s.w.tokens[m.token], a, m, holder);
    }
    ClaimFromDestroys(s.w.controller, s.w.tokens[m.token], a, m, holder, 0);
    ClaimFromPays(s.w.controller, s.w.tokens[m.token], a, m, holder, 0);
  }

  /** What a claim leaves unchanged, and what it moves. */
  lemma ClaimMoves(w: World, w': World, a: Address, holder: Address)
    requires AfterClaim(w, w', a, holder) && holder != a
    ensures var (m, m') := (w.markets[a], w'.markets[a]);
      var (token, token') := (w.tokens[m.token], w'.tokens[m.token]);
      && m' == m.(shares := m'.shares) && |m'.shares| == |m.shares|
      && token'.Balance(a) == token.Balance(a) - Worth(m, holder)
      && token'.Allowance(a, CLAIM_TRADING_PROCEEDS) == token.Allowance(a, CLAIM_TRADING_PROCEEDS) - Worth(m, holder)
      && Dot(Supplies(m.shares), m.payouts, 0) == Dot(Supplies(m'.shares), m.payouts, 0) + Worth(m, holder)
      && forall i, x :: 0 <= i < |m.shares| ==>
           m'.shares[i].Balance(x) == if x == holder then 0 else m.shares[i].Balance(x)
  {
    hide Dot, Fees;
    var m, m' := w.markets[a], w'.markets[a];
    SuppliesDestroyed(m.shares, m'.shares, holder, m.payouts);
    forall i, x | 0 <= i < |m.shares|
      ensures m'.shares[i].Balance(x) == if x == holder then 0 else m.shares[i].Balance(x)
    {
      assert Destroyed(m.shares[i], m'.shares[i], holder);
    }
  }

  // Claiming twice, and in the other order.

  lemma {:induction false} NothingToClaim(
      c: Controller, token: Ledger, self: Address, m: Market, holder: Address, i: nat)
    requires i <= |m.shares| && m.IsResolved() && |m.payouts| == |m.shares|
    requires forall j :: 0 <= j < |m.shares| ==> m.shares[j].Balance(holder) == 0
    ensures ClaimFrom(c, token, self, m, holder, i) == Done((token, m))
    decreases |m.shares| - i
  {
    if i < |m.shares| {
      assert ClaimOutcome(c, token, self, m, holder, i) == Done((token, m.shares[i])) by {
        if m.feeDivisor != 0 { Arithmetic.QuotientIs(0, m.feeDivisor, 0); }
      }
      assert m.(shares := m.shares[i := m.shares[i]]) == m;
      hide ClaimOutcome;
      NothingToClaim(c, token, self, m, holder, i + 1);
    }
  }

  lemma InstallNothing(w: World, a: Address)
    requires a in w.markets && w.markets[a].token in w.tokens
    ensures w.Install(a, w.tokens[w.markets[a].token], w.markets[a]) == w
  {
    assert w.tokens[w.markets[a].token := w.tokens[w.markets[a].token]] == w.tokens;
    assert w.markets[a := w.markets[a]] == w.markets;
  }

  /** A claim for someone who holds no shares changes nothing, and fails if the
      market is not backed. */
  lemma EmptyClaim(s: State, e: Event, a: Address, holder: Address)
    requires Invariant(s) && e.step == Step.Claim(a, holder) && MayCall(e.caller)
    requires s.w.IsLegit(a) && !s.w.controller.stopped
    requires s.w.markets[a].IsResolved() && e.now > s.w.markets[a].resolutionTime
    requires forall j :: 0 <= j < |s.w.markets[a].shares| ==> s.w.markets[a].shares[j].Balance(holder) == 0
    ensures a in s.books && (Try(s.w, e).Done? <==> Backed(s.w.markets[a], s.books[a]))
    ensures Try(s.w, e).Done? ==> Try(s.w, e) == Done(s.w)
  {
    hide Try, Invariant;
    OneMarket(s, a);
    var m := s.w.markets[a];
    var token := s.w.tokens[m.token];
    assert |m.payouts| == |m.shares|;
    hide AssertBalances, ClaimFrom, Balanced, Backed;
    NothingToClaim(s.w.controller, token, a, m, holder, 0);
    TryClaimIs(s.w, e, a, holder);
    BalancedIsSolvent(s.w, token, a, m, s.books[a]);
    hide MarketOk;
    InstallNothing(s.w, a);
  }

  lemma StaysBacked(w: World, w1: World, a: Address, holder: Address, b: Book)
    requires AfterClaim(w, w1, a, holder)
    ensures Backed(w1.markets[a], b) == Backed(w.markets[a], b)
  {
    hide PaysFrom, AllDestroyed;
  }

  /** The book of the market a through a claim. */
  lemma ClaimEntry(w: World, e: Event, a: Address, holder: Address, b: Book)
    requires e.step == Step.Claim(a, holder) && a in w.markets
    ensures holder != a ==> Entry(w, e, a, b) == b
    ensures Backed(w.markets[a], b) ==> Backed(w.markets[a], Entry(w, e, a, b))
  {
    hide Dot, Fees;
  }

  /** A second claim for the same holder changes nothing. */
  lemma ClaimTwice(s: State, e: Event, e': Event, a: Address, holder: Address)
    requires Invariant(s) && e.step == e'.step == Step.Claim(a, holder) && Try(s.w, e).Done?
    requires MayCall(e'.caller) && e'.now > s.w.markets[a].resolutionTime
    ensures Try(Try(s.w, e).value, e') == Try(s.w, e)
  {
    hide Try, Invariant;
    ClaimDoes(s, e, a, holder);
    ClaimSucceeds(s, e, a, holder);
    ClaimKeepsInvariant(s, e, a, holder);
    var w1 := Try(s.w, e).value;
    StaysBacked(s.w, w1, a, holder, Entry(s.w, e, a, s.books[a]));
    forall j | 0 <= j < |w1.markets[a].shares|
      ensures w1.markets[a].shares[j].Balance(holder) == 0
    {
      assert Destroyed(s.w.markets[a].shares[j], w1.markets[a].shares[j], holder);
    }
    EmptyClaim(TryState(s, e), e', a, holder);
  }

  function FeeTotal(m: Market, holder: Address): nat
    requires |m.payouts| == |m.shares|
  {
    Fees(m, Holdings(m.shares, holder), 0)
  }

  /** One holder's claim leaves what another's shares are worth. */
  lemma OtherHoldings(w: World, w1: World, a: Address, h1: Address, h2: Address)
    requires AfterClaim(w, w1, a, h1) && h1 != h2
    ensures |w1.markets[a].payouts| == |w1.markets[a].shares|
    ensures Worth(w1.markets[a], h2) == Worth(w.markets[a], h2)
    ensures FeeTotal(w1.markets[a], h2) == FeeTotal(w.markets[a], h2)
    ensures HolderTotal(w1.markets[a], h2) == HolderTotal(w.markets[a], h2)
  {
    hide Dot, Fees;
    var m, m1 := w.markets[a], w1.markets[a];
    var hs, hs1 := Holdings(m.shares, h2), Holdings(m1.shares, h2);
    forall i | 0 <= i < |hs|
      ensures hs1[i] == hs[i]
    {
      assert Destroyed(m.shares[i], m1.shares[i], h1);
    }
    assert hs1 == hs;
    FeesSame(m, m1, hs, hs1, 0);
  }

  lemma ClaimBalances(w: World, w': World, a: Address, holder: Address, x: Address)
    requires AfterClaim(w, w', a, holder)
    ensures var (m, t) := (w.markets[a], w.markets[a].token);
      w'.tokens[t].Balance(x) == w.tokens[t].Balance(x) + Gain(x, a, holder, HolderTotal(m, holder), m.mailbox,
          FeeTotal(m, holder))
  {
    hide Dot, Fees;
  }

  lemma ClaimAllowances(w: World, w': World, a: Address, holder: Address, o: Address, x: Address)
    requires AfterClaim(w, w', a, holder)
    ensures var (m, t) := (w.markets[a], w.markets[a].token);
      w'.tokens[t].Allowance(o, x) ==
        w.tokens[t].Allowance(o, x) - (if o == a && x == CLAIM_TRADING_PROCEEDS then Worth(m, holder) else 0)
  {
    hide Dot, Fees;
  }

  /** Two worlds that nobody can tell apart: they agree on everything but how
      the maps of the market's token and shares are written down. */
  ghost predicate SameOutcome(w: World, w': World, a: Address) {
    && a in w.markets && a in w'.markets && w.markets[a].token in w.tokens && w.markets[a].token in w'.tokens
    && w' == w.Install(a, w'.tokens[w.markets[a].token], w'.markets[a])
    && SameBalances(w.tokens[w.markets[a].token], w'.tokens[w.markets[a].token])
    && SameAllowances(w.tokens[w.markets[a].token], w'.tokens[w.markets[a].token])
    && w'.markets[a] == w.markets[a].(shares := w'.markets[a].shares)
    && SameShares(w.markets[a].shares, w'.markets[a].shares)
  }

  ghost predicate SameShares(shares: seq<Ledger>, shares': seq<Ledger>) {
    && |shares'| == |shares|
    && forall i :: 0 <= i < |shares| ==> SameBalances(shares[i], shares'[i]) && SameAllowances(shares[i], shares'[i])
  }

  lemma TokensAgree(w: World, w1: World, w12: World, w2: World, w21: World, a: Address, h1: Address, h2: Address)
    requires AfterClaim(w, w1, a, h1) && AfterClaim(w1, w12, a, h2)
    requires AfterClaim(w, w2, a, h2) && AfterClaim(w2, w21, a, h1) && h1 != h2
    ensures var t := w.markets[a].token;
      SameBalances(w12.tokens[t], w21.tokens[t]) && SameAllowances(w12.tokens[t], w21.tokens[t])
  {
    OtherHoldings(w, w1, a, h1, h2);
    OtherHoldings(w, w2, a, h2, h1);
    var t := w.markets[a].token;
    assert w21.tokens[t].totalSupply == w12.tokens[t].totalSupply;
    assert w1.markets[a].mailbox == w.markets[a].mailbox == w2.markets[a].mailbox;
    assert w1.markets[a].token == t == w2.markets[a].token;
    forall x
      ensures w21.tokens[t].Balance(x) == w12.tokens[t].Balance(x)
    {
      ClaimBalances(w, w1, a, h1, x);
      ClaimBalances(w1, w12, a, h2, x);
      ClaimBalances(w, w2, a, h2, x);
      ClaimBalances(w2, w21, a, h1, x);
    }
    forall o, x
      ensures w21.tokens[t].Allowance(o, x) == w12.tokens[t].Allowance(o, x)
    {
      ClaimAllowances(w, w1, a, h1, o, x);
      ClaimAllowances(w1, w12, a, h2, o, x);
      ClaimAllowances(w, w2, a, h2, o, x);
      ClaimAllowances(w2, w21, a, h1, o, x);
    }
  }

  lemma ShareAgrees(l: Ledger, l1: Ledger, l12: Ledger, l2: Ledger, l21: Ledger, h1: Address, h2: Address)
    requires Destroyed(l, l1, h1) && Destroyed(l1, l12, h2) && Destroyed(l, l2, h2) && Destroyed(l2, l21, h1)
        && h1 != h2
    ensures SameBalances(l12, l21) && SameAllowances(l12, l21)
  {
  }

  lemma WorldsAgree(w: World, w1: World, w12: World, w2: World, w21: World, a: Address, h1: Address, h2: Address)
    requires AfterClaim(w, w1, a, h1) && AfterClaim(w1, w12, a, h2)
    requires AfterClaim(w, w2, a, h2) && AfterClaim(w2, w21, a, h1) && h1 != h2
    ensures SameOutcome(w12, w21, a)
  {
    hide PaysFrom, SameBalances, SameAllowances;
    TokensAgree(w, w1, w12, w2, w21, a, h1, h2);
    var shares := w.markets[a].shares;
    forall i | 0 <= i < |shares|
      ensures SameBalances(w12.markets[a].shares[i], w21.markets[a].shares[i])
      ensures SameAllowances(w12.markets[a].shares[i], w21.markets[a].shares[i])
    {
      ShareAgrees(shares[i], w1.markets[a].shares[i], w12.markets[a].shares[i],
                  w2.markets[a].shares[i], w21.markets[a].shares[i], h1, h2);
    }
    OnlyInstalled(w, w1, w12, a, h1, h2);
    OnlyInstalled(w, w2, w21, a, h2, h1);
  }

  lemma OnlyInstalled(w: World, w1: World, w12: World, a: Address, h1: Address, h2: Address)
    requires AfterClaim(w, w1, a, h1) && AfterClaim(w1, w12, a, h2)
    ensures w12 == w.Install(a, w12.tokens[w.markets[a].token], w12.markets[a])
    ensures w12.markets[a] == w.markets[a].(shares := w12.markets[a].shares)
  {
    hide PaysFrom, AllDestroyed;
  }

  /** Claims commute: if the claims of two holders, the market itself among
      them or not, succeed in both orders, nobody can tell which came first. */
  lemma ClaimsCommute(s: State, e1: Event, e2: Event, a: Address, h1: Address, h2: Address)
    requires Invariant(s) && e1.step == Step.Claim(a, h1) && e2.step == Step.Claim(a, h2) && h1 != h2
    requires Try(s.w, e1).Done? && Try(Try(s.w, e1).value, e2).Done?
    requires Try(s.w, e2).Done? && Try(Try(s.w, e2).value, e1).Done?
    ensures SameOutcome(Try(Try(s.w, e1).value, e2).value, Try(Try(s.w, e2).value, e1).value, a)
  {
    hide Try, Invariant, AfterClaim;
    var s1, s2 := TryState(s, e1), TryState(s, e2);
    ClaimKeepsInvariant(s, e1, a, h1);
    ClaimKeepsInvariant(s, e2, a, h2);
    ClaimDoes(s, e1, a, h1);
    ClaimDoes(s1, e2, a, h2);
    ClaimDoes(s, e2, a, h2);
    ClaimDoes(s2, e1, a, h1);
    WorldsAgree(s.w, s1.w, Try(s1.w, e2).value, s2.w, Try(s2.w, e1).value, a, h1, h2);
  }

  /** If two claims succeed one after the other, the second could have come
      first, exactly if the market is backed without the first, which for a
      market that lost nothing it always is; and, if it is the market's own, the
      log's addition would not have overflowed. In that order too both succeed. */
  lemma EitherOrderSucceeds(s: State, e1: Event, e2: Event, a: Address, h1: Address, h2: Address)
    requires Invariant(s) && e1.step == Step.Claim(a, h1) && e2.step == Step.Claim(a, h2) && h1 != h2
    requires Try(s.w, e1).Done? && Try(Try(s.w, e1).value, e2).Done?
    ensures AfterClaim(s.w, Try(s.w, e1).value, a, h1) && |s.w.markets[a].payouts| == |s.w.markets[a].shares|
    ensures a in s.books && (h2 != a ==> (Try(s.w, e2).Done? <==> Backed(s.w.markets[a], s.books[a])))
    ensures var (m, token) := (s.w.markets[a], s.w.tokens[s.w.markets[a].token]);
      h2 == a ==> (Try(s.w, e2).Done? <==> LogsFit(m, token.Balance(a), Holdings(m.shares, a), 0))
    ensures Try(s.w, e2).Done? ==> Try(Try(s.w, e2).value, e1).Done?
  {
    hide Try, Invariant, AfterClaim, CanClaim, Backed, Entry, LogsFit;
    var s1 := TryState(s, e1);
    ClaimKeepsInvariant(s, e1, a, h1);
    ClaimDoes(s, e1, a, h1);
    ClaimDoes(s1, e2, a, h2);
    AfterClaimIsResolved(s.w, s1.w, a, h1);
    ClaimSucceeds(s, e1, a, h1);
    ClaimEntry(s.w, e1, a, h1, s.books[a]);
    StaysBacked(s.w, s1.w, a, h1, s.books[a]);
    ClaimSucceeds(s1, e2, a, h2);
    ClaimSucceeds(s, e2, a, h2);
    ClaimEntry(s.w, e2, a, h2, s.books[a]);
    ClaimedFirst(s.w, s1.w, a, h1, h2);
    if Try(s.w, e2).Done? {
      SecondClaimSucceeds(s, e1, e2, a, h1, h2);
    }
  }

  lemma SecondClaimSucceeds(s: State, e1: Event, e2: Event, a: Address, h1: Address, h2: Address)
    requires Invariant(s) && e1.step == Step.Claim(a, h1) && e2.step == Step.Claim(a, h2) && h1 != h2
    requires Try(s.w, e1).Done? && Try(s.w, e2).Done?
    requires a in s.w.markets && a in s.books && Backed(s.w.markets[a], s.books[a])
    requires var m := s.w.markets[a];
      && |m.payouts| == |m.shares| && m.token in s.w.tokens
      && Worth(m, h1) + Worth(m, h2) <= s.w.tokens[m.token].Allowance(a, CLAIM_TRADING_PROCEEDS)
    ensures Try(Try(s.w, e2).value, e1).Done?
  {
    hide Try, Invariant, AfterClaim, CanClaim, Backed, Entry, Dot;
    var s2 := TryState(s, e2);
    ClaimSucceeds(s, e1, a, h1);
    ClaimKeepsInvariant(s, e2, a, h2);
    ClaimDoes(s, e2, a, h2);
    AfterClaimIsResolved(s.w, s2.w, a, h2);
    ClaimedSecond(s.w, s2.w, a, h1, h2);
    ClaimEntry(s.w, e2, a, h2, s.books[a]);
    StaysBacked(s.w, s2.w, a, h2, s2.books[a]);
    ClaimEntry(s2.w, e1, a, h1, s2.books[a]);
    ClaimSucceeds(s2, e1, a, h1);
  }

  lemma AfterClaimIsResolved(w: World, w1: World, a: Address, h1: Address)
    requires AfterClaim(w, w1, a, h1)
    ensures w1.markets[a] == w.markets[a].(shares := w1.markets[a].shares)
    ensures w1.controller == w.controller && w1.universes == w.universes && w1.IsLegit(a) == w.IsLegit(a)
    ensures |w1.markets[a].shares| == |w.markets[a].shares| == |w.markets[a].payouts|
  {
    hide PaysFrom;
  }

  /** Whether a claim by h2 can be made before a claim by h1, given that it can
      be made after. */
  lemma ClaimedFirst(w: World, w1: World, a: Address, h1: Address, h2: Address)
    requires AfterClaim(w, w1, a, h1) && h1 != h2 && |w.markets[a].payouts| == |w.markets[a].shares|
    requires |w1.markets[a].payouts| == |w1.markets[a].shares|
    requires CanClaim(w1.controller, w1.tokens[w.markets[a].token], a, w1.markets[a], h2, 0)
    ensures var (m, token) := (w.markets[a], w.tokens[w.markets[a].token]);
      && (CanClaim(w.controller, token, a, m, h2, 0) <==>
           h2 == a ==> LogsFit(m, token.Balance(a), Holdings(m.shares, a), 0))
      && Worth(m, h1) + Worth(m, h2) <= token.Allowance(a, CLAIM_TRADING_PROCEEDS)
  {
    OtherHoldings(w, w1, a, h1, h2);
    ClaimAllowances(w, w1, a, h1, a, CLAIM_TRADING_PROCEEDS);
    SameHoldings(w, w1, a, h1, h2);
    hide AfterClaim, LogsFit, Dot;
  }

  /** A claim by h1 can be made after one by h2 if it could be made before. */
  lemma ClaimedSecond(w: World, w2: World, a: Address, h1: Address, h2: Address)
    requires AfterClaim(w, w2, a, h2) && h1 != h2 && |w.markets[a].payouts| == |w.markets[a].shares|
    requires |w2.markets[a].payouts| == |w2.markets[a].shares|
    requires var (m, token) := (w.markets[a], w.tokens[w.markets[a].token]);
      CanClaim(w.controller, token, a, m, h1, 0)
      && Worth(m, h1) + Worth(m, h2) <= token.Allowance(a, CLAIM_TRADING_PROCEEDS)
    ensures CanClaim(w2.controller, w2.tokens[w.markets[a].token], a, w2.markets[a], h1, 0)
  {
    OtherHoldings(w, w2, a, h2, h1);
    ClaimAllowances(w, w2, a, h2, a, CLAIM_TRADING_PROCEEDS);
    SameHoldings(w, w2, a, h2, h1);
    AfterClaimIsResolved(w, w2, a, h2);
    ClaimBalances(w, w2, a, h2, a);
    var m, m2 := w.markets[a], w2.markets[a];
    if h1 == a {
      LogsFitLess(m, w.tokens[m.token].Balance(a), m2, w2.tokens[m.token].Balance(a),
                  Holdings(m.shares, h1), Holdings(m2.shares, h1), 0);
    }
    hide AfterClaim, LogsFit, Dot;
  }

  lemma SameHoldings(w: World, w1: World, a: Address, h1: Address, h2: Address)
    requires AfterClaim(w, w1, a, h1) && h1 != h2
    ensures w1.controller == w.controller
    ensures Holdings(w1.markets[a].shares, h2) == Holdings(w.markets[a].shares, h2)
  {
    hide PaysFrom;
    var m, m1 := w.markets[a], w1.markets[a];
    forall i | 0 <= i < |m.shares|
      ensures m1.shares[i].Balance(h2) == m.shares[i].Balance(h2)
    {
      assert Destroyed(m.shares[i], m1.shares[i], h1);
    }
  }
}
