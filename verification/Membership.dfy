/** Who belongs to whom: the index by which universes recognise their markets
    and share tokens. */
module Membership {
  import opened Foundations
  import opened Ledgers
  import opened Markets
  import opened CompleteSets
  import opened ClaimTradingProceeds
  import opened Protocol
  import opened EscrowRuns

  /** `Universe.isContainerForShareToken`. */
  function UniverseContains(w: World, u: Address, token: Address, answers: Answers): Outcome<bool> {
    var _ :- Check(u in w.universes);
    if answers.market == Null then Done(false)
    else if answers.market !in w.universes[u].markets then Done(false)
    else
      var _ :- Check(answers.market in w.markets);
      MarketContains(w.markets[answers.market], token, answers.outcome)
  }

  /** Where a market's share tokens were created, and what they answer: the
      market, and their place in its list. */
  ghost predicate TokensOk(w: World, a: Address, m: Market) {
    && a.Contract? && a.id + |m.shareTokens| < w.next
    && |m.shareTokens| == m.numOutcomes == |m.shares|
    && forall i :: 0 <= i < |m.shareTokens| ==>
         m.shareTokens[i] == TokenInfo(Contract(a.id + 1 + i), true, Answers(a, i))
  }

  ghost predicate Apart(a: Address, m: Market, b: Address, m': Market) {
    a.Contract? && b.Contract? && (a.id + |m.shareTokens| < b.id || b.id + |m'.shareTokens| < a.id)
  }

  ghost predicate Index(w: World) {
    && (forall u :: u in w.universes ==> u.Contract? && u.id < w.next)
    && (forall u, a :: u in w.universes && a in w.universes[u].markets ==> a in w.markets && w.markets[a].universe == u)
    && (forall a :: a in w.markets ==> w.IsLegit(a) && w.markets[a].token == w.universes[w.markets[a].universe].token)
    && (forall a :: a in w.markets ==> TokensOk(w, a, w.markets[a]))
    && (forall a, b :: a in w.markets && b in w.markets && a != b ==> Apart(a, w.markets[a], b, w.markets[b]))
  }

  /** Share tokens are told apart by their addresses, across all markets. */
  lemma TokensDistinct(w: World, a: Address, i: nat, b: Address, j: nat)
    requires Index(w) && a in w.markets && b in w.markets
    requires i < |w.markets[a].shareTokens| && j < |w.markets[b].shareTokens|
    requires w.markets[a].shareTokens[i].self == w.markets[b].shareTokens[j].self
    ensures a == b && i == j
  {
    assert TokensOk(w, a, w.markets[a]) && TokensOk(w, b, w.markets[b]);
    assert a != b ==> Apart(a, w.markets[a], b, w.markets[b]);
  }

  /** The index is sound and complete. Whatever a contract answers, a universe
      accepts it only if it is a share token that one of its markets created;
      such a token is accepted with its true answers and with no others, and
      its market shares the universe's denomination token. */
  lemma MembershipExact(w: World, u: Address, token: Address, answers: Answers)
    requires Index(w) && u in w.universes
    ensures UniverseContains(w, u, token, answers) == Done(true) <==>
      && answers.market in w.markets && w.markets[answers.market].universe == u
      && answers.outcome < w.markets[answers.market].numOutcomes
      && token == w.markets[answers.market].shareTokens[answers.outcome].self
    ensures UniverseContains(w, u, token, answers) == Done(true) ==>
      w.markets[answers.market].token == w.universes[u].token
    ensures forall a, i ::
      a in w.markets && 0 <= i < |w.markets[a].shareTokens| && w.markets[a].shareTokens[i].self == token ==>
        (UniverseContains(w, u, token, answers) == Done(true) <==>
          w.markets[a].universe == u && answers == Answers(a, i))
  {
    if answers.market in w.markets {
      assert TokensOk(w, answers.market, w.markets[answers.market]);
      assert answers.market != Null && w.IsLegit(answers.market);
    }
    forall a, i: nat | a in w.markets && i < |w.markets[a].shareTokens| && w.markets[a].shareTokens[i].self == token
      ensures UniverseContains(w, u, token, answers) == Done(true) <==>
        w.markets[a].universe == u && answers == Answers(a, i)
    {
      assert TokensOk(w, a, w.markets[a]);
      if UniverseContains(w, u, token, answers) == Done(true) {
        TokensDistinct(w, a, i, answers.market, answers.outcome);
      }
    }
  }

  /** Every token a market created answers with that market and its place in
      the list, as `initialize` stored them, and on those answers it is accepted
      by the market's universe and by no other. */
  lemma CreatedTokensAreAccepted(w: World, a: Address, i: nat, u: Address)
    requires Index(w) && a in w.markets && i < |w.markets[a].shareTokens| && u in w.universes
    ensures var t := w.markets[a].shareTokens[i];
      && t.initialized && t.answers == Answers(a, i)
      && UniverseContains(w, u, t.self, t.answers) == Done(u == w.markets[a].universe)
  {
    assert TokensOk(w, a, w.markets[a]) && w.IsLegit(a);
    assert a in w.universes[u].markets ==> w.markets[a].universe == u;
  }

  // Every transaction keeps the index.

  /** A transaction that neither creates nor registers anything. */
  ghost predicate SameIndex(w: World, w': World) {
    && w'.universes == w.universes && w'.next == w.next && w'.markets.Keys == w.markets.Keys
    && forall a :: a in w.markets ==>
         && w'.markets[a].universe == w.markets[a].universe && w'.markets[a].token == w.markets[a].token
         && w'.markets[a].shareTokens == w.markets[a].shareTokens
         && w'.markets[a].numOutcomes == w.markets[a].numOutcomes
         && |w'.markets[a].shares| == |w.markets[a].shares|
  }

  lemma SameIndexKeepsTokens(w: World, w': World)
    requires Index(w) && SameIndex(w, w')
    ensures forall a :: a in w'.markets ==> TokensOk(w', a, w'.markets[a])
    ensures forall a, b :: a in w'.markets && b in w'.markets && a != b ==> Apart(a, w'.markets[a], b, w'.markets[b])
  {
    forall a | a in w'.markets
      ensures TokensOk(w', a, w'.markets[a])
    {
      assert TokensOk(w, a, w.markets[a]);
    }
    forall a, b | a in w'.markets && b in w'.markets && a != b
      ensures Apart(a, w'.markets[a], b, w'.markets[b])
    {
      assert Apart(a, w.markets[a], b, w.markets[b]);
    }
  }

  lemma SameIndexKeeps(w: World, w': World)
    requires Index(w) && SameIndex(w, w')
    ensures Index(w')
  {
    SameIndexKeepsTokens(w, w');
    hide TokensOk, Apart;
    forall a | a in w'.markets
      ensures w'.IsLegit(a) && w'.markets[a].token == w'.universes[w'.markets[a].universe].token
    {
      assert w.IsLegit(a);
    }
  }

  lemma MarketStepIsSameIndex(w: World, e: Event)
    requires Try(w, e).Done?
    requires e.step.Buy? || e.step.Sell? || e.step.Claim?
    ensures SameIndex(w, Try(w, e).value)
  {
    hide BuyCompleteSets, SellCompleteSets, ClaimFrom, AssertBalances;
  }

  lemma OtherStepIsSameIndex(w: World, e: Event)
    requires Try(w, e).Done?
    requires e.step.Resolve? || e.step.ApproveSpenders? || e.step.TokenCall?
    ensures SameIndex(w, Try(w, e).value)
  {
    hide VerifyResolution, Apply, ApproveAll;
  }

  lemma ControlIsSameIndex(w: World, e: Event)
    requires Try(w, e).Done? && ControlStep(e.step) && !e.step.CreateUniverse?
    ensures SameIndex(w, Try(w, e).value)
  {
  }

  lemma CreateUniverseKeepsIndex(w: World, e: Event)
    requires Index(w) && e.step.CreateUniverse? && Try(w, e).Done?
    ensures Index(Try(w, e).value)
  {
    var u := Contract(w.next);
    var w' := w.(universes := w.universes[u := Universe(e.step.token, {})], next := w.next + 1);
    assert Try(w, e).value == w';
    hide Try;
    assert u !in w.universes;
    forall a | a in w'.markets
      ensures TokensOk(w', a, w'.markets[a])
      ensures w'.IsLegit(a) && w'.markets[a].token == w'.universes[w'.markets[a].universe].token
    {
      assert TokensOk(w, a, w.markets[a]) && w.IsLegit(a);
    }
  }

  lemma CreatedKeepsTokensOk(w: World, w': World, terms: Terms, n: uint256, ticks: uint256)
    requires Index(w) && Created(w, w', terms, n, ticks)
    ensures Contract(w.next) !in w.markets
    ensures forall a :: a in w'.markets ==> TokensOk(w', a, w'.markets[a])
    ensures forall a, b :: a in w'.markets && b in w'.markets && a != b ==> Apart(a, w'.markets[a], b, w'.markets[b])
  {
    hide ApproveAll;
    var self := Contract(w.next);
    forall a | a in w.markets
      ensures a != self && TokensOk(w', a, w.markets[a])
      ensures Apart(a, w.markets[a], self, w'.markets[self]) && Apart(self, w'.markets[self], a, w.markets[a])
    {
      assert TokensOk(w, a, w.markets[a]);
    }
    forall a, b | a in w'.markets && b in w'.markets && a != b
      ensures Apart(a, w'.markets[a], b, w'.markets[b])
    {
      if a != self && b != self { assert Apart(a, w.markets[a], b, w.markets[b]); }
    }
  }

  lemma NewMarketIsOf(terms: Terms, id: nat, n: uint256, ticks: uint256)
    ensures NewMarket(terms, id, n, ticks).universe == terms.universe
    ensures NewMarket(terms, id, n, ticks).token == terms.token
  {
  }

  lemma CreatedKeepsIndex(w: World, w': World, terms: Terms, n: uint256, ticks: uint256)
    requires Index(w) && Created(w, w', terms, n, ticks)
    ensures Index(w')
  {
    hide ApproveAll, TokensOk, Apart, NewMarket, Market.Configured;
    CreatedKeepsTokensOk(w, w', terms, n, ticks);
    NewMarketIsOf(terms, w.next, n, ticks);
    var self := Contract(w.next);
    forall a | a in w'.markets
      ensures w'.IsLegit(a) && w'.markets[a].token == w'.universes[w'.markets[a].universe].token
    {
      if a != self { assert w.IsLegit(a); }
    }
  }

  lemma TryKeepsIndex(w: World, e: Event)
    requires Index(w) && Try(w, e).Done?
    ensures Index(Try(w, e).value)
  {
    if Try(w, e).Done? {
      if CreateStep(e.step) {
        var terms, n, ticks := TryCreate(w, e);
        hide Try, Index, Created;
        CreatedKeepsIndex(w, Try(w, e).value, terms, n, ticks);
      } else if e.step.CreateUniverse? {
        hide Index;
        CreateUniverseKeepsIndex(w, e);
      } else {
        if e.step.Buy? || e.step.Sell? || e.step.Claim? {
          MarketStepIsSameIndex(w, e);
        } else if ControlStep(e.step) {
          ControlIsSameIndex(w, e);
        } else {
          OtherStepIsSameIndex(w, e);
        }
        hide Try, Index, SameIndex;
        SameIndexKeeps(w, Try(w, e).value);
      }
    }
  }
}
