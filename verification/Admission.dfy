/** When the other transactions succeed, and what they leave: resolutions,
    approvals, new universes and markets, and calls on tokens. */
module Admission {
  import opened Foundations
  import opened Ledgers
  import opened Markets
  import opened Controllers
  import opened CompleteSets
  import opened ClaimTradingProceeds
  import opened Protocol
  import opened Escrow
  import opened EscrowRuns
  import opened Membership
  import opened Listing
  import opened Transactions
  import opened Governance

  // What they all ask of a market.

  /** A purchase, sale, claim or resolution succeeds only on a market of a
      universe that AugurLite knows, and only while the protocol is not stopped. */
  lemma OnlyKnownMarkets(w: World, e: Event)
    requires e.step.Buy? || e.step.Sell? || e.step.Claim? || e.step.Resolve?
    requires Transact(w, e).Done?
    ensures e.step.market in w.markets && !w.controller.stopped
    ensures var u := w.markets[e.step.market].universe; u in w.universes && e.step.market in w.universes[u].markets
  {
    hide BuyCompleteSets, SellCompleteSets, ClaimFrom, VerifyResolution, AssertBalances, Settle;
  }

  // Resolutions.

  /** A resolution succeeds if and only if the market's oracle sends it after the
      end, the market is legitimate and not yet resolved, the protocol is not
      stopped, and the payouts are valid: they share out the ticks or, for an
      invalid market, are all the same part of them. It decides the market and
      touches nothing else. */
  lemma ResolveSucceeds(w: World, e: Event, a: Address, payouts: seq<uint256>, invalid: bool)
    requires e.step == Step.Resolve(a, payouts, invalid)
    ensures Transact(w, e).Done? <==>
      && MayCall(e.caller) && a in w.markets && w.IsLegit(a)
      && MayResolve(w.markets[a], w.controller.stopped, e.now, e.caller, payouts, invalid)
    ensures Transact(w, e).Done? ==>
      var m := w.markets[a].(resolutionTime := e.now, payouts := payouts, invalid := invalid);
      Transact(w, e).value == w.(markets := w.markets[a := m])
    ensures Transact(w, e).Reverted? ==> Transact(w, e).fault == Require
  {
    if a in w.markets {
      ResolveExact(w.markets[a], w.controller.stopped, e.now, e.caller, payouts, invalid);
    }
    hide Markets.Resolve, MayResolve, World.IsLegit;
  }

  // Approvals.

  /** Anyone may have a market approve the two trading contracts, as long as the
      protocol is not stopped. They may then spend as much as a word can hold;
      no other allowance, and nothing else of the market, changes. */
  lemma ApproveSucceeds(s: State, e: Event, a: Address)
    requires Accounted(s) && e.step == Step.ApproveSpenders(a)
    ensures Transact(s.w, e).Done? <==> MayCall(e.caller) && a in s.w.markets && !s.w.controller.stopped
    ensures Transact(s.w, e).Done? ==>
      var (w', t) := (Transact(s.w, e).value, s.w.markets[a].token);
      && t in s.w.tokens && t in w'.tokens && a in w'.markets && w'.markets[a] == s.w.markets[a]
      && SameBalances(s.w.tokens[t], w'.tokens[t])
      && forall o, x :: w'.tokens[t].Allowance(o, x) ==
           if o == a && x in {COMPLETE_SETS, CLAIM_TRADING_PROCEEDS} then MAX_WORD else s.w.tokens[t].Allowance(o, x)
  {
    hide Invariant, Consistent, Settle, Balanced, MarketOk;
    OneMarketOfAll(s);
    if a in s.w.markets {
      OneMarket(s, a);
      TryApproveIs(s.w, e, a);
      ApproveAllDoes(s.w.controller, s.w.tokens[s.w.markets[a].token], a);
      hide ApproveAll, Try;
      if Try(s.w, e).Done? {
        TradeSettles(s, e);
      }
    }
  }

  lemma TryApproveIs(w: World, e: Event, a: Address)
    requires e.step == Step.ApproveSpenders(a) && a in w.markets && w.markets[a].token in w.tokens
    ensures var r := ApproveAll(w.controller, w.tokens[w.markets[a].token], a);
      Try(w, e).Done? <==> MayCall(e.caller) && r.Done?
    ensures Try(w, e).Done? ==>
      Try(w, e).value == w.Install(a, ApproveAll(w.controller, w.tokens[w.markets[a].token], a).value, w.markets[a])
  {
    hide ApproveAll;
  }

  // Universes.

  /** Anyone may make a universe over any address while the protocol is not
      stopped. It gets an address that no universe, market or token of the
      protocol has, and starts without markets. */
  lemma CreateUniverseSucceeds(s: State, e: Event, t: Address)
    requires Accounted(s) && e.step == CreateUniverse(t)
    ensures Transact(s.w, e).Done? <==> MayCall(e.caller) && !s.w.controller.stopped
    ensures Transact(s.w, e).Done? ==>
      var (w', u) := (Transact(s.w, e).value, Contract(s.w.next));
      && u !in s.w.universes && u !in s.w.markets && u !in s.w.tokens
      && u in w'.universes && w'.universes[u].token == t && w'.universes[u].markets == {}
      && w'.universes - {u} == s.w.universes && w'.markets == s.w.markets && w'.tokens == s.w.tokens
      && w'.controller == s.w.controller
  {
    AllSoundTokens(s);
    ConsistentIndex(s.w);
    hide Accounted;
    FreshAddress(s.w);
  }

  // Markets.

  /** What is asked of a new market, in numbers. */
  predicate MayCreate(w: World, e: Event, terms: Terms, n: int, ticks: int) {
    && MayCall(e.caller) && !w.controller.stopped
    && terms.description != ""
    && terms.universe in w.universes && terms.token in w.tokens && w.universes[terms.universe].token == terms.token
    && 2 <= n <= 8 && 0 < ticks && n <= ticks
    && terms.oracle != Null
    && (terms.feeDivisor == 0 || 2 <= terms.feeDivisor)
    && e.now < terms.endTime
  }

  /** A market as it is created: on its terms, not resolved, with a fresh, empty
      share token for each outcome that stores the market and its place. */
  ghost predicate IsNew(m: Market, terms: Terms, id: nat, n: int, ticks: int) {
    && m.universe == terms.universe && m.token == terms.token
    && m.numOutcomes == n && m.numTicks == ticks
    && m.feeDivisor == terms.feeDivisor && m.endTime == terms.endTime && m.oracle == terms.oracle
    && m.mailbox == Mailbox(id)
    && m.resolutionTime == 0 && !m.invalid && m.payouts == []
    && |m.shareTokens| == |m.shares| == n
    && (forall i :: 0 <= i < n ==> m.shareTokens[i] == TokenInfo(Contract(id + 1 + i), true, Answers(Contract(id), i)))
    && (forall i :: 0 <= i < n ==> m.shares[i] == Ledger(map[], map[], 0, Null))
  }

  /** w' is w with that market. Its two spenders are approved; no balance, no
      other allowance, and no other market's terms changed. */
  ghost predicate Creates(w: World, w': World, terms: Terms, n: int, ticks: int) {
    var self := Contract(w.next);
    && self !in w.markets && w'.markets.Keys == w.markets.Keys + {self}
    && IsNew(w'.markets[self], terms, w.next, n, ticks)
    && (forall a :: a in w.markets ==> w'.markets[a] == w.markets[a].(shares := w'.markets[a].shares))
    && terms.universe in w.universes
    && w'.universes == w.universes[terms.universe :=
         Universe(w.universes[terms.universe].token, w.universes[terms.universe].markets + {self})]
    && (forall t :: t in w.tokens ==> t in w'.tokens && SameBalances(w.tokens[t], w'.tokens[t]))
    && (forall t, o, x :: t in w.tokens && t in w'.tokens ==>
          w'.tokens[t].Allowance(o, x) ==
            if t == terms.token && o == self && x in {COMPLETE_SETS, CLAIM_TRADING_PROCEEDS} then MAX_WORD
            else w.tokens[t].Allowance(o, x))
    && w'.controller == w.controller && w'.next == w.next + 1 + n
  }

  lemma NewMarketIsNew(terms: Terms, id: nat, n: uint256, ticks: uint256)
    ensures IsNew(NewMarket(terms, id, n, ticks), terms, id, n, ticks)
  {
  }

  /** Creation itself, for any number of outcomes and ticks. */
  lemma CreateMarketExact(w: World, e: Event, terms: Terms, n: uint256, ticks: uint256)
    requires Deployed(w.controller) && MayCall(e.caller)
    ensures CreateMarket(w, e, terms, n, ticks).Done? <==> MayCreate(w, e, terms, n, ticks)
    ensures CreateMarket(w, e, terms, n, ticks).Done? && (ticks == 10000 || (n == 2 && ticks % 2 == 0)) ==>
      Created(w, CreateMarket(w, e, terms, n, ticks).value, terms, n, ticks)
  {
    if terms.token in w.tokens {
      ApproveAllDoes(w.controller, w.tokens[terms.token], Contract(w.next));
    }
    hide ApproveAll;
  }

  lemma SettleMarketKeepsRest(w: World, a: Address)
    ensures var w' := SettleMarket(w, a);
      && w'.universes == w.universes && w'.controller == w.controller && w'.next == w.next
      && w'.markets.Keys == w.markets.Keys && (a in w.markets ==> w'.tokens == ListShares(w, a).tokens)
  {
    hide ListFrom, TakeOver;
  }

  lemma CreatedTokens(w: World, w1: World, terms: Terms, n: uint256, ticks: uint256, t: Address)
    requires Deployed(w.controller) && InOrder(w) && Created(w, w1, terms, n, ticks) && Contract(w.next) !in w.markets
    requires Index(w1) && TokensSound(w1) && MarketOk(w1, Contract(w.next), w1.markets[Contract(w.next)])
    requires t in w.tokens
    ensures var (self, w2) := (Contract(w.next), ListShares(w1, Contract(w.next)));
      && t in w2.tokens && SameBalances(w.tokens[t], w2.tokens[t])
      && forall o, x :: w2.tokens[t].Allowance(o, x) ==
           if t == terms.token && o == self && x in {COMPLETE_SETS, CLAIM_TRADING_PROCEEDS} then MAX_WORD
           else w.tokens[t].Allowance(o, x)
  {
    hide Index, InOrder, TokensSound, MarketOk, ListShares, NewMarket, Relisted;
    CreatedRelists(w, w1, terms, n, ticks);
    ApproveAllDoes(w.controller, w.tokens[terms.token], Contract(w.next));
    hide ApproveAll;
  }

  lemma CreatedInOrder(w: World, w1: World, terms: Terms, n: uint256, ticks: uint256)
    requires Deployed(w.controller) && InOrder(w) && Created(w, w1, terms, n, ticks) && Contract(w.next) !in w.markets
    ensures InOrder(w1) && Contract(w.next) in w1.markets && w1.markets[Contract(w.next)].token in w1.tokens
  {
    CreatedBrings(w, w1, terms, n, ticks);
    hide Created, SameIssue;
  }

  lemma CreatedMarkets(w: World, w1: World, terms: Terms, n: uint256, ticks: uint256)
    requires Deployed(w.controller) && InOrder(w) && Created(w, w1, terms, n, ticks) && Contract(w.next) !in w.markets
    requires Index(w1)
    ensures var (self, w') := (Contract(w.next), SettleMarket(w1, Contract(w.next)));
      && self in w'.markets && IsNew(w'.markets[self], terms, w.next, n, ticks)
      && w'.markets.Keys == w.markets.Keys + {self}
      && forall a :: a in w.markets ==> w'.markets[a] == w.markets[a].(shares := w'.markets[a].shares)
  {
    var self := Contract(w.next);
    NewMarketIsNew(terms, w.next, n, ticks);
    assert w1.markets == w.markets[self := NewMarket(terms, w.next, n, ticks)];
    CreatedInOrder(w, w1, terms, n, ticks);
    hide Created, NewMarket, IsNew, Index, InOrder, SettleMarket;
    SettleLeaves(w1, self);
    SettleMarketKeepsRest(w1, self);
    forall a | a in w.markets
      ensures w1.markets[a] == w.markets[a] && a in SettleMarket(w1, self).markets
      ensures SettleMarket(w1, self).markets[a] == w.markets[a].(shares := SettleMarket(w1, self).markets[a].shares)
    {
      SettleMarketKeepsTerms(w1, self, a);
    }
  }

  lemma SettledCreates(w: World, w1: World, terms: Terms, n: uint256, ticks: uint256)
    requires Deployed(w.controller) && InOrder(w) && Created(w, w1, terms, n, ticks) && Contract(w.next) !in w.markets
    requires Index(w1) && TokensSound(w1) && MarketOk(w1, Contract(w.next), w1.markets[Contract(w.next)])
    ensures Creates(w, SettleMarket(w1, Contract(w.next)), terms, n, ticks)
  {
    var self := Contract(w.next);
    hide Index, InOrder, TokensSound, MarketOk, ListShares, SettleMarket, NewMarket, IsNew, Deployed, SameBalances;
    CreatedMarkets(w, w1, terms, n, ticks);
    SettleMarketKeepsRest(w1, self);
    forall t | t in w.tokens
      ensures t in SettleMarket(w1, self).tokens && SameBalances(w.tokens[t], SettleMarket(w1, self).tokens[t])
      ensures forall o, x ::
        SettleMarket(w1, self).tokens[t].Allowance(o, x) ==
          if t == terms.token && o == self && x in {COMPLETE_SETS, CLAIM_TRADING_PROCEEDS} then MAX_WORD
          else w.tokens[t].Allowance(o, x)
    {
      CreatedTokens(w, w1, terms, n, ticks, t);
    }
    hide ApproveAll;
  }

  lemma CreationHolds(s: State, e: Event, terms: Terms, n: uint256, ticks: uint256)
    requires Accounted(s) && Try(s.w, e).Done? && Created(s.w, Try(s.w, e).value, terms, n, ticks)
    ensures Deployed(s.w.controller) && InOrder(s.w) && Contract(s.w.next) !in s.w.markets
    ensures var w1 := Try(s.w, e).value;
      && Index(w1) && TokensSound(w1)
      && Contract(s.w.next) in w1.markets && MarketOk(w1, Contract(s.w.next), w1.markets[Contract(s.w.next)])
  {
    hide Try, Invariant, Index, Synced, InOrder, Created, Post;
    AllSoundTokens(s);
    OneMarketOfAll(s);
    ConsistentIndex(s.w);
    TryKeepsInvariant(s, e);
    TryKeepsIndex(s.w, e);
    AllSoundTokens(TryState(s, e));
    hide Accounted;
    FreshAddress(s.w);
    CreatedInOrder(s.w, Try(s.w, e).value, terms, n, ticks);
    OneMarket(TryState(s, e), Contract(s.w.next));
  }

  /** A creation, in full, given what it is for a step of the protocol. */
  lemma CreationSucceeds(s: State, e: Event, terms: Terms, n: uint256, ticks: uint256)
    requires Accounted(s) && CreateStep(e.step) && (ticks == 10000 || (n == 2 && ticks % 2 == 0))
    requires MayCall(e.caller) && Try(s.w, e) == CreateMarket(s.w, e, terms, n, ticks)
    ensures Transact(s.w, e).Done? <==> MayCreate(s.w, e, terms, n, ticks)
    ensures Transact(s.w, e).Done? ==> Creates(s.w, Transact(s.w, e).value, terms, n, ticks)
  {
    hide Try, CreateMarket, SettleMarket, Creates, MayCreate, Invariant, Consistent, Index, InOrder, Created, MarketOk;
    hide TokensSound;
    OneMarketOfAll(s);
    hide Deployed;
    CreateMarketExact(s.w, e, terms, n, ticks);
    if Try(s.w, e).Done? {
      CreationHolds(s, e, terms, n, ticks);
      hide Accounted;
      SettledCreates(s.w, Try(s.w, e).value, terms, n, ticks);
    }
  }

  /** A yes/no market is made if and only if its terms are in order; it has two
      outcomes and 10000 ticks. */
  lemma CreateYesNoSucceeds(s: State, e: Event, terms: Terms)
    requires Accounted(s) && e.step == CreateYesNoMarket(terms)
    ensures Transact(s.w, e).Done? <==> MayCreate(s.w, e, terms, 2, 10000)
    ensures Transact(s.w, e).Done? ==> Creates(s.w, Transact(s.w, e).value, terms, 2, 10000)
  {
    hide CreateMarket, Creates, Accounted, SettleMarket;
    if MayCall(e.caller) {
      CreationSucceeds(s, e, terms, 2, 10000);
    }
  }

  /** A categorical market has the outcomes it was asked for, two to eight, and
      10000 ticks. */
  lemma CreateCategoricalSucceeds(s: State, e: Event, terms: Terms, outcomes: uint256)
    requires Accounted(s) && e.step == CreateCategoricalMarket(terms, outcomes)
    ensures Transact(s.w, e).Done? <==> MayCreate(s.w, e, terms, outcomes, 10000)
    ensures Transact(s.w, e).Done? ==> Creates(s.w, Transact(s.w, e).value, terms, outcomes, 10000)
  {
    hide CreateMarket, Creates, Accounted, SettleMarket;
    if MayCall(e.caller) {
      CreationSucceeds(s, e, terms, outcomes, 10000);
    }
  }

  /** A scalar market has two outcomes and the ticks it was asked for, an even
      number; its price range is not empty. */
  lemma CreateScalarSucceeds(
      s: State, e: Event, terms: Terms, minPrice: int, maxPrice: int, numTicks: uint256)
    requires Accounted(s) && e.step == CreateScalarMarket(terms, minPrice, maxPrice, numTicks)
    ensures Transact(s.w, e).Done? <==>
      minPrice < maxPrice && numTicks % 2 == 0 && MayCreate(s.w, e, terms, 2, numTicks)
    ensures Transact(s.w, e).Done? ==> Creates(s.w, Transact(s.w, e).value, terms, 2, numTicks)
  {
    hide CreateMarket, Creates, Accounted, SettleMarket;
    if MayCall(e.caller) && minPrice < maxPrice && numTicks % 2 == 0 {
      CreationSucceeds(s, e, terms, 2, numTicks);
    }
  }

  // Calls on tokens.

  /** Each market has the ledger of the token t where it keeps it, and is the
      same otherwise. */
  ghost predicate Told(w: World, w': World, t: Address, l: Ledger) {
    && w'.markets.Keys == w.markets.Keys
    && forall a :: a in w.markets ==>
         && w'.markets[a] == w.markets[a].(shares := w'.markets[a].shares)
         && |w'.markets[a].shares| == |w.markets[a].shares|
         && forall i :: 0 <= i < |w.markets[a].shares| ==>
              w'.markets[a].shares[i] ==
                if i < |w.markets[a].shareTokens| && w.markets[a].shareTokens[i].self == t then l
                else w.markets[a].shares[i]
  }

  lemma TellTells(w: World, t: Address)
    requires t in w.tokens
    ensures Told(w, TellMarkets(w, t), t, w.tokens[t])
    ensures TellMarkets(w, t) == w.(markets := TellMarkets(w, t).markets)
  {
  }

  lemma TryTokenCallIs(w: World, e: Event, t: Address, call: Call)
    requires e.step == TokenCall(t, call)
    ensures Try(w, e).Done? <==> MayCall(e.caller) && t in w.tokens && Apply(w.tokens[t], e.caller, call).Done?
    ensures Try(w, e).Done? ==>
      Try(w, e).value == w.(tokens := w.tokens[t := Apply(w.tokens[t], e.caller, call).value])
  {
    hide Apply;
  }

  /** A call on a token, a share token or not, succeeds exactly when it may be
      made, and has its effect on that token and on no other. If it is a share
      token, its market sees it; everything else stays as it was. */
  lemma TokenCallSucceeds(s: State, e: Event, t: Address, call: Call)
    requires Accounted(s) && e.step == TokenCall(t, call)
    ensures Transact(s.w, e).Done? <==>
      MayCall(e.caller) && t in s.w.tokens && Permitted(s.w.tokens[t], e.caller, call)
    ensures Transact(s.w, e).Done? ==>
      var w' := Transact(s.w, e).value;
      && t in w'.tokens && Effect(s.w.tokens[t], w'.tokens[t], e.caller, call)
      && w' == s.w.(tokens := s.w.tokens[t := w'.tokens[t]], markets := w'.markets)
      && Told(s.w, w', t, w'.tokens[t])
  {
    hide Try, Apply, Permitted, Effect, TellMarkets, Told, Invariant, Consistent;
    AllSoundTokens(s);
    hide Accounted, MarketsOk;
    TryTokenCallIs(s.w, e, t, call);
    if t in s.w.tokens {
      assert s.w.tokens[t].Sound();
      hide Ledger.Sound;
      CallExact(s.w.tokens[t], e.caller, call);
      if Try(s.w, e).Done? {
        TellTells(Try(s.w, e).value, t);
        SameTold(s.w, Try(s.w, e).value, TellMarkets(Try(s.w, e).value, t), t, Try(s.w, e).value.tokens[t]);
      }
    }
  }

  lemma SameTold(w: World, w1: World, w': World, t: Address, l: Ledger)
    requires w1.markets == w.markets && Told(w1, w', t, l)
    ensures Told(w, w', t, l)
  {
  }
}
