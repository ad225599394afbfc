/** Markets over share tokens. Anyone can make a universe over a share token, and
    its markets then hold another market's shares in escrow. A claim on that other
    market for one of them burns them. Nothing else ever takes from an escrow. */
module Lending {
  import opened Foundations
  import opened Sums
  import opened Markets
  import opened ClaimTradingProceeds
  import opened Protocol
  import opened Escrow
  import opened EscrowRuns
  import opened Membership
  import opened Listing
  import opened Transactions
  import opened Governance

  /** A claim completes that cashes in what the market a has in escrow: it is for
      a, on the market whose shares those are. */
  predicate CashesIn(w: World, e: Event, a: Address) {
    && a in w.markets && e.step.Claim? && e.step.holder == a && Try(w, e).Done?
    && e.step.market in w.markets && Keeps(w.markets[e.step.market], w.markets[a].token)
  }

  /** No claim of the run does. */
  predicate NeverCashedIn(w: World, events: seq<Event>, a: Address)
    decreases |events|
  {
    events == [] || (!CashesIn(w, events[0], a) && NeverCashedIn(Protocol.Next(w, events[0]), events[1..], a))
  }

  /** A market over a share token is younger than the market that the share is of,
      which is younger than its own token. */
  lemma LenderIsOlder(w: World, b: Address, a: Address)
    requires Index(w) && InOrder(w) && a in w.markets && b in w.markets && Keeps(w.markets[b], w.markets[a].token)
    ensures a != b && !Keeps(w.markets[a], w.markets[b].token)
    ensures w.markets[a].token != w.markets[b].token
  {
    KeepsOwn(w, b, w.markets[a].token);
    KeepsOwn(w, a, w.markets[b].token);
    hide Index, Keeps;
  }

  /** Such a claim takes the whole escrow and leaves the rest of the market as it was.
      From then on the check on its escrow fails, if its shares are owed anything
      that a word can hold; every purchase, sale or claim on it ends with it. */
  lemma CashingInTakesAll(s: State, e: Event, a: Address)
    requires Accounted(s) && CashesIn(s.w, e, a)
    ensures var s' := NextState(s, e);
      && a in s'.w.markets && s'.w.markets[a] == s.w.markets[a] && s.w.markets[a].token in s'.w.tokens
      && s'.w.tokens[s.w.markets[a].token].Balance(a) == 0
      && a in s.books && a in s'.books
      && s'.books[a] == s.books[a].(lost := s.books[a].lost + HeldBy(s.w, a))
    ensures var m := s.w.markets[a];
      && |m.shares| > 0 && (m.IsResolved() ==> |m.payouts| == |m.shares|)
      && (AssertBalances(m, 0).Done? <==> Owed(m) == 0)
      && (AssertBalances(m, 0) == Reverted(Assert) <==> 0 < Owed(m) < WORD)
  {
    CashedMarket(s, e, a);
    CashedBook(s, e, a);
    hide Accounted, NextState, CashesIn, AssertBalances, Owed;
    AssertBalancesExact(s.w.markets[a], 0);
  }

  lemma CashedWorld(w: World, w1: World, b: Address, a: Address)
    requires Consistent(w) && Index(w1) && Traded(w, w1, b, a) && a in w.markets && a.Contract?
    requires Keeps(w.markets[b], w.markets[a].token) && w.markets[a].token in w.tokens
    ensures var w' := SettleMarket(w1, b);
      && a in w'.markets && w'.markets[a] == w.markets[a] && w.markets[a].token in w'.tokens
      && w'.tokens[w.markets[a].token].Balance(a) == 0
  {
    hide Index, Synced, Keeps, SameIssue, TellMarkets, ListShares, InOrder;
    LenderIsOlder(w, b, a);
    TradeKeeps(w, w1, b, a, a);
    ListSharesIs(w1, b);
    ListedLedger(w, w1, b, a, w.markets[a].token);
    assert w1.markets[a] == w.markets[a];
    hide Traded;
    TradedTokenListed(w, w1, b, a);
    TellLeaves(ListShares(w1, b), w.markets[b].token, a);
    TellKeepsTokens(ListShares(w1, b), w.markets[b].token);
  }

  lemma TradedTokenListed(w: World, w1: World, b: Address, loser: Address)
    requires Consistent(w) && Index(w1) && Traded(w, w1, b, loser)
    ensures w1.markets[b].token == w.markets[b].token && w.markets[b].token in ListShares(w1, b).tokens
  {
    ListSharesIs(w1, b);
    hide Consistent, Index, Follows, SameIssue;
  }

  lemma TellKeepsTokens(w: World, t: Address)
    ensures TellMarkets(w, t).tokens == w.tokens && TellMarkets(w, t).markets.Keys == w.markets.Keys
  {
  }

  lemma CashedMarket(s: State, e: Event, a: Address)
    requires Accounted(s) && CashesIn(s.w, e, a)
    ensures var w' := NextState(s, e).w;
      && a in w'.markets && w'.markets[a] == s.w.markets[a] && s.w.markets[a].token in w'.tokens
      && w'.tokens[s.w.markets[a].token].Balance(a) == 0
    ensures var m := s.w.markets[a]; |m.shares| > 0 && (m.IsResolved() ==> |m.payouts| == |m.shares|)
  {
    hide Try, Index, Synced, InOrder, Keeps, Settle, SettleMarket, Post, Charge, Traded, Takes;
    OneMarket(s, a);
    hide Invariant, Balanced;
    var b, w1 := e.step.market, Try(s.w, e).value;
    StepTrades(s, e);
    TryKeepsIndex(s.w, e);
    TradeKeeps(s.w, w1, b, a, a);
    CashedWorld(s.w, w1, b, a);
    SettlesTrade(s.w, e, w1);
  }

  lemma NextBook(s: State, e: Event, a: Address)
    requires Try(s.w, e).Done? && a in s.w.markets && a in s.books && a in Try(s.w, e).value.markets
    ensures a in NextState(s, e).books
    ensures var b := Entry(s.w, e, a, s.books[a]);
      NextState(s, e).books[a] == b.(lost := b.lost + Loss(s.w, e, a))
  {
    hide Try, Settle, Loss, Entry;
  }

  lemma NoGiftOfOthers(w: World, e: Event, a: Address, b: Book)
    requires a in w.markets && e.step.Claim? && e.step.market in w.markets
    requires w.markets[e.step.market].token != w.markets[a].token
    ensures Entry(w, e, a, b) == b
  {
    hide Dot, Fees;
  }

  lemma CashedBook(s: State, e: Event, a: Address)
    requires Accounted(s) && CashesIn(s.w, e, a)
    ensures a in s.books && a in NextState(s, e).books
    ensures NextState(s, e).books[a] == s.books[a].(lost := s.books[a].lost + HeldBy(s.w, a))
  {
    hide Try, Index, Synced, NextState, Traded, Takes, InOrder, HeldBy, Keeps, Entry;
    ConsistentIndex(s.w);
    LenderIsOlder(s.w, e.step.market, a);
    AllSoundTokens(s);
    StepTrades(s, e);
    hide Accounted;
    TradeKeeps(s.w, Try(s.w, e).value, e.step.market, a, a);
    NextBook(s, e, a);
    NoGiftOfOthers(s.w, e, a, s.books[a]);
  }

  // A market nothing was taken from.

  lemma TryCreatesOnlyNext(w: World, e: Event)
    requires Try(w, e).Done?
    ensures Try(w, e).value.next >= w.next
    ensures forall b :: b in Try(w, e).value.markets && b !in w.markets ==> b == Contract(w.next)
  {
    if CreateStep(e.step) {
      var terms, n, ticks := TryCreate(w, e);
      hide Try, ApproveAll, NewMarket;
    } else if TradeStep(e.step) && !e.step.ApproveSpenders? {
      MarketStepIsSameIndex(w, e);
      hide Try;
    } else if ControlStep(e.step) {
      ControlSame(w, e);
      hide Try;
    } else if !e.step.InitializeShare? {
      OtherStepIsSameIndex(w, e);
      hide Try;
    }
  }

  lemma SettleKeepsKeys(w: World, e: Event, w1: World)
    ensures Settle(w, e, w1).markets.Keys == w1.markets.Keys && Settle(w, e, w1).next == w1.next
  {
    hide ListFrom, TakeOver;
  }

  lemma OnlyThenLoses(w: World, e: Event, a: Address)
    requires a in w.markets && Try(w, e).Done? && !CashesIn(w, e, a)
    ensures Loss(w, e, a) == 0
  {
    hide Try, Keeps, HeldBy;
  }

  lemma EntryLosesNothing(w: World, e: Event, a: Address, b: Book)
    requires a in w.markets
    ensures Entry(w, e, a, b).lost == b.lost
  {
    hide Gift;
  }

  lemma NewBook(s: State, e: Event, a: Address)
    requires Try(s.w, e).Done? && a !in s.w.markets && a in NextState(s, e).w.markets
    ensures a in NextState(s, e).books && NextState(s, e).books[a].lost == 0
  {
    SettleKeepsKeys(s.w, e, Try(s.w, e).value);
    hide Try, Settle, Loss, Entry, HeldBy;
  }

  /** What was taken from the market so far. */
  function LostOf(s: State, a: Address): nat {
    if a in s.w.markets && a in s.books then s.books[a].lost else 0
  }

  lemma StepLosesNothing(s: State, e: Event, a: Address)
    requires Accounted(s) && !CashesIn(s.w, e, a) && a in NextState(s, e).w.markets
    ensures LostOf(NextState(s, e), a) == LostOf(s, a)
  {
    AllSoundTokens(s);
    hide Accounted, Settle, Try, Post, Charge, CashesIn, Entry, Loss;
    if Try(s.w, e).Done? {
      SettleKeepsKeys(s.w, e, Try(s.w, e).value);
      if a in s.w.markets {
        NextBook(s, e, a);
        EntryLosesNothing(s.w, e, a, s.books[a]);
        OnlyThenLoses(s.w, e, a);
      } else {
        NewBook(s, e, a);
      }
    }
  }

  lemma NextIsNext(s: State, e: Event)
    ensures Protocol.Next(s.w, e) == NextState(s, e).w
  {
    hide Try, Settle, Charge, Post;
  }

  /** What the claims of a run cashed in. */
  function Taken(s: State, events: seq<Event>, a: Address): nat
    decreases |events|
  {
    if events == [] then 0 else
      (if CashesIn(s.w, events[0], a) then HeldBy(s.w, a) else 0) + Taken(NextState(s, events[0]), events[1..], a)
  }

  /** What is ever taken from a market is what was cashed in. */
  lemma {:induction false} LossesAddUp(s: State, events: seq<Event>, a: Address)
    requires Accounted(s)
    ensures LostOf(RunState(s, events), a) == LostOf(s, a) + Taken(s, events, a)
    ensures NeverCashedIn(s.w, events, a) ==> Taken(s, events, a) == 0
    decreases |events|
  {
    hide Accounted, NextState, CashesIn, Protocol.Next, LostOf, HeldBy;
    if events != [] {
      StepKeepsAccounts(s, events[0]);
      NextIsNext(s, events[0]);
      LossesAddUp(NextState(s, events[0]), events[1..], a);
      if CashesIn(s.w, events[0], a) {
        CashedLoses(s, events[0], a);
      } else {
        LosesOnlyInStep(s, events[0], a);
      }
    }
  }

  lemma CashedLoses(s: State, e: Event, a: Address)
    requires Accounted(s) && CashesIn(s.w, e, a)
    ensures LostOf(NextState(s, e), a) == LostOf(s, a) + HeldBy(s.w, a)
  {
    CashedMarket(s, e, a);
    CashedBook(s, e, a);
    hide Accounted, NextState, HeldBy;
  }

  lemma LosesOnlyInStep(s: State, e: Event, a: Address)
    requires Accounted(s) && !CashesIn(s.w, e, a)
    ensures LostOf(NextState(s, e), a) == LostOf(s, a)
  {
    if a in s.w.markets {
      StepKeepsTerms(s, e, a);
    }
    hide Accounted, NextState, CashesIn;
    if a in NextState(s, e).w.markets {
      StepLosesNothing(s, e, a);
    }
  }

  // A market over a token that no market created.

  /** The token t is not a share token, and never will be. */
  ghost predicate NoShare(w: World, t: Address) {
    && (t.Contract? ==> t.id < w.next)
    && forall b :: b in w.markets ==> !Keeps(w.markets[b], t)
  }

  lemma SameTermsKeep(m: Market, m': Market, t: Address)
    requires SameTerms(m, m')
    ensures Keeps(m', t) == Keeps(m, t)
  {
  }

  lemma NextNeverFalls(s: State, e: Event)
    ensures NextState(s, e).w.next >= s.w.next
  {
    hide Try, Settle, Charge, Post;
    if Try(s.w, e).Done? {
      TryCreatesOnlyNext(s.w, e);
      SettleKeepsKeys(s.w, e, Try(s.w, e).value);
    }
  }

  lemma NewMarketIsNext(s: State, e: Event, b: Address)
    requires b in NextState(s, e).w.markets && b !in s.w.markets
    ensures b == Contract(s.w.next)
  {
    hide Try, Settle, Charge, Post;
    if Try(s.w, e).Done? {
      SettleKeepsKeys(s.w, e, Try(s.w, e).value);
      TryCreatesOnlyNext(s.w, e);
    }
  }

  lemma StepKeepsNoShare(s: State, e: Event, t: Address)
    requires Accounted(s) && NoShare(s.w, t)
    ensures NoShare(NextState(s, e).w, t)
  {
    hide NextState, Keeps, Index, Synced, InOrder, Invariant;
    NextNeverFalls(s, e);
    StepKeepsAccounts(s, e);
    var s' := NextState(s, e);
    ConsistentIndex(s'.w);
    forall b | b in s'.w.markets
      ensures !Keeps(s'.w.markets[b], t)
    {
      if b in s.w.markets {
        StepKeepsTerms(s, e, b);
        SameTermsKeep(s.w.markets[b], s'.w.markets[b], t);
      } else {
        NewMarketIsNext(s, e, b);
        KeepsOwn(s'.w, b, t);
      }
    }
  }

  lemma NoShareIsNotCashed(w: World, e: Event, a: Address, t: Address)
    requires NoShare(w, t) && a in w.markets && w.markets[a].token == t
    ensures !CashesIn(w, e, a)
  {
    hide Try, Keeps;
  }

  /** A market over a token that is no share token is never cashed in. */
  lemma {:induction false} NoShareNeverCashedIn(s: State, events: seq<Event>, a: Address, t: Address)
    requires Accounted(s) && NoShare(s.w, t)
    requires a in RunState(s, events).w.markets && RunState(s, events).w.markets[a].token == t
    ensures NeverCashedIn(s.w, events, a)
    decreases |events|
  {
    hide Accounted, NextState, CashesIn, NoShare, Protocol.Next;
    if events != [] {
      var e := events[0];
      StepKeepsAccounts(s, e);
      StepKeepsNoShare(s, e, t);
      NextIsNext(s, e);
      NoShareNeverCashedIn(NextState(s, e), events[1..], a, t);
      if a in s.w.markets {
        ResolutionIsFinal(s, events, a);
        NoShareIsNotCashed(s.w, e, a, t);
      } else {
        UnknownIsNotCashed(s.w, e, a);
      }
    }
  }

  lemma UnknownIsNotCashed(w: World, e: Event, a: Address)
    requires a !in w.markets
    ensures !CashesIn(w, e, a)
  {
  }
}
