/** What holds over whole runs: a resolution is final, the emergency stop
    freezes every market, and a registered contract stays registered. */
module Governance {
  import opened Options
  import opened Foundations
  import opened Ledgers
  import opened Markets
  import opened Controllers
  import opened CompleteSets
  import opened ClaimTradingProceeds
  import opened Protocol
  import opened Escrow
  import opened EscrowRuns
  import opened Payouts
  import opened Trades
  import opened Listing

  /** The states of a run with books are those of the run itself. */
  lemma {:induction false} RunStateIsRun(s: State, events: seq<Event>)
    ensures RunState(s, events).w == Run(s.w, events)
    decreases |events|
  {
    hide Try, Post, Settle, Charge;
    if events != [] {
      assert NextState(s, events[0]).w == Protocol.Next(s.w, events[0]);
      RunStateIsRun(NextState(s, events[0]), events[1..]);
    }
  }

  /** A market's terms never change, and its resolution at most once. */
  ghost predicate SameTerms(m: Market, m': Market) {
    && m' == m.(resolutionTime := m'.resolutionTime, invalid := m'.invalid, payouts := m'.payouts, shares := m'.shares)
    && (m.IsResolved() ==> m' == m.(shares := m'.shares))
  }

  lemma CreateKeepsMarket(w: World, e: Event, a: Address)
    requires MarketsOk(w) && a in w.markets && CreateStep(e.step) && Try(w, e).Done?
    ensures a in Try(w, e).value.markets && Try(w, e).value.markets[a] == w.markets[a]
  {
    hide Try;
    FreshAddress(w);
    var terms, n, ticks := TryCreate(w, e);
    hide Try, ApproveAll, NewMarket, MarketsOk;
  }

  lemma QuietKeepsMarket(w: World, e: Event, a: Address)
    requires a in w.markets && Try(w, e).Done?
    requires ControlStep(e.step) || e.step.TokenCall? || e.step.ApproveSpenders?
    ensures a in Try(w, e).value.markets && Try(w, e).value.markets[a] == w.markets[a]
  {
    hide Apply, ApproveAll;
  }

  lemma BuyKeepsTerms(s: State, e: Event, b: Address, k: uint256, a: Address)
    requires Invariant(s) && a in s.w.markets && e.step == Buy(b, k) && Try(s.w, e).Done?
    ensures a in Try(s.w, e).value.markets && SameTerms(s.w.markets[a], Try(s.w, e).value.markets[a])
  {
    hide Try, Invariant;
    BuyDoes(s, e, b, k);
    hide Try, Invariant, AllIssued, Moved, Spent;
  }

  lemma SellKeepsTerms(s: State, e: Event, b: Address, k: uint256, a: Address)
    requires Invariant(s) && a in s.w.markets && e.step == Sell(b, k) && Try(s.w, e).Done?
    ensures a in Try(s.w, e).value.markets && SameTerms(s.w.markets[a], Try(s.w, e).value.markets[a])
  {
    hide Try, Invariant;
    Trades.SellDoes(s, e, b, k);
    hide Try, Invariant, AllIssued, Paid, Spent;
  }

  lemma ClaimKeepsTerms(s: State, e: Event, b: Address, holder: Address, a: Address)
    requires Invariant(s) && a in s.w.markets && e.step == Step.Claim(b, holder) && Try(s.w, e).Done?
    ensures a in Try(s.w, e).value.markets && SameTerms(s.w.markets[a], Try(s.w, e).value.markets[a])
  {
    hide Try, Invariant;
    ClaimDoes(s, e, b, holder);
    hide Try, Invariant, AllDestroyed, PaysFrom;
  }

  lemma ResolveKeepsTerms(s: State, e: Event, b: Address, payouts: seq<uint256>, invalid: bool, a: Address)
    requires Invariant(s) && a in s.w.markets && e.step == Step.Resolve(b, payouts, invalid) && Try(s.w, e).Done?
    ensures a in Try(s.w, e).value.markets && SameTerms(s.w.markets[a], Try(s.w, e).value.markets[a])
  {
    hide Try, Invariant;
    TryResolve(s.w, e, b, payouts, invalid);
    hide Try, Invariant, VerifyResolution;
  }

  lemma SameTermsAsItself(m: Market)
    ensures SameTerms(m, m)
  {
  }

  lemma TryKeepsTerms(s: State, e: Event, a: Address)
    requires Invariant(s) && a in s.w.markets && Try(s.w, e).Done?
    ensures a in Try(s.w, e).value.markets && SameTerms(s.w.markets[a], Try(s.w, e).value.markets[a])
  {
    SameTermsAsItself(s.w.markets[a]);
    assert MarketsOk(s.w);
    hide Try, Invariant, SameTerms, MarketsOk;
    match e.step
    case Buy(b, k) => BuyKeepsTerms(s, e, b, k, a);
    case Sell(b, k) => SellKeepsTerms(s, e, b, k, a);
    case Claim(b, holder) => ClaimKeepsTerms(s, e, b, holder, a);
    case Resolve(b, payouts, invalid) => ResolveKeepsTerms(s, e, b, payouts, invalid, a);
    case InitializeShare(_, _, _, _) => InitializeShareFails(s, e);
    case CreateYesNoMarket(_) => CreateKeepsMarket(s.w, e, a);
    case CreateCategoricalMarket(_, _) => CreateKeepsMarket(s.w, e, a);
    case CreateScalarMarket(_, _, _, _) => CreateKeepsMarket(s.w, e, a);
    case _ => QuietKeepsMarket(s.w, e, a);
  }

  lemma TellKeepsTerms(w: World, t: Address, a: Address)
    requires a in w.markets
    ensures var w' := TellMarkets(w, t);
      a in w'.markets && w'.markets[a] == w.markets[a].(shares := w'.markets[a].shares)
  {
  }

  lemma SettleMarketKeepsTerms(w: World, b: Address, a: Address)
    requires a in w.markets
    ensures var w' := SettleMarket(w, b);
      a in w'.markets && w'.markets[a] == w.markets[a].(shares := w'.markets[a].shares)
  {
    if b in w.markets { TellKeepsTerms(ListShares(w, b), w.markets[b].token, a); }
    hide TellMarkets, ListFrom;
  }

  /** What follows a transaction reaches no more of a market than its shares. */
  lemma SettleKeepsTerms(w: World, e: Event, w1: World, a: Address)
    requires a in w1.markets
    ensures var w' := Settle(w, e, w1);
      a in w'.markets && w'.markets[a] == w1.markets[a].(shares := w'.markets[a].shares)
  {
    hide SettleMarket, TellMarkets;
    match e.step
    case Buy(b, _) => SettleMarketKeepsTerms(w1, b, a);
    case Sell(b, _) => SettleMarketKeepsTerms(w1, b, a);
    case Claim(b, _) => SettleMarketKeepsTerms(w1, b, a);
    case ApproveSpenders(b) => SettleMarketKeepsTerms(w1, b, a);
    case TokenCall(t, _) => TellKeepsTerms(w1, t, a);
    case _ => SettleMarketKeepsTerms(w1, Contract(w.next), a);
  }

  lemma SettleKeepsController(w: World, e: Event, w1: World)
    ensures Settle(w, e, w1).controller == w1.controller
  {
    hide ListFrom;
  }

  lemma StepKeepsTerms(s: State, e: Event, a: Address)
    requires Invariant(s) && a in s.w.markets
    ensures a in NextState(s, e).w.markets && SameTerms(s.w.markets[a], NextState(s, e).w.markets[a])
  {
    hide Try, Invariant, Settle, Charge, Post;
    if Try(s.w, e).Done? {
      TryKeepsTerms(s, e, a);
      SettleKeepsTerms(s.w, e, Try(s.w, e).value, a);
    } else {
      SameTermsAsItself(s.w.markets[a]);
    }
  }

  /** Resolution is a latch: in every run a resolved market stays resolved,
      with the same time, the same payouts and the same verdict on validity,
      and it was resolved after its end. */
  lemma {:induction false} ResolutionIsFinal(s: State, events: seq<Event>, a: Address)
    requires Accounted(s) && a in s.w.markets
    ensures a in RunState(s, events).w.markets && SameTerms(s.w.markets[a], RunState(s, events).w.markets[a])
    ensures s.w.markets[a].IsResolved() ==> s.w.markets[a].resolutionTime > s.w.markets[a].endTime > 0
    decreases |events|
  {
    hide NextState, Consistent, Invariant;
    OneMarket(s, a);
    hide Balanced;
    if events != [] {
      StepKeepsTerms(s, events[0], a);
      StepKeepsAccounts(s, events[0]);
      hide Accounted;
      ResolutionIsFinal(NextState(s, events[0]), events[1..], a);
    }
  }

  /** No claim succeeds before resolution, though its time check passes: the
      resolution time it compares with is still zero. */
  lemma NoClaimBeforeResolution(s: State, e: Event, a: Address, holder: Address)
    requires Invariant(s) && e.step == Step.Claim(a, holder) && a in s.w.markets
    requires !s.w.markets[a].IsResolved()
    ensures e.now > 0 ==> e.now > s.w.markets[a].resolutionTime
    ensures Transact(s.w, e).Reverted?
  {
    if Try(s.w, e).Done? { ClaimDoes(s, e, a, holder); }
  }

  // The emergency stop.

  /** Nothing leaves the market a and nothing in it is decided. */
  ghost predicate Frozen(w: World, w': World, a: Address) {
    && a in w.markets && a in w'.markets && w.markets[a].token in w.tokens && w.markets[a].token in w'.tokens
    && w'.markets[a] == w.markets[a].(shares := w'.markets[a].shares)
    && Supplies(w'.markets[a].shares) == Supplies(w.markets[a].shares)
    && w'.tokens[w.markets[a].token].Balance(a) >= w.tokens[w.markets[a].token].Balance(a)
  }

  lemma StoppedTransactionsFail(w: World, e: Event)
    requires w.controller.stopped
    requires e.step.Buy? || e.step.Sell? || e.step.Claim? || e.step.Resolve? || e.step.ApproveSpenders?
             || e.step.CreateUniverse? || CreateStep(e.step) || e.step.EmergencyStop?
    ensures Try(w, e) == Reverted(Require)
  {
  }

  lemma StoppedStays(w: World, e: Event)
    requires w.controller.stopped && Try(w, e).Done?
    ensures Try(w, e).value.controller.stopped
  {
    if e.step.Buy? || e.step.Sell? || e.step.Claim? || e.step.Resolve? || e.step.ApproveSpenders?
       || e.step.CreateUniverse? || CreateStep(e.step) || e.step.EmergencyStop? {
      StoppedTransactionsFail(w, e);
    }
    hide Apply;
  }

  lemma TokenCallFreezes(s: State, e: Event, t: Address, call: Call, a: Address)
    requires Invariant(s) && a in s.w.markets && e.step == TokenCall(t, call) && Try(s.w, e).Done?
    ensures Frozen(s.w, Try(s.w, e).value, a)
  {
    hide Try, Apply, Balanced, MarketOk, AllBalanced, MarketsOk;
    TryTokenCall(s.w, e, t, call);
    OneMarket(s, a);
    if s.w.markets[a].token == t {
      ForeignCall(s.w.tokens[t], e.caller, call, a.id);
    }
  }

  lemma TellFreezes(w: World, w1: World, t: Address, a: Address)
    requires Frozen(w, w1, a) && Pending(w1, t) && TokensSound(w1) && MarketOk(w1, a, w1.markets[a])
    ensures Frozen(w, TellMarkets(w1, t), a)
  {
    assert t in w1.tokens;
    TellKeepsMarket(w1, t, a);
    hide Pending, TokensSound, MarketOk, TakeOver;
    assert Supplies(TakeOver(w1.markets[a], t, w1.tokens[t]).shares) == Supplies(w1.markets[a].shares);
  }

  /** A call on a share token moves shares, of whatever market. */
  lemma ShareCallFreezes(s: State, e: Event, t: Address, call: Call, a: Address)
    requires Accounted(s) && a in s.w.markets && e.step == TokenCall(t, call) && Try(s.w, e).Done?
    ensures Frozen(s.w, TellMarkets(Try(s.w, e).value, t), a)
  {
    hide Try, Pending, Post, Frozen, Consistent, MarketOk, TellMarkets, TokensSound;
    TokenCallFreezes(s, e, t, call, a);
    TokenCallPends(s, e, t, call);
    TryKeepsInvariant(s, e);
    hide Accounted;
    FrozenKnown(s.w, Try(s.w, e).value, a);
    OneMarket(TryState(s, e), a);
    AllSoundTokens(TryState(s, e));
    hide Invariant, Balanced;
    TellFreezes(s.w, Try(s.w, e).value, t, a);
  }

  lemma FrozenKnown(w: World, w': World, a: Address)
    requires Frozen(w, w', a)
    ensures a in w'.markets
  {
  }

  lemma ControlFreezes(w: World, e: Event, a: Address)
    requires ControlStep(e.step) && Deployed(w.controller) && Try(w, e).Done? && a in w.markets
        && w.markets[a].token in w.tokens
    ensures Frozen(w, Try(w, e).value, a)
  {
    TryControl(w, e);
  }

  lemma QuietFreezes(s: State, e: Event, a: Address)
    requires Accounted(s) && s.w.controller.stopped && a in s.w.markets && Try(s.w, e).Done? && !e.step.TokenCall?
    ensures ControlStep(e.step)
    ensures Frozen(s.w, Try(s.w, e).value, a)
  {
    hide Try, Consistent;
    OneMarket(s, a);
    if ControlStep(e.step) {
      ControlFreezes(s.w, e, a);
    } else if e.step.InitializeShare? {
      InitializeShareFails(s, e);
    } else {
      hide Invariant;
      StoppedTransactionsFail(s.w, e);
    }
  }

  lemma StopFreezes(s: State, e: Event, a: Address)
    requires Accounted(s) && s.w.controller.stopped && a in s.w.markets
    ensures NextState(s, e).w.controller.stopped && Frozen(s.w, NextState(s, e).w, a)
  {
    hide Try, Charge, Post, Accounted, TellMarkets;
    if Try(s.w, e).Done? {
      StoppedStays(s.w, e);
      SettleKeepsController(s.w, e, Try(s.w, e).value);
      if e.step.TokenCall? {
        ShareCallFreezes(s, e, e.step.token, e.step.call, a);
      } else {
        QuietFreezes(s, e, a);
      }
    } else {
      NothingHappens(s, a);
    }
  }

  lemma NothingHappens(s: State, a: Address)
    requires Accounted(s) && a in s.w.markets
    ensures Frozen(s.w, s.w, a)
  {
    OneMarket(s, a);
    hide Consistent, Balanced;
  }

  /** After the emergency stop no run ever changes a market's supplies or its
      resolution, or lowers its escrow; and the stop is never lifted. */
  lemma {:induction false} StopIsForever(s: State, events: seq<Event>, a: Address)
    requires Accounted(s) && s.w.controller.stopped && a in s.w.markets
    ensures RunState(s, events).w.controller.stopped
    ensures Frozen(s.w, RunState(s, events).w, a)
    decreases |events|
  {
    hide NextState, Invariant, Consistent;
    OneMarket(s, a);
    hide Balanced, MarketOk, Accounted;
    if events != [] {
      StopFreezes(s, events[0], a);
      StepKeepsAccounts(s, events[0]);
      StopIsForever(NextState(s, events[0]), events[1..], a);
    }
  }

  // The controller.

  lemma MarketStepsKeepController(w: World, e: Event)
    requires e.step.Buy? || e.step.Sell? || e.step.Claim? || e.step.Resolve? || e.step.ApproveSpenders?
    requires Try(w, e).Done?
    ensures Try(w, e).value.controller == w.controller
  {
    hide PublicBuy, PublicSell, ClaimTradingProceeds.Claim, Markets.Resolve, ApproveAll;
  }

  lemma OtherStepsKeepController(w: World, e: Event)
    requires e.step.TokenCall? || e.step.InitializeShare? || e.step.CreateUniverse? || CreateStep(e.step)
    requires Try(w, e).Done?
    ensures Try(w, e).value.controller == w.controller
  {
    hide Apply, ApproveAll, NewMarket, InitializeMarket;
  }

  /** Only the controller's own transactions change it. */
  predicate RulingStep(step: Step) {
    || step.AddToWhitelist? || step.RemoveFromWhitelist? || step.RegisterContract? || step.TransferControl?
    || step.EmergencyStop?
  }

  lemma OnlyRulingsChangeController(w: World, e: Event)
    requires !RulingStep(e.step)
    ensures Protocol.Next(w, e).controller == w.controller
  {
    hide Try, Settle;
    if Try(w, e).Done? {
      SettleKeepsController(w, e, Try(w, e).value);
      if e.step.Buy? || e.step.Sell? || e.step.Claim? || e.step.Resolve? || e.step.ApproveSpenders? {
        MarketStepsKeepController(w, e);
      } else {
        OtherStepsKeepController(w, e);
      }
    }
  }

  /** What a transaction makes of the controller. */
  function Ruled(c: Controller, e: Event): Controller {
    var after :=
      match e.step
      case AddToWhitelist(target) => c.AddToWhitelist(e.caller, target)
      case RemoveFromWhitelist(target) => c.RemoveFromWhitelist(e.caller, target)
      case RegisterContract(key, target, hash) => c.RegisterContract(e.caller, key, target, hash)
      case TransferControl(newOwner) => c.TransferOwnership(e.caller, newOwner)
      case EmergencyStop => c.EmergencyStop(e.caller)
      case _ => Done(c);
    if MayCall(e.caller) && after.Done? then after.value else c
  }

  lemma NextRules(w: World, e: Event)
    ensures Protocol.Next(w, e).controller == Ruled(w.controller, e)
  {
    if RulingStep(e.step) {
      hide World.IsLegit;
    } else {
      OnlyRulingsChangeController(w, e);
    }
  }

  lemma StepKeepsRegistry(w: World, e: Event, key: string)
    requires w.controller.Lookup(key) != Null
    ensures key in Protocol.Next(w, e).controller.registry
    ensures Protocol.Next(w, e).controller.registry[key] == w.controller.registry[key]
  {
    hide Protocol.Next;
    NextRules(w, e);
  }

  /** A contract once registered under a key stays so in every run, so the
      spenders that markets approve never change. */
  lemma {:induction false} RegistryIsFixed(w: World, events: seq<Event>, key: string)
    requires w.controller.Lookup(key) != Null
    ensures key in w.controller.registry && key in Run(w, events).controller.registry
    ensures Run(w, events).controller.registry[key] == w.controller.registry[key]
    decreases |events|
  {
    hide Protocol.Next;
    if events != [] {
      StepKeepsRegistry(w, events[0], key);
      RegistryIsFixed(Protocol.Next(w, events[0]), events[1..], key);
    }
  }

  lemma StepOfOthers(w: World, e: Event)
    requires e.caller != w.controller.owner
    ensures Protocol.Next(w, e).controller == w.controller
  {
    hide Protocol.Next;
    NextRules(w, e);
  }

  /** Without a transaction of the owner's, the controller stays as it is: its
      owner, whitelist, registry and stop. */
  lemma {:induction false} OnlyTheOwnerRules(w: World, events: seq<Event>)
    requires forall i :: 0 <= i < |events| ==> events[i].caller != w.controller.owner
    ensures Run(w, events).controller == w.controller
    decreases |events|
  {
    hide Protocol.Next;
    if events != [] {
      StepOfOthers(w, events[0]);
      OnlyTheOwnerRules(Protocol.Next(w, events[0]), events[1..]);
    }
  }

  /** What a transaction says of the target's place on the whitelist, if it is
      the owner's to say. */
  function Ruling(w: World, e: Event, target: Address): Option<bool> {
    if !MayCall(e.caller) || e.caller != w.controller.owner then None
    else if e.step == AddToWhitelist(target) then Some(true)
    else if e.step == RemoveFromWhitelist(target) then Some(false)
    else None
  }

  /** The last thing that was said of it in a run. */
  function LastRuling(w: World, events: seq<Event>, target: Address): Option<bool>
    decreases |events|
  {
    if events == [] then None else
      var later := LastRuling(Protocol.Next(w, events[0]), events[1..], target);
      if later.Some? then later else Ruling(w, events[0], target)
  }

  lemma StepRules(w: World, e: Event, target: Address)
    ensures target in Protocol.Next(w, e).controller.whitelist <==>
      match Ruling(w, e, target)
      case None => target in w.controller.whitelist
      case Some(listed) => listed
  {
    hide Protocol.Next;
    NextRules(w, e);
  }

  /** After every run the whitelist holds exactly those whom the owner of the
      day last added, and of those nothing was said about, whom it held before. */
  lemma {:induction false} WhitelistIsTheOwnersWord(w: World, events: seq<Event>, target: Address)
    ensures target in Run(w, events).controller.whitelist <==>
      match LastRuling(w, events, target)
      case None => target in w.controller.whitelist
      case Some(listed) => listed
    decreases |events|
  {
    hide Protocol.Next, Ruling;
    if events != [] {
      StepRules(w, events[0], target);
      WhitelistIsTheOwnersWord(Protocol.Next(w, events[0]), events[1..], target);
    }
  }

  // What the controller is after a run, by what was sent alone.

  /** The owner after the events: the last one named by the owner of the time. */
  function OwnerAfter(owner: Address, events: seq<Event>): Address
    decreases |events|
  {
    if events == [] then owner else
      var e := events[0];
      OwnerAfter(if MayCall(e.caller) && e.caller == owner && e.step.TransferControl? then e.step.newOwner else owner,
                 events[1..])
  }

  /** Whether the owner of the time sent the emergency stop. */
  predicate StopSent(owner: Address, events: seq<Event>)
    decreases |events|
  {
    events != [] &&
    var e := events[0];
    || (MayCall(e.caller) && e.caller == owner && e.step == EmergencyStop)
    || StopSent(OwnerAfter(owner, [e]), events[1..])
  }

  /** The first entry with an address that the owner of the time made under the
      key. */
  function FirstRegistered(owner: Address, events: seq<Event>, key: string): Option<Details>
    decreases |events|
  {
    if events == [] then None else
      var e := events[0];
      if MayCall(e.caller) && e.caller == owner
         && e.step.RegisterContract? && e.step.key == key && e.step.target != Null
      then Some(Details(e.step.target, e.step.bytecodeHash))
      else FirstRegistered(OwnerAfter(owner, [e]), events[1..], key)
  }

  /** The entry under a key, if it has an address. */
  function EntryOf(c: Controller, key: string): Option<Details> {
    if key in c.registry && c.registry[key].contractAddress != Null then Some(c.registry[key]) else None
  }

  lemma StepRulesOwner(w: World, e: Event)
    ensures Protocol.Next(w, e).controller.owner == OwnerAfter(w.controller.owner, [e])
    ensures w.controller.Lookup("AugurLite") != Null ==>
      (Protocol.Next(w, e).controller.stopped <==>
        w.controller.stopped || (MayCall(e.caller) && e.caller == w.controller.owner && e.step == EmergencyStop))
  {
    assert [e][1..] == [];
    hide Protocol.Next;
    NextRules(w, e);
  }

  lemma StepRegisters(w: World, e: Event, key: string)
    ensures EntryOf(Protocol.Next(w, e).controller, key) ==
      if EntryOf(w.controller, key).Some? then EntryOf(w.controller, key)
      else FirstRegistered(w.controller.owner, [e], key)
  {
    assert [e][1..] == [];
    hide Protocol.Next;
    NextRules(w, e);
  }

  /** After every run the owner is the last one that an owner named, and the
      protocol is stopped if and only if it was or an owner sent the stop. */
  lemma {:induction false} OwnersRule(w: World, events: seq<Event>)
    ensures Run(w, events).controller.owner == OwnerAfter(w.controller.owner, events)
    ensures w.controller.Lookup("AugurLite") != Null ==>
      (Run(w, events).controller.stopped <==> w.controller.stopped || StopSent(w.controller.owner, events))
    decreases |events|
  {
    hide Protocol.Next;
    if events != [] {
      var w1 := Protocol.Next(w, events[0]);
      StepRulesOwner(w, events[0]);
      StepRegisters(w, events[0], "AugurLite");
      assert [events[0]][1..] == [];
      OwnersRule(w1, events[1..]);
    }
  }

  /** After every run what is found under a key is what was there, or else what
      an owner first registered; later registrations do not count. */
  lemma {:induction false} FirstComeFirstServed(w: World, events: seq<Event>, key: string)
    ensures EntryOf(Run(w, events).controller, key) ==
      if EntryOf(w.controller, key).Some? then EntryOf(w.controller, key)
      else FirstRegistered(w.controller.owner, events, key)
    ensures Run(w, events).controller.Lookup(key) ==
      match EntryOf(Run(w, events).controller, key) case None => Null case Some(d) => d.contractAddress
    decreases |events|
  {
    hide Protocol.Next;
    if events != [] {
      var w1 := Protocol.Next(w, events[0]);
      StepRulesOwner(w, events[0]);
      StepRegisters(w, events[0], key);
      assert [events[0]][1..] == [];
      FirstComeFirstServed(w1, events[1..], key);
    }
  }

  /** So the owner can always stop the protocol, and that freezes every market. */
  lemma OwnerStops(s: State, e: Event, events: seq<Event>, a: Address)
    requires Accounted(s) && e.step == EmergencyStop && a in s.w.markets
    requires MayCall(e.caller) && e.caller == s.w.controller.owner
    ensures RunState(s, [e] + events).w.controller.stopped
    ensures Frozen(NextState(s, e).w, RunState(s, [e] + events).w, a)
  {
    hide NextState, Frozen;
    OneMarketOfAll(s);
    StepRulesOwner(s.w, e);
    RunStateIsRun(s, [e]);
    assert [e][1..] == [] && ([e] + events)[1..] == events;
    StepKeepsAccounts(s, e);
    StepKeepsTerms(s, e, a);
    hide Accounted;
    StopIsForever(NextState(s, e), events, a);
  }
}
