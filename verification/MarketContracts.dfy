/** The market, the universe and AugurLite as objects, proved against the
    functions on values. */
module MarketContracts {
  import opened Foundations
  import opened Ledgers
  import opened Markets
  import opened Controllers
  import opened CompleteSets
  import opened Protocol
  import opened ControllerContracts
  import opened TokenContracts
  import Arith = SafeMathUint256
  import Arithmetic

  class AugurLiteContract {
    const controller: ControllerContract
    var universes: set<Address>

    constructor (controller: ControllerContract)
      ensures this.controller == controller && universes == {}
    {
      this.controller, universes := controller, {};
    }

    /** A new universe of the given token, at a new address. */
    method CreateUniverse(self: Address, token: Address, bep20: Bep20) returns (r: Outcome<UniverseContract>)
      modifies this
      ensures controller.stopped ==> r == Reverted(Require) && universes == old(universes)
      ensures !controller.stopped ==>
        && r.Done? && fresh(r.value)
        && r.value.self == self && r.value.token == token && r.value.bep20 == bep20
        && r.value.controller == controller && r.value.augurLite == this
        && r.value.markets == {}
        && universes == old(universes) + {self}
    {
      var _ :- Check(!controller.stopped);
      var universe := new UniverseContract(self, controller, this, token, bep20);
      universes := universes + {self};
      return Done(universe);
    }

    method TrustedTransfer(
        caller: Address, token: Bep20, from: Address, to: Address, amount: uint256) returns (r: Outcome<()>)
      modifies token
      ensures match CompleteSets.TrustedTransfer(controller.View(), old(token.State()), caller, from, to, amount)
              case Done(l') => r == Done(()) && token.State() == l'
              case Reverted(f) => r == Reverted(f)
    {
      var _ :- controller.AssertIsWhitelisted(caller);
      var _ :- Check(amount > 0);
      r := token.TransferFrom(AUGUR_LITE, from, to, amount);
    }
  }

  class UniverseContract {
    const self: Address
    const controller: ControllerContract
    const augurLite: AugurLiteContract
    const token: Address
    const bep20: Bep20
    var markets: set<Address>

    constructor (
        self: Address, controller: ControllerContract, augurLite: AugurLiteContract, token: Address, bep20: Bep20)
      ensures this.self == self && this.controller == controller && this.augurLite == augurLite
      ensures this.token == token && this.bep20 == bep20 && markets == {}
    {
      this.self, this.controller, this.augurLite := self, controller, augurLite;
      this.token, this.bep20, markets := token, bep20, {};
    }

    /** `at` is the contract at the address that the token names as its market,
        if that is one of this universe's. */
    method IsContainerForShareToken(token: Address, answers: Answers, at: MarketContract) returns (r: Outcome<bool>)
      requires answers.market in markets ==> at.self == answers.market
      ensures r == if answers.market == Null || answers.market !in markets then Done(false)
                   else MarketContains(at.View(), token, answers.outcome)
    {
      if answers.market == Null {
        return Done(false);
      }
      if answers.market !in markets {
        return Done(false);
      }
      r := at.IsContainerForShareToken(token, answers.outcome);
    }

    /** What a transaction that creates a market leaves behind, given what
        `initialize` is meant to do. */
    twostate predicate Created(expected: Outcome<(Ledger, Market)>, new r: Outcome<MarketContract>, self': Address)
      reads this, augurLite, bep20
      reads if r.Done? then {r.value, r.value.universe, r.value.augurLite} else {}
      reads if r.Done? then r.value.shareTokens else []
      reads if r.Done? then r.value.Ledgers() else []
    {
      if expected.Done? && self in augurLite.universes then
        && r.Done? && r.value.Valid() && r.value.IsLegit()
        && r.value.self == self' && r.value.universe == this && r.value.token == bep20
        && r.value.View() == expected.value.1
        && bep20.State() == expected.value.0
        && markets == old(markets) + {self'}
      else
        r == Reverted(Require) && bep20.State() == old(bep20.State()) && markets == old(markets)
    }

    /** `createMarketInternal` and the log that follows it. */
    method CreateMarketInternal(
        caller: Address, now: uint256, terms: Terms, id: nat, numOutcomes: uint256, numTicks: uint256)
      returns (r: Outcome<MarketContract>)
      requires terms.universe == self && augurLite.controller == controller
      modifies this, bep20
      ensures Created(
        InitializeMarket(controller.View(), token, old(bep20.State()), caller, now, terms, id, numOutcomes, numTicks),
        r, Contract(id))
      ensures r.Done? ==> fresh(r.value) && fresh(r.value.Ledgers())
    {
      hide InitializeMarket, MarketContract.Valid;
      var saved := bep20.State();
      var market := new MarketContract(Contract(id), controller, augurLite, this, bep20, terms, Mailbox(id),
          numOutcomes, numTicks);
      var done := market.Initialize(caller, now, terms, id);
      if done.Done? && self in augurLite.universes {
        markets := markets + {market.self};
        return Done(market);
      }
      bep20.Restore(saved);
      return Reverted(Require);
    }

    method CreateYesNoMarket(caller: Address, now: uint256, terms: Terms, id: nat) returns (r: Outcome<MarketContract>)
      requires terms.universe == self && augurLite.controller == controller
      modifies this, bep20
      ensures Created(
        if |terms.description| > 0
        then InitializeMarket(controller.View(), token, old(bep20.State()), caller, now, terms, id, 2, 10000)
        else Reverted(Require),
        r, Contract(id))
      ensures r.Done? ==> fresh(r.value) && fresh(r.value.Ledgers())
    {
      hide InitializeMarket;
      var _ :- Check(|terms.description| > 0);
      r := CreateMarketInternal(caller, now, terms, id, 2, 10000);
    }

    method CreateCategoricalMarket(
        caller: Address, now: uint256, terms: Terms, id: nat, outcomes: uint256) returns (r: Outcome<MarketContract>)
      requires terms.universe == self && augurLite.controller == controller
      modifies this, bep20
      ensures Created(
        if |terms.description| > 0
        then InitializeMarket(controller.View(), token, old(bep20.State()), caller, now, terms, id, outcomes, 10000)
        else Reverted(Require),
        r, Contract(id))
      ensures r.Done? ==> fresh(r.value) && fresh(r.value.Ledgers())
    {
      hide InitializeMarket;
      var _ :- Check(|terms.description| > 0);
      r := CreateMarketInternal(caller, now, terms, id, outcomes, 10000);
    }

    method CreateScalarMarket(
        caller: Address, now: uint256, terms: Terms, id: nat, minPrice: int, maxPrice: int, numTicks: uint256)
      returns (r: Outcome<MarketContract>)
      requires terms.universe == self && augurLite.controller == controller
      modifies this, bep20
      ensures Created(if |terms.description| > 0 && minPrice < maxPrice && numTicks % 2 == 0
                      then InitializeMarket(controller.View(), token, old(bep20.State()), caller, now, terms, id, 2,
                          numTicks)
                      else Reverted(Require),
                      r, Contract(id))
      ensures r.Done? ==> fresh(r.value) && fresh(r.value.Ledgers())
    {
      hide InitializeMarket;
      var _ :- Check(|terms.description| > 0);
      var _ :- Check(minPrice < maxPrice);
      var _ :- Check(numTicks % 2 == 0);
      r := CreateMarketInternal(caller, now, terms, id, 2, numTicks);
    }
  }

  class MarketContract {
    const self: Address
    const controller: ControllerContract
    const augurLite: AugurLiteContract
    const universe: UniverseContract
    const token: Bep20
    const endTime: uint256
    const numOutcomes: uint256
    const numTicks: uint256
    const feeDivisor: uint256
    const oracle: Address
    const mailbox: Address
    var resolutionTime: uint256
    var invalid: bool
    var payoutNumerators: seq<uint256>
    var shareTokens: seq<ShareToken>
    var initialized: bool

    function Ledgers(): seq<Bep20>
      reads this
    {
      Tokens(shareTokens)
    }

    function View(): Market
      reads this, shareTokens, Ledgers()
    {
      Market(universe.self, universe.token, numOutcomes, numTicks, feeDivisor, endTime, oracle, mailbox,
             resolutionTime, invalid, payoutNumerators,
             Infos(shareTokens), States(Ledgers()))
    }

    /** The market's tokens are objects of their own, one per outcome, under
        the same controller; each stores this market and its own outcome. */
    ghost predicate Valid()
      reads this, shareTokens
    {
      && |shareTokens| == numOutcomes
      && Distinct(Ledgers()) && token !in Ledgers()
      && augurLite.controller == controller
      && initialized
      && forall i :: 0 <= i < |shareTokens| ==>
           && shareTokens[i].controller == controller
           && shareTokens[i].Info() == TokenInfo(shareTokens[i].self, true, Answers(self, i))
    }

    /** A change to the ledgers of the share tokens alone. */
    twostate lemma OnlyShares()
      requires unchanged(this) && forall i :: 0 <= i < |shareTokens| ==> unchanged(shareTokens[i])
      ensures View() == old(View()).(shares := States(Ledgers()))
    {
    }

    /** A change to the ledger of one share token alone. */
    twostate lemma OnlyLedger(outcome: nat)
      requires old(Valid()) && unchanged(this) && outcome < |shareTokens| && unchanged(shareTokens[outcome])
      requires forall i :: 0 <= i < |shareTokens| && i != outcome ==> unchanged(shareTokens[i].bep20)
      ensures States(Ledgers()) == old(States(Ledgers()))[outcome := shareTokens[outcome].bep20.State()]
    {
    }

    /** The market validator, and what AugurLite asks before it logs. */
    predicate IsLegit()
      reads augurLite, universe
    {
      universe.self in augurLite.universes && self in universe.markets
    }

    /** A market before `initialize` gives it share tokens. */
    constructor (self: Address, controller: ControllerContract, augurLite: AugurLiteContract,
        universe: UniverseContract,
      token: Bep20, terms: Terms, mailbox: Address, numOutcomes: uint256, numTicks: uint256)
      ensures this.self == self && this.controller == controller && this.augurLite == augurLite
      ensures this.universe == universe && this.token == token
      ensures shareTokens == [] && !initialized
      ensures View() == Market(universe.self, universe.token, numOutcomes, numTicks, terms.feeDivisor, terms.endTime,
                               terms.oracle, mailbox, 0, false, [], [], [])
    {
      this.self, this.controller, this.augurLite := self, controller, augurLite;
      this.universe, this.token := universe, token;
      this.numOutcomes, this.numTicks, this.mailbox := numOutcomes, numTicks, mailbox;
      endTime, feeDivisor, oracle := terms.endTime, terms.feeDivisor, terms.oracle;
      resolutionTime, invalid, payoutNumerators, shareTokens, initialized := 0, false, [], [], false;
    }

    method VerifyResolutionInformation(payouts: seq<uint256>, isInvalid: bool) returns (r: Outcome<()>)
      ensures r == VerifyResolution(View(), payouts, isInvalid)
    {
      var sum: uint256 := 0;
      var _ :- Check(|payouts| > 0);
      var previous := payouts[0];
      var _ :- Check(|payouts| == numOutcomes);
      var i := 0;
      while i < |payouts|
        invariant i <= |payouts|
        invariant VerifyFrom(View(), payouts, isInvalid, i, sum, previous) ==
            VerifyResolution(View(), payouts, isInvalid)
      {
        var value := payouts[i];
        sum :- Arith.Add(sum, value);
        var _ :- Check(!isInvalid || value == previous);
        previous := value;
        i := i + 1;
      }
      if isInvalid {
        r := Check(previous == numTicks / numOutcomes);
      } else {
        r := Check(sum == numTicks);
      }
    }

    method AssertBalances() returns (r: Outcome<()>)
      requires Valid()
      ensures r == Markets.AssertBalances(View(), token.State().Balance(self))
    {
      var expected: uint256 := 0;
      if resolutionTime != 0 {
        var i := 0;
        while i < numOutcomes
          invariant i <= numOutcomes
          invariant ExpectedFrom(View(), i, expected) == ExpectedFrom(View(), 0, 0)
        {
          var payout :- PayoutNumerator(i);
          var product :- Arith.Mul(shareTokens[i].bep20.totalSupply, payout);
          expected :- Arith.Add(expected, product);
          i := i + 1;
        }
      } else {
        var _ :- Check(|shareTokens| > 0);
        var product :- Arith.Mul(shareTokens[0].bep20.totalSupply, numTicks);
        expected := product;  // added to zero, which cannot overflow
      }
      r := if token.State().Balance(self) >= expected then Done(()) else Reverted(Assert);
    }

    method IsContainerForShareToken(token: Address, outcome: uint256) returns (r: Outcome<bool>)
      ensures r == MarketContains(View(), token, outcome)
    {
      var _ :- Check(outcome < |shareTokens|);
      return Done(shareTokens[outcome].self == token);
    }

    /** The market accepts each token it created, on what that token stores. */
    lemma AcceptsOwnTokens(i: nat)
      requires Valid() && i < |shareTokens|
      ensures shareTokens[i].market == self
      ensures MarketContains(View(), shareTokens[i].self, shareTokens[i].outcome) == Done(true)
    {
      assert View().shareTokens[i] == shareTokens[i].Info();
    }

    method PayoutNumerator(outcome: nat) returns (r: Outcome<uint256>)
      ensures r == View().PayoutNumerator(outcome)
    {
      var _ :- Check(resolutionTime != 0);
      var _ :- Check(outcome < |payoutNumerators|);
      return Done(payoutNumerators[outcome]);
    }

    method DeriveMarketCreatorFeeAmount(amount: uint256) returns (fee: uint256)
      ensures fee == View().DeriveFee(amount) && IsFee(View(), amount, fee)
    {
      FeeExact(View(), amount, View().DeriveFee(amount));
      if feeDivisor == 0 {
        return 0;
      }
      Arithmetic.Quotient(amount, feeDivisor);
      fee := amount / feeDivisor;
    }

    method ApproveSpenders() returns (r: Outcome<()>)
      modifies token
      ensures match ApproveAll(controller.View(), old(token.State()), self)
              case Done(l') => r == Done(()) && token.State() == l'
              case Reverted(f) => r == Reverted(f)
    {
      var _ :- Check(!controller.stopped);
      var _ :- token.SetAllowance(self, controller.View().Lookup("CompleteSets"), MAX_WORD);
      r := token.SetAllowance(self, controller.View().Lookup("ClaimTradingProceeds"), MAX_WORD);
    }

    /** What `resolve` requires. */
    method CheckResolution(
        caller: Address, now: uint256, payouts: seq<uint256>, isInvalid: bool) returns (r: Outcome<()>)
      ensures r.Done? <==> MayResolve(View(), controller.stopped, now, caller, payouts, isInvalid)
      ensures r.Reverted? ==> r.fault == Require
    {
      ResolveExact(View(), controller.stopped, now, caller, payouts, isInvalid);
      hide VerifyResolution, MayResolve;
      var _ :- Check(!controller.stopped);
      var _ :- Check(resolutionTime == 0);
      var _ :- Check(now > endTime);
      var _ :- Check(caller == oracle);
      r := VerifyResolutionInformation(payouts, isInvalid);
    }

    method SetResolution(time: uint256, payouts: seq<uint256>, isInvalid: bool)
      requires Valid()
      modifies this`resolutionTime, this`payoutNumerators, this`invalid
      ensures Valid() && View() == old(View()).(resolutionTime := time, payouts := payouts, invalid := isInvalid)
    {
      resolutionTime, payoutNumerators, invalid := time, payouts, isInvalid;
    }

    /** The oracle's transaction. The log comes last and can still fail it. */
    method Resolve(caller: Address, now: uint256, payouts: seq<uint256>, isInvalid: bool) returns (r: Outcome<()>)
      requires Valid()
      modifies this`resolutionTime, this`payoutNumerators, this`invalid
      ensures Valid()
      ensures r.Done? <==>
        && MayResolve(old(View()), controller.stopped, now, caller, payouts, isInvalid)
        && universe.self in augurLite.universes && self in universe.markets
      ensures r.Done? ==> View() == old(View()).(resolutionTime := now, payouts := payouts, invalid := isInvalid)
      ensures r.Reverted? ==> r.fault == Require && View() == old(View())
    {
      ghost var m := View();
      assert m.resolutionTime == resolutionTime && m.payouts == payoutNumerators && m.invalid == invalid;
      hide MayResolve, View, Valid;
      r := CheckResolution(caller, now, payouts, isInvalid);
      if r.Done? {
        var saved := (resolutionTime, payoutNumerators, invalid);
        SetResolution(now, payouts, isInvalid);
        r := Check(IsLegit());
        if r.Reverted? {
          SetResolution(saved.0, saved.1, saved.2);
        }
      }
    }

    method CheckTerms(creator: Address, now: uint256, terms: Terms, id: nat) returns (r: Outcome<()>)
      requires endTime == terms.endTime && feeDivisor == terms.feeDivisor && oracle == terms.oracle
      ensures r == Protocol.CheckTerms(NewMarket(terms, id, numOutcomes, numTicks), universe.token, creator, now)
    {
      var _ :- Check(MIN_OUTCOMES <= numOutcomes <= MAX_OUTCOMES);
      var _ :- Check(numTicks > 0);
      var _ :- Check(oracle != Null);
      var _ :- Check(numTicks >= numOutcomes);
      var _ :- Check(feeDivisor == 0 || feeDivisor >= MIN_FEE_DIVISOR);
      var _ :- Check(creator != Null);
      var _ :- Check(now < endTime);
      r := Check(universe.token == terms.token);
    }

    /** `initialize`, after the constructor took the terms over. It can be
        called once. */
    method Initialize(creator: Address, now: uint256, terms: Terms, id: nat) returns (r: Outcome<()>)
      requires self == Contract(id) && mailbox == Mailbox(id) && universe.self == terms.universe
      requires endTime == terms.endTime && feeDivisor == terms.feeDivisor && oracle == terms.oracle
      requires !initialized ==> resolutionTime == 0 && !invalid && payoutNumerators == [] && shareTokens == []
      requires augurLite.controller == controller
      modifies this`shareTokens, this`initialized, token
      ensures old(initialized) ==>
        && r == Reverted(Require) && initialized && shareTokens == old(shareTokens)
        && token.State() == old(token.State())
      ensures !old(initialized) ==>
        match InitializeMarket(controller.View(), universe.token, old(token.State()), creator, now, terms, id,
            numOutcomes, numTicks)
        case Done(after) =>
          && r == Done(()) && Valid() && fresh(shareTokens) && fresh(Ledgers())
          && token.State() == after.0 && View() == after.1
        case Reverted(f) => r == Reverted(f)
    {
      hide ApproveAll;
      var _ :- Check(!initialized);
      initialized := true;
      r := CheckTerms(creator, now, terms, id);
      if r.Done? {
        CreateShareTokens(id);
        assert View() == NewMarket(terms, id, numOutcomes, numTicks);
        hide Protocol.CheckTerms, NewMarket;
        r := ApproveSpenders();
      }
    }

    method CreateShareToken(id: nat, outcome: uint256) returns (t: ShareToken)
      requires self == Contract(id)
      ensures fresh(t) && fresh(t.bep20) && t.controller == controller
      ensures t.Info() == NewToken(id, outcome) && t.bep20.State() == EMPTY
    {
      t := new ShareToken(Contract(id + 1 + outcome), controller);
      var _ := t.Initialize(self, outcome);
    }

    /** The loop of `initialize`: a fresh share token for every outcome, at the
        addresses that follow the market's own. */
    method CreateShareTokens(id: nat)
      requires self == Contract(id) && shareTokens == [] && initialized && augurLite.controller == controller
      modifies this`shareTokens
      ensures Valid() && fresh(shareTokens) && fresh(Ledgers())
      ensures View() == old(View()).(
        shareTokens := seq(numOutcomes, i requires 0 <= i < numOutcomes => NewToken(id, i)),
        shares := seq(numOutcomes, i requires 0 <= i < numOutcomes => EMPTY))
    {
      var outcome: uint256 := 0;
      while outcome < numOutcomes
        invariant outcome == |shareTokens| <= numOutcomes
        invariant fresh(shareTokens) && fresh(Ledgers()) && Distinct(Ledgers())
        invariant forall i :: 0 <= i < outcome ==>
          && shareTokens[i].Info() == NewToken(id, i) && shareTokens[i].controller == controller
          && shareTokens[i].bep20.State() == EMPTY
      {
        var shareToken := CreateShareToken(id, outcome);
        shareTokens := shareTokens + [shareToken];
        outcome := outcome + 1;
      }
      assert View().shares == seq(numOutcomes, i requires 0 <= i < numOutcomes => EMPTY);
      assert View().shareTokens == seq(numOutcomes, i requires 0 <= i < numOutcomes => NewToken(id, i));
    }
  }
}
