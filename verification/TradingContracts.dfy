/** CompleteSets and ClaimTradingProceeds as objects: loops over the share
    tokens that change them in place, inside transactions that put everything
    back when a step fails. */
module TradingContracts {
  import opened Foundations
  import opened Ledgers
  import opened Markets
  import opened Controllers
  import opened Protocol
  import opened ControllerContracts
  import opened TokenContracts
  import opened MarketContracts
  import CS = CompleteSets
  import CTP = ClaimTradingProceeds
  import Arith = SafeMathUint256

  /** What a call that ended with r leaves of the market and its token. */
  ghost function After(market: MarketContract, r: Outcome<()>): Outcome<(Ledger, Market)>
    reads market, market.shareTokens, market.Ledgers(), market.token
  {
    match r
    case Done(_) => Done((market.token.State(), market.View()))
    case Reverted(f) => Reverted(f)
  }

  /** The token and the market are as they were. */
  twostate predicate PutBack(market: MarketContract)
    reads market, market.shareTokens, market.Ledgers(), market.token
  {
    market.token.State() == old(market.token.State()) && market.View() == old(market.View())
  }

  /** What the virtual machine does with a transaction that failed. */
  method Undo(market: MarketContract, token: Ledger, shares: seq<Ledger>)
    requires market.Valid() && |shares| == |market.Ledgers()|
    modifies market.token, market.Ledgers()
    ensures market.token.State() == token && market.View() == old(market.View()).(shares := shares)
  {
    RestoreAll(market.token, token, market.Ledgers(), shares);
    market.OnlyShares();
  }

  class CompleteSetsContract {
    const controller: ControllerContract
    const augurLite: AugurLiteContract
    var rentrancyLock: bool

    constructor (controller: ControllerContract, augurLite: AugurLiteContract)
      ensures this.controller == controller && this.augurLite == augurLite && !rentrancyLock
    {
      this.controller, this.augurLite, rentrancyLock := controller, augurLite, false;
    }

    ghost predicate Serves(market: MarketContract)
      reads market, market.shareTokens
    {
      && market.Valid() && market.controller == controller
      && market.augurLite == augurLite && augurLite.controller == controller
    }

    /** One round of the loop of `buyCompleteSets`. */
    method MintOne(market: MarketContract, outcome: nat, sender: Address, amount: uint256) returns (r: Outcome<()>)
      requires Serves(market) && COMPLETE_SETS in controller.whitelist && outcome < |market.shareTokens|
      modifies market.Ledgers()
      ensures match old(market.shareTokens[outcome].bep20.State()).Mint(sender, amount)
              case Done(l') => r == Done(()) && States(market.Ledgers()) == old(States(market.Ledgers()))[outcome := l']
              case Reverted(f) => r == Reverted(f)
    {
      hide Ledger.Mint;
      r := market.shareTokens[outcome].CreateShares(COMPLETE_SETS, sender, amount);
      market.OnlyLedger(outcome);
    }

    /** The loop of `buyCompleteSets`. */
    method MintAll(market: MarketContract, sender: Address, amount: uint256) returns (r: Outcome<()>)
      requires Serves(market) && COMPLETE_SETS in controller.whitelist
      modifies market.Ledgers()
      ensures match CS.MintAll(old(market.View().shares), sender, amount, 0)
              case Done(shares') => r == Done(()) && market.View() == old(market.View()).(shares := shares')
              case Reverted(f) => r == Reverted(f)
    {
      hide MarketContract.View, Ledger.Mint;
      assert |market.shareTokens| == market.numOutcomes;
      hide MarketContract.Valid, Serves;
      market.OnlyShares();
      ghost var shares := States(market.Ledgers());
      ghost var minted := shares;
      var outcome := 0;
      while outcome < market.numOutcomes
        invariant outcome <= market.numOutcomes && minted == States(market.Ledgers())
        invariant CS.MintAll(minted, sender, amount, outcome) == CS.MintAll(shares, sender, amount, 0)
      {
        r := MintOne(market, outcome, sender, amount);
        if r.Reverted? {
          return;
        }
        outcome, minted := outcome + 1, States(market.Ledgers());
      }
      market.OnlyShares();
      return Done(());
    }

    /** One round of the loop of `sellCompleteSets`. */
    method BurnOne(market: MarketContract, outcome: nat, sender: Address, amount: uint256) returns (r: Outcome<()>)
      requires Serves(market) && COMPLETE_SETS in controller.whitelist && outcome < |market.shareTokens|
      modifies market.Ledgers()
      ensures match old(market.shareTokens[outcome].bep20.State()).Burn(sender, amount)
              case Done(l') => r == Done(()) && States(market.Ledgers()) == old(States(market.Ledgers()))[outcome := l']
              case Reverted(f) => r == Reverted(f)
    {
      hide Ledger.Burn;
      r := market.shareTokens[outcome].DestroyShares(COMPLETE_SETS, sender, amount);
      market.OnlyLedger(outcome);
    }

    /** The loop of `sellCompleteSets`. */
    method BurnAll(market: MarketContract, sender: Address, amount: uint256) returns (r: Outcome<()>)
      requires Serves(market) && COMPLETE_SETS in controller.whitelist
      modifies market.Ledgers()
      ensures match CS.BurnAll(old(market.View().shares), sender, amount, 0)
              case Done(shares') => r == Done(()) && market.View() == old(market.View()).(shares := shares')
              case Reverted(f) => r == Reverted(f)
    {
      hide MarketContract.View, Ledger.Burn;
      assert |market.shareTokens| == market.numOutcomes;
      hide MarketContract.Valid, Serves;
      market.OnlyShares();
      ghost var shares := States(market.Ledgers());
      ghost var burned := shares;
      var outcome := 0;
      while outcome < market.numOutcomes
        invariant outcome <= market.numOutcomes && burned == States(market.Ledgers())
        invariant CS.BurnAll(burned, sender, amount, outcome) == CS.BurnAll(shares, sender, amount, 0)
      {
        r := BurnOne(market, outcome, sender, amount);
        if r.Reverted? {
          return;
        }
        outcome, burned := outcome + 1, States(market.Ledgers());
      }
      market.OnlyShares();
      return Done(());
    }

    /** The body of a purchase, under the lock. */
    method BuyLocked(market: MarketContract, sender: Address, amount: uint256) returns (r: Outcome<()>)
      requires Serves(market) && COMPLETE_SETS in controller.whitelist
      modifies market.token, market.Ledgers()
      ensures After(market, r) ==
        CS.BuyCompleteSets(controller.View(), old(market.token.State()), market.self, old(market.View()), sender,
            amount)
    {
      assert market.View().numTicks == market.numTicks;
      hide CS.MintAll, CS.TrustedTransfer, Arith.Mul, CheckedMul, MarketContract.View;
      var _ :- Check(sender != Null);
      var cost :- Arith.Mul(amount, market.numTicks);
      var _ :- augurLite.TrustedTransfer(COMPLETE_SETS, market.token, sender, market.self, cost);
      var _ :- MintAll(market, sender, amount);
      return Done(());
    }

    /** `buyCompleteSets` with its modifiers. */
    method Buy(market: MarketContract, sender: Address, amount: uint256) returns (r: Outcome<()>)
      requires Serves(market)
      modifies this, market.token, market.Ledgers()
      ensures old(rentrancyLock) ==> r == Reverted(Require)
      ensures !old(rentrancyLock) ==>
        After(market, r) ==
          CS.BuyCompleteSets(controller.View(), old(market.token.State()), market.self, old(market.View()), sender,
              amount)
      ensures r.Done? ==> !rentrancyLock
    {
      var _ :- controller.AssertIsWhitelisted(COMPLETE_SETS);
      var _ :- Check(!rentrancyLock);
      hide CS.BuyCompleteSets, MarketContract.View;
      rentrancyLock := true;
      var _ :- BuyLocked(market, sender, amount);
      rentrancyLock := false;
      return Done(());
    }

    /** The two transfers of a sale. */
    method PaySale(
        token: Bep20, from: Address, mailbox: Address, fee: uint256, sender: Address, payout: uint256)
        returns (r: Outcome<()>)
      modifies token
      ensures match CS.PaySale(old(token.State()), from, mailbox, fee, sender, payout)
              case Done(l') => r == Done(()) && token.State() == l'
              case Reverted(f) => r == Reverted(f)
    {
      hide Ledger.TransferFrom;
      if fee != 0 {
        var _ :- token.TransferFrom(COMPLETE_SETS, from, mailbox, fee);
      }
      r := token.TransferFrom(COMPLETE_SETS, from, sender, payout);
    }

    /** The sets are burned, then paid for. */
    method BurnAndPay(market: MarketContract, sender: Address, amount: uint256, fee: uint256, payout: uint256)
      returns (r: Outcome<()>)
      requires Serves(market) && COMPLETE_SETS in controller.whitelist
      modifies market.token, market.Ledgers()
      ensures After(market, r) ==
        CS.BurnAndPay(old(market.token.State()), market.self, old(market.View()), sender, amount, fee, payout)
    {
      assert market.View().mailbox == market.mailbox;
      hide CS.BurnAll, CS.PaySale, MarketContract.View;
      r := BurnAll(market, sender, amount);
      if r.Done? {
        r := PaySale(market.token, market.self, market.mailbox, fee, sender, payout);
      }
    }

    /** The second half of a sale. */
    method Refund(market: MarketContract, sender: Address, amount: uint256, gross: uint256) returns (r: Outcome<()>)
      requires Serves(market) && COMPLETE_SETS in controller.whitelist
      modifies market.token, market.Ledgers()
      ensures After(market, r) ==
        CS.Refund(old(market.token.State()), market.self, old(market.View()), sender, amount, gross)
    {
      hide CS.BurnAndPay, MarketContract.View;
      var fee := market.DeriveMarketCreatorFeeAmount(gross);
      var payout: uint256 := gross - fee;
      r := BurnAndPay(market, sender, amount, fee, payout);
    }

    /** The body of a sale, under the lock. */
    method SellLocked(market: MarketContract, sender: Address, amount: uint256) returns (r: Outcome<()>)
      requires Serves(market) && COMPLETE_SETS in controller.whitelist
      modifies market.token, market.Ledgers()
      ensures After(market, r) ==
        CS.SellCompleteSets(controller.View(), old(market.token.State()), market.self, old(market.View()), sender,
            amount)
    {
      assert market.View().numTicks == market.numTicks;
      hide CS.Refund, CheckedMul, Arith.Mul, MarketContract.View, MarketContract.Valid, MarketContract.Ledgers;
      var _ :- Check(sender != Null);
      var gross :- Arith.Mul(amount, market.numTicks);
      r := Refund(market, sender, amount, gross);
    }

    /** `sellCompleteSets` with its modifiers. */
    method Sell(market: MarketContract, sender: Address, amount: uint256) returns (r: Outcome<()>)
      requires Serves(market)
      modifies this, market.token, market.Ledgers()
      ensures old(rentrancyLock) ==> r == Reverted(Require)
      ensures !old(rentrancyLock) ==>
        After(market, r) ==
          CS.SellCompleteSets(controller.View(), old(market.token.State()), market.self, old(market.View()), sender,
              amount)
      ensures r.Done? ==> !rentrancyLock
    {
      var _ :- controller.AssertIsWhitelisted(COMPLETE_SETS);
      var _ :- Check(!rentrancyLock);
      hide CS.SellCompleteSets, MarketContract.View;
      rentrancyLock := true;
      var _ :- SellLocked(market, sender, amount);
      rentrancyLock := false;
      return Done(());
    }

    /** The public transactions. */
    method PublicBuyCompleteSets(caller: Address, market: MarketContract, amount: uint256) returns (r: Outcome<()>)
      requires Serves(market)
      modifies this, market.token, market.Ledgers()
      ensures rentrancyLock == old(rentrancyLock)
      ensures !old(rentrancyLock) ==>
        After(market, r) == CS.PublicBuy(controller.View(), market.IsLegit(), old(market.token.State()), market.self,
            old(market.View()), caller, amount)
      ensures old(rentrancyLock) ==> r == Reverted(Require)
      ensures r.Done? ==>
        market.universe.self in market.augurLite.universes && market.self in market.universe.markets
      ensures r.Reverted? ==> PutBack(market)
    {
      hide CS.PublicBuy, MarketContract.View, MarketContract.Valid, MarketContract.Ledgers, MarketContract.IsLegit;
      market.OnlyShares();
      var saved := (market.token.State(), States(market.Ledgers()), rentrancyLock);
      r := TryBuy(caller, market, amount);
      if r.Reverted? {
        market.OnlyShares();
        Undo(market, saved.0, saved.1);
        rentrancyLock := saved.2;
      }
    }

    method TryBuy(caller: Address, market: MarketContract, amount: uint256) returns (r: Outcome<()>)
      requires Serves(market)
      modifies this, market.token, market.Ledgers()
      ensures old(rentrancyLock) ==> r == Reverted(Require)
      ensures !old(rentrancyLock) ==>
        After(market, r) == CS.PublicBuy(controller.View(), market.IsLegit(), old(market.token.State()), market.self,
            old(market.View()), caller, amount)
      ensures r.Done? ==>
        market.universe.self in market.augurLite.universes && market.self in market.universe.markets
      ensures r.Done? ==> !rentrancyLock
    {
      hide CS.BuyCompleteSets, MarketContract.View, MarketContract.Valid, Markets.AssertBalances;
      var _ :- Check(market.IsLegit());
      var _ :- Check(!controller.stopped);
      var _ :- Buy(market, caller, amount);
      r := market.AssertBalances();
    }

    method PublicSellCompleteSets(caller: Address, market: MarketContract, amount: uint256) returns (r: Outcome<()>)
      requires Serves(market)
      modifies this, market.token, market.Ledgers()
      ensures rentrancyLock == old(rentrancyLock)
      ensures !old(rentrancyLock) ==>
        After(market, r) == CS.PublicSell(controller.View(), market.IsLegit(), old(market.token.State()),
            market.self, old(market.View()), caller, amount)
      ensures old(rentrancyLock) ==> r == Reverted(Require)
      ensures r.Done? ==>
        market.universe.self in market.augurLite.universes && market.self in market.universe.markets
      ensures r.Reverted? ==> PutBack(market)
    {
      hide CS.PublicSell, MarketContract.View, MarketContract.Valid, MarketContract.Ledgers, MarketContract.IsLegit;
      market.OnlyShares();
      var saved := (market.token.State(), States(market.Ledgers()), rentrancyLock);
      r := TrySell(caller, market, amount);
      if r.Reverted? {
        market.OnlyShares();
        Undo(market, saved.0, saved.1);
        rentrancyLock := saved.2;
      }
    }

    method TrySell(caller: Address, market: MarketContract, amount: uint256) returns (r: Outcome<()>)
      requires Serves(market)
      modifies this, market.token, market.Ledgers()
      ensures old(rentrancyLock) ==> r == Reverted(Require)
      ensures !old(rentrancyLock) ==>
        After(market, r) == CS.PublicSell(controller.View(), market.IsLegit(), old(market.token.State()),
            market.self, old(market.View()), caller, amount)
      ensures r.Done? ==>
        market.universe.self in market.augurLite.universes && market.self in market.universe.markets
      ensures r.Done? ==> !rentrancyLock
    {
      hide CS.SellCompleteSets, MarketContract.View, MarketContract.Valid, Markets.AssertBalances;
      var _ :- Check(market.IsLegit());
      var _ :- Check(!controller.stopped);
      var _ :- Sell(market, caller, amount);
      r := market.AssertBalances();
    }
  }

  class ClaimTradingProceedsContract {
    const controller: ControllerContract
    const augurLite: AugurLiteContract
    var rentrancyLock: bool

    constructor (controller: ControllerContract, augurLite: AugurLiteContract)
      ensures this.controller == controller && this.augurLite == augurLite && !rentrancyLock
    {
      this.controller, this.augurLite, rentrancyLock := controller, augurLite, false;
    }

    ghost predicate Serves(market: MarketContract)
      reads market, market.shareTokens
    {
      && market.Valid() && market.controller == controller
      && market.augurLite == augurLite && augurLite.controller == controller
    }

    method DivideUpWinnings(
        market: MarketContract, outcome: nat, numberOfShares: uint256) returns (r: Outcome<CTP.Winnings>)
      ensures r == CTP.DivideUpWinnings(market.View(), outcome, numberOfShares)
    {
      var payout :- market.PayoutNumerator(outcome);
      var proceeds :- Arith.Mul(numberOfShares, payout);
      var creatorShare := market.DeriveMarketCreatorFeeAmount(proceeds);
      return Done(CTP.Winnings(proceeds, proceeds - creatorShare, creatorShare));  // a fee is at most its amount
    }

    method DestroyHolding(
        token: Bep20, share: ShareToken, holder: Address, holderShare: uint256) returns (r: Outcome<()>)
      requires share.controller == controller && share.bep20 != token
      modifies share.bep20
      ensures match CTP.DestroyHolding(controller.View(), token.State(), old(share.bep20.State()), holder, holderShare)
              case Done(l') => r == Done(()) && share.bep20.State() == l'
              case Reverted(f) => r == Reverted(f)
    {
      var held := share.bep20.State().Balance(holder);
      if held > 0 {
        var _ :- share.DestroyShares(CLAIM_TRADING_PROCEEDS, holder, held);
        var _ :- Arith.Add(token.State().Balance(holder), holderShare);
      }
      return Done(());
    }

    method Payment(token: Bep20, from: Address, to: Address, amount: uint256) returns (r: Outcome<()>)
      modifies token
      ensures match CTP.Payment(old(token.State()), from, to, amount)
              case Done(l') => r == Done(()) && token.State() == l'
              case Reverted(f) => r == Reverted(f)
    {
      hide Ledger.TransferFrom;
      if amount > 0 {
        r := token.TransferFrom(CLAIM_TRADING_PROCEEDS, from, to, amount);
      } else {
        r := Done(());
      }
    }

    /** The two transfers for one outcome. */
    method PayWinnings(
        token: Bep20, from: Address, holder: Address, holderShare: uint256, mailbox: Address,
        creatorShare: uint256)
      returns (r: Outcome<()>)
      modifies token
      ensures match CTP.PayWinnings(old(token.State()), from, holder, holderShare, mailbox, creatorShare)
              case Done(l') => r == Done(()) && token.State() == l'
              case Reverted(f) => r == Reverted(f)
    {
      hide CTP.Payment;
      r := Payment(token, from, holder, holderShare);
      if r.Done? {
        r := Payment(token, from, mailbox, creatorShare);
      }
    }

    /** One round of the loop: only this outcome's token and the denomination
        token change. */
    method ClaimOutcome(market: MarketContract, holder: Address, outcome: nat) returns (r: Outcome<()>)
      requires Serves(market) && outcome < |market.shareTokens|
      modifies market.token, market.Ledgers()
      ensures match CTP.ClaimOutcome(controller.View(), old(market.token.State()), market.self, old(market.View()),
          holder, outcome)
              case Done(after) =>
                After(market, r) == Done((after.0,
                    old(market.View()).(shares := old(market.View().shares)[outcome := after.1])))
              case Reverted(f) => r == Reverted(f)
    {
      hide CTP.DivideUpWinnings, CTP.DestroyHolding, CTP.PayWinnings;
      var share := market.shareTokens[outcome];
      var w :- DivideUpWinnings(market, outcome, share.bep20.State().Balance(holder));
      var _ :- DestroyHolding(market.token, share, holder, w.holderShare);
      assert States(market.Ledgers()) == old(States(market.Ledgers()))[outcome := share.bep20.State()];
      var _ :- PayWinnings(market.token, market.self, holder, w.holderShare, market.mailbox, w.creatorShare);
      return Done(());
    }

    /** The loop over the outcomes. */
    method ClaimAllOutcomes(market: MarketContract, holder: Address) returns (r: Outcome<()>)
      requires Serves(market)
      modifies market.token, market.Ledgers()
      ensures After(market, r) == CTP.ClaimFrom(controller.View(), old(market.token.State()), market.self,
          old(market.View()), holder, 0)
    {
      hide CTP.ClaimOutcome;
      var outcome := 0;
      while outcome < market.numOutcomes
        invariant outcome <= market.numOutcomes
        invariant CTP.ClaimFrom(controller.View(), market.token.State(), market.self, market.View(), holder, outcome) ==
          CTP.ClaimFrom(controller.View(), old(market.token.State()), market.self, old(market.View()), holder, 0)
      {
        var _ :- ClaimOutcome(market, holder, outcome);
        outcome := outcome + 1;
      }
      return Done(());
    }

    method ClaimAndCheck(market: MarketContract, holder: Address) returns (r: Outcome<()>)
      requires Serves(market)
      modifies market.token, market.Ledgers()
      ensures After(market, r) ==
        CTP.ClaimAndCheck(controller.View(), old(market.token.State()), market.self, old(market.View()), holder)
    {
      hide CTP.ClaimFrom, Markets.AssertBalances, MarketContract.View;
      r := ClaimAllOutcomes(market, holder);
      if r.Done? {
        r := market.AssertBalances();
      }
    }

    /** The body of a claim, under the lock. */
    method ClaimLocked(now: uint256, market: MarketContract, holder: Address) returns (r: Outcome<()>)
      requires Serves(market) && market.IsLegit() && !controller.stopped
      modifies market.token, market.Ledgers()
      ensures After(market, r) ==
        CTP.Claim(controller.View(), true, now, old(market.token.State()), market.self, old(market.View()), holder)
    {
      assert market.View().resolutionTime == market.resolutionTime;
      hide CTP.ClaimAndCheck, MarketContract.View, MarketContract.Valid, MarketContract.Ledgers, MarketContract.IsLegit;
      r := Check(now > market.resolutionTime);
      if r.Done? {
        r := ClaimAndCheck(market, holder);
      }
    }

    method TryClaim(now: uint256, market: MarketContract, holder: Address) returns (r: Outcome<()>)
      requires Serves(market)
      modifies this, market.token, market.Ledgers()
      ensures old(rentrancyLock) ==> r == Reverted(Require)
      ensures !old(rentrancyLock) ==>
        After(market, r) ==
          CTP.Claim(controller.View(), market.IsLegit(), now, old(market.token.State()), market.self,
              old(market.View()), holder)
      ensures r.Done? ==>
        market.universe.self in market.augurLite.universes && market.self in market.universe.markets
      ensures r.Done? ==> !rentrancyLock
    {
      var _ :- Check(market.IsLegit());
      var _ :- Check(!controller.stopped);
      var _ :- Check(!rentrancyLock);
      hide CTP.Claim, MarketContract.View, MarketContract.Valid;
      rentrancyLock := true;
      r := ClaimLocked(now, market, holder);
      if r.Done? {
        rentrancyLock := false;
      }
    }

    /** The public transaction; anyone may send it for any holder. */
    method ClaimTradingProceeds(now: uint256, market: MarketContract, holder: Address) returns (r: Outcome<()>)
      requires Serves(market)
      modifies this, market.token, market.Ledgers()
      ensures rentrancyLock == old(rentrancyLock)
      ensures !old(rentrancyLock) ==>
        After(market, r) == CTP.Claim(controller.View(), market.IsLegit(), now, old(market.token.State()),
            market.self, old(market.View()), holder)
      ensures old(rentrancyLock) ==> r == Reverted(Require)
      ensures r.Done? ==>
        market.universe.self in market.augurLite.universes && market.self in market.universe.markets
      ensures r.Reverted? ==> PutBack(market)
    {
      hide CTP.Claim, MarketContract.View, MarketContract.Valid, MarketContract.Ledgers, MarketContract.IsLegit;
      market.OnlyShares();
      var saved := (market.token.State(), States(market.Ledgers()), rentrancyLock);
      r := TryClaim(now, market, holder);
      if r.Reverted? {
        market.OnlyShares();
        Undo(market, saved.0, saved.1);
        rentrancyLock := saved.2;
      }
    }
  }
}
