/** contracts_flattener/CompleteSets.sol as functions of the token, the market
    and the caller. */
module CompleteSets {
  import opened Foundations
  import opened Ledgers
  import opened Markets
  import opened Controllers
  import Arithmetic

  // The loops over the outcomes, from outcome i on.

  function MintAll(shares: seq<Ledger>, account: Address, amount: uint256, i: nat): (r: Outcome<seq<Ledger>>)
    requires i <= |shares|
    ensures r.Done? ==> |r.value| == |shares|
    ensures r.Reverted? ==> r.fault == Require
    decreases |shares| - i
  {
    if i < |shares| then
      var share :- shares[i].Mint(account, amount);
      MintAll(shares[i := share], account, amount, i + 1)
    else
      Done(shares)
  }

  function BurnAll(shares: seq<Ledger>, account: Address, amount: uint256, i: nat): (r: Outcome<seq<Ledger>>)
    requires i <= |shares|
    ensures r.Done? ==> |r.value| == |shares|
    ensures r.Reverted? ==> r.fault == Require
    decreases |shares| - i
  {
    if i < |shares| then
      var share :- shares[i].Burn(account, amount);
      BurnAll(shares[i := share], account, amount, i + 1)
    else
      Done(shares)
  }

  /** AugurLite moves tokens for whitelisted callers, on its own allowance. */
  function TrustedTransfer(
      c: Controller, token: Ledger, caller: Address, from: Address, to: Address, amount: uint256): Outcome<Ledger> {
    var _ :- Check(caller in c.whitelist);
    var _ :- Check(amount > 0);
    token.TransferFrom(AUGUR_LITE, from, to, amount)
  }

  function BuyCompleteSets(
      c: Controller, token: Ledger, self: Address, m: Market, sender: Address, amount: uint256)
      : (r: Outcome<(Ledger, Market)>)
    ensures r.Done? ==> |r.value.1.shares| == |m.shares| && r.value.1 == m.(shares := r.value.1.shares)
    ensures r.Reverted? ==> r.fault == Require
  {
    var _ :- Check(COMPLETE_SETS in c.whitelist);
    var _ :- Check(sender != Null);
    var cost :- CheckedMul(amount, m.numTicks);
    var token' :- TrustedTransfer(c, token, COMPLETE_SETS, sender, self, cost);
    var shares' :- MintAll(m.shares, sender, amount, 0);
    Done((token', m.(shares := shares')))
  }

  function PaySale(
      token: Ledger, self: Address, mailbox: Address, fee: uint256, sender: Address, payout: uint256)
      : Outcome<Ledger> {
    var token1 :- if fee != 0 then token.TransferFrom(COMPLETE_SETS, self, mailbox, fee) else Done(token);
    token1.TransferFrom(COMPLETE_SETS, self, sender, payout)
  }

  /** The second half of a sale: the sets are burned, then paid for. */
  function BurnAndPay(
      token: Ledger, self: Address, m: Market, sender: Address, amount: uint256, fee: uint256, payout: uint256)
    : (r: Outcome<(Ledger, Market)>)
    ensures r.Done? ==> |r.value.1.shares| == |m.shares| && r.value.1 == m.(shares := r.value.1.shares)
    ensures r.Reverted? ==> r.fault == Require
  {
    var shares' :- BurnAll(m.shares, sender, amount, 0);
    var token' :- PaySale(token, self, m.mailbox, fee, sender, payout);
    Done((token', m.(shares := shares')))
  }

  function Refund(token: Ledger, self: Address, m: Market, sender: Address, amount: uint256, gross: uint256)
    : (r: Outcome<(Ledger, Market)>)
    ensures r.Done? ==> |r.value.1.shares| == |m.shares| && r.value.1 == m.(shares := r.value.1.shares)
    ensures r.Reverted? ==> r.fault == Require
  {
    var fee := m.DeriveFee(gross);
    var payout: uint256 := gross - fee;  // a fee is at most its amount, so this never fails
    BurnAndPay(token, self, m, sender, amount, fee, payout)
  }

  function SellCompleteSets(c: Controller, token: Ledger, self: Address, m: Market, sender: Address, amount: uint256)
    : (r: Outcome<(Ledger, Market)>)
    ensures r.Done? ==> |r.value.1.shares| == |m.shares| && r.value.1 == m.(shares := r.value.1.shares)
    ensures r.Reverted? ==> r.fault == Require
  {
    var _ :- Check(COMPLETE_SETS in c.whitelist);
    var _ :- Check(sender != Null);
    var gross :- CheckedMul(amount, m.numTicks);
    Refund(token, self, m, sender, amount, gross)
  }

  /** The public entry points. `legit` is the verdict of the market validator. */
  function PublicBuy(
      c: Controller, legit: bool, token: Ledger, self: Address, m: Market, caller: Address, amount: uint256)
      : Outcome<(Ledger, Market)>
  {
    var _ :- Check(legit);
    var _ :- Check(!c.stopped);
    var after :- BuyCompleteSets(c, token, self, m, caller, amount);
    var _ :- AssertBalances(after.1, after.0.Balance(self));
    Done(after)
  }

  function PublicSell(
      c: Controller, legit: bool, token: Ledger, self: Address, m: Market, caller: Address, amount: uint256)
      : Outcome<(Ledger, Market)>
  {
    var _ :- Check(legit);
    var _ :- Check(!c.stopped);
    var after :- SellCompleteSets(c, token, self, m, caller, amount);
    var _ :- AssertBalances(after.1, after.0.Balance(self));
    Done(after)
  }

  // What they do.

  ghost predicate AllSound(shares: seq<Ledger>) {
    forall i :: 0 <= i < |shares| ==> shares[i].Sound()
  }

  /** From outcome i on, `amount` of every share was minted to the account (or
      burned, if negative); before i nothing changed. */
  ghost predicate AllIssued(shares: seq<Ledger>, shares': seq<Ledger>, account: Address, amount: int, i: nat) {
    && |shares'| == |shares|
    && (forall j :: 0 <= j < |shares| ==> j < i ==> shares'[j] == shares[j])
    && (forall j :: 0 <= j < |shares| ==> i <= j ==> Issued(shares[j], shares'[j], account, amount))
  }

  lemma IssueNext(shares: seq<Ledger>, share: Ledger, shares': seq<Ledger>, account: Address, amount: int, i: nat)
    requires i < |shares| && Issued(shares[i], share, account, amount)
    requires AllIssued(shares[i := share], shares', account, amount, i + 1)
    ensures AllIssued(shares, shares', account, amount, i)
  {
    assert shares'[i] == shares[i := share][i];
    forall j | 0 <= j < |shares| && i < j
      ensures Issued(shares[j], shares'[j], account, amount)
    {
      assert shares[i := share][j] == shares[j];
    }
    forall j | 0 <= j < i
      ensures shares'[j] == shares[j]
    {
      assert shares[i := share][j] == shares[j];
    }
  }

  lemma {:induction false} MintAllExact(shares: seq<Ledger>, account: Address, amount: uint256, i: nat)
    requires i <= |shares| && AllSound(shares) && account != Null
    ensures MintAll(shares, account, amount, i).Done? <==>
      forall j :: 0 <= j < |shares| ==> i <= j ==> shares[j].totalSupply + amount < WORD
    ensures MintAll(shares, account, amount, i).Done? ==>
      var shares' := MintAll(shares, account, amount, i).value;
      AllSound(shares') && AllIssued(shares, shares', account, amount, i)
    decreases |shares| - i
  {
    hide Ledger.Mint, Ledger.Sound, Issued;
    if i < |shares| {
      MintExact(shares[i], account, amount);
      if shares[i].Mint(account, amount).Done? {
        var share := shares[i].Mint(account, amount).value;
        var shares1 := shares[i := share];
        MintAllExact(shares1, account, amount, i + 1);
        assert forall j :: 0 <= j < |shares| ==> i < j ==> shares1[j] == shares[j];
        var r := MintAll(shares1, account, amount, i + 1);
        if r.Done? { IssueNext(shares, share, r.value, account, amount, i); }
      }
    }
  }

  lemma {:induction false} BurnAllExact(shares: seq<Ledger>, account: Address, amount: uint256, i: nat)
    requires i <= |shares| && AllSound(shares) && account != Null
    ensures BurnAll(shares, account, amount, i).Done? <==>
      forall j :: 0 <= j < |shares| ==> i <= j ==> amount <= shares[j].Balance(account)
    ensures BurnAll(shares, account, amount, i).Done? ==>
      var shares' := BurnAll(shares, account, amount, i).value;
      AllSound(shares') && AllIssued(shares, shares', account, 0 - amount, i)
    decreases |shares| - i
  {
    hide Ledger.Burn, Ledger.Sound, Issued;
    if i < |shares| {
      BurnExact(shares[i], account, amount);
      if shares[i].Burn(account, amount).Done? {
        var share := shares[i].Burn(account, amount).value;
        var shares1 := shares[i := share];
        BurnAllExact(shares1, account, amount, i + 1);
        assert forall j :: 0 <= j < |shares| ==> i < j ==> shares1[j] == shares[j];
        var r := BurnAll(shares1, account, amount, i + 1);
        if r.Done? { IssueNext(shares, share, r.value, account, 0 - amount, i); }
      }
    }
  }

  /** When a purchase succeeds, short of the check on the escrow: the caller
      can pay, and no supply overflows. */
  predicate CanBuy(c: Controller, token: Ledger, self: Address, m: Market, sender: Address, amount: uint256) {
    && COMPLETE_SETS in c.whitelist
    && sender != Null && self != Null
    && 0 < amount * m.numTicks <= token.Balance(sender)
    && amount * m.numTicks <= token.Allowance(sender, AUGUR_LITE)
    && forall j :: 0 <= j < |m.shares| ==> m.shares[j].totalSupply + amount < WORD
  }

  /** What a purchase does. */
  ghost predicate Bought(
      token: Ledger, token': Ledger, self: Address, m: Market, m': Market, sender: Address, amount: uint256) {
    && m' == m.(shares := m'.shares)
    && AllIssued(m.shares, m'.shares, sender, amount, 0)
    && Moved(token, token', sender, self, amount * m.numTicks)
    && Spent(token, token', sender, AUGUR_LITE, amount * m.numTicks)
  }

  /** A purchase taken apart: it pays, then mints. */
  lemma PurchaseParts(
      c: Controller, token: Ledger, self: Address, m: Market, sender: Address, amount: uint256, cost: uint256)
    requires cost == amount * m.numTicks
    ensures BuyCompleteSets(c, token, self, m, sender, amount) ==
      if COMPLETE_SETS !in c.whitelist || sender == Null || cost == 0 then Reverted(Require) else
        match token.TransferFrom(AUGUR_LITE, sender, self, cost)
        case Reverted(f) => Reverted(f)
        case Done(token') =>
          match MintAll(m.shares, sender, amount, 0)
          case Reverted(f) => Reverted(f)
          case Done(shares') => Done((token', m.(shares := shares')))
  {
    hide MintAll, Ledger.TransferFrom;
  }

  lemma BuyExact(c: Controller, token: Ledger, self: Address, m: Market, sender: Address, amount: uint256)
    requires token.Sound() && AllSound(m.shares)
    ensures BuyCompleteSets(c, token, self, m, sender, amount).Done? <==> CanBuy(c, token, self, m, sender, amount)
    ensures BuyCompleteSets(c, token, self, m, sender, amount).Done? ==>
      var (token', m') := BuyCompleteSets(c, token, self, m, sender, amount).value;
      token'.Sound() && AllSound(m'.shares) && Bought(token, token', self, m, m', sender, amount)
  {
    Arithmetic.NonNegative(amount, m.numTicks);
    var cost := amount * m.numTicks;
    if cost < WORD && sender != Null {
      PurchaseParts(c, token, self, m, sender, amount, cost);
      TransferFromExact(token, AUGUR_LITE, sender, self, cost);
      MintAllExact(m.shares, sender, amount, 0);
    }
  }

  /** When a sale succeeds, short of the check on the escrow. */
  predicate CanSell(c: Controller, token: Ledger, self: Address, m: Market, sender: Address, amount: uint256) {
    && COMPLETE_SETS in c.whitelist
    && sender != Null
    && amount * m.numTicks <= token.Balance(self)
    && amount * m.numTicks <= token.Allowance(self, COMPLETE_SETS)
    && forall j :: 0 <= j < |m.shares| ==> amount <= m.shares[j].Balance(sender)
  }

  /** What a sale worth `gross` does: the seller gets all but the creator's fee. */
  ghost predicate Sold(
      token: Ledger, token': Ledger, self: Address, m: Market, m': Market, sender: Address, amount: uint256,
      gross: nat)
  {
    && m' == m.(shares := m'.shares)
    && AllIssued(m.shares, m'.shares, sender, 0 - amount, 0)
    && Paid(token, token', self, sender, gross - m.DeriveFee(gross), m.mailbox, m.DeriveFee(gross))
    && Spent(token, token', self, COMPLETE_SETS, gross)
  }

  /** The two transfers of a sale. */
  lemma SalePays(
      token: Ledger, self: Address, mailbox: Address, fee: uint256, sender: Address, payout: uint256, gross: nat)
    requires token.Sound() && self != Null && mailbox != Null && mailbox != self && sender != Null
    requires gross == fee + payout
    ensures PaySale(token, self, mailbox, fee, sender, payout).Done? <==>
      gross <= token.Balance(self) && gross <= token.Allowance(self, COMPLETE_SETS)
    ensures PaySale(token, self, mailbox, fee, sender, payout).Done? ==>
      var token' := PaySale(token, self, mailbox, fee, sender, payout).value;
      && token'.Sound() && Paid(token, token', self, sender, payout, mailbox, fee)
      && Spent(token, token', self, COMPLETE_SETS, gross)
  {
    var r1 := if fee != 0 then token.TransferFrom(COMPLETE_SETS, self, mailbox, fee) else Done(token);
    assert r1.Done? <==> fee <= token.Balance(self) && fee <= token.Allowance(self, COMPLETE_SETS) by {
      TransferFromExact(token, COMPLETE_SETS, self, mailbox, fee);
    }
    if r1.Done? {
      var token1 := r1.value;
      assert token1.Sound() && Moved(token, token1, self, mailbox, fee)
          && Spent(token, token1, self, COMPLETE_SETS, fee) by {
        TransferFromExact(token, COMPLETE_SETS, self, mailbox, fee);
        NothingMoved(token, self, mailbox, COMPLETE_SETS);
      }
      MovedAt(token, token1, self, mailbox, fee, self);
      assert token1.Allowance(self, COMPLETE_SETS) == token.Allowance(self, COMPLETE_SETS) - fee;
      TransferFromExact(token1, COMPLETE_SETS, self, sender, payout);
      var r2 := token1.TransferFrom(COMPLETE_SETS, self, sender, payout);
      if r2.Done? {
        PaidTwice(token, token1, r2.value, self, mailbox, fee, sender, payout);
        SpentMore(token, token1, r2.value, self, COMPLETE_SETS, fee, payout);
      }
    }
  }

  /** A sale taken apart: it burns, then pays. */
  lemma SaleParts(
      c: Controller, token: Ledger, self: Address, m: Market, sender: Address, amount: uint256, gross: uint256,
      fee: uint256)
    requires gross == amount * m.numTicks && fee == m.DeriveFee(gross)
    ensures SellCompleteSets(c, token, self, m, sender, amount) ==
      if COMPLETE_SETS !in c.whitelist || sender == Null then Reverted(Require) else
        match BurnAll(m.shares, sender, amount, 0)
        case Reverted(f) => Reverted(f)
        case Done(shares') =>
          match PaySale(token, self, m.mailbox, fee, sender, gross - fee)
          case Reverted(f) => Reverted(f)
          case Done(token') => Done((token', m.(shares := shares')))
  {
    hide BurnAll, PaySale;
  }

  lemma SellIff(
      c: Controller, token: Ledger, self: Address, m: Market, sender: Address, amount: uint256, gross: uint256)
    requires token.Sound() && AllSound(m.shares) && self != Null && m.mailbox != Null && m.mailbox != self
    requires gross == amount * m.numTicks && sender != Null
    ensures SellCompleteSets(c, token, self, m, sender, amount).Done? <==> CanSell(c, token, self, m, sender, amount)
  {
    hide PaySale, BurnAll;
    var fee: uint256 := m.DeriveFee(gross);
    SaleParts(c, token, self, m, sender, amount, gross, fee);
    assert PaySale(token, self, m.mailbox, fee, sender, gross - fee).Done? <==>
      gross <= token.Balance(self) && gross <= token.Allowance(self, COMPLETE_SETS) by {
      SalePays(token, self, m.mailbox, fee, sender, gross - fee, gross);
    }
    assert BurnAll(m.shares, sender, amount, 0).Done? <==>
      forall j :: 0 <= j < |m.shares| ==> amount <= m.shares[j].Balance(sender) by {
      BurnAllExact(m.shares, sender, amount, 0);
    }
  }

  lemma SellDoes(
      c: Controller, token: Ledger, self: Address, m: Market, sender: Address, amount: uint256, gross: uint256)
    requires token.Sound() && AllSound(m.shares) && self != Null && m.mailbox != Null && m.mailbox != self
    requires gross == amount * m.numTicks && sender != Null
    requires SellCompleteSets(c, token, self, m, sender, amount).Done?
    ensures var (token', m') := SellCompleteSets(c, token, self, m, sender, amount).value;
      token'.Sound() && AllSound(m'.shares) && Sold(token, token', self, m, m', sender, amount, gross)
  {
    hide PaySale, BurnAll;
    var fee: uint256 := m.DeriveFee(gross);
    SaleParts(c, token, self, m, sender, amount, gross, fee);
    var token' := PaySale(token, self, m.mailbox, fee, sender, gross - fee).value;
    var shares' := BurnAll(m.shares, sender, amount, 0).value;
    assert token'.Sound() && Paid(token, token', self, sender, gross - fee, m.mailbox, fee)
        && Spent(token, token', self, COMPLETE_SETS, gross) by {
      SalePays(token, self, m.mailbox, fee, sender, gross - fee, gross);
    }
    assert AllSound(shares') && AllIssued(m.shares, shares', sender, 0 - amount, 0) by {
      BurnAllExact(m.shares, sender, amount, 0);
    }
  }

  lemma SellExact(c: Controller, token: Ledger, self: Address, m: Market, sender: Address, amount: uint256)
    requires token.Sound() && AllSound(m.shares) && self != Null && m.mailbox != Null && m.mailbox != self
    ensures SellCompleteSets(c, token, self, m, sender, amount).Done? <==> CanSell(c, token, self, m, sender, amount)
    ensures SellCompleteSets(c, token, self, m, sender, amount).Done? ==>
      var (token', m') := SellCompleteSets(c, token, self, m, sender, amount).value;
      && 0 <= amount * m.numTicks
      && token'.Sound() && AllSound(m'.shares) && Sold(token, token', self, m, m', sender, amount, amount * m.numTicks)
  {
    Arithmetic.NonNegative(amount, m.numTicks);
    var gross := amount * m.numTicks;
    if gross < WORD && sender != Null {
      SellIff(c, token, self, m, sender, amount, gross);
      if SellCompleteSets(c, token, self, m, sender, amount).Done? {
        SellDoes(c, token, self, m, sender, amount, gross);
      }
    }
  }
}
