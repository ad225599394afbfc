/** contracts_flattener/ClaimTradingProceeds.sol as functions of the token,
    the market and the holder who is paid. */
module ClaimTradingProceeds {
  import opened Foundations
  import opened Sums
  import opened Ledgers
  import opened Markets
  import opened Controllers
  import opened CompleteSets
  import Arithmetic

  datatype Winnings = Winnings(proceeds: uint256, holderShare: uint256, creatorShare: uint256)

  function DivideUpWinnings(m: Market, outcome: nat, numberOfShares: uint256): Outcome<Winnings> {
    var payout :- m.PayoutNumerator(outcome);
    var proceeds :- CheckedMul(numberOfShares, payout);
    var creatorShare := m.DeriveFee(proceeds);
    Done(Winnings(proceeds, proceeds - creatorShare, creatorShare))  // a fee is at most its amount
  }

  /** Shares are destroyed only if there are any. The log that follows adds the
      payout to the holder's balance with a checked addition. */
  function DestroyHolding(
      c: Controller, token: Ledger, share: Ledger, holder: Address, holderShare: uint256): Outcome<Ledger> {
    var held := share.Balance(holder);
    if held > 0 then
      var _ :- Check(CLAIM_TRADING_PROCEEDS in c.whitelist);
      var share' :- share.Burn(holder, held);
      var _ :- CheckedAdd(token.Balance(holder), holderShare);
      Done(share')
    else
      Done(share)
  }

  /** A zero amount is not transferred. */
  function Payment(token: Ledger, self: Address, to: Address, amount: uint256): Outcome<Ledger> {
    if amount > 0 then token.TransferFrom(CLAIM_TRADING_PROCEEDS, self, to, amount) else Done(token)
  }

  /** The two transfers for one outcome. */
  function PayWinnings(
      token: Ledger, self: Address, holder: Address, holderShare: uint256, mailbox: Address, creatorShare: uint256)
      : Outcome<Ledger> {
    var token1 :- Payment(token, self, holder, holderShare);
    Payment(token1, self, mailbox, creatorShare)
  }

  /** The body of the loop. */
  function ClaimOutcome(
      c: Controller, token: Ledger, self: Address, m: Market, holder: Address, i: nat): Outcome<(Ledger, Ledger)>
    requires i < |m.shares|
  {
    var w :- DivideUpWinnings(m, i, m.shares[i].Balance(holder));
    var share' :- DestroyHolding(c, token, m.shares[i], holder, w.holderShare);
    var token' :- PayWinnings(token, self, holder, w.holderShare, m.mailbox, w.creatorShare);
    Done((token', share'))
  }

  /** The loop over the outcomes, from outcome i on. */
  function ClaimFrom(
      c: Controller, token: Ledger, self: Address, m: Market, holder: Address, i: nat)
      : (r: Outcome<(Ledger, Market)>)
    requires i <= |m.shares|
    ensures r.Done? ==> |r.value.1.shares| == |m.shares| && r.value.1 == m.(shares := r.value.1.shares)
    ensures r.Reverted? ==> r.fault == Require
    decreases |m.shares| - i
  {
    if i < |m.shares| then
      var after :- ClaimOutcome(c, token, self, m, holder, i);
      ClaimFrom(c, after.0, self, m.(shares := m.shares[i := after.1]), holder, i + 1)
    else
      Done((token, m))
  }

  function ClaimAndCheck(
      c: Controller, token: Ledger, self: Address, m: Market, holder: Address): Outcome<(Ledger, Market)> {
    var after :- ClaimFrom(c, token, self, m, holder, 0);
    var _ :- AssertBalances(after.1, after.0.Balance(self));
    Done(after)
  }

  function Claim(
      c: Controller, legit: bool, now: uint256, token: Ledger, self: Address, m: Market, holder: Address)
      : Outcome<(Ledger, Market)>
  {
    var _ :- Check(legit);
    var _ :- Check(!c.stopped);
    var _ :- Check(now > m.resolutionTime);
    ClaimAndCheck(c, token, self, m, holder)
  }

  // What it does.

  function Proceeds(held: uint256, payout: uint256): nat {
    Arithmetic.NonNegative(held, payout);
    held as int * payout
  }

  /** The creator's fees on holdings, outcome by outcome from i on. */
  function Fees(m: Market, holdings: seq<uint256>, i: nat): nat
    requires |holdings| == |m.payouts| && i <= |holdings|
    decreases |holdings| - i
  {
    if i == |holdings| then 0 else
      m.DeriveFee(Proceeds(holdings[i], m.payouts[i])) + Fees(m, holdings, i + 1)
  }

  lemma {:induction false} FeesAtMostProceeds(m: Market, holdings: seq<uint256>, i: nat)
    requires |holdings| == |m.payouts| && i <= |holdings|
    ensures Fees(m, holdings, i) <= Dot(holdings, m.payouts, i)
    decreases |holdings| - i
  {
    if i < |holdings| {
      FeesAtMostProceeds(m, holdings, i + 1);
    }
  }

  /** What a claim pays its holder, over all outcomes. */
  function HolderTotal(m: Market, holder: Address): nat
    requires |m.payouts| == |m.shares|
  {
    var hs := Holdings(m.shares, holder);
    FeesAtMostProceeds(m, hs, 0);
    Dot(hs, m.payouts, 0) - Fees(m, hs, 0)
  }

  /** A resolved market that payouts and share tokens agree on. */
  ghost predicate Payable(self: Address, m: Market) {
    && self != Null && m.mailbox != Null && m.mailbox != self
    && m.IsResolved()
    && |m.payouts| == |m.shares| > 0
    && AllSound(m.shares)
  }

  /** The holder's share is gone and the supply is down by it. */
  ghost predicate Destroyed(share: Ledger, share': Ledger, holder: Address) {
    Issued(share, share', holder, 0 - share.Balance(holder))
  }

  ghost predicate AllDestroyed(shares: seq<Ledger>, shares': seq<Ledger>, holder: Address, i: nat) {
    && |shares'| == |shares|
    && (forall j :: 0 <= j < |shares| ==> j < i ==> shares'[j] == shares[j])
    && (forall j :: 0 <= j < |shares| ==> i <= j ==> Destroyed(shares[j], shares'[j], holder))
  }

  lemma DestroyExact(c: Controller, token: Ledger, share: Ledger, holder: Address, holderShare: uint256)
    requires share.Sound()
    ensures DestroyHolding(c, token, share, holder, holderShare).Done? <==>
      share.Balance(holder) > 0 ==> CLAIM_TRADING_PROCEEDS in c.whitelist && token.Balance(holder) + holderShare < WORD
    ensures DestroyHolding(c, token, share, holder, holderShare).Done? ==>
      var share' := DestroyHolding(c, token, share, holder, holderShare).value;
      share'.Sound() && Destroyed(share, share', holder)
  {
    BurnExact(share, holder, share.Balance(holder));
  }

  lemma PaymentExact(token: Ledger, self: Address, to: Address, amount: uint256)
    requires token.Sound() && self != Null
    ensures Payment(token, self, to, amount).Done? <==>
      && (amount > 0 ==> to != Null)
      && amount <= token.Balance(self) && amount <= token.Allowance(self, CLAIM_TRADING_PROCEEDS)
    ensures Payment(token, self, to, amount).Done? ==>
      var token' := Payment(token, self, to, amount).value;
      token'.Sound() && Moved(token, token', self, to, amount)
          && Spent(token, token', self, CLAIM_TRADING_PROCEEDS, amount)
  {
    TransferFromExact(token, CLAIM_TRADING_PROCEEDS, self, to, amount);
    NothingMoved(token, self, to, CLAIM_TRADING_PROCEEDS);
  }

  /** The balance only has to cover both amounts at once if the holder is not
      the payer itself. */
  lemma PayWinningsExact(
    token: Ledger, self: Address, holder: Address, holderShare: uint256, mailbox: Address, creatorShare: uint256)
    requires token.Sound() && self != Null && mailbox != Null && mailbox != self
    ensures PayWinnings(token, self, holder, holderShare, mailbox, creatorShare).Done? <==>
      && (holderShare > 0 ==> holder != Null)
      && (if holder == self
          then holderShare <= token.Balance(self) && creatorShare <= token.Balance(self)
          else holderShare + creatorShare <= token.Balance(self))
      && holderShare + creatorShare <= token.Allowance(self, CLAIM_TRADING_PROCEEDS)
    ensures PayWinnings(token, self, holder, holderShare, mailbox, creatorShare).Done? ==>
      var token' := PayWinnings(token, self, holder, holderShare, mailbox, creatorShare).value;
      && token'.Sound()
      && Paid(token, token', self, holder, holderShare, mailbox, creatorShare)
      && Spent(token, token', self, CLAIM_TRADING_PROCEEDS, holderShare + creatorShare)
  {
    var r1 := Payment(token, self, holder, holderShare);
    PaymentExact(token, self, holder, holderShare);
    if r1.Done? {
      var token1 := r1.value;
      MovedAt(token, token1, self, holder, holderShare, self);
      assert token1.Allowance(self, CLAIM_TRADING_PROCEEDS) ==
          token.Allowance(self, CLAIM_TRADING_PROCEEDS) - holderShare;
      PaymentExact(token1, self, mailbox, creatorShare);
      var r := Payment(token1, self, mailbox, creatorShare);
      hide Ledger.TransferFrom, Moved, Spent, Paid;
      if r.Done? {
        PaidTwice(token, token1, r.value, self, holder, holderShare, mailbox, creatorShare);
        SpentMore(token, token1, r.value, self, CLAIM_TRADING_PROCEEDS, holderShare, creatorShare);
      }
    }
  }

  /** One round of the loop taken apart: it destroys, then pays. */
  lemma ClaimOutcomeParts(
      c: Controller, token: Ledger, self: Address, m: Market, holder: Address, i: nat, proceeds: uint256,
      fee: uint256)
    requires Payable(self, m) && i < |m.shares|
    requires proceeds == Proceeds(m.shares[i].Balance(holder), m.payouts[i]) && fee == m.DeriveFee(proceeds)
    ensures ClaimOutcome(c, token, self, m, holder, i) ==
      match DestroyHolding(c, token, m.shares[i], holder, proceeds - fee)
      case Reverted(f) => Reverted(f)
      case Done(share') =>
        match PayWinnings(token, self, holder, proceeds - fee, m.mailbox, fee)
        case Reverted(f) => Reverted(f)
        case Done(token') => Done((token', share'))
  {
    hide DestroyHolding, PayWinnings;
  }

  lemma ClaimOutcomeDoes(c: Controller, token: Ledger, self: Address, m: Market, holder: Address, i: nat)
    requires Payable(self, m) && token.Sound() && i < |m.shares|
    requires ClaimOutcome(c, token, self, m, holder, i).Done?
    ensures var (token', share') := ClaimOutcome(c, token, self, m, holder, i).value;
      var proceeds := Proceeds(m.shares[i].Balance(holder), m.payouts[i]);
      && token'.Sound() && share'.Sound() && Destroyed(m.shares[i], share', holder)
      && Paid(token, token', self, holder, proceeds - m.DeriveFee(proceeds), m.mailbox, m.DeriveFee(proceeds))
      && Spent(token, token', self, CLAIM_TRADING_PROCEEDS, proceeds)
  {
    var proceeds := Proceeds(m.shares[i].Balance(holder), m.payouts[i]);
    assert proceeds < WORD;
    var fee := m.DeriveFee(proceeds);
    ClaimOutcomeParts(c, token, self, m, holder, i, proceeds, fee);
    DestroyExact(c, token, m.shares[i], holder, proceeds - fee);
    PayWinningsExact(token, self, holder, proceeds - fee, m.mailbox, fee);
    assert (proceeds - fee) + fee == proceeds;
  }

  lemma TooMuchFails(c: Controller, token: Ledger, self: Address, m: Market, holder: Address, i: nat)
    requires Payable(self, m) && i < |m.shares| && Proceeds(m.shares[i].Balance(holder), m.payouts[i]) >= WORD
    ensures ClaimOutcome(c, token, self, m, holder, i).Reverted?
  {
  }

  /** What a round needs the market to hold: all of the proceeds, but if it pays
      itself, each of the two amounts. */
  predicate CanPayOutcome(m: Market, balance: int, own: bool, proceeds: nat) {
    var fee := m.DeriveFee(proceeds);
    if own then proceeds - fee <= balance && fee <= balance else proceeds <= balance
  }

  /** When one round succeeds. A market that claims for itself can overflow the
      log's addition. */
  lemma ClaimOutcomeExact(c: Controller, token: Ledger, self: Address, m: Market, holder: Address, i: nat)
    requires Payable(self, m) && token.Sound() && i < |m.shares|
    ensures var held := m.shares[i].Balance(holder);
      var proceeds := Proceeds(held, m.payouts[i]);
      && (ClaimOutcome(c, token, self, m, holder, i).Done? <==>
          && (held > 0 ==> CLAIM_TRADING_PROCEEDS in c.whitelist)
          && proceeds <= token.Allowance(self, CLAIM_TRADING_PROCEEDS)
          && CanPayOutcome(m, token.Balance(self), holder == self, proceeds)
          && (holder == self && held > 0 ==> token.Balance(self) + proceeds - m.DeriveFee(proceeds) < WORD))
  {
    hide DestroyHolding, PayWinnings, ClaimOutcome, Market.DeriveFee;
    var held := m.shares[i].Balance(holder);
    var proceeds := Proceeds(held, m.payouts[i]);
    assert held == 0 ==> proceeds == 0;
    hide Proceeds;
    if proceeds >= WORD {
      TooMuchFails(c, token, self, m, holder, i);
    } else {
      var fee := m.DeriveFee(proceeds);
      ClaimOutcomeParts(c, token, self, m, holder, i, proceeds, fee);
      assert m.shares[i].Sound();
      hide Payable;
      assert holder == Null ==> held == 0;
      TwoAccounts(token.balances, self, holder);
      hide Total;
      DestroyExact(c, token, m.shares[i], holder, proceeds - fee);
      PayWinningsExact(token, self, holder, proceeds - fee, m.mailbox, fee);
    }
  }

  lemma DestroyNext(shares: seq<Ledger>, share: Ledger, shares': seq<Ledger>, holder: Address, i: nat)
    requires i < |shares| && Destroyed(shares[i], share, holder)
    requires AllDestroyed(shares[i := share], shares', holder, i + 1)
    ensures AllDestroyed(shares, shares', holder, i)
  {
    forall j | 0 <= j < |shares|
      ensures j < i ==> shares'[j] == shares[j]
      ensures i <= j ==> Destroyed(shares[j], shares'[j], holder)
    {
      assert shares[i := share][j] == if j == i then share else shares[j];
    }
  }

  /** A claim takes all the holder's shares and changes nothing else of the
      market. */
  lemma {:induction false} ClaimFromDestroys(
      c: Controller, token: Ledger, self: Address, m: Market, holder: Address, i: nat)
    requires Payable(self, m) && token.Sound() && i <= |m.shares|
    requires ClaimFrom(c, token, self, m, holder, i).Done?
    ensures var (token', m') := ClaimFrom(c, token, self, m, holder, i).value;
      && token'.Sound() && AllSound(m'.shares)
      && m' == m.(shares := m'.shares)
      && AllDestroyed(m.shares, m'.shares, holder, i)
    decreases |m.shares| - i
  {
    if i < |m.shares| {
      ClaimOutcomeDoes(c, token, self, m, holder, i);
      var (token1, share) := ClaimOutcome(c, token, self, m, holder, i).value;
      var m1 := m.(shares := m.shares[i := share]);
      ClaimFromDestroys(c, token1, self, m1, holder, i + 1);
      DestroyNext(m.shares, share, ClaimFrom(c, token1, self, m1, holder, i + 1).value.1.shares, holder, i);
    }
  }

  /** What a claim pays from outcome i on: the holder what the holdings are
      worth less the creator's fee on each, and the mailbox the fees. */
  ghost predicate PaysFrom(token: Ledger, token': Ledger, self: Address, m: Market, holder: Address, i: nat)
    requires |m.payouts| == |m.shares| && i <= |m.shares|
  {
    var hs := Holdings(m.shares, holder);
    && Paid(token, token', self, holder, Dot(hs, m.payouts, i) - Fees(m, hs, i), m.mailbox, Fees(m, hs, i))
    && Spent(token, token', self, CLAIM_TRADING_PROCEEDS, Dot(hs, m.payouts, i))
  }

  lemma DotNext(hs: seq<uint256>, hs1: seq<uint256>, payouts: seq<uint256>, i: nat, proceeds: nat)
    requires |hs| == |hs1| == |payouts| && i < |hs| && proceeds == Proceeds(hs[i], payouts[i])
    requires forall j :: i < j < |hs| ==> hs1[j] == hs[j]
    ensures Dot(hs, payouts, i) == proceeds + Dot(hs1, payouts, i + 1)
  {
    DotSame(hs1, hs, payouts, i + 1);
  }

  lemma FeesNext(m: Market, m1: Market, hs: seq<uint256>, hs1: seq<uint256>, i: nat, proceeds: nat)
    requires m1 == m.(shares := m1.shares) && |hs| == |hs1| == |m.payouts| && i < |hs|
    requires proceeds == Proceeds(hs[i], m.payouts[i]) && forall j :: i < j < |hs| ==> hs1[j] == hs[j]
    ensures Fees(m, hs, i) == m.DeriveFee(proceeds) + Fees(m1, hs1, i + 1)
  {
    FeesSame(m, m1, hs, hs1, i + 1);
  }

  lemma PaysNext(
      token: Ledger, token1: Ledger, token': Ledger, self: Address, m: Market, share: Ledger, holder: Address,
      i: nat)
    requires |m.payouts| == |m.shares| && i < |m.shares|
    requires var proceeds := Proceeds(m.shares[i].Balance(holder), m.payouts[i]);
      && Paid(token, token1, self, holder, proceeds - m.DeriveFee(proceeds), m.mailbox, m.DeriveFee(proceeds))
      && Spent(token, token1, self, CLAIM_TRADING_PROCEEDS, proceeds)
    requires PaysFrom(token1, token', self, m.(shares := m.shares[i := share]), holder, i + 1)
    ensures PaysFrom(token, token', self, m, holder, i)
  {
    hide Proceeds, Market.DeriveFee, Paid, Spent, Dot, Fees;
    var m1 := m.(shares := m.shares[i := share]);
    var hs, hs1 := Holdings(m.shares, holder), Holdings(m1.shares, holder);
    var proceeds := Proceeds(hs[i], m.payouts[i]);
    var fee := m.DeriveFee(proceeds);
    assert forall j :: i < j < |hs| ==> hs1[j] == hs[j];
    hide Holdings;
    DotNext(hs, hs1, m.payouts, i, proceeds);
    FeesNext(m, m1, hs, hs1, i, proceeds);
    var rest: int, fees: int := Dot(hs1, m.payouts, i + 1), Fees(m1, hs1, i + 1);
    PaidMore(token, token1, token', self, holder, proceeds - fee, m.mailbox, fee, rest - fees, fees);
    SpentMore(token, token1, token', self, CLAIM_TRADING_PROCEEDS, proceeds, rest);
    assert (proceeds - fee) + (rest - fees) == Dot(hs, m.payouts, i) - Fees(m, hs, i);
  }

  lemma {:induction false} ClaimFromPays(
      c: Controller, token: Ledger, self: Address, m: Market, holder: Address, i: nat)
    requires Payable(self, m) && token.Sound() && i <= |m.shares|
    requires ClaimFrom(c, token, self, m, holder, i).Done?
    ensures PaysFrom(token, ClaimFrom(c, token, self, m, holder, i).value.0, self, m, holder, i)
    decreases |m.shares| - i
  {
    if i < |m.shares| {
      ClaimOutcomeDoes(c, token, self, m, holder, i);
      var (token1, share) := ClaimOutcome(c, token, self, m, holder, i).value;
      var m1 := m.(shares := m.shares[i := share]);
      ClaimFromPays(c, token1, self, m1, holder, i + 1);
      PaysNext(token, token1, ClaimFrom(c, token1, self, m1, holder, i + 1).value.0, self, m, share, holder, i);
    } else {
      NothingMoved(token, self, holder, CLAIM_TRADING_PROCEEDS);
    }
  }

  lemma {:induction false} FeesSame(m: Market, m1: Market, hs: seq<uint256>, hs1: seq<uint256>, i: nat)
    requires m1 == m.(shares := m1.shares)
    requires |hs| == |hs1| == |m.payouts| && i <= |hs|
    requires forall j :: i <= j < |hs| ==> hs1[j] == hs[j]
    ensures Fees(m1, hs1, i) == Fees(m, hs, i)
    decreases |hs| - i
  {
    if i < |hs| {
      FeesSame(m, m1, hs, hs1, i + 1);
    }
  }

  /** A market that claims for itself pays the amounts to itself, so its
      balance only falls by the fees; the log adds each amount to it. */
  predicate LogsFit(m: Market, balance: int, hs: seq<uint256>, i: nat)
    requires |hs| == |m.payouts| && i <= |hs|
    decreases |hs| - i
  {
    if i == |hs| then true else
      var proceeds := Proceeds(hs[i], m.payouts[i]);
      && (hs[i] > 0 ==> balance + proceeds - m.DeriveFee(proceeds) < WORD)
      && LogsFit(m, balance - m.DeriveFee(proceeds), hs, i + 1)
  }

  lemma {:induction false} LogsFitLess(
      m: Market, balance: int, m1: Market, balance1: int, hs: seq<uint256>, hs1: seq<uint256>, i: nat)
    requires m1 == m.(shares := m1.shares) && balance1 <= balance
    requires |hs| == |hs1| == |m.payouts| && i <= |hs|
    requires forall j :: i <= j < |hs| ==> hs1[j] == hs[j]
    ensures LogsFit(m, balance, hs, i) ==> LogsFit(m1, balance1, hs1, i)
    decreases |hs| - i
  {
    if i < |hs| {
      var fee := m.DeriveFee(Proceeds(hs[i], m.payouts[i]));
      LogsFitLess(m, balance - fee, m1, balance1 - fee, hs, hs1, i + 1);
    }
  }

  /** What a claim needs, from outcome i on, besides a market that can pay. */
  predicate CanClaim(c: Controller, token: Ledger, self: Address, m: Market, holder: Address, i: nat)
    requires |m.payouts| == |m.shares| && i <= |m.shares|
  {
    var hs := Holdings(m.shares, holder);
    && Dot(hs, m.payouts, i) <= token.Allowance(self, CLAIM_TRADING_PROCEEDS)
    && (CLAIM_TRADING_PROCEEDS in c.whitelist || forall j :: i <= j < |hs| ==> hs[j] == 0)
    && (holder == self ==> LogsFit(m, token.Balance(self), hs, i))
  }

  lemma LogsFitNext(m: Market, m1: Market, balance: int, hs: seq<uint256>, hs1: seq<uint256>, i: nat, proceeds: nat)
    requires m1 == m.(shares := m1.shares) && |hs| == |hs1| == |m.payouts| && i < |hs|
    requires proceeds == Proceeds(hs[i], m.payouts[i])
    requires forall j :: i < j < |hs| ==> hs1[j] == hs[j]
    requires hs[i] > 0 ==> balance + proceeds - m.DeriveFee(proceeds) < WORD
    ensures LogsFit(m1, balance - m.DeriveFee(proceeds), hs1, i + 1) <==> LogsFit(m, balance, hs, i)
  {
    var rest := balance - m.DeriveFee(proceeds);
    assert LogsFit(m, balance, hs, i) <==> LogsFit(m, rest, hs, i + 1);
    hide LogsFit, Market.DeriveFee, Proceeds;
    LogsFitLess(m, rest, m1, rest, hs, hs1, i + 1);
    LogsFitLess(m1, rest, m, rest, hs1, hs, i + 1);
  }

  /** Whether a market that claims for itself always holds each amount that it
      pays: its balance only falls by the fees. */
  predicate PaysItself(m: Market, balance: int, hs: seq<uint256>, i: nat)
    requires |hs| == |m.payouts| && i <= |hs|
    decreases |hs| - i
  {
    if i == |hs| then true else
      var proceeds := Proceeds(hs[i], m.payouts[i]);
      CanPayOutcome(m, balance, true, proceeds) && PaysItself(m, balance - m.DeriveFee(proceeds), hs, i + 1)
  }

  /** The market can pay a claim, from outcome i on. */
  predicate CanPay(token: Ledger, self: Address, m: Market, holder: Address, i: nat)
    requires |m.payouts| == |m.shares| && i <= |m.shares|
  {
    var hs := Holdings(m.shares, holder);
    if holder == self then PaysItself(m, token.Balance(self), hs, i) else Dot(hs, m.payouts, i) <= token.Balance(self)
  }

  lemma {:induction false} PaysItselfSame(
      m: Market, m1: Market, balance: int, hs: seq<uint256>, hs1: seq<uint256>, i: nat)
    requires m1 == m.(shares := m1.shares)
    requires |hs| == |hs1| == |m.payouts| && i <= |hs|
    requires forall j :: i <= j < |hs| ==> hs1[j] == hs[j]
    ensures PaysItself(m1, balance, hs1, i) == PaysItself(m, balance, hs, i)
    decreases |hs| - i
  {
    if i < |hs| {
      PaysItselfSame(m, m1, balance - m.DeriveFee(Proceeds(hs[i], m.payouts[i])), hs, hs1, i + 1);
    }
  }

  lemma {:induction false} PaysItselfIfCovered(m: Market, balance: int, hs: seq<uint256>, i: nat)
    requires |hs| == |m.payouts| && i <= |hs| && Dot(hs, m.payouts, i) <= balance
    ensures PaysItself(m, balance, hs, i)
    decreases |hs| - i
  {
    if i < |hs| {
      var proceeds := Proceeds(hs[i], m.payouts[i]);
      assert Dot(hs, m.payouts, i) == proceeds + Dot(hs, m.payouts, i + 1);
      PaysItselfIfCovered(m, balance - m.DeriveFee(proceeds), hs, i + 1);
    }
  }

  /** Who holds what the claim is worth can pay it. */
  lemma CoveredCanPay(token: Ledger, self: Address, m: Market, holder: Address, i: nat)
    requires |m.payouts| == |m.shares| && i <= |m.shares|
    requires Dot(Holdings(m.shares, holder), m.payouts, i) <= token.Balance(self)
    ensures CanPay(token, self, m, holder, i)
  {
    PaysItselfIfCovered(m, token.Balance(self), Holdings(m.shares, holder), i);
  }

  lemma CanPayNext(token: Ledger, token1: Ledger, self: Address, m: Market, share: Ledger, holder: Address, i: nat)
    requires |m.payouts| == |m.shares| && i < |m.shares| && m.mailbox != self
    requires var proceeds := Proceeds(m.shares[i].Balance(holder), m.payouts[i]);
      && Paid(token, token1, self, holder, proceeds - m.DeriveFee(proceeds), m.mailbox, m.DeriveFee(proceeds))
      && CanPayOutcome(m, token.Balance(self), holder == self, proceeds)
    ensures var m1 := m.(shares := m.shares[i := share]);
      CanPay(token1, self, m1, holder, i + 1) <==> CanPay(token, self, m, holder, i)
  {
    var m1 := m.(shares := m.shares[i := share]);
    var hs, hs1 := Holdings(m.shares, holder), Holdings(m1.shares, holder);
    var proceeds := Proceeds(hs[i], m.payouts[i]);
    var fee := m.DeriveFee(proceeds);
    assert token1.Balance(self) == token.Balance(self) + Gain(self, self, holder, proceeds - fee, m.mailbox, fee);
    assert forall j :: i < j < |hs| ==> hs1[j] == hs[j];
    hide Paid, Dot, Market.DeriveFee, Holdings, Proceeds;
    DotNext(hs, hs1, m.payouts, i, proceeds);
    if holder == self {
      PaysItselfSame(m, m1, token1.Balance(self), hs, hs1, i + 1);
    }
  }

  /** One round leaves the rest of the loop what it needs, no more and no less. */
  lemma CanClaimNext(
    c: Controller, token: Ledger, token1: Ledger, self: Address, m: Market, share: Ledger, holder: Address, i: nat)
    requires |m.payouts| == |m.shares| && i < |m.shares| && m.mailbox != self
    requires var proceeds := Proceeds(m.shares[i].Balance(holder), m.payouts[i]);
      && Paid(token, token1, self, holder, proceeds - m.DeriveFee(proceeds), m.mailbox, m.DeriveFee(proceeds))
      && Spent(token, token1, self, CLAIM_TRADING_PROCEEDS, proceeds)
      && (m.shares[i].Balance(holder) > 0 ==> CLAIM_TRADING_PROCEEDS in c.whitelist)
      && (holder == self && m.shares[i].Balance(holder) > 0 ==>
          token.Balance(self) + proceeds - m.DeriveFee(proceeds) < WORD)
    ensures var m1 := m.(shares := m.shares[i := share]);
      CanClaim(c, token1, self, m1, holder, i + 1) <==> CanClaim(c, token, self, m, holder, i)
  {
    var m1 := m.(shares := m.shares[i := share]);
    var hs, hs1 := Holdings(m.shares, holder), Holdings(m1.shares, holder);
    var proceeds := Proceeds(hs[i], m.payouts[i]);
    var fee := m.DeriveFee(proceeds);
    assert token1.Balance(self) == token.Balance(self) + Gain(self, self, holder, proceeds - fee, m.mailbox, fee);
    assert token1.Allowance(self, CLAIM_TRADING_PROCEEDS) == token.Allowance(self, CLAIM_TRADING_PROCEEDS) - proceeds;
    assert forall j :: i < j < |hs| ==> hs1[j] == hs[j];
    hide Paid, Spent, Dot, LogsFit, Market.DeriveFee, Holdings, Proceeds;
    DotNext(hs, hs1, m.payouts, i, proceeds);
    if holder == self {
      LogsFitNext(m, m1, token.Balance(self), hs, hs1, i, proceeds);
    }
  }

  /** What the claim needs is enough for its first outcome. */
  lemma FirstOutcome(c: Controller, token: Ledger, self: Address, m: Market, holder: Address, i: nat)
    requires |m.payouts| == |m.shares| && i < |m.shares|
    requires CanClaim(c, token, self, m, holder, i) && CanPay(token, self, m, holder, i)
    ensures var held := m.shares[i].Balance(holder);
      var proceeds := Proceeds(held, m.payouts[i]);
      && (held > 0 ==> CLAIM_TRADING_PROCEEDS in c.whitelist)
      && proceeds <= token.Allowance(self, CLAIM_TRADING_PROCEEDS)
      && CanPayOutcome(m, token.Balance(self), holder == self, proceeds)
      && (holder == self && held > 0 ==> token.Balance(self) + proceeds - m.DeriveFee(proceeds) < WORD)
  {
    var hs := Holdings(m.shares, holder);
    assert Dot(hs, m.payouts, i) == Proceeds(hs[i], m.payouts[i]) + Dot(hs, m.payouts, i + 1);
  }

  lemma StillPayable(self: Address, m: Market, share: Ledger, i: nat)
    requires Payable(self, m) && i < |m.shares| && share.Sound()
    ensures Payable(self, m.(shares := m.shares[i := share])) && |m.payouts| == |m.shares|
  {
  }

  /** A claim on a market succeeds if and only if CanClaim says so and the market
      can pay. */
  lemma {:induction false} ClaimFromExact(
      c: Controller, token: Ledger, self: Address, m: Market, holder: Address, i: nat)
    requires Payable(self, m) && token.Sound() && i <= |m.shares|
    ensures ClaimFrom(c, token, self, m, holder, i).Done? <==>
      CanClaim(c, token, self, m, holder, i) && CanPay(token, self, m, holder, i)
    decreases |m.shares| - i
  {
    if i < |m.shares| {
      assert |m.payouts| == |m.shares| && m.mailbox != self;
      hide CanClaim, CanPay, Dot, ClaimOutcome, Proceeds, Market.DeriveFee, CanPayOutcome, Payable, Paid, Spent;
      hide Ledger.Sound, Destroyed, Holdings, Ledger.Balance, Ledger.Allowance;
      ClaimOutcomeExact(c, token, self, m, holder, i);
      if ClaimOutcome(c, token, self, m, holder, i).Done? {
        ClaimOutcomeDoes(c, token, self, m, holder, i);
        var (token1, share) := ClaimOutcome(c, token, self, m, holder, i).value;
        var m1 := m.(shares := m.shares[i := share]);
        CanClaimNext(c, token, token1, self, m, share, holder, i);
        CanPayNext(token, token1, self, m, share, holder, i);
        StillPayable(self, m, share, i);
        ClaimFromExact(c, token1, self, m1, holder, i + 1);
      } else if CanClaim(c, token, self, m, holder, i) && CanPay(token, self, m, holder, i) {
        FirstOutcome(c, token, self, m, holder, i);
      }
    } else {
      NothingLeft(c, token, self, m, holder);
    }
  }

  lemma NothingLeft(c: Controller, token: Ledger, self: Address, m: Market, holder: Address)
    requires |m.payouts| == |m.shares|
    ensures CanClaim(c, token, self, m, holder, |m.shares|) && CanPay(token, self, m, holder, |m.shares|)
  {
  }
}
