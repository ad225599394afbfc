/** A market of contracts_flattener/Market.sol as a value: its resolution,
    its creator fee, and the run-time check on its escrow. */
module Markets {
  import opened Foundations
  import opened Sums
  import opened Ledgers
  import Arithmetic

  const MIN_FEE_DIVISOR := 2
  const MIN_OUTCOMES := 2
  const MAX_OUTCOMES := 8

  /** What a contract that calls itself a share token answers when asked for
      its market and its outcome. */
  datatype Answers = Answers(market: Address, outcome: uint256)

  /** A share token beside its ledger: where it is, whether `initialize` was
      called on it, and what it stored then. */
  datatype TokenInfo = TokenInfo(self: Address, initialized: bool, answers: Answers)

  /** `ShareToken.initialize`: it can be called once. */
  function InitializeToken(t: TokenInfo, market: Address, outcome: uint256): Outcome<TokenInfo> {
    var _ :- Check(!t.initialized);
    Done(t.(initialized := true, answers := Answers(market, outcome)))
  }

  /** A token as its factory makes it, before it is initialized. */
  function FreshToken(self: Address): TokenInfo {
    TokenInfo(self, false, Answers(Null, 0))
  }

  /** One share token is kept per outcome: its contract in `shareTokens`, its
      ledger in `shares`. */
  datatype Market = Market(
    universe: Address,
    token: Address,
    numOutcomes: uint256,
    numTicks: uint256,
    feeDivisor: uint256,
    endTime: uint256,
    oracle: Address,
    mailbox: Address,
    resolutionTime: uint256,
    invalid: bool,
    payouts: seq<uint256>,
    shareTokens: seq<TokenInfo>,
    shares: seq<Ledger>)
  {
    predicate IsResolved() {
      resolutionTime != 0
    }

    function DeriveFee(amount: nat): (fee: nat)
      ensures fee <= amount
    {
      if feeDivisor == 0 then 0 else
        Arithmetic.Quotient(amount, feeDivisor);
        amount / feeDivisor
    }

    function PayoutNumerator(outcome: nat): Outcome<uint256> {
      var _ :- Check(IsResolved());
      var _ :- Check(outcome < |payouts|);
      Done(payouts[outcome])
    }

    /** What the parameters of `initialize` are checked for. */
    predicate Configured() {
      && MIN_OUTCOMES <= numOutcomes <= MAX_OUTCOMES
      && 0 < numTicks
      && oracle != Null
      && numOutcomes <= numTicks
      && (feeDivisor == 0 || MIN_FEE_DIVISOR <= feeDivisor)
    }
  }

  /** `isContainerForShareToken`: reading past the list is a fault. */
  function MarketContains(m: Market, token: Address, outcome: uint256): Outcome<bool> {
    var _ :- Check(outcome < |m.shareTokens|);
    Done(m.shareTokens[outcome].self == token)
  }

  function Supplies(shares: seq<Ledger>): (s: seq<uint256>)
    ensures |s| == |shares|
    ensures forall i :: 0 <= i < |shares| ==> s[i] == shares[i].totalSupply
  {
    seq(|shares|, i requires 0 <= i < |shares| => shares[i].totalSupply)
  }

  function Holdings(shares: seq<Ledger>, holder: Address): (s: seq<uint256>)
    ensures |s| == |shares|
    ensures forall i :: 0 <= i < |shares| ==> s[i] == shares[i].Balance(holder)
  {
    seq(|shares|, i requires 0 <= i < |shares| => shares[i].Balance(holder))
  }

  // Resolution.

  /** The loop of `verifyResolutionInformation` from outcome i on, then the
      test that follows it. */
  function VerifyFrom(
      m: Market, payouts: seq<uint256>, invalid: bool, i: nat, sum: uint256, previous: uint256): (r: Outcome<()>)
    requires i <= |payouts|
    ensures r.Reverted? ==> r.fault == Require
    decreases |payouts| - i
  {
    if i < |payouts| then
      var sum' :- CheckedAdd(sum, payouts[i]);
      var _ :- Check(!invalid || payouts[i] == previous);
      VerifyFrom(m, payouts, invalid, i + 1, sum', payouts[i])
    else if invalid then
      var _ :- Check(m.numOutcomes != 0);
      Check(previous == m.numTicks / m.numOutcomes)
    else
      Check(sum == m.numTicks)
  }

  function VerifyResolution(m: Market, payouts: seq<uint256>, invalid: bool): Outcome<()> {
    var _ :- Check(|payouts| > 0);  // the code reads payouts[0] before it looks at the length
    var _ :- Check(|payouts| == m.numOutcomes);
    VerifyFrom(m, payouts, invalid, 0, 0, payouts[0])
  }

  /** What a resolution is meant to be. */
  ghost predicate ValidPayouts(m: Market, payouts: seq<uint256>, invalid: bool)
    requires m.numOutcomes != 0
  {
    && |payouts| == m.numOutcomes
    && (!invalid ==> Sum(payouts, 0) == m.numTicks)
    && (invalid ==> forall i :: 0 <= i < |payouts| ==> payouts[i] == m.numTicks / m.numOutcomes)
  }

  function Resolve(
      m: Market, stopped: bool, now: uint256, caller: Address, payouts: seq<uint256>, invalid: bool)
      : Outcome<Market> {
    var _ :- Check(!stopped);
    var _ :- Check(!m.IsResolved());
    var _ :- Check(now > m.endTime);
    var _ :- Check(caller == m.oracle);
    var _ :- VerifyResolution(m, payouts, invalid);
    Done(m.(resolutionTime := now, payouts := payouts, invalid := invalid))
  }

  // The check on the escrow.

  /** The loop of `assertBalances` over a resolved market, from outcome i on. */
  function ExpectedFrom(m: Market, i: nat, expected: uint256): (r: Outcome<uint256>)
    requires i <= |m.shares|
    ensures r.Reverted? ==> r.fault == Require
    decreases |m.shares| - i
  {
    if i < |m.shares| then
      var payout :- m.PayoutNumerator(i);
      var product :- CheckedMul(m.shares[i].totalSupply, payout);
      var expected' :- CheckedAdd(expected, product);
      ExpectedFrom(m, i + 1, expected')
    else
      Done(expected)
  }

  function Expected(m: Market): Outcome<uint256> {
    if m.IsResolved() then
      ExpectedFrom(m, 0, 0)
    else
      var _ :- Check(|m.shares| > 0);
      var product :- CheckedMul(m.shares[0].totalSupply, m.numTicks);
      CheckedAdd(0, product)
  }

  function AssertBalances(m: Market, held: uint256): Outcome<()> {
    var expected :- Expected(m);
    if held >= expected then Done(()) else Reverted(Assert)
  }

  /** What the shares of a market are owed. */
  ghost function Owed(m: Market): nat
    requires |m.shares| > 0
    requires m.IsResolved() ==> |m.payouts| == |m.shares|
  {
    Arithmetic.NonNegative(m.shares[0].totalSupply, m.numTicks);
    if m.IsResolved() then Dot(Supplies(m.shares), m.payouts, 0) else m.shares[0].totalSupply * m.numTicks
  }

  lemma {:induction false} ExpectedFromExact(m: Market, i: nat, expected: uint256)
    requires i <= |m.shares| && m.IsResolved() && |m.payouts| == |m.shares|
    ensures var total := expected + Dot(Supplies(m.shares), m.payouts, i);
      ExpectedFrom(m, i, expected) == if total < WORD then Done(total) else Reverted(Require)
    decreases |m.shares| - i
  {
    if i < |m.shares| {
      var product := m.shares[i].totalSupply * m.payouts[i];
      Arithmetic.NonNegative(m.shares[i].totalSupply, m.payouts[i]);
      if expected + product < WORD {
        ExpectedFromExact(m, i + 1, expected + product);
      }
    }
  }

  /** The check computes the true debt: it passes exactly when that is held. A
      debt no word can hold is caught by the checked arithmetic instead. */
  lemma AssertBalancesExact(m: Market, held: uint256)
    requires |m.shares| > 0
    requires m.IsResolved() ==> |m.payouts| == |m.shares|
    ensures AssertBalances(m, held).Done? <==> Owed(m) <= held
    ensures AssertBalances(m, held) == Reverted(Assert) <==> held < Owed(m) < WORD
  {
    Arithmetic.NonNegative(m.shares[0].totalSupply, m.numTicks);
    if m.IsResolved() {
      ExpectedFromExact(m, 0, 0);
    }
  }

  lemma {:induction false} VerifyFromExact(
      m: Market, payouts: seq<uint256>, invalid: bool, i: nat, sum: uint256, previous: uint256)
    requires i <= |payouts| && m.numOutcomes != 0
    ensures VerifyFrom(m, payouts, invalid, i, sum, previous).Done? <==>
      && sum + Sum(payouts, i) < WORD
      && if invalid
         then previous == m.numTicks / m.numOutcomes && forall j :: i <= j < |payouts| ==> payouts[j] == previous
         else sum + Sum(payouts, i) == m.numTicks
    decreases |payouts| - i
  {
    if i < |payouts| && sum + payouts[i] < WORD {
      VerifyFromExact(m, payouts, invalid, i + 1, sum + payouts[i], payouts[i]);
    }
  }

  /** Equal shares of the ticks, rounded down, leave less than one tick per
      outcome over. */
  lemma EqualShares(m: Market, payouts: seq<uint256>)
    requires m.numOutcomes != 0 && ValidPayouts(m, payouts, true)
    ensures Sum(payouts, 0) == m.numTicks - m.numTicks % m.numOutcomes
    ensures Sum(payouts, 0) <= m.numTicks < Sum(payouts, 0) + m.numOutcomes
  {
    Arithmetic.Quotient(m.numTicks, m.numOutcomes);
    SumConstant(payouts, m.numTicks / m.numOutcomes, 0);
    assert m.numOutcomes * (m.numTicks / m.numOutcomes) == (m.numTicks / m.numOutcomes) * m.numOutcomes;
  }

  /** A resolution is accepted if and only if it is a valid one; the checked
      sum never turns a valid one away, nor a wrapped one into a valid one. */
  lemma VerifyResolutionExact(m: Market, payouts: seq<uint256>, invalid: bool)
    requires m.numOutcomes != 0
    ensures VerifyResolution(m, payouts, invalid).Done? <==> ValidPayouts(m, payouts, invalid)
    ensures VerifyResolution(m, payouts, invalid).Done? ==>
      Sum(payouts, 0) <= m.numTicks < Sum(payouts, 0) + m.numOutcomes
  {
    if |payouts| == m.numOutcomes {
      VerifyFromExact(m, payouts, invalid, 0, 0, payouts[0]);
      if ValidPayouts(m, payouts, invalid) && invalid {
        EqualShares(m, payouts);
      }
    }
  }

  /** What the oracle may decide, and when. */
  ghost predicate MayResolve(
      m: Market, stopped: bool, now: uint256, caller: Address, payouts: seq<uint256>, invalid: bool) {
    && !stopped
    && m.resolutionTime == 0 && now > m.endTime && caller == m.oracle
    && m.numOutcomes != 0 && ValidPayouts(m, payouts, invalid)
  }

  /** A resolution succeeds exactly when it may be made, valid or invalid alike,
      and sets the three fields. */
  lemma ResolveExact(
      m: Market, stopped: bool, now: uint256, caller: Address, payouts: seq<uint256>, invalid: bool)
    ensures Resolve(m, stopped, now, caller, payouts, invalid) ==
      if MayResolve(m, stopped, now, caller, payouts, invalid)
      then Done(m.(resolutionTime := now, payouts := payouts, invalid := invalid))
      else Reverted(Require)
  {
    VerifyResolutionRequires(m, payouts, invalid);
    if m.numOutcomes != 0 { VerifyResolutionExact(m, payouts, invalid); }
    hide VerifyFrom, ValidPayouts;
  }

  lemma VerifyResolutionRequires(m: Market, payouts: seq<uint256>, invalid: bool)
    ensures VerifyResolution(m, payouts, invalid).Reverted? ==> VerifyResolution(m, payouts, invalid).fault == Require
  {
    hide VerifyFrom;
  }

  /** What the creator's fee is: one part in feeDivisor of the amount, rounded
      down, and nothing if there is no divisor. */
  predicate IsFee(m: Market, amount: nat, fee: int) {
    if m.feeDivisor == 0 then fee == 0 else fee * m.feeDivisor <= amount < (fee + 1) * m.feeDivisor
  }

  /** That is what is taken of every amount, and nothing else is a fee on it. */
  lemma FeeExact(m: Market, amount: nat, fee: int)
    ensures IsFee(m, amount, fee) <==> fee == m.DeriveFee(amount)
  {
    if m.feeDivisor != 0 {
      Arithmetic.Quotient(amount, m.feeDivisor);
      var q := amount / m.feeDivisor;
      Arithmetic.Distribute(q, 1, m.feeDivisor);
      if IsFee(m, amount, fee) {
        Arithmetic.Distribute(fee, 1, m.feeDivisor);
        Arithmetic.QuotientIs(amount, m.feeDivisor, fee);
      }
    }
  }

  /** The creator never gets more than half of any amount. */
  lemma FeeAtMostHalf(m: Market, amount: nat)
    requires m.Configured()
    ensures 2 * m.DeriveFee(amount) <= amount
  {
    if m.feeDivisor != 0 {
      Arithmetic.Quotient(amount, m.feeDivisor);
      Arithmetic.Monotone(2, m.feeDivisor, amount / m.feeDivisor);
    }
  }
}
