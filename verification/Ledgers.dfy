/** The BEP20 token of contracts_flattener/ShareToken.sol as a value: what
    each call makes of the state, or how it fails. */
module Ledgers {
  import opened Foundations
  import opened Sums

  datatype Ledger = Ledger(
    balances: map<Address, uint256>,
    allowances: map<(Address, Address), uint256>,
    totalSupply: uint256,
    owner: Address)
  {
    function Balance(a: Address): uint256 {
      At(balances, a)
    }

    function Allowance(holder: Address, spender: Address): uint256 {
      if (holder, spender) in allowances then allowances[(holder, spender)] else 0
    }

    function SetBalance(a: Address, amount: uint256): Ledger {
      this.(balances := balances[a := amount])
    }

    function Transfer(from: Address, to: Address, amount: uint256): Outcome<Ledger> {
      var _ :- Check(from != Null);
      var _ :- Check(to != Null);
      var rest :- CheckedSub(Balance(from), amount);
      var l := SetBalance(from, rest);
      var sum :- CheckedAdd(l.Balance(to), amount);
      Done(l.SetBalance(to, sum))
    }

    function Mint(account: Address, amount: uint256): Outcome<Ledger> {
      var _ :- Check(account != Null);
      var supply :- CheckedAdd(totalSupply, amount);
      var sum :- CheckedAdd(Balance(account), amount);
      Done(SetBalance(account, sum).(totalSupply := supply))
    }

    function Burn(account: Address, amount: uint256): Outcome<Ledger> {
      var _ :- Check(account != Null);
      var rest :- CheckedSub(Balance(account), amount);
      var supply :- CheckedSub(totalSupply, amount);
      Done(SetBalance(account, rest).(totalSupply := supply))
    }

    function Approve(holder: Address, spender: Address, amount: uint256): Outcome<Ledger> {
      var _ :- Check(holder != Null);
      var _ :- Check(spender != Null);
      Done(this.(allowances := allowances[(holder, spender) := amount]))
    }

    function TransferFrom(caller: Address, from: Address, to: Address, amount: uint256): Outcome<Ledger> {
      var l :- Transfer(from, to, amount);
      var left :- CheckedSub(l.Allowance(from, caller), amount);
      l.Approve(from, caller, left)
    }

    function IncreaseAllowance(caller: Address, spender: Address, amount: uint256): Outcome<Ledger> {
      var sum :- CheckedAdd(Allowance(caller, spender), amount);
      Approve(caller, spender, sum)
    }

    function DecreaseAllowance(caller: Address, spender: Address, amount: uint256): Outcome<Ledger> {
      var rest :- CheckedSub(Allowance(caller, spender), amount);
      Approve(caller, spender, rest)
    }

    function MintToOwner(caller: Address, amount: uint256): Outcome<Ledger> {
      var _ :- Check(caller == owner);
      Mint(caller, amount)
    }

    function TransferOwnership(caller: Address, newOwner: Address): Outcome<Ledger> {
      var _ :- Check(caller == owner);
      var _ :- Check(newOwner != Null);
      Done(this.(owner := newOwner))
    }

    function RenounceOwnership(caller: Address): Outcome<Ledger> {
      var _ :- Check(caller == owner);
      Done(this.(owner := Null))
    }

    /** The supply is what the accounts hold, and nobody holds the zero address. */
    ghost predicate Sound() {
      Total(balances) == totalSupply && Balance(Null) == 0
    }
  }

  /** A fresh token: no balances, no allowances, no owner. */
  const EMPTY: Ledger := Ledger(map[], map[], 0, Null)

  /** What anyone can call on a token. */
  datatype Call =
    | Transfer(to: Address, amount: uint256)
    | TransferFrom(from: Address, to: Address, amount: uint256)
    | Approve(spender: Address, amount: uint256)
    | IncreaseAllowance(spender: Address, amount: uint256)
    | DecreaseAllowance(spender: Address, amount: uint256)
    | Mint(amount: uint256)
    | TransferOwnership(newOwner: Address)
    | RenounceOwnership

  function Apply(l: Ledger, caller: Address, call: Call): Outcome<Ledger> {
    match call
    case Transfer(to, amount) => l.Transfer(caller, to, amount)
    case TransferFrom(from, to, amount) => l.TransferFrom(caller, from, to, amount)
    case Approve(spender, amount) => l.Approve(caller, spender, amount)
    case IncreaseAllowance(spender, amount) => l.IncreaseAllowance(caller, spender, amount)
    case DecreaseAllowance(spender, amount) => l.DecreaseAllowance(caller, spender, amount)
    case Mint(amount) => l.MintToOwner(caller, amount)
    case TransferOwnership(newOwner) => l.TransferOwnership(caller, newOwner)
    case RenounceOwnership => l.RenounceOwnership(caller)
  }

  // How two ledgers can differ.

  ghost predicate SameBalances(l: Ledger, l': Ledger) {
    && l'.totalSupply == l.totalSupply
    && forall a :: l'.Balance(a) == l.Balance(a)
  }

  ghost predicate SameAllowances(l: Ledger, l': Ledger) {
    forall o, s :: l'.Allowance(o, s) == l.Allowance(o, s)
  }

  /** l' is l after `amount` moved; from and to may be the same account. */
  ghost predicate Moved(l: Ledger, l': Ledger, from: Address, to: Address, amount: int) {
    && l'.totalSupply == l.totalSupply
    && l'.owner == l.owner
    && forall a :: l'.Balance(a) == l.Balance(a) - (if a == from then amount else 0) + (if a == to then amount else 0)
  }

  /** l' is l after `amount` of the allowance was used up. */
  ghost predicate Spent(l: Ledger, l': Ledger, holder: Address, spender: Address, amount: int) {
    forall o, s :: l'.Allowance(o, s) == l.Allowance(o, s) - (if o == holder && s == spender then amount else 0)
  }

  /** What an account gains when the payer pays two amounts out. Any of the
      three accounts may be the same one. */
  function Gain(a: Address, payer: Address, payee: Address, amount: int, collector: Address, fee: int): int {
    (if a == payee then amount else 0) + (if a == collector then fee else 0) - (if a == payer then amount + fee else 0)
  }

  /** l' is l after the payer paid out two amounts. */
  ghost predicate Paid(
      l: Ledger, l': Ledger, payer: Address, payee: Address, amount: int, collector: Address, fee: int) {
    && l'.totalSupply == l.totalSupply
    && l'.owner == l.owner
    && forall a :: l'.Balance(a) == l.Balance(a) + Gain(a, payer, payee, amount, collector, fee)
  }

  lemma PaidTwice(l: Ledger, l1: Ledger, l2: Ledger, payer: Address, a: Address, amount: int, b: Address, fee: int)
    requires Moved(l, l1, payer, a, amount) && Moved(l1, l2, payer, b, fee)
    ensures Paid(l, l2, payer, a, amount, b, fee) && Paid(l, l2, payer, b, fee, a, amount)
  {
    forall x
      ensures l2.Balance(x) == l.Balance(x) + Gain(x, payer, a, amount, b, fee)
      ensures l2.Balance(x) == l.Balance(x) + Gain(x, payer, b, fee, a, amount)
    {
      MovedAt(l, l1, payer, a, amount, x);
      MovedAt(l1, l2, payer, b, fee, x);
    }
  }

  lemma MovedAt(l: Ledger, l': Ledger, from: Address, to: Address, amount: int, a: Address)
    requires Moved(l, l', from, to, amount)
    ensures l'.Balance(a) == l.Balance(a) - (if a == from then amount else 0) + (if a == to then amount else 0)
  {
  }

  lemma SpentMore(l: Ledger, l1: Ledger, l2: Ledger, holder: Address, spender: Address, amount: int, more: int)
    requires Spent(l, l1, holder, spender, amount) && Spent(l1, l2, holder, spender, more)
    ensures Spent(l, l2, holder, spender, amount + more)
  {
    forall o, s
      ensures l2.Allowance(o, s) == l.Allowance(o, s) - (if o == holder && s == spender then amount + more else 0)
    {
      assert l1.Allowance(o, s) == l.Allowance(o, s) - (if o == holder && s == spender then amount else 0);
    }
  }

  lemma PaidMore(l: Ledger, l1: Ledger, l2: Ledger, payer: Address,
    payee: Address, amount: int, collector: Address, fee: int, amount': int, fee': int)
    requires Paid(l, l1, payer, payee, amount, collector, fee)
    requires Paid(l1, l2, payer, payee, amount', collector, fee')
    ensures Paid(l, l2, payer, payee, amount + amount', collector, fee + fee')
  {
    forall x
      ensures l2.Balance(x) == l.Balance(x) + Gain(x, payer, payee, amount + amount', collector, fee + fee')
    {
      assert l1.Balance(x) == l.Balance(x) + Gain(x, payer, payee, amount, collector, fee);
      assert l2.Balance(x) == l1.Balance(x) + Gain(x, payer, payee, amount', collector, fee');
    }
  }

  lemma NothingMoved(l: Ledger, from: Address, to: Address, spender: Address)
    ensures Moved(l, l, from, to, 0) && Spent(l, l, from, spender, 0)
  {
  }

  /** l' is l after `amount` was minted to the account, or burned if negative. */
  ghost predicate Issued(l: Ledger, l': Ledger, account: Address, amount: int) {
    && l'.totalSupply == l.totalSupply + amount
    && l'.owner == l.owner
    && (forall a :: l'.Balance(a) == l.Balance(a) + (if a == account then amount else 0))
    && SameAllowances(l, l')
  }

  lemma SetBalanceSets(l: Ledger, a: Address, v: uint256)
    ensures forall b :: l.SetBalance(a, v).Balance(b) == if b == a then v else l.Balance(b)
  {
  }

  lemma ApproveSets(l: Ledger, holder: Address, spender: Address, amount: uint256)
    requires holder != Null && spender != Null
    ensures l.Approve(holder, spender, amount).Done?
    ensures var l' := l.Approve(holder, spender, amount).value;
      && l'.balances == l.balances && l'.totalSupply == l.totalSupply && l'.owner == l.owner
      && forall o, s :: l'.Allowance(o, s) == if o == holder && s == spender then amount else l.Allowance(o, s)
  {
  }

  function TransferResult(l: Ledger, from: Address, to: Address, amount: uint256): Ledger
    requires l.Sound() && amount <= l.Balance(from)
  {
    TwoAccounts(l.balances, from, to);
    var l1 := l.SetBalance(from, l.Balance(from) - amount);
    l1.SetBalance(to, l1.Balance(to) + amount)
  }

  lemma TransferMoves(l: Ledger, from: Address, to: Address, amount: uint256)
    requires l.Sound() && amount <= l.Balance(from)
    ensures Moved(l, TransferResult(l, from, to, amount), from, to, amount)
    ensures TransferResult(l, from, to, amount).allowances == l.allowances
  {
    TwoAccounts(l.balances, from, to);
    var l1 := l.SetBalance(from, l.Balance(from) - amount);
    SetBalanceSets(l, from, l.Balance(from) - amount);
    SetBalanceSets(l1, to, l1.Balance(to) + amount);
  }

  lemma TransferConserves(l: Ledger, from: Address, to: Address, amount: uint256)
    requires l.Sound() && amount <= l.Balance(from)
    ensures Total(TransferResult(l, from, to, amount).balances) == l.totalSupply
  {
    hide Total;
    TwoAccounts(l.balances, from, to);
    var l1 := l.SetBalance(from, l.Balance(from) - amount);
    TotalSet(l.balances, from, l.Balance(from) - amount);
    TotalSet(l1.balances, to, l1.Balance(to) + amount);
  }

  lemma TransferValue(l: Ledger, from: Address, to: Address, amount: uint256)
    requires l.Sound()
    ensures l.Transfer(from, to, amount) ==
      if from != Null && to != Null && amount <= l.Balance(from)
      then Done(TransferResult(l, from, to, amount))
      else Reverted(Require)
  {
    TwoAccounts(l.balances, from, to);
  }

  /** After the first check of a transfer the second never fails: a transfer
      succeeds if and only if both addresses are real and the balance covers
      it, and then moves exactly the amount. */
  lemma TransferExact(l: Ledger, from: Address, to: Address, amount: uint256)
    requires l.Sound()
    ensures l.Transfer(from, to, amount).Done? <==> from != Null && to != Null && amount <= l.Balance(from)
    ensures l.Transfer(from, to, amount).Done? ==>
      var l' := l.Transfer(from, to, amount).value;
      l'.Sound() && Moved(l, l', from, to, amount) && l'.allowances == l.allowances
  {
    if from != Null && to != Null && amount <= l.Balance(from) {
      TransferMoves(l, from, to, amount);
      TransferConserves(l, from, to, amount);
    }
    TransferValue(l, from, to, amount);
  }

  /** The same for a mint: only the supply can overflow, never the balance. */
  lemma MintExact(l: Ledger, account: Address, amount: uint256)
    requires l.Sound()
    ensures l.Mint(account, amount).Done? <==> account != Null && l.totalSupply + amount < WORD
    ensures l.Mint(account, amount).Done? ==>
      var l' := l.Mint(account, amount).value;
      l'.Sound() && Issued(l, l', account, amount)
  {
    TwoAccounts(l.balances, account, account);
    if account != Null && l.totalSupply + amount < WORD {
      TotalSet(l.balances, account, l.Balance(account) + amount);
    }
  }

  /** And for a burn: once the balance covers it, so does the supply. */
  lemma BurnExact(l: Ledger, account: Address, amount: uint256)
    requires l.Sound()
    ensures l.Burn(account, amount).Done? <==> account != Null && amount <= l.Balance(account)
    ensures l.Burn(account, amount).Done? ==>
      var l' := l.Burn(account, amount).value;
      l'.Sound() && Issued(l, l', account, 0 - amount)
  {
    TwoAccounts(l.balances, account, account);
    if account != Null && amount <= l.Balance(account) {
      TotalSet(l.balances, account, l.Balance(account) - amount);
    }
  }

  lemma TransferFromValue(l: Ledger, caller: Address, from: Address, to: Address, amount: uint256)
    requires l.Sound()
    ensures l.TransferFrom(caller, from, to, amount) ==
      if caller != Null && from != Null && to != Null && amount <= l.Balance(from)
          && amount <= l.Allowance(from, caller)
      then TransferResult(l, from, to, amount).Approve(from, caller, l.Allowance(from, caller) - amount)
      else Reverted(Require)
  {
    TransferValue(l, from, to, amount);
  }

  /** After a transfer, only the allowance it was made on is set anew. */
  lemma SpendAfterMove(l: Ledger, l1: Ledger, caller: Address, from: Address, to: Address, amount: uint256)
    requires caller != Null && from != Null && to != Null && amount <= l.Allowance(from, caller)
    requires Moved(l, l1, from, to, amount) && l1.allowances == l.allowances
    requires l.Balance(Null) == 0 && Total(l1.balances) == l.totalSupply
    ensures l1.Approve(from, caller, l.Allowance(from, caller) - amount).Done?
    ensures var l' := l1.Approve(from, caller, l.Allowance(from, caller) - amount).value;
      l'.Sound() && Moved(l, l', from, to, amount) && Spent(l, l', from, caller, amount)
  {
    hide Ledger.Approve, Total;
    ApproveSets(l1, from, caller, l.Allowance(from, caller) - amount);
    MovedAt(l, l1, from, to, amount, Null);
  }

  lemma TransferFromExact(l: Ledger, caller: Address, from: Address, to: Address, amount: uint256)
    requires l.Sound()
    ensures l.TransferFrom(caller, from, to, amount).Done? <==>
      && caller != Null && from != Null && to != Null
      && amount <= l.Balance(from)
      && amount <= l.Allowance(from, caller)
    ensures l.TransferFrom(caller, from, to, amount).Done? ==>
      var l' := l.TransferFrom(caller, from, to, amount).value;
      l'.Sound() && Moved(l, l', from, to, amount) && Spent(l, l', from, caller, amount)
  {
    hide Ledger.TransferFrom, Ledger.Transfer, Ledger.Approve, TransferResult, Moved, Spent;
    TransferFromValue(l, caller, from, to, amount);
    if caller != Null && from != Null && to != Null && amount <= l.Balance(from)
        && amount <= l.Allowance(from, caller) {
      TransferMoves(l, from, to, amount);
      TransferConserves(l, from, to, amount);
      SpendAfterMove(l, TransferResult(l, from, to, amount), caller, from, to, amount);
    }
  }

  lemma ApplySound(l: Ledger, caller: Address, call: Call)
    requires l.Sound() && Apply(l, caller, call).Done?
    ensures Apply(l, caller, call).value.Sound()
  {
    match call
    case Transfer(to, amount) => TransferExact(l, caller, to, amount);
    case TransferFrom(from, to, amount) => TransferFromExact(l, caller, from, to, amount);
    case Mint(amount) => MintExact(l, caller, amount);
    case _ =>
  }

  // Every call, in full.

  /** What each call asks for. */
  predicate Permitted(l: Ledger, caller: Address, call: Call) {
    match call
    case Transfer(to, amount) => caller != Null && to != Null && amount <= l.Balance(caller)
    case TransferFrom(from, to, amount) =>
      && caller != Null && from != Null && to != Null
      && amount <= l.Balance(from) && amount <= l.Allowance(from, caller)
    case Approve(spender, _) => caller != Null && spender != Null
    case IncreaseAllowance(spender, amount) =>
      caller != Null && spender != Null && l.Allowance(caller, spender) + amount < WORD
    case DecreaseAllowance(spender, amount) =>
      caller != Null && spender != Null && amount <= l.Allowance(caller, spender)
    case Mint(amount) => caller == l.owner && caller != Null && l.totalSupply + amount < WORD
    case TransferOwnership(newOwner) => caller == l.owner && newOwner != Null
    case RenounceOwnership => caller == l.owner
  }

  /** l' is l with one allowance set. */
  ghost predicate Allowed(l: Ledger, l': Ledger, holder: Address, spender: Address, amount: int) {
    && SameBalances(l, l') && l'.owner == l.owner
    && forall o, s :: l'.Allowance(o, s) == if o == holder && s == spender then amount else l.Allowance(o, s)
  }

  /** What each call does. */
  ghost predicate Effect(l: Ledger, l': Ledger, caller: Address, call: Call) {
    match call
    case Transfer(to, amount) => Moved(l, l', caller, to, amount) && SameAllowances(l, l')
    case TransferFrom(from, to, amount) => Moved(l, l', from, to, amount) && Spent(l, l', from, caller, amount)
    case Approve(spender, amount) => Allowed(l, l', caller, spender, amount)
    case IncreaseAllowance(spender, amount) =>
      Allowed(l, l', caller, spender, l.Allowance(caller, spender) + amount)
    case DecreaseAllowance(spender, amount) =>
      Allowed(l, l', caller, spender, l.Allowance(caller, spender) - amount)
    case Mint(amount) => Issued(l, l', caller, amount)
    case TransferOwnership(newOwner) => l' == l.(owner := newOwner)
    case RenounceOwnership => l' == l.(owner := Null)
  }

  lemma AllowanceCallExact(l: Ledger, caller: Address, call: Call)
    requires call.Approve? || call.IncreaseAllowance? || call.DecreaseAllowance?
    ensures Apply(l, caller, call).Done? <==> Permitted(l, caller, call)
    ensures Apply(l, caller, call).Done? ==> Effect(l, Apply(l, caller, call).value, caller, call)
    ensures Apply(l, caller, call).Reverted? ==> Apply(l, caller, call).fault == Require
  {
  }

  lemma TransferCallExact(l: Ledger, caller: Address, to: Address, amount: uint256)
    requires l.Sound()
    ensures l.Transfer(caller, to, amount).Done? ==>
      Effect(l, l.Transfer(caller, to, amount).value, caller, Transfer(to, amount))
  {
    hide Ledger.Transfer;
    TransferExact(l, caller, to, amount);
  }

  lemma CallsRequire(l: Ledger, caller: Address, call: Call)
    ensures Apply(l, caller, call) != Reverted(Assert)
  {
  }

  /** Every call succeeds exactly when it may be made, and then does what it
      says and no more. Only the owner mints or hands the token on. */
  lemma CallExact(l: Ledger, caller: Address, call: Call)
    requires l.Sound()
    ensures Apply(l, caller, call).Done? <==> Permitted(l, caller, call)
    ensures Apply(l, caller, call).Done? ==> Effect(l, Apply(l, caller, call).value, caller, call)
    ensures Apply(l, caller, call).Reverted? ==> Apply(l, caller, call).fault == Require
  {
    CallsRequire(l, caller, call);
    hide Ledger.Transfer, Ledger.TransferFrom, Ledger.Mint, Ledger.Approve, Moved, Spent, Issued;
    match call
    case Transfer(to, amount) =>
      TransferExact(l, caller, to, amount);
      TransferCallExact(l, caller, to, amount);
    case TransferFrom(from, to, amount) =>
      TransferFromExact(l, caller, from, to, amount);
    case Mint(amount) =>
      MintExact(l, caller, amount);
    case Approve(_, _) => AllowanceCallExact(l, caller, call);
    case IncreaseAllowance(_, _) => AllowanceCallExact(l, caller, call);
    case DecreaseAllowance(_, _) => AllowanceCallExact(l, caller, call);
    case _ =>
  }
}
