/** The contracts of contracts_flattener/ShareToken.sol as objects. A method
    that reports a failure may leave its object half changed, as the code does:
    the transaction it is part of puts everything back. */
module TokenContracts {
  import opened Foundations
  import opened Ledgers
  import opened Markets
  import opened ControllerContracts
  import Arith = SafeMathUint256

  class Bep20 {
    var balances: map<Address, uint256>
    var allowances: map<(Address, Address), uint256>
    var totalSupply: uint256
    var owner: Address

    function State(): Ledger
      reads this
    {
      Ledger(balances, allowances, totalSupply, owner)
    }

    constructor (owner: Address)
      ensures State() == EMPTY.(owner := owner)
    {
      balances, allowances, totalSupply, this.owner := map[], map[], 0, owner;
    }

    /** What the virtual machine does when a transaction fails. */
    method Restore(saved: Ledger)
      modifies this
      ensures State() == saved
    {
      balances, allowances := saved.balances, saved.allowances;
      totalSupply, owner := saved.totalSupply, saved.owner;
    }

    method Move(sender: Address, recipient: Address, amount: uint256) returns (r: Outcome<()>)
      modifies this`balances
      ensures var l := old(State()).Transfer(sender, recipient, amount);
        match l case Done(l') => r == Done(()) && State() == l' case Reverted(f) => r == Reverted(f)
    {
      var _ :- Check(sender != Null);
      var _ :- Check(recipient != Null);
      var rest :- Arith.Sub(State().Balance(sender), amount);
      balances := balances[sender := rest];
      var sum :- Arith.Add(State().Balance(recipient), amount);
      balances := balances[recipient := sum];
      return Done(());
    }

    method MintTo(account: Address, amount: uint256) returns (r: Outcome<()>)
      modifies this`balances, this`totalSupply
      ensures var l := old(State()).Mint(account, amount);
        match l case Done(l') => r == Done(()) && State() == l' case Reverted(f) => r == Reverted(f)
    {
      var _ :- Check(account != Null);
      var supply :- Arith.Add(totalSupply, amount);
      totalSupply := supply;
      var sum :- Arith.Add(State().Balance(account), amount);
      balances := balances[account := sum];
      return Done(());
    }

    method BurnFrom(account: Address, amount: uint256) returns (r: Outcome<()>)
      modifies this`balances, this`totalSupply
      ensures var l := old(State()).Burn(account, amount);
        match l case Done(l') => r == Done(()) && State() == l' case Reverted(f) => r == Reverted(f)
    {
      var _ :- Check(account != Null);
      var rest :- Arith.Sub(State().Balance(account), amount);
      balances := balances[account := rest];
      var supply :- Arith.Sub(totalSupply, amount);
      totalSupply := supply;
      return Done(());
    }

    method SetAllowance(holder: Address, spender: Address, amount: uint256) returns (r: Outcome<()>)
      modifies this`allowances
      ensures var l := old(State()).Approve(holder, spender, amount);
        match l case Done(l') => r == Done(()) && State() == l' case Reverted(f) => r == Reverted(f)
    {
      var _ :- Check(holder != Null);
      var _ :- Check(spender != Null);
      allowances := allowances[(holder, spender) := amount];
      return Done(());
    }

    method TransferFrom(caller: Address, sender: Address, recipient: Address, amount: uint256) returns (r: Outcome<()>)
      modifies this`balances, this`allowances
      ensures var l := old(State()).TransferFrom(caller, sender, recipient, amount);
        match l case Done(l') => r == Done(()) && State() == l' case Reverted(f) => r == Reverted(f)
    {
      var _ :- Move(sender, recipient, amount);
      var left :- Arith.Sub(State().Allowance(sender, caller), amount);
      r := SetAllowance(sender, caller, left);
    }

    method IncreaseAllowance(caller: Address, spender: Address, amount: uint256) returns (r: Outcome<()>)
      modifies this`allowances
      ensures var l := old(State()).IncreaseAllowance(caller, spender, amount);
        match l case Done(l') => r == Done(()) && State() == l' case Reverted(f) => r == Reverted(f)
    {
      var sum :- Arith.Add(State().Allowance(caller, spender), amount);
      r := SetAllowance(caller, spender, sum);
    }

    method DecreaseAllowance(caller: Address, spender: Address, amount: uint256) returns (r: Outcome<()>)
      modifies this`allowances
      ensures var l := old(State()).DecreaseAllowance(caller, spender, amount);
        match l case Done(l') => r == Done(()) && State() == l' case Reverted(f) => r == Reverted(f)
    {
      var rest :- Arith.Sub(State().Allowance(caller, spender), amount);
      r := SetAllowance(caller, spender, rest);
    }

    method ChangeOwner(caller: Address, newOwner: Address, renounce: bool) returns (r: Outcome<()>)
      modifies this`owner
      ensures var l := if renounce then old(State()).RenounceOwnership(caller)
                       else old(State()).TransferOwnership(caller, newOwner);
        match l case Done(l') => r == Done(()) && State() == l' case Reverted(f) => r == Reverted(f)
    {
      var _ :- Check(caller == owner);
      if renounce {
        owner := Null;
      } else {
        var _ :- Check(newOwner != Null);
        owner := newOwner;
      }
      return Done(());
    }

    method Dispatch(caller: Address, call: Call) returns (r: Outcome<()>)
      modifies this
      ensures match Apply(old(State()), caller, call)
              case Done(l') => r == Done(()) && State() == l'
              case Reverted(f) => r == Reverted(f)
    {
      match call
      case Transfer(to, amount) => r := Move(caller, to, amount);
      case TransferFrom(from, to, amount) => r := TransferFrom(caller, from, to, amount);
      case Approve(spender, amount) => r := SetAllowance(caller, spender, amount);
      case IncreaseAllowance(spender, amount) => r := IncreaseAllowance(caller, spender, amount);
      case DecreaseAllowance(spender, amount) => r := DecreaseAllowance(caller, spender, amount);
      case Mint(amount) =>
        var _ :- Check(caller == owner);
        r := MintTo(caller, amount);
      case TransferOwnership(newOwner) => r := ChangeOwner(caller, newOwner, false);
      case RenounceOwnership => r := ChangeOwner(caller, Null, true);
    }

    /** A transaction that is one call on the token: it does what the call is
        meant to do, or nothing. */
    method Transact(caller: Address, call: Call) returns (r: Outcome<()>)
      modifies this
      ensures match Apply(old(State()), caller, call)
              case Done(l') => r == Done(()) && State() == l'
              case Reverted(f) => r == Reverted(f) && State() == old(State())
    {
      var saved := State();
      r := Dispatch(caller, call);
      if r.Reverted? {
        Restore(saved);
      }
    }
  }

  /** A share token is a BEP20 token that knows its market and outcome and lets
      whitelisted callers create and destroy shares. */
  class ShareToken {
    const self: Address
    const controller: ControllerContract
    const bep20: Bep20
    var initialized: bool
    var market: Address
    var outcome: uint256

    function Info(): TokenInfo
      reads this
    {
      TokenInfo(self, initialized, Answers(market, outcome))
    }

    constructor (self: Address, controller: ControllerContract)
      ensures this.self == self && this.controller == controller
      ensures Info() == FreshToken(self) && fresh(bep20) && bep20.State() == EMPTY
    {
      this.self, this.controller := self, controller;
      bep20 := new Bep20(Null);
      initialized, market, outcome := false, Null, 0;
    }

    method Initialize(market: Address, outcome: uint256) returns (r: Outcome<()>)
      modifies this
      ensures match InitializeToken(old(Info()), market, outcome)
              case Done(t) => r == Done(()) && Info() == t
              case Reverted(f) => r == Reverted(f) && Info() == old(Info())
    {
      var _ :- Check(!initialized);
      initialized, this.market, this.outcome := true, market, outcome;
      return Done(());
    }

    method CreateShares(caller: Address, account: Address, amount: uint256) returns (r: Outcome<()>)
      modifies bep20
      ensures caller !in controller.whitelist ==> r == Reverted(Require) && bep20.State() == old(bep20.State())
      ensures caller in controller.whitelist ==>
        match old(bep20.State()).Mint(account, amount)
        case Done(l') => r == Done(()) && bep20.State() == l'
        case Reverted(f) => r == Reverted(f)
    {
      var _ :- controller.AssertIsWhitelisted(caller);
      r := bep20.MintTo(account, amount);
    }

    method DestroyShares(caller: Address, account: Address, amount: uint256) returns (r: Outcome<()>)
      modifies bep20
      ensures caller !in controller.whitelist ==> r == Reverted(Require) && bep20.State() == old(bep20.State())
      ensures caller in controller.whitelist ==>
        match old(bep20.State()).Burn(account, amount)
        case Done(l') => r == Done(()) && bep20.State() == l'
        case Reverted(f) => r == Reverted(f)
    {
      var _ :- controller.AssertIsWhitelisted(caller);
      r := bep20.BurnFrom(account, amount);
    }
  }

  /** The ledgers behind a list of tokens. */
  function Tokens(shares: seq<ShareToken>): (ts: seq<Bep20>)
    ensures |ts| == |shares| && forall i :: 0 <= i < |ts| ==> ts[i] == shares[i].bep20
  {
    seq(|shares|, i requires 0 <= i < |shares| => shares[i].bep20)
  }

  function Infos(shares: seq<ShareToken>): (s: seq<TokenInfo>)
    reads shares
    ensures |s| == |shares| && forall i :: 0 <= i < |s| ==> s[i] == shares[i].Info()
  {
    seq(|shares|, i requires 0 <= i < |shares| reads shares => shares[i].Info())
  }

  function States(ts: seq<Bep20>): (s: seq<Ledger>)
    reads ts
    ensures |s| == |ts| && forall i :: 0 <= i < |ts| ==> s[i] == ts[i].State()
  {
    seq(|ts|, i requires 0 <= i < |ts| reads ts => ts[i].State())
  }

  ghost predicate Distinct(ts: seq<Bep20>) {
    forall i, j :: 0 <= i < j < |ts| ==> ts[i] != ts[j]
  }

  /** Put back the state of a token and of a list of tokens. */
  method RestoreAll(token: Bep20, saved: Ledger, ts: seq<Bep20>, states: seq<Ledger>)
    requires |states| == |ts| && Distinct(ts) && token !in ts
    modifies token, ts
    ensures token.State() == saved && States(ts) == states
  {
    token.Restore(saved);
    forall i | 0 <= i < |ts| { ts[i].balances := states[i].balances; }
    forall i | 0 <= i < |ts| { ts[i].allowances := states[i].allowances; }
    forall i | 0 <= i < |ts| { ts[i].totalSupply := states[i].totalSupply; }
    forall i | 0 <= i < |ts| { ts[i].owner := states[i].owner; }
  }
}
