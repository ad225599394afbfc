/** A token over whole runs of calls: the supply is always what the accounts
    hold and what the owners minted, and an allowance is what was last set less
    what was spent since. */
module Allowances {
  import opened Foundations
  import opened Ledgers

  datatype Sent = Sent(caller: Address, call: Call)

  function Play(l: Ledger, s: Sent): Ledger {
    match Apply(l, s.caller, s.call)
    case Done(l') => l'
    case Reverted(_) => l
  }

  function PlayAll(l: Ledger, trace: seq<Sent>): Ledger {
    if trace == [] then l else Play(PlayAll(l, trace[..|trace| - 1]), trace[|trace| - 1])
  }

  /** Whether a call sets the allowance, rather than spends it. */
  predicate Sets(s: Sent, holder: Address, spender: Address) {
    s.caller == holder &&
    match s.call
    case Approve(x, _) => x == spender
    case IncreaseAllowance(x, _) => x == spender
    case DecreaseAllowance(x, _) => x == spender
    case _ => false
  }

  /** What the last successful call that set the allowance set it to, as the
      calls say: an approval says the amount, an adjustment adds to (or takes
      from) what was left before it. */
  function LastSet(l: Ledger, trace: seq<Sent>, holder: Address, spender: Address): int
    decreases |trace|, 1
  {
    if trace == [] then l.Allowance(holder, spender) else
      var prefix, s := trace[..|trace| - 1], trace[|trace| - 1];
      if Apply(PlayAll(l, prefix), s.caller, s.call).Done? && Sets(s, holder, spender) then
        match s.call
        case Approve(_, amount) => amount
        case IncreaseAllowance(_, amount) =>
          LastSet(l, prefix, holder, spender) - SpentSince(l, prefix, holder, spender) + amount
        case DecreaseAllowance(_, amount) =>
          LastSet(l, prefix, holder, spender) - SpentSince(l, prefix, holder, spender) - amount
      else
        LastSet(l, prefix, holder, spender)
  }

  /** What the spender has moved from the holder since then. */
  function SpentSince(l: Ledger, trace: seq<Sent>, holder: Address, spender: Address): nat
    decreases |trace|, 0
  {
    if trace == [] then 0 else
      var prefix, s := trace[..|trace| - 1], trace[|trace| - 1];
      var earlier := SpentSince(l, prefix, holder, spender);
      if Apply(PlayAll(l, prefix), s.caller, s.call).Reverted? then earlier
      else if Sets(s, holder, spender) then 0
      else if s.call.TransferFrom? && s.call.from == holder && s.caller == spender then earlier + s.call.amount
      else earlier
  }

  /** A successful call that does not set the allowance lowers it by what it
      spends. */
  lemma NotSet(l: Ledger, s: Sent, holder: Address, spender: Address)
    requires l.Sound() && Apply(l, s.caller, s.call).Done? && !Sets(s, holder, spender)
    ensures Play(l, s).Allowance(holder, spender) == l.Allowance(holder, spender)
      - if s.call.TransferFrom? && s.call.from == holder && s.caller == spender then s.call.amount else 0
  {
    if s.call.TransferFrom? {
      TransferFromExact(l, s.caller, s.call.from, s.call.to, s.call.amount);
    }
  }

  /** What a successful call that sets the allowance sets it to. */
  lemma SetTo(l: Ledger, s: Sent, holder: Address, spender: Address)
    requires Apply(l, s.caller, s.call).Done? && Sets(s, holder, spender)
    ensures Play(l, s).Allowance(holder, spender) ==
      match s.call
      case Approve(_, amount) => amount
      case IncreaseAllowance(_, amount) => l.Allowance(holder, spender) + amount
      case DecreaseAllowance(_, amount) => l.Allowance(holder, spender) - amount
  {
  }

  /** In every run of calls the supply equals the sum of all balances. */
  lemma {:induction false} RunIsSound(l: Ledger, trace: seq<Sent>)
    requires l.Sound()
    ensures PlayAll(l, trace).Sound()
  {
    if trace != [] {
      RunIsSound(l, trace[..|trace| - 1]);
      var s := trace[|trace| - 1];
      var before := PlayAll(l, trace[..|trace| - 1]);
      if Apply(before, s.caller, s.call).Done? {
        ApplySound(before, s.caller, s.call);
      }
    }
  }

  /** In every run of calls an allowance is what it was last set to, less all
      that was spent since; so no more is ever spent than was allowed. */
  lemma {:induction false} AllowanceIsWhatIsLeft(l: Ledger, trace: seq<Sent>, holder: Address, spender: Address)
    requires l.Sound()
    ensures PlayAll(l, trace).Allowance(holder, spender)
         == LastSet(l, trace, holder, spender) - SpentSince(l, trace, holder, spender)
  {
    if trace != [] {
      var prefix := trace[..|trace| - 1];
      AllowanceIsWhatIsLeft(l, prefix, holder, spender);
      RunIsSound(l, prefix);
      var before, s := PlayAll(l, prefix), trace[|trace| - 1];
      if Apply(before, s.caller, s.call).Done? {
        hide Apply, Play;
        if Sets(s, holder, spender) {
          SetTo(before, s, holder, spender);
        } else {
          NotSet(before, s, holder, spender);
        }
      }
    }
  }

  /** Who owns the token and what was minted, as the calls say: only a call of
      the owner of the time counts. */
  function OwnerAndSupply(owner: Address, supply: int, trace: seq<Sent>): (Address, int) {
    if trace == [] then (owner, supply) else
      var s := trace[|trace| - 1];
      var (o, n) := OwnerAndSupply(owner, supply, trace[..|trace| - 1]);
      if s.caller != o then (o, n) else
        match s.call
        case Mint(amount) => if o != Null && n + amount < WORD then (o, n + amount) else (o, n)
        case TransferOwnership(newOwner) => if newOwner != Null then (newOwner, n) else (o, n)
        case RenounceOwnership => (Null, n)
        case _ => (o, n)
  }

  /** In every run of calls the supply is what it was plus what the owners of
      the day minted, and the owner is the last one named. */
  lemma {:induction false} OnlyOwnersMint(l: Ledger, trace: seq<Sent>)
    requires l.Sound()
    ensures (PlayAll(l, trace).owner, PlayAll(l, trace).totalSupply as int) ==
      OwnerAndSupply(l.owner, l.totalSupply, trace)
  {
    if trace != [] {
      var prefix := trace[..|trace| - 1];
      OnlyOwnersMint(l, prefix);
      RunIsSound(l, prefix);
      var before, s := PlayAll(l, prefix), trace[|trace| - 1];
      CallExact(before, s.caller, s.call);
      hide Apply;
    }
  }
}
