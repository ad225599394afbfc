/** contracts_flattener/Controller.sol as an object. */
module ControllerContracts {
  import opened Foundations
  import opened Controllers

  class ControllerContract {
    var owner: Address
    var whitelist: set<Address>
    var registry: map<string, Details>
    var stopped: bool

    function View(): Controller
      reads this
    {
      Controller(owner, whitelist, registry, stopped)
    }

    constructor (deployer: Address)
      ensures View() == Controller(deployer, {deployer}, map[], false)
    {
      owner, whitelist, registry, stopped := deployer, {deployer}, map[], false;
    }

    method AssertIsWhitelisted(target: Address) returns (r: Outcome<()>)
      ensures r == if target in whitelist then Done(()) else Reverted(Require)
    {
      r := Check(target in whitelist);
    }

    method AddToWhitelist(caller: Address, target: Address) returns (r: Outcome<()>)
      modifies this
      ensures match old(View()).AddToWhitelist(caller, target)
              case Done(c) => r == Done(()) && View() == c
              case Reverted(f) => r == Reverted(f) && View() == old(View())
    {
      var _ :- Check(caller == owner);
      whitelist := whitelist + {target};
      return Done(());
    }

    method RemoveFromWhitelist(caller: Address, target: Address) returns (r: Outcome<()>)
      modifies this
      ensures match old(View()).RemoveFromWhitelist(caller, target)
              case Done(c) => r == Done(()) && View() == c
              case Reverted(f) => r == Reverted(f) && View() == old(View())
    {
      var _ :- Check(caller == owner);
      whitelist := whitelist - {target};
      return Done(());
    }

    method RegisterContract(caller: Address, key: string, target: Address, bytecodeHash: int) returns (r: Outcome<()>)
      modifies this
      ensures match old(View()).RegisterContract(caller, key, target, bytecodeHash)
              case Done(c) => r == Done(()) && View() == c
              case Reverted(f) => r == Reverted(f) && View() == old(View())
    {
      var _ :- Check(caller == owner);
      var _ :- Check(View().Lookup(key) == Null);
      registry := registry[key := Details(target, bytecodeHash)];
      return Done(());
    }

    method TransferOwnership(caller: Address, newOwner: Address) returns (r: Outcome<()>)
      modifies this
      ensures match old(View()).TransferOwnership(caller, newOwner)
              case Done(c) => r == Done(()) && View() == c
              case Reverted(f) => r == Reverted(f) && View() == old(View())
    {
      var _ :- Check(caller == owner);
      owner := newOwner;
      return Done(());
    }

    method EmergencyStop(caller: Address) returns (r: Outcome<()>)
      modifies this
      ensures match old(View()).EmergencyStop(caller)
              case Done(c) => r == Done(()) && View() == c
              case Reverted(f) => r == Reverted(f) && View() == old(View())
    {
      var _ :- Check(caller == owner);
      var _ :- Check(!stopped);
      var _ :- Check(View().Lookup("AugurLite") != Null);
      stopped := true;
      return Done(());
    }
  }
}
