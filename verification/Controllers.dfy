/** The registry, the whitelist and the emergency stop of
    contracts_flattener/Controller.sol as a value. */
module Controllers {
  import opened Foundations

  // The protocol's contracts that are deployed once.
  const COMPLETE_SETS: Address := Contract(0)
  const CLAIM_TRADING_PROCEEDS: Address := Contract(1)
  const AUGUR_LITE: Address := Contract(2)

  datatype Details = Details(contractAddress: Address, bytecodeHash: int)

  datatype Controller = Controller(
    owner: Address,
    whitelist: set<Address>,
    registry: map<string, Details>,
    stopped: bool)
  {
    function Lookup(key: string): Address {
      if key in registry then registry[key].contractAddress else Null
    }

    function AddToWhitelist(caller: Address, target: Address): Outcome<Controller> {
      var _ :- Check(caller == owner);
      Done(this.(whitelist := whitelist + {target}))
    }

    function RemoveFromWhitelist(caller: Address, target: Address): Outcome<Controller> {
      var _ :- Check(caller == owner);
      Done(this.(whitelist := whitelist - {target}))
    }

    function RegisterContract(caller: Address, key: string, target: Address, bytecodeHash: int): Outcome<Controller> {
      var _ :- Check(caller == owner);
      var _ :- Check(Lookup(key) == Null);
      Done(this.(registry := registry[key := Details(target, bytecodeHash)]))
    }

    function TransferOwnership(caller: Address, newOwner: Address): Outcome<Controller> {
      var _ :- Check(caller == owner);
      Done(this.(owner := newOwner))
    }

    function EmergencyStop(caller: Address): Outcome<Controller> {
      var _ :- Check(caller == owner);
      var _ :- Check(!stopped);
      var _ :- Check(Lookup("AugurLite") != Null);  // it is told of the stop
      Done(this.(stopped := true))
    }
  }
}
