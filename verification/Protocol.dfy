/** The whole protocol as a state machine: one step is one transaction, which
    either completes or leaves the state as it was. */
module Protocol {
  import opened Foundations
  import opened Ledgers
  import opened Markets
  import opened Controllers
  import opened CompleteSets
  import opened ClaimTradingProceeds

  datatype Universe = Universe(token: Address, markets: set<Address>)

  /** `universes` are those AugurLite knows. New contracts get the addresses
      from Contract(next) on. */
  datatype World = World(
    controller: Controller,
    tokens: map<Address, Ledger>,
    universes: map<Address, Universe>,
    markets: map<Address, Market>,
    next: nat)
  {
    /** `marketIsLegit`: the universe is known and contains the market. */
    predicate IsLegit(a: Address) {
      && a in markets
      && markets[a].universe in universes
      && a in universes[markets[a].universe].markets
    }

    function TokenOf(a: Address): Outcome<Ledger>
      requires a in markets
    {
      var _ :- Check(markets[a].token in tokens);
      Done(tokens[markets[a].token])
    }

    /** The world after a transaction on the market and its token. */
    function Install(a: Address, token: Ledger, m: Market): World
      requires a in markets
    {
      this.(tokens := tokens[markets[a].token := token], markets := markets[a := m])
    }
  }

  datatype Step =
    | Buy(market: Address, amount: uint256)
    | Sell(market: Address, amount: uint256)
    | Claim(market: Address, holder: Address)
    | Resolve(market: Address, payouts: seq<uint256>, invalid: bool)
    | ApproveSpenders(market: Address)
    | TokenCall(token: Address, call: Call)
    | InitializeShare(market: Address, outcome: nat, newMarket: Address, newOutcome: uint256)
    | CreateUniverse(token: Address)
    | CreateYesNoMarket(terms: Terms)
    | CreateCategoricalMarket(terms: Terms, outcomes: uint256)
    | CreateScalarMarket(terms: Terms, minPrice: int, maxPrice: int, numTicks: uint256)
    | AddToWhitelist(target: Address)
    | RemoveFromWhitelist(target: Address)
    | RegisterContract(key: string, target: Address, bytecodeHash: int)
    | TransferControl(newOwner: Address)
    | EmergencyStop

  datatype Terms = Terms(
    description: string,
    universe: Address,
    endTime: uint256,
    feeDivisor: uint256,
    token: Address,
    oracle: Address)

  /** A transaction: who sends it, and when. */
  datatype Event = Event(caller: Address, now: uint256, step: Step)

  function ApproveAll(c: Controller, token: Ledger, self: Address): Outcome<Ledger> {
    var _ :- Check(!c.stopped);
    var token1 :- token.Approve(self, c.Lookup("CompleteSets"), MAX_WORD);
    token1.Approve(self, c.Lookup("ClaimTradingProceeds"), MAX_WORD)
  }

  /** The share token of outcome i, as its factory makes and initializes it. */
  function NewToken(id: nat, i: uint256): TokenInfo {
    InitializeToken(FreshToken(Contract(id + 1 + i)), Contract(id), i).value
  }

  /** A market as `initialize` leaves it: with fresh share tokens. */
  function NewMarket(terms: Terms, id: nat, numOutcomes: uint256, numTicks: uint256): Market {
    Market(terms.universe, terms.token, numOutcomes, numTicks, terms.feeDivisor, terms.endTime, terms.oracle,
           Mailbox(id), 0, false, [],
           seq(numOutcomes, i requires 0 <= i < numOutcomes => NewToken(id, i)),
           seq(numOutcomes, i requires 0 <= i < numOutcomes => EMPTY))
  }

  /** What `initialize` asks of a new market. */
  function CheckTerms(m: Market, universeToken: Address, creator: Address, now: uint256): Outcome<()> {
    var _ :- Check(m.Configured());
    var _ :- Check(creator != Null);
    var _ :- Check(now < m.endTime);
    Check(universeToken == m.token)
  }

  /** `initialize`: the new market, and the token after it approved its spenders. */
  function InitializeMarket(c: Controller, universeToken: Address, token: Ledger, creator: Address, now: uint256,
                            terms: Terms, id: nat, numOutcomes: uint256, numTicks: uint256): Outcome<(Ledger, Market)>
  {
    var m := NewMarket(terms, id, numOutcomes, numTicks);
    var _ :- CheckTerms(m, universeToken, creator, now);
    var token' :- ApproveAll(c, token, Contract(id));
    Done((token', m))
  }

  function CreateMarket(w: World, e: Event, terms: Terms, numOutcomes: uint256, numTicks: uint256): Outcome<World> {
    var _ :- Check(!w.controller.stopped);
    var _ :- Check(|terms.description| > 0);
    var _ :- Check(terms.universe in w.universes);
    var _ :- Check(terms.token in w.tokens);
    var self := Contract(w.next);
    var u := w.universes[terms.universe];
    var (token, m) :- InitializeMarket(w.controller, u.token, w.tokens[terms.token], e.caller, e.now,
                                       terms, w.next, numOutcomes, numTicks);
    Done(w.(tokens := w.tokens[terms.token := token],
            universes := w.universes[terms.universe := u.(markets := u.markets + {self})],
            markets := w.markets[self := m],
            next := w.next + 1 + numOutcomes))
  }

  function OnMarket(w: World, a: Address, after: Outcome<(Ledger, Market)>): Outcome<World>
    requires a in w.markets
  {
    var (token, m) :- after;
    Done(w.Install(a, token, m))
  }

  function Control(w: World, after: Outcome<Controller>): Outcome<World> {
    var c :- after;
    Done(w.(controller := c))
  }

  /** The transaction itself. */
  function Try(w: World, e: Event): Outcome<World> {
    var _ :- Check(MayCall(e.caller));
    var c := w.controller;
    match e.step
    case Buy(a, amount) =>
      var _ :- Check(a in w.markets);
      var token :- w.TokenOf(a);
      OnMarket(w, a, PublicBuy(c, w.IsLegit(a), token, a, w.markets[a], e.caller, amount))
    case Sell(a, amount) =>
      var _ :- Check(a in w.markets);
      var token :- w.TokenOf(a);
      OnMarket(w, a, PublicSell(c, w.IsLegit(a), token, a, w.markets[a], e.caller, amount))
    case Claim(a, holder) =>
      var _ :- Check(a in w.markets);
      var token :- w.TokenOf(a);
      OnMarket(w, a, ClaimTradingProceeds.Claim(c, w.IsLegit(a), e.now, token, a, w.markets[a], holder))
    case Resolve(a, payouts, invalid) =>
      var _ :- Check(a in w.markets);
      var m :- Markets.Resolve(w.markets[a], c.stopped, e.now, e.caller, payouts, invalid);
      var _ :- Check(w.IsLegit(a));  // AugurLite's log asks
      Done(w.(markets := w.markets[a := m]))
    case ApproveSpenders(a) =>
      var _ :- Check(a in w.markets);
      var token :- w.TokenOf(a);
      var token' :- ApproveAll(c, token, a);
      Done(w.Install(a, token', w.markets[a]))
    case TokenCall(t, call) =>
      var _ :- Check(t in w.tokens);
      var token :- Apply(w.tokens[t], e.caller, call);
      Done(w.(tokens := w.tokens[t := token]))
    case InitializeShare(a, outcome, market, newOutcome) =>
      var _ :- Check(a in w.markets && outcome < |w.markets[a].shareTokens|);
      var m := w.markets[a];
      var t :- InitializeToken(m.shareTokens[outcome], market, newOutcome);
      Done(w.(markets := w.markets[a := m.(shareTokens := m.shareTokens[outcome := t])]))
    case CreateUniverse(t) =>
      var _ :- Check(!c.stopped);  // any address will do
      Done(w.(universes := w.universes[Contract(w.next) := Universe(t, {})], next := w.next + 1))
    case CreateYesNoMarket(terms) =>
      CreateMarket(w, e, terms, 2, 10000)
    case CreateCategoricalMarket(terms, outcomes) =>
      CreateMarket(w, e, terms, outcomes, 10000)
    case CreateScalarMarket(terms, minPrice, maxPrice, numTicks) =>
      var _ :- Check(minPrice < maxPrice);
      var _ :- Check(numTicks % 2 == 0);
      CreateMarket(w, e, terms, 2, numTicks)
    case AddToWhitelist(target) => Control(w, c.AddToWhitelist(e.caller, target))
    case RemoveFromWhitelist(target) => Control(w, c.RemoveFromWhitelist(e.caller, target))
    case RegisterContract(key, target, hash) => Control(w, c.RegisterContract(e.caller, key, target, hash))
    case TransferControl(newOwner) => Control(w, c.TransferOwnership(e.caller, newOwner))
    case EmergencyStop => Control(w, c.EmergencyStop(e.caller))
  }

  // A share token is a token like any other: it can be called, and a universe can
  // be made over it. So its ledger is listed among the tokens, and its market
  // keeps it too. A transaction changes it on one side; the other side follows.

  /** A market that keeps the ledger of the token t takes it over. */
  function TakeOver(m: Market, t: Address, l: Ledger): Market {
    m.(shares := seq(|m.shares|, i requires 0 <= i < |m.shares| =>
      if i < |m.shareTokens| && m.shareTokens[i].self == t then l else m.shares[i]))
  }

  function TellMarkets(w: World, t: Address): World {
    if t !in w.tokens then w else
      w.(markets := map a | a in w.markets :: TakeOver(w.markets[a], t, w.tokens[t]))
  }

  /** The tokens with the shares that a market keeps, from outcome i on. */
  function ListFrom(tokens: map<Address, Ledger>, m: Market, i: nat): map<Address, Ledger>
    decreases |m.shares| - i
  {
    if i < |m.shares| && i < |m.shareTokens|
    then ListFrom(tokens[m.shareTokens[i].self := m.shares[i]], m, i + 1)
    else tokens
  }

  function ListShares(w: World, a: Address): World {
    if a !in w.markets then w else w.(tokens := ListFrom(w.tokens, w.markets[a], 0))
  }

  /** What follows a transaction on a market, or the creation of one. */
  function SettleMarket(w: World, a: Address): World {
    if a !in w.markets then w else TellMarkets(ListShares(w, a), w.markets[a].token)
  }

  /** `w1` is the world w after the transaction itself. */
  function Settle(w: World, e: Event, w1: World): World {
    match e.step
    case Buy(a, _) => SettleMarket(w1, a)
    case Sell(a, _) => SettleMarket(w1, a)
    case Claim(a, _) => SettleMarket(w1, a)
    case ApproveSpenders(a) => SettleMarket(w1, a)
    case CreateYesNoMarket(_) => SettleMarket(w1, Contract(w.next))
    case CreateCategoricalMarket(_, _) => SettleMarket(w1, Contract(w.next))
    case CreateScalarMarket(_, _, _, _) => SettleMarket(w1, Contract(w.next))
    case TokenCall(t, _) => TellMarkets(w1, t)
    case _ => w1
  }

  /** A transaction in full. */
  function Transact(w: World, e: Event): Outcome<World> {
    var w1 :- Try(w, e);
    Done(Settle(w, e, w1))
  }

  function Next(w: World, e: Event): World {
    match Transact(w, e)
    case Done(w') => w'
    case Reverted(_) => w
  }

  function Run(w: World, events: seq<Event>): World
    decreases |events|
  {
    if events == [] then w else Run(Next(w, events[0]), events[1..])
  }
}
