/** The books of every market balance in every run: what it holds is what it
    was given, plus what its shares are owed, plus what complete sets still
    out would refund beyond that. */
module Escrow {
  import opened Foundations
  import opened Sums
  import opened Ledgers
  import opened Markets
  import opened Controllers
  import opened CompleteSets
  import opened ClaimTradingProceeds
  import opened Protocol
  import Arithmetic

  /** What happened to a market so far: complete sets bought and sold, tokens it
      was given for nothing in return, and tokens that were taken from it. No
      contract records this. */
  datatype Book = Book(bought: nat, sold: nat, gifts: nat, lost: nat)

  datatype State = State(w: World, books: map<Address, Book>)

  /** What a completed transaction gave the market a. A claim counts when the
      holder it pays is that market. */
  function Gift(w: World, e: Event, a: Address): nat
    requires a in w.markets
  {
    match e.step
    case TokenCall(t, Transfer(to, amount)) => if to == a && t == w.markets[a].token then amount else 0
    case TokenCall(t, TransferFrom(from, to, amount)) => if to == a && t == w.markets[a].token then amount else 0
    case Claim(b, holder) =>
      if holder == a && b in w.markets && w.markets[b].token == w.markets[a].token
         && |w.markets[b].payouts| == |w.markets[b].shares|
      then HolderTotal(w.markets[b], holder) else 0
    case _ => 0
  }

  /** The entry a completed transaction makes. */
  function Entry(w: World, e: Event, a: Address, b: Book): Book
    requires a in w.markets
  {
    match e.step
    case Buy(m, amount) => if m == a then b.(bought := b.bought + amount) else b
    case Sell(m, amount) => if m == a then b.(sold := b.sold + amount) else b
    case _ => b.(gifts := b.gifts + Gift(w, e, a))
  }

  function HeldBy(w: World, a: Address): uint256
    requires a in w.markets
  {
    if w.markets[a].token in w.tokens then w.tokens[w.markets[a].token].Balance(a) else 0
  }

  /** A new market starts with what was sent to its address before. */
  function Post(s: State, e: Event, w': World): map<Address, Book> {
    map a | a in w'.markets ::
      if a in s.books && a in s.w.markets then Entry(s.w, e, a, s.books[a]) else Book(0, 0, HeldBy(w', a), 0)
  }

  /** After the transaction itself. */
  function TryState(s: State, e: Event): State {
    match Try(s.w, e)
    case Done(w') => State(w', Post(s, e, w'))
    case Reverted(_) => s
  }

  /** The token t is a share token of the market. */
  predicate Keeps(m: Market, t: Address) {
    exists i :: 0 <= i < |m.shareTokens| && m.shareTokens[i].self == t
  }

  /** What a completed transaction takes from the market a. There is one way to
      lose tokens: if they are another market's shares, a claim on that market
      for a burns them. */
  function Loss(w: World, e: Event, a: Address): nat
    requires a in w.markets
  {
    match e.step
    case Claim(b, holder) =>
      if holder == a && b in w.markets && Keeps(w.markets[b], w.markets[a].token) then HeldBy(w, a) else 0
    case _ => 0
  }

  function Charge(w: World, e: Event, books: map<Address, Book>): map<Address, Book> {
    map a | a in books ::
      if a in w.markets then books[a].(lost := books[a].lost + Loss(w, e, a)) else books[a]
  }

  function NextState(s: State, e: Event): State {
    match Try(s.w, e)
    case Done(w1) => State(Settle(s.w, e, w1), Charge(s.w, e, Post(s, e, w1)))
    case Reverted(_) => s
  }

  function RunState(s: State, events: seq<Event>): State
    decreases |events|
  {
    if events == [] then s else RunState(NextState(s, events[0]), events[1..])
  }

  /** The books of one market balance: `net` complete sets are out, and every
      one of them is backed. */
  ghost predicate Balanced(token: Ledger, a: Address, m: Market, b: Book) {
    var net := b.bought - b.sold;
    && 0 <= net
    && if m.IsResolved() then
         && |m.payouts| == |m.shares|
         && (forall i :: 0 <= i < |m.shares| ==> m.shares[i].totalSupply <= net)
         && token.Balance(a) == b.gifts - b.lost + Dot(Supplies(m.shares), m.payouts, 0)
              + net * (m.numTicks - Sum(m.payouts, 0))
       else
         && (forall i :: 0 <= i < |m.shares| ==> m.shares[i].totalSupply == net)
         && token.Balance(a) == b.gifts - b.lost + net * m.numTicks
  }

  /** What is always so of a market by itself. */
  ghost predicate MarketOk(w: World, a: Address, m: Market) {
    && a.Contract? && a.id < w.next
    && m.mailbox.Mailbox?
    && m.token in w.tokens
    && m.Configured()
    && 0 < m.endTime
    && |m.shares| == |m.shareTokens| == m.numOutcomes
    && (forall i :: 0 <= i < |m.shareTokens| ==> m.shareTokens[i].initialized)
    && AllSound(m.shares)
    && (forall i :: 0 <= i < |m.shares| ==> m.shares[i].owner == Null)
    && (m.numTicks == 10000 || (m.numOutcomes == 2 && m.numTicks % 2 == 0))
    && if m.IsResolved()
       then m.resolutionTime > m.endTime && ValidPayouts(m, m.payouts, m.invalid)
       else m.payouts == []
  }

  /** Nobody may spend a contract's tokens, but the two contracts that the
      markets approve. */
  ghost predicate OnlySpenders(w: World) {
    forall t, k, x :: t in w.tokens && w.tokens[t].Allowance(Contract(k), x) > 0 ==>
      Contract(k) in w.markets && w.markets[Contract(k)].token == t && x in {COMPLETE_SETS, CLAIM_TRADING_PROCEEDS}
  }

  ghost predicate TokensSound(w: World) {
    forall t :: t in w.tokens ==> w.tokens[t].Sound()
  }

  ghost predicate Deployed(c: Controller) {
    && c.Lookup("CompleteSets") == COMPLETE_SETS
    && c.Lookup("ClaimTradingProceeds") == CLAIM_TRADING_PROCEEDS
    && c.Lookup("AugurLite") == AUGUR_LITE
  }

  ghost predicate MarketsOk(w: World) {
    forall a :: a in w.markets ==> MarketOk(w, a, w.markets[a])
  }

  ghost predicate AllBalanced(s: State) {
    && s.books.Keys == s.w.markets.Keys
    && forall a :: a in s.w.markets && s.w.markets[a].token in s.w.tokens ==>
         Balanced(s.w.tokens[s.w.markets[a].token], a, s.w.markets[a], s.books[a])
  }

  ghost predicate Invariant(s: State) {
    && Deployed(s.w.controller)
    && TokensSound(s.w)
    && OnlySpenders(s.w)
    && MarketsOk(s.w)
    && AllBalanced(s)
  }

  /** Where a run starts: deployed, with sound tokens and no markets yet. */
  ghost predicate Genesis(s: State) {
    && Deployed(s.w.controller)
    && TokensSound(s.w)
    && s.w.markets == map[] && s.books == map[]
    && (forall t, k, x :: t in s.w.tokens ==> s.w.tokens[t].Allowance(Contract(k), x) == 0)
    && (forall t :: t in s.w.tokens && t.Contract? ==> t.id < s.w.next)
  }

  lemma GenesisInvariant(s: State)
    requires Genesis(s)
    ensures Invariant(s)
  {
  }

  // The debt of one market through each kind of transaction.

  lemma DotShift(xs: seq<nat>, ys: seq<nat>, k: nat, ps: seq<nat>)
    requires |xs| == |ys| == |ps|
    requires forall j :: 0 <= j < |xs| ==> ys[j] == xs[j] + k
    ensures Dot(ys, ps, 0) == Dot(xs, ps, 0) + k * Sum(ps, 0)
  {
    var ks := seq(|xs|, _ => k);
    DotAdds(ys, xs, ks, ps, 0);
    DotConstant(ks, k, ps, 0);
  }

  lemma SuppliesMinted(shares: seq<Ledger>, shares': seq<Ledger>, account: Address, k: nat, ps: seq<nat>)
    requires AllIssued(shares, shares', account, k, 0) && |ps| == |shares|
    ensures Dot(Supplies(shares'), ps, 0) == Dot(Supplies(shares), ps, 0) + k * Sum(ps, 0)
  {
    DotShift(Supplies(shares), Supplies(shares'), k, ps);
  }

  lemma SuppliesBurned(shares: seq<Ledger>, shares': seq<Ledger>, account: Address, k: nat, ps: seq<nat>)
    requires AllIssued(shares, shares', account, 0 - k, 0) && |ps| == |shares|
    ensures Dot(Supplies(shares), ps, 0) == Dot(Supplies(shares'), ps, 0) + k * Sum(ps, 0)
  {
    DotShift(Supplies(shares'), Supplies(shares), k, ps);
  }

  lemma SuppliesDestroyed(shares: seq<Ledger>, shares': seq<Ledger>, holder: Address, ps: seq<nat>)
    requires AllDestroyed(shares, shares', holder, 0) && |ps| == |shares|
    ensures Dot(Supplies(shares), ps, 0) == Dot(Supplies(shares'), ps, 0) + Dot(Holdings(shares, holder), ps, 0)
  {
    DotAdds(Supplies(shares), Supplies(shares'), Holdings(shares, holder), ps, 0);
  }

  /** The terms of the balance when `net` and the debt move together. */
  lemma BalanceMoves(net: int, k: int, ticks: int, sum: int)
    ensures (net + k) * (ticks - sum) + k * sum == net * (ticks - sum) + k * ticks
    ensures (net + k) * ticks == net * ticks + k * ticks
    ensures (net - k) * (ticks - sum) + k * ticks == net * (ticks - sum) + k * sum
    ensures (net - k) * ticks + k * ticks == net * ticks
  {
  }

  lemma BuyKeepsBalance(
      token: Ledger, token': Ledger, a: Address, m: Market, m': Market, b: Book, sender: Address, k: uint256)
    requires Balanced(token, a, m, b) && sender != a
    requires Bought(token, token', a, m, m', sender, k)
    ensures Balanced(token', a, m', b.(bought := b.bought + k))
  {
    MovedAt(token, token', sender, a, k * m.numTicks, a);
    BalanceMoves(b.bought - b.sold, k, m.numTicks, Sum(m.payouts, 0));
    if m.IsResolved() {
      SuppliesMinted(m.shares, m'.shares, sender, k, m.payouts);
    }
  }

  lemma SellKeepsBalance(
      token: Ledger, token': Ledger, a: Address, m: Market, m': Market, b: Book, sender: Address, k: uint256)
    requires Balanced(token, a, m, b) && sender != a && m.mailbox != a
    requires |m.shares| > 0 && m.shares[0].Sound() && k <= m.shares[0].Balance(sender)
    requires 0 <= k * m.numTicks && Sold(token, token', a, m, m', sender, k, k * m.numTicks)
    ensures Balanced(token', a, m', b.(sold := b.sold + k))
  {
    assert k <= m.shares[0].totalSupply <= b.bought - b.sold by {
      TwoAccounts(m.shares[0].balances, sender, sender);
    }
    BalanceMoves(b.bought - b.sold, k, m.numTicks, Sum(m.payouts, 0));
    var gross: nat := k * m.numTicks;
    assert token'.Balance(a) == token.Balance(a)
      + Gain(a, a, sender, gross - m.DeriveFee(gross), m.mailbox, m.DeriveFee(gross));
    assert token'.Balance(a) == token.Balance(a) - gross;
    assert forall i :: 0 <= i < |m.shares| ==> m'.shares[i].totalSupply == m.shares[i].totalSupply - k;
    if m.IsResolved() {
      SuppliesBurned(m.shares, m'.shares, sender, k, m.payouts);
    }
  }

  lemma ClaimKeepsBalance(token: Ledger, token': Ledger, a: Address, m: Market, m': Market, b: Book, holder: Address)
    requires Balanced(token, a, m, b) && m.mailbox != a && m.IsResolved()
    requires m' == m.(shares := m'.shares) && AllDestroyed(m.shares, m'.shares, holder, 0)
    requires PaysFrom(token, token', a, m, holder, 0)
    ensures Balanced(token', a, m', if holder == a then b.(gifts := b.gifts + HolderTotal(m, holder)) else b)
  {
    SuppliesDestroyed(m.shares, m'.shares, holder, m.payouts);
    var hs := Holdings(m.shares, holder);
    assert token'.Balance(a) == token.Balance(a)
      + Gain(a, a, holder, Dot(hs, m.payouts, 0) - Fees(m, hs, 0), m.mailbox, Fees(m, hs, 0));
    forall i | 0 <= i < |m'.shares|
      ensures m'.shares[i].totalSupply <= b.bought - b.sold
    {
      assert Destroyed(m.shares[i], m'.shares[i], holder);
    }
  }

  /** A resolution turns the debt of whole sets into that of their shares and
      what rounding leaves over; it never asks for more than is held. */
  lemma ResolveKeepsBalance(token: Ledger, a: Address, m: Market, m': Market, b: Book)
    requires Balanced(token, a, m, b) && !m.IsResolved() && m'.IsResolved()
    requires m'.shares == m.shares && m'.numTicks == m.numTicks && |m'.payouts| == |m.shares|
    ensures Balanced(token, a, m', b)
  {
    var net := b.bought - b.sold;
    DotConstant(Supplies(m.shares), net, m'.payouts, 0);
    assert net * Sum(m'.payouts, 0) + net * (m.numTicks - Sum(m'.payouts, 0)) == net * m.numTicks;
  }

  lemma PayoutsAtMostTicks(m: Market)
    requires m.numOutcomes != 0 && ValidPayouts(m, m.payouts, m.invalid)
    ensures Sum(m.payouts, 0) <= m.numTicks < Sum(m.payouts, 0) + m.numOutcomes
  {
    if m.invalid { EqualShares(m, m.payouts); }
  }

  /** What the complete sets still out would refund beyond what their shares are
      owed. */
  function Slack(m: Market, b: Book): int {
    if m.IsResolved() then (b.bought - b.sold) * (m.numTicks - Sum(m.payouts, 0)) else 0
  }

  /** What was taken from the market is made up for. */
  predicate Backed(m: Market, b: Book) {
    b.lost <= b.gifts + Slack(m, b)
  }

  /** A market whose books balance holds what its shares are owed exactly if it
      is backed; it is when no more was taken from it than it was given. */
  lemma BalancedIsSolvent(w: World, token: Ledger, a: Address, m: Market, b: Book)
    requires MarketOk(w, a, m) && Balanced(token, a, m, b)
    ensures Owed(m) <= token.Balance(a) <==> Backed(m, b)
    ensures AssertBalances(m, token.Balance(a)).Done? <==> Backed(m, b)
    ensures b.lost <= b.gifts ==> Backed(m, b)
  {
    AssertBalancesExact(m, token.Balance(a));
    if m.IsResolved() {
      PayoutsAtMostTicks(m);
      Arithmetic.NonNegative(b.bought - b.sold, m.numTicks - Sum(m.payouts, 0));
    }
  }
}
