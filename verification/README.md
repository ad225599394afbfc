# A verified model of AugurLite

AugurLite is a set of Solidity contracts for prediction markets. Traders lock
denomination tokens in a market and get one share token of every outcome (a
complete set); they can hand complete sets back for a refund less the market
creator's fee. An oracle fixes once what each outcome pays, and holders then
redeem their shares, outcome by outcome. Buying, selling and claiming each end
with a run-time check that the market holds what its shares are owed.

This project models those contracts and two programs beside them, the import
flattener and the nonce allocator, in Dafny, and proves what they are for. The
main results are that, whatever else happens in a run, the run-time check never
fails for a market over a plain token, and that once it is resolved everybody
can always be paid; and exactly when this holds of a market whose token is
another market's share.

## How it is built

| file | what it is about |
|---|---|
| Foundations, SafeMath, Sums | outcomes of calls, 256-bit words, checked arithmetic, sums over accounts and outcomes |
| Ledgers, Allowances | the BEP20 token as a value, and over runs of calls |
| Markets, CompleteSets, ClaimTradingProceeds, Controllers | each contract as functions from state to state or failure, and lemmas that say exactly when they succeed and what they do |
| Protocol | the whole system as a state machine, one step per transaction |
| Escrow, EscrowRuns | the exact ledger of every market's escrow, and that every transaction keeps it |
| Settlement, Payouts, Trades | what follows from the ledger: exact success conditions, claims commute, round trips, rounding |
| Admission | exactly when resolutions, approvals, creations and token calls succeed, and exactly what they leave |
| Membership | the index by which universes recognise markets and share tokens is sound and complete |
| Listing, Transactions | share tokens as tokens that other markets may hold: every transaction in full keeps every ledger, and does to its own market what the transaction itself does |
| Redemption | sequences of claims by anyone at any time: everybody is paid what is owed |
| Governance | resolution is final, the stop is final, registry, whitelist, owner and stop are what the owners of the day said |
| Lending | markets over share tokens: the one way to lose an escrow, and how much |
| Deployment | the main results for every run from a deployment |
| Walkthrough, OverShares | two concrete runs: to a paid claim, and to an escrow that is cashed in |
| ControllerContracts, TokenContracts, MarketContracts, TradingContracts | the contracts as objects whose fields change in place; each method is proved to refine its function |
| Flattener | the traversal of the flattener as functions, their theorems, and the procedure that refines them |
| AccountManager | the nonce allocator cut at its await, all interleavings, and the object |

`dafny verify dfyconfig.toml` checks everything.

The escrow invariant is not the one in the code. Complete sets trade at
`numTicks` even after a resolution whose payouts sum to less, so "balance covers
debt" is not kept by itself. Beside every market the proof keeps books of sets
bought, sets sold, tokens given for nothing and tokens taken. With net = bought -
sold, the balance is always gifts - lost + net * numTicks before resolution, with
every supply equal to net; and gifts - lost + sum of supply * payout + net *
(numTicks - sum of payouts) after it, with every supply at most net.
`Escrow.Balanced` says this. `lost` is zero for every market over a token that
is no market's share.

A share token's ledger is kept by its market, and the same ledger is listed among
the tokens, where it can be called and held in escrow by other markets. A
transaction changes it on one side, and `Protocol.Settle` has the other follow;
`Listing.Synced` says that between transactions the two are always one.

## What is assumed of the surroundings

- Each public entry point is one step. It completes, or it fails and leaves the
  state as it was. Time is an input of each step.
- Whitelisted functions are called by CompleteSets and ClaimTradingProceeds
  only (`source/libraries/ContractDeployer.ts:385`). The owner of the controller
  is whitelisted too (`contracts_flattener/Controller.sol:115`) but makes no
  direct calls, and neither does anybody the owner adds later.
- Denomination tokens behave as the repository's BEP20 contract, with any owner.
  A universe can be made over any address, and a market over any token that
  exists, another market's share token included. Tokens that no market creates
  are listed from the start.
- A share token is a delegator whose BEP20 owner is the zero address, so `mint`
  is never enabled on it.
- The protocol's contracts call only what their code calls. A mailbox may spend
  what it holds in any way. New contracts get addresses that were never used.
- The factories are registered, as a deployment leaves them.

## What the proofs brought out

- Signed `mul` accepts -1 times -2^255 and returns -2^255
  (`SafeMathInt256.MulExact`); signed `div` lets the same overflow through
  (`SafeMathInt256.Div`). No contract modelled here uses either.
- The flattener tells files apart by base name only, so of two reachable files
  of one name only the first is printed: it prints all that can be reached if
  and only if there are no two such files (`Flattener.ProcessedIsReachable`).
- The time check of a claim passes on an unresolved market; what stops the
  claim is the read of the payout (`Governance.NoClaimBeforeResolution`).
- Shares sent to the market itself are never redeemed for anybody's benefit; a
  claim for the market turns them into a gift to it. It is the one holder whose
  claim can fail although allowance and escrow cover it: the log adds each
  payout to the market's own balance (`ClaimTradingProceeds.LogsFit`).
- A market over another market's share token loses its whole escrow to a claim
  on that other market for it, and nothing ever takes from an escrow otherwise
  (`Lending.CashingInTakesAll`, `Lending.LossesAddUp`); `OverShares` is a run in
  which this happens.

## Model

| member | source | states |
|---|---|---|
| Deployment.EveryRunIsSolvent | contracts_flattener/Market.sol:453-467 | In every state of every run from a deployment, whatever transactions it holds, the final check on the escrow passes for every market over a token of the deployment, and for every market over another market's share token until a claim cashes in its escrow |
| Deployment.EveryRunBalances | contracts_flattener/Market.sol:453-467 | In every run the books of every market, over whatever token, account for its balance to the token; all it ever lost is what claims cashed in; and the check passes if and only if that is made up for by gifts and by what rounding left over |
| Deployment.NoRunAsserts | contracts_flattener/Market.sol:466-466 | After every run no next transaction fails an assert, but possibly a purchase, sale or claim on a market whose escrow was cashed in |
| Deployment.EveryRunPaysEveryone | contracts_flattener/ClaimTradingProceeds.sol:176-209 | In every run, once a market is resolved, while the protocol is not stopped and ClaimTradingProceeds is whitelisted: refreshing the approval succeeds, and then any sequence of claims for holders other than the market, sent by anyone at any times after the resolution, succeeds if and only if the check on the escrow passes; for the markets of EveryRunIsSolvent it does |
| Lending.CashingInTakesAll | contracts_flattener/ClaimTradingProceeds.sol:190-197 | A claim on a market for a second market that holds its shares in escrow takes exactly the second one's whole balance and leaves the rest of it as it was; from then on its check fails an assert if and only if it owes anything that fits a word |
| Lending.LossesAddUp | contracts_flattener/ClaimTradingProceeds.sol:190-197 | What a market lost in a run is the sum of the balances that such claims found, nothing if there were none; no other transaction takes from an escrow |
| Lending.NoShareNeverCashedIn | contracts_flattener/AugurLite.sol:120-127 | A market over a token that no market created is never cashed in, in any run |
| OverShares.EscrowCashedIn | contracts_flattener/AugurLite.sol:120-127 | The condition is needed. A concrete run from a deployment: universe, market and purchase; a universe and a second market over the first one's share token, and a purchase there; resolution of the first; a claim on it for the second; then a purchase on the second fails an assert |
| Deployment.OneTokenStandsForAll | contracts_flattener/Market.sol:463-465 | Until resolution all outcome supplies equal sets bought less sets sold, so supply times ticks of the first token is the debt under every payout vector that sums to the ticks |
| Deployment.Reachable | contracts_flattener/Controller.sol:99-198 | The escrow invariant and the membership index hold after every sequence of transactions from a deployment that has AugurLite and both trading contracts registered |
| Deployment.EveryTokenIsAccepted | contracts_flattener/Universe.sol:247-257 | In every run every share token of every market stores that market and its own place in the list, and on those stored answers it is accepted by its market's universe and by no other |
| Listing.StepKeepsAccounts | contracts_flattener/Market.sol:453-467 | Every transaction of every kind, on share tokens and on markets over them too, completed or failed, keeps the exact escrow ledger of every market, the token sums, the market terms, who may spend a market's tokens, and the index |
| Listing.RunKeepsAccounts | contracts_flattener/Market.sol:453-467 | The same over every finite run |
| EscrowRuns.TryKeepsInvariant | contracts_flattener/Market.sol:453-467 | The transaction itself keeps the exact escrow ledger, before the share tokens it moved are seen by their other holders |
| Transactions.TradeSettles | contracts_flattener/CompleteSets.sol:185-237 | What follows a purchase, sale, claim or approval changes nothing for the market it is on: its terms, shares, token and books are as the transaction itself left them |
| Transactions.TwoTransactions | contracts_flattener/CompleteSets.sol:185-237 | Two transactions in a row on one market end as the two taken by themselves do, so the results on sequences of two hold of them in full |
| Admission.OnlyKnownMarkets | contracts_flattener/Market.sol:340-352 | A purchase, sale, claim or resolution succeeds only on a market that its universe lists, of a universe that AugurLite knows, and only while the protocol is not stopped |
| Admission.ResolveSucceeds | contracts_flattener/Market.sol:340-352 | A resolution succeeds if and only if its sender is the oracle, the market is known, legitimate, ended and not resolved, the protocol not stopped, and the payouts valid; it sets time, payouts and validity of that market and changes nothing else |
| Admission.CreateYesNoSucceeds | contracts_flattener/Universe.sol:263-285 | A yes/no market is created if and only if the protocol is not stopped, the description is not empty, universe and token fit, the oracle is real, the divisor is 0 or at least 2 and the end is to come; it has two outcomes, 10000 ticks, the terms' end, divisor, oracle and token, fresh empty share tokens and approved spenders, and nothing else changes |
| Admission.CreateCategoricalSucceeds | contracts_flattener/Universe.sol:286-317 | The same for a categorical market, which has the outcomes asked for, two to eight, and 10000 ticks |
| Admission.CreateScalarSucceeds | contracts_flattener/Universe.sol:319-326 | The same for a scalar market, which has two outcomes and the ticks asked for, an even number above zero; its minimum price is below its maximum |
| Admission.CreateUniverseSucceeds | contracts_flattener/AugurLite.sol:120-127 | A universe is created, over any address, if and only if the protocol is not stopped; its address was unused, it has that token and no markets, and nothing else changes |
| Admission.ApproveSucceeds | contracts_flattener/Market.sol:334-338 | Anyone can renew a market's two approvals if and only if the protocol is not stopped; they become the greatest word and nothing else changes |
| Admission.TokenCallSucceeds | contracts_flattener/ShareToken.sol:598-691 | A public call on any token, share tokens included, succeeds exactly when it is permitted, has its effect on that token alone, and a share token's market sees it |
| Governance.ResolutionIsFinal | contracts_flattener/Market.sol:340-352 | Resolution is a latch over every run: time, payouts and validity never change once set, nor do the terms ever; and resolution time > end time > 0 |
| Governance.NoClaimBeforeResolution | contracts_flattener/ClaimTradingProceeds.sol:177-190 | No claim on an unresolved market succeeds, although its time check passes against a resolution time of zero |
| Governance.StopIsForever | contracts_flattener/Controller.sol:173-181 | After the emergency stop no continuation of the run changes a market's supplies or resolution or lowers its escrow, or lifts the stop |
| Governance.RegistryIsFixed | contracts_flattener/Controller.sol:153-166 | A non-zero registry entry never changes in any run, so approved spenders stay the same |
| Governance.WhitelistIsTheOwnersWord | contracts_flattener/Controller.sol:137-150 | After every run a target is on the whitelist if and only if the last addition or removal of it by the owner of the time was an addition, or there was none and it was on it before |
| Governance.OwnersRule | contracts_flattener/Controller.sol:168-177 | After every run the owner is the last one that the owner of the time named, and the protocol is stopped if and only if it was before or the owner of the time sent the stop; both are computed from what was sent alone |
| Governance.FirstComeFirstServed | contracts_flattener/Controller.sol:153-166 | After every run the entry found under a key, address and hash, is the one that was there, or else the first with an address that the owner of the time registered |
| Governance.OwnerStops | contracts_flattener/Controller.sol:173-177 | The owner can always stop the protocol, and from then on every market is frozen in every continuation |
| Governance.OnlyTheOwnerRules | contracts_flattener/Controller.sol:118-177 | A run without a transaction of the owner's leaves owner, whitelist, registry and stop as they were |
| Walkthrough.FromDeploymentToClaim | contracts_flattener/ClaimTradingProceeds.sol:176-209 | A concrete run: universe, market, purchase of four sets for 40000, resolution and a claim all complete, and the claim pays 39200, so the premises of the results above can be met |
| Governance.RunStateIsRun | contracts_flattener/Market.sol:453-467 | The books are only observers: a run with books goes through the states of the run without |
| Membership.MembershipExact | contracts_flattener/Universe.sol:247-257 | Whatever an arbitrary token answers, a universe accepts it if and only if it is the share token that the market it names, one of this universe's, created at the outcome it names; then market and universe share the denomination token |
| Membership.CreatedTokensAreAccepted | contracts_flattener/ShareToken.sol:798-805 | What initialize stored in a token is its market and its place in the list, and on those answers its market's universe accepts it and no other does |
| Membership.TokensDistinct | contracts_flattener/Market.sol:321-323 | Share tokens are pairwise distinct across all outcomes and markets |
| Membership.TryKeepsIndex | contracts_flattener/Universe.sol:328-334 | Through every transaction, and so, by Deployment.Reachable, in every run, universe and market point at each other, every token is initialized and stores its market and its list index as outcome, and the addresses of different markets and their tokens are apart |
| EscrowRuns.InitializeShareFails | contracts_flattener/ShareToken.sol:798-805 | In no state of a run can a share token be initialized again |
| Escrow.BuyKeepsBalance | contracts_flattener/CompleteSets.sol:192-207 | A purchase adds amount * numTicks to the escrow, and the amount to the sets bought and to every supply, so the ledger still balances, before resolution or after |
| Escrow.SellKeepsBalance | contracts_flattener/CompleteSets.sol:216-237 | A sale undoes that in the ledger, also after an invalid resolution whose payouts sum to less than the ticks; nobody can sell more sets than are out |
| Escrow.ClaimKeepsBalance | contracts_flattener/ClaimTradingProceeds.sol:184-204 | A claim lowers debt and balance by the same sum; paid to the market itself it counts as a gift |
| Escrow.ResolveKeepsBalance | contracts_flattener/Market.sol:340-352 | Resolution splits the debt of whole sets into that of shares and of rounding, without asking for more than is held |
| Escrow.BalancedIsSolvent | contracts_flattener/Market.sol:453-467 | A market whose ledger balances passes the check if and only if what was taken from it is made up for; it does if nothing was |
| Settlement.BuySucceeds | contracts_flattener/CompleteSets.sol:185-207 | A purchase succeeds if and only if it is legitimate, not stopped, whitelisted, costs something, the buyer's balance and allowance cover it, no supply overflows and the market is backed then; if nothing was taken from the market it always is, and no purchase fails an assert |
| Settlement.SellSucceeds | contracts_flattener/CompleteSets.sol:209-237 | A sale succeeds if and only if the seller holds the sets, the market's balance and allowance cover the gross amount and the market is backed then; if nothing was taken from the market it always is, and no sale fails an assert |
| Settlement.ClaimSucceeds | contracts_flattener/ClaimTradingProceeds.sol:176-209 | A claim succeeds if and only if it is legitimate, not stopped, resolved and in time, the whitelist has ClaimTradingProceeds or nothing is held, the allowance covers the worth, the market can pay it and is backed then, and, for the market itself as holder, no addition of the log overflows; a market that nothing was taken from can always pay, and no claim on it fails an assert |
| Settlement.EscrowCovers | contracts_flattener/ClaimTradingProceeds.sol:216-226 | A resolved market that is backed holds at least what any one holder's shares are worth |
| Settlement.NoAssertFires | contracts_flattener/Market.sol:466-466 | No transaction fails an assert in a state that satisfies the invariant, unless it is on a market that more was taken from than it was given and leaves it not backed |
| Redemption.EveryoneIsPaid | contracts_flattener/Market.sol:334-338 | From any such state, after the approval is refreshed, every sequence of claims for holders other than the market, by any senders at any times while claims are open, succeeds, without overflow or lack of balance or allowance, if and only if the check on the escrow passes at the start |
| Redemption.ClaimsPayWhatIsOwed | contracts_flattener/ClaimTradingProceeds.sol:184-204 | A sequence of such claims pays out of the escrow exactly the drop in total debt, takes the claimants' shares and nobody else's |
| Redemption.OnlyOwnSharesLeft | contracts_flattener/ClaimTradingProceeds.sol:184-204 | Once everyone but the market has claimed, each supply is what was sent to the market itself (zero if nothing was) |
| Redemption.RunAllIsRun | contracts_flattener/ClaimTradingProceeds.sol:176-209 | A sequence in which every transaction succeeds is a run of the protocol |
| Payouts.ClaimTwice | contracts_flattener/ClaimTradingProceeds.sol:190-204 | Repeating a claim changes nothing |
| Payouts.EmptyClaim | contracts_flattener/ClaimTradingProceeds.sol:190-204 | A claim for someone without shares succeeds if and only if the market is backed, and changes nothing |
| Payouts.ClaimsCommute | contracts_flattener/ClaimTradingProceeds.sol:184-204 | Two claims of different holders, the market itself among them or not, that succeed in both orders give the same balances, allowances, supplies and everything else |
| Payouts.EitherOrderSucceeds | contracts_flattener/ClaimTradingProceeds.sol:184-204 | If they succeed in one order, the second could come first if and only if the market is backed without the first or, for the market's own claim, the log's additions fit then; and in that order too both succeed |
| Trades.SaleAfterBuySucceeds | contracts_flattener/CompleteSets.sol:216-237 | After a purchase the sale of the same sets succeeds if and only if the market's allowance to CompleteSets covers it and the market was backed before |
| Trades.BuyThenSell | contracts_flattener/CompleteSets.sol:192-237 | Buying then selling k sets restores escrow, supplies and share balances; the trader is down and the mailbox up by exactly the number f with f * feeDivisor <= k * numTicks < (f + 1) * feeDivisor, or by nothing if the divisor is zero, and nobody else is touched |
| Trades.ClaimVersusSell | contracts_flattener/ClaimTradingProceeds.sol:216-230 | When payouts sum to the ticks, claiming k of every outcome nets at least as much as selling k sets, and at most numOutcomes - 1 tokens more |
| Trades.FeesByOutcome | contracts_flattener/Market.sol:358-363 | Fees rounded down outcome by outcome are at most the fee on the whole, as Markets.IsFee defines it by the divisor, and short of it by at most one token for every outcome but one |
| Trades.FeesByDivisor | contracts_flattener/Market.sol:358-363 | The fees of a claim are nothing without a divisor d; else fees * d is at most the proceeds and short of them by at most d - 1 for every outcome |
| Trades.StrandedTicks | contracts_flattener/Universe.sol:263-334 | Yes/no, scalar and valid resolutions strand nothing; an invalid categorical market of n outcomes keeps exactly 10000 mod n for every net set, and each share is worth at least a tick |
| ClaimTradingProceeds.ClaimFromDestroys | contracts_flattener/ClaimTradingProceeds.sol:184-204 | The claim loop takes all the holder's shares off balances and supplies and changes nothing else of the market |
| ClaimTradingProceeds.ClaimFromPays | contracts_flattener/ClaimTradingProceeds.sol:198-203 | The claim loop pays the holder what the holdings are worth less the fee on each, and the mailbox those fees, out of the market's allowance |
| ClaimTradingProceeds.ClaimFromExact | contracts_flattener/ClaimTradingProceeds.sol:184-204 | The loop succeeds if and only if allowance, whitelist and, for the market itself, the log allow it and the market can pay: it holds what the holdings are worth or, paying itself, each amount as it comes |
| ClaimTradingProceeds.PayWinningsExact | contracts_flattener/ClaimTradingProceeds.sol:198-203 | Exactly when the two transfers of a round succeed and what they move: zero amounts and a market that pays itself included |
| ClaimTradingProceeds.DestroyExact | contracts_flattener/ClaimTradingProceeds.sol:190-197 | When destroying a holding succeeds, the checked addition for the log included, and that it takes all of it |
| ClaimTradingProceeds.FeesAtMostProceeds | contracts_flattener/ClaimTradingProceeds.sol:216-221 | The fees never exceed the proceeds, so the subtraction of the creator's share never fails |
| CompleteSets.BuyExact | contracts_flattener/CompleteSets.sol:192-207 | buyCompleteSets succeeds exactly when CanBuy holds, then moves amount * numTicks on AugurLite's allowance and mints the amount of every outcome |
| CompleteSets.SellExact | contracts_flattener/CompleteSets.sol:216-237 | sellCompleteSets succeeds exactly when CanSell holds, then burns the amount of every outcome and pays gross less fee to the seller and the fee to the mailbox |
| CompleteSets.SalePays | contracts_flattener/CompleteSets.sol:231-234 | The two transfers of a sale, the first only for a non-zero fee, succeed exactly when balance and allowance cover their sum |
| CompleteSets.MintAllExact | contracts_flattener/CompleteSets.sol:202-204 | The minting loop succeeds exactly when no supply overflows and raises every supply and balance by the amount |
| CompleteSets.BurnAllExact | contracts_flattener/CompleteSets.sol:226-228 | The burning loop succeeds exactly when the account holds the amount of every outcome and lowers each by it |
| Markets.AssertBalancesExact | contracts_flattener/Market.sol:453-467 | The check passes exactly when the true debt is held; it fails its assert exactly when the debt fits a word and is not held |
| Markets.VerifyResolutionExact | contracts_flattener/Market.sol:435-451 | A vector is accepted if and only if its length is numOutcomes and it either sums to numTicks without wrapping, or is invalid with equal entries numTicks / numOutcomes; then sum <= numTicks < sum + numOutcomes |
| Markets.FeeExact | contracts_flattener/Market.sol:358-363 | The creator's fee on any amount is the one number f with f * feeDivisor <= amount < (f + 1) * feeDivisor, and zero if the divisor is zero |
| Markets.ResolveExact | contracts_flattener/Market.sol:340-352 | Resolve succeeds if and only if not stopped, not resolved, past the end, sent by the oracle and with a valid vector, for valid and invalid resolutions alike, and sets the three fields |
| Markets.FeeAtMostHalf | contracts_flattener/Market.sol:308-308 | The creator's fee is at most half of any amount |
| Ledgers.TransferExact | contracts_flattener/ShareToken.sol:707-714 | A transfer succeeds exactly when both addresses are real and the balance covers it (the second checked operation never fails); it moves exactly the amount, self-transfers included, and keeps sum of balances = supply |
| Ledgers.TransferFromExact | contracts_flattener/ShareToken.sol:634-642 | The same on an allowance, which drops by the amount |
| Ledgers.MintExact | contracts_flattener/ShareToken.sol:725-731 | A mint succeeds exactly when the supply does not overflow; the balance then cannot |
| Ledgers.BurnExact | contracts_flattener/ShareToken.sol:744-750 | A burn succeeds exactly when the balance covers it; the supply then does |
| Ledgers.ApplySound | contracts_flattener/ShareToken.sol:598-691 | Every public call keeps sum of balances = supply |
| Ledgers.CallExact | contracts_flattener/ShareToken.sol:598-691 | Each of the eight public calls succeeds exactly under its conditions and has exactly its effect; only the owner mints, hands the token on or gives it up |
| Allowances.OnlyOwnersMint | contracts_flattener/ShareToken.sol:688-691 | In every run of calls owner and supply are what the calls of the owners of the day say: the last owner named, and what was there plus what they minted |
| Allowances.RunIsSound | contracts_flattener/ShareToken.sol:598-691 | So in every run of calls |
| Allowances.AllowanceIsWhatIsLeft | contracts_flattener/ShareToken.sol:617-678 | In every run each allowance is what the calls say: the last amount approved, or what was left plus or minus the last adjustment, less all that was spent since |
| SafeMathUint256.Mul | contracts_flattener/Market.sol:524-528 | The wrapped product passes its check exactly when the true product is below 2^256 |
| SafeMathUint256.Div | contracts_flattener/Market.sol:530-536 | Fails exactly on division by zero, else the quotient rounded down |
| SafeMathUint256.Sub | contracts_flattener/Market.sol:538-541 | Fails exactly when the difference is negative |
| SafeMathUint256.Add | contracts_flattener/Market.sol:543-547 | The wrapped sum passes its check exactly when the true sum is below 2^256 |
| SafeMathInt256.MulExact | contracts_flattener/Market.sol:475-479 | Signed multiplication accepts exactly the products that fit, and wrongly the one pair -1, -2^255 |
| SafeMathInt256.Div | contracts_flattener/Market.sol:481-486 | Fails only on zero; rounds towards zero, except that -2^255 / -1 gives -2^255 |
| SafeMathInt256.Sub | contracts_flattener/Market.sol:488-491 | Accepts exactly when the true difference fits |
| SafeMathInt256.Add | contracts_flattener/Market.sol:493-496 | Accepts exactly when the true sum fits |
| Babylonian.Sqrt | contracts_flattener/Market.sol:811-822 | For every word y returns z with z*z <= y < (z+1)*(z+1); no division by zero, no overflow, and it terminates |
| Babylonian.Step | contracts_flattener/Market.sol:816-819 | Each round of the loop that goes on stays above the root and strictly decreases |
| TokenContracts.Bep20.Move | contracts_flattener/ShareToken.sol:707-714 | In place, step by step, the token ends as Ledgers.TransferExact describes, or fails |
| TokenContracts.Bep20.MintTo | contracts_flattener/ShareToken.sol:725-731 | In place, the mint of the ledger |
| TokenContracts.Bep20.BurnFrom | contracts_flattener/ShareToken.sol:744-750 | In place, the burn of the ledger |
| TokenContracts.Bep20.SetAllowance | contracts_flattener/ShareToken.sol:765-771 | In place, the approval of the ledger |
| TokenContracts.Bep20.TransferFrom | contracts_flattener/ShareToken.sol:634-642 | In place, a transfer on an allowance |
| TokenContracts.Bep20.Transact | contracts_flattener/ShareToken.sol:598-691 | A transaction that is one public call does what the call means or leaves the token as it was |
| TokenContracts.ShareToken.Initialize | contracts_flattener/ShareToken.sol:798-805 | Sets market and outcome once and fails ever after |
| TokenContracts.ShareToken.CreateShares | contracts_flattener/ShareToken.sol:807-810 | Only whitelisted callers mint |
| TokenContracts.ShareToken.DestroyShares | contracts_flattener/ShareToken.sol:812-815 | Only whitelisted callers burn |
| TradingContracts.CompleteSetsContract.MintAll | contracts_flattener/CompleteSets.sol:202-204 | The loop changes the market's share tokens exactly as the recursive function does, and nothing else of the market |
| TradingContracts.CompleteSetsContract.BurnAll | contracts_flattener/CompleteSets.sol:226-228 | The same for the burning loop |
| TradingContracts.CompleteSetsContract.PaySale | contracts_flattener/CompleteSets.sol:231-234 | The two transfers of a sale in place |
| TradingContracts.CompleteSetsContract.Buy | contracts_flattener/CompleteSets.sol:192-207 | The guarded body of a purchase refines the function CompleteSets.BuyExact is about; the lock is free again after success |
| TradingContracts.CompleteSetsContract.Sell | contracts_flattener/CompleteSets.sol:216-237 | The guarded body of a sale refines the function CompleteSets.SellExact is about; the lock is free again after success |
| TradingContracts.CompleteSetsContract.PublicBuyCompleteSets | contracts_flattener/CompleteSets.sol:185-190 | The whole transaction ends as a completed purchase or with token, market and lock as they were |
| TradingContracts.CompleteSetsContract.PublicSellCompleteSets | contracts_flattener/CompleteSets.sol:209-214 | The whole transaction ends as a completed sale or with token, market and lock as they were |
| TradingContracts.ClaimTradingProceedsContract.ClaimOutcome | contracts_flattener/ClaimTradingProceeds.sol:185-203 | One round of the loop changes this outcome's token and the denomination token only, as the function does |
| TradingContracts.ClaimTradingProceedsContract.ClaimAllOutcomes | contracts_flattener/ClaimTradingProceeds.sol:184-204 | The loop refines the recursive function |
| TradingContracts.ClaimTradingProceedsContract.ClaimTradingProceeds | contracts_flattener/ClaimTradingProceeds.sol:176-209 | The whole transaction ends as a completed claim or with token, market and lock as they were |
| MarketContracts.MarketContract.VerifyResolutionInformation | contracts_flattener/Market.sol:435-451 | The loop decides what Markets.VerifyResolutionExact describes |
| MarketContracts.MarketContract.AssertBalances | contracts_flattener/Market.sol:453-467 | The loop computes the debt and gives the verdict Markets.AssertBalancesExact describes |
| MarketContracts.MarketContract.DeriveMarketCreatorFeeAmount | contracts_flattener/Market.sol:358-363 | Returns the fee that Markets.IsFee defines by the divisor |
| MarketContracts.MarketContract.Resolve | contracts_flattener/Market.sol:340-352 | Succeeds if and only if the resolution may be made (not stopped, not resolved, ended, by the oracle, valid payouts) and the market is legitimate for the log; sets time, payouts and validity together or changes nothing |
| MarketContracts.MarketContract.ApproveSpenders | contracts_flattener/Market.sol:334-338 | Approves both registered spenders for the greatest word |
| MarketContracts.MarketContract.Initialize | contracts_flattener/Market.sol:301-327 | Fails without effect the second time; the first time it checks every term, then leaves one fresh, distinct, empty share token per outcome that stores this market and that outcome, and both spenders approved |
| MarketContracts.MarketContract.CreateShareTokens | contracts_flattener/Market.sol:321-323 | The loop pushes a fresh token for each outcome, initialized with this market and that outcome |
| MarketContracts.MarketContract.CheckResolution | contracts_flattener/Market.sol:341-345 | Accepts exactly when not stopped, not resolved, ended, sent by the oracle and with valid payouts, and changes nothing |
| MarketContracts.MarketContract.IsContainerForShareToken | contracts_flattener/Market.sol:426-428 | True for the token at the place it names, a fault past the end of the list |
| MarketContracts.MarketContract.AcceptsOwnTokens | contracts_flattener/Market.sol:426-428 | A market accepts each of its token objects on what that object stores |
| MarketContracts.UniverseContract.IsContainerForShareToken | contracts_flattener/Universe.sol:247-257 | False for a token that names no market or none of this universe's, else the verdict of the market it names |
| MarketContracts.UniverseContract.CreateMarketInternal | contracts_flattener/Universe.sol:328-334 | Registers the new market, which is legitimate from then on, or leaves universe and token as they were |
| MarketContracts.UniverseContract.CreateYesNoMarket | contracts_flattener/Universe.sol:263-285 | The same with two outcomes and 10000 ticks, for a description that is not empty |
| MarketContracts.UniverseContract.CreateCategoricalMarket | contracts_flattener/Universe.sol:286-317 | The same with the given number of outcomes and 10000 ticks, for a description that is not empty |
| MarketContracts.UniverseContract.CreateScalarMarket | contracts_flattener/Universe.sol:319-326 | The same with two outcomes and a given even number of ticks, for a non-empty price range and a description that is not empty |
| MarketContracts.AugurLiteContract.CreateUniverse | contracts_flattener/AugurLite.sol:120-127 | A fresh universe without markets, known from then on |
| MarketContracts.AugurLiteContract.TrustedTransfer | contracts_flattener/AugurLite.sol:137-141 | Moves a positive amount for whitelisted callers on AugurLite's own allowance |
| ControllerContracts.ControllerContract.RegisterContract | contracts_flattener/Controller.sol:153-157 | Only the owner, and only a key without an address |
| ControllerContracts.ControllerContract.EmergencyStop | contracts_flattener/Controller.sol:173-177 | Only the owner stops the protocol, and only once |
| Flattener.ProcessedIsReachable | solidityFlattener.pl:91-138 | On any finite import graph, cycles included, the processed files can all be reached from the root and have distinct names; they are all that can be reached if and only if no two of those have the same name |
| Flattener.PrintsEachOnce | solidityFlattener.pl:117-137 | A line is printed if and only if it is in a processed file and is neither an import nor, outside the root, a pragma; no line is printed twice, and the lines of each file come in order |
| Flattener.PrintsTheText | solidityFlattener.pl:132-135 | What is printed for such a line is its text, pragmas only of the root |
| Flattener.FailsOnMissing | solidityFlattener.pl:112-115 | The run dies only over an imported file that is missing; if names tell the files apart, exactly when there is one |
| Flattener.ImportsComeFirst | solidityFlattener.pl:117-131 | If names tell the files apart and imports are acyclic, then whenever an import line is passed, all of the imported file and of every file it reaches is already printed; and each import line of each processed file is passed, once and in order |
| Flattener.LaterLinesComeAfter | solidityFlattener.pl:117-136 | So all of that comes before the lines that follow the import line in its own file |
| Flattener.PassesEachOnce | solidityFlattener.pl:117-131 | On any graph a line is passed if and only if it is an import line of a processed file; none is passed twice, and those of a file in order |
| Flattener.SameNameIsLost | solidityFlattener.pl:123-130 | A concrete family that fails without distinct names: of two imported files of one name the second is never printed |
| Flattener.CycleIsNotOnTime | solidityFlattener.pl:117-131 | A concrete family that fails without acyclicity: of two files that import each other one is passed before its own lines are printed |
| Flattener.LinesOrdered | solidityFlattener.pl:117-137 | The invariant of the traversal behind that: files entered and left again are wholly printed and closed under imports |
| Flattener.Process | solidityFlattener.pl:91-138 | The traversal terminates, and a name once seen stays seen |
| Flattener.Flattening.ProcessSol | solidityFlattener.pl:91-138 | The recursive procedure with its global table and output file terminates and refines the traversal function; its output is the text of the lines that function lists |
| AccountManager.NoncesInOrder | source/libraries/AccountManager.ts:30-49 | Under every interleaving of calls around the await, the calls for an address return n, n+1, n+2, ... in the order they return, where n is the count given to the first to resume |
| AccountManager.CallsFare | source/libraries/AccountManager.ts:30-49 | After every run and for every next event: a fresh call for a managed address gets the nonce after the last granted one at once, or waits if there is none yet; one for any other address throws; an answer to a waiting call always grants, the next nonce or else its count; a failure makes it throw; nothing else changes a call |
| AccountManager.ThrewExactly | source/libraries/AccountManager.ts:30-49 | A call of a run threw if and only if its address was not managed, neither from the start nor added before, when it started, or the connector failed it while it waited |
| AccountManager.NoncesAreDistinct | source/libraries/AccountManager.ts:30-49 | No two calls for an address get the same nonce, and only managed addresses get any |
| AccountManager.AddressesAreIndependent | source/libraries/AccountManager.ts:30-49 | What becomes of the calls for an address depends only on the events that concern it |
| AccountManager.RunCountsUp | source/libraries/AccountManager.ts:36-47 | From any state in which they do, the nonces of an address keep counting up by one, and the last one is the one remembered |
| AccountManager.AccountManagerObject.BeginGetNonce | source/libraries/AccountManager.ts:31-41 | The piece before the await, in place: refuses an address that is not managed, grants and remembers the last nonce plus one, or waits |
| AccountManager.AccountManagerObject.FinishGetNonce | source/libraries/AccountManager.ts:42-48 | The piece after the await, with its second look at the map, in place |
| AccountManager.AccountManagerObject.AddAccount | source/libraries/AccountManager.ts:24-28 | The new account is managed from then on, nonces are untouched |

## Left out

- Event logs and the `onMint`, `onBurn` and `onTokenTransfer` hooks: they only log, and BEP20 never calls the hooks. What the logs check or compute on the way is modelled.
- `Delegator`, delegatecall and storage layout: a delegated contract is an object or value of its own.
- TestNetDenominationToken and TetherToken: the denomination token is a plain BEP20.
- Names, symbols, decimals, topics and price ranges beyond min < max: metadata. Of a description only whether it is empty matters.
- Ether, gas, block production and `withdrawInEmergency`, which works only after the stop and moves ether only.
- Mailbox withdrawal and transfer of a market's ownership: a mailbox is an account that may spend what it collects.
- The market factories' own code and the copies of shared libraries in each flattened file.
- Direct calls of `buyCompleteSets`, `sellCompleteSets`, `trustedTransfer`, `createShares` and `destroyShares` by other whitelisted callers: excluded by the assumption above.
- Deployment scripts, compiler, connector, configuration and generated interfaces of the TypeScript tooling.
- The flattener's options, `--remapdir`, verbose output and the text patterns that recognise an import: lines are given as parsed.
- `signTransaction` beyond its call of `getNonce`; writes to the public `nonces` map from outside the class, of which the repository has none.
- A market over one of its own share tokens, whose address would have to be known before it exists: it could never sell a set, since nobody can hold the token before the first sale.
- The code of a contract that only pretends to be a share token: its answers are a parameter of `isContainerForShareToken`, the same on every call.
