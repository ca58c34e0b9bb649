# Verified model of the Fuso pallets

A Dafny 4.11 model of the state machines behind the Fuso exchange chain, with proofs about every run of
each of them. `dafny verify dfyconfig.toml` checks everything.

| part | files |
|---|---|
| proof-checked exchange ledger (`pallet-fuso-verifier`) | `VerifierTypes`, `Orders`, `OrderBook`, `OrderMarkets`, `RestingOrders`, `SampleTrades`, `VerifierState`, `VerifierSteps`, `LeafMoves`, `CallEffects`, `Entries`, `Solvency`, `Receipts`, `ReceiptProtocol`, `ExactBacking`, `Eviction`, `Agreement`, `TradeAccounting`, `Leftovers`, `StakeLedgers`, `FundEvents`, `Unstaking`, `Seasons`, `SeasonPayouts`, `PendingShares`, `ShareLoops`, `Conservation`, `SampleRuns`, `VerifierPallet` |
| relayer voting (`pallet-chainbridge`) | `Chainbridge`, `BridgeVoting`, `BridgeCalls`, `BridgePallet` |
| era rewards (`pallet-fuso-reward`) | `Rewards`, `RewardHistory`, `RewardPallet` |
| multi-asset ledger (`pallet-fuso-token`) | `Tokens`, `TokenSupply`, `TokenEffects`, `TokenPallet` |
| bridge transfers (`pallet-chainbridge-handler`) | `BridgeHandler`, `BridgeEffects`, `BridgeAccounting`, `BridgeDesk` |
| vesting (`pallet-fuso-foundation`), resource ids (`fuso-support`) | `Foundation`, `ResourceId` |
| shared arithmetic and sums | `Results`, `FixedPoint`, `MapSums` |

Each pallet appears twice. Its storage is a value, `State`, with one function per call; `Run` folds any
sequence of calls from genesis, and a call that fails leaves storage as it was. Its storage is also a
class whose methods do what the calls do, field by field and loop by loop; each is proved to reach the
state of its function, or to fail with the same error and change nothing (`Results.Reflects`). Every class
carries a ghost trace of the calls made on it and `Valid()` says that the object stands where `Run` leads
with that trace, so `Dispatch` can promise of every object what is proved of every run. `history` fields
hold what an observer of the calls would write down; statements such as "paid once" or "released at its
block" compare storage with that record.

Sums over storage maps are `MapSums.Weigh`, which does not depend on iteration order. Where storage is
iterated, the order is arbitrary: a hook gets a duplicate-free list of the stakers that are due, a loop
picks any remaining key.

## Assumptions

- A dispatchable that returns an error leaves storage unchanged; nested transactional functions are
  undone explicitly in the class methods.
- A Merkle root stands for the map it commits to, with (0, 0) for absent keys. A proof is accepted when
  its keys are pairwise distinct and its old leaves are in the map; the new root is that map updated.
- `Agreement.WellFormed` and `OrderBook.WellPlaced`: positions the checks never look at (`leaves[0]` of a
  bid, `leaves[3]` of a cancel, pages a branch does not read) hold no account keys. Nothing else is asked of a proof.
- Unchecked integer operations that would overflow count as rejection.
- `Permill::mul_ceil` is a ceiling, `Perquintill::from_rational` rounds down, `Perquintill * n` rounds to
  nearest with ties down.
- `pallet_balances` is a plain free/reserved ledger without existential deposit. In the verifier model
  other pallets may change free balances at any time (`OtherPallets`), but not reserved ones.
- Receipt callbacks and dispatched bridge proposals do not call back into the pallet; whether a proposal's
  call succeeds, what the oracle says and which quote currencies are stable are inputs.
- `Config.Valid`: the grace period is positive and divides 57600 and the season duration, the online
  threshold and the minimal stake are positive, fee caps are at most 50%.

## Where the code is surprising

- A transfer of a non-native token to oneself destroys the amount (`TokenSupply.PayingOneself`), so supply
  equals issuance only in runs without one (`SupplyEqualsIssuance`), and otherwise falls short by exactly
  the destroyed amounts (`IssuanceIsSupplyAndDestroyed`).
- A TransferIn removes the whole stash entry, also what an earlier RejectTransferIn left there; reserved
  balance then exceeds the promises by exactly the sum of what was dropped (`Leftovers.SlackIsWhatWasDropped`,
  with a run in `SampleRuns.AStashIsLeftOver`), and by nothing without a RejectTransferIn (`ExactBacking.RunsExactlyBacked`).
- An order without makers is accepted without clearing: the gap between ledger and tree then moves by minus
  the taker's change (`Agreement.OrderGap`), which is 0 or -1 (`OrderBook.MakerlessAsk`, `MakerlessBid`) and can
  be -1 (`SampleTrades.ALonelyAskIsAccepted`).
- The pages of a trading bid need not lie between the old and the new best ask, although a remark in the
  code says so: `SampleTrades.ABidMayTakeAStrayPage`, with the exact conditions in `OrderBook.BidWalksUp` and
  `BidStaysBelow`.
- A resting order may list makers and move their quote: nothing ties quote to base while no base moves
  (`RestingOrders.ARestingAskMayMoveQuote`; without a change in the makers' quote the taker's quote stays too,
  `RestingAskMoves`).
- `repatriate_reserved` of a non-native token to oneself with status Reserved reserves free funds
  (`TokenSupply.RepatriatingToOneself`, `RepatriationReservesAgain`).
- A vote against approves when the votes for already reach the threshold in force (`BridgeVoting.RejectApprovesIff`).
  That takes a lowered threshold (`RejectNeverApproves`), and then happens (`ARejectVoteApproves`).
- Decoding a resource id with length byte 29 works but the result cannot be derived again
  (`ResourceId.RederiveIffCanonical`).

## Model

| member | source | states |
|---|---|---|
| `FixedPoint.HalfFeeTakesAll` | pallet-fuso-verifier/src/lib.rs:1779-1785 | a fee of at most one half, rounded up, equals the whole amount only when that amount is 0 or 1: why an order without makers can move a total by at most one unit |
| `FixedPoint.SharesNeverOverdraw` | pallet-fuso-verifier/src/lib.rs:1939-1951 | any number n of parts that fit into the whole together draw at most the pot and half a unit each, although every share is rounded to nearest |
| `FixedPoint.SharesUseThePot` | pallet-fuso-verifier/src/lib.rs:1939-1951 | n parts that make up the whole together draw at least the pot, less half a unit and pot / 10^18 each |
| `FixedPoint.ShareBound` | pallet-fuso-verifier/src/lib.rs:1947-1950 | a share is at most its part of the pot plus half a unit |
| `FixedPoint.ShareAtLeast` | pallet-fuso-verifier/src/lib.rs:1947-1950 | a share is at least its part of the pot, less half a unit and pot / 10^18 |
| `FixedPoint.CeilIsLeast` | pallet-fuso-verifier/src/lib.rs:1431-1438 | a fee is the least whole number that covers its part of the amount |
| `Orders.CheckMakers` | pallet-fuso-verifier/src/lib.rs:1384-1430 | the maker loop accepts exactly when every maker pair is well-keyed, close to the ledger and moves the right way and the running sums fit; then it returns the exact base and quote moved and one mutation per maker, in order |
| `Orders.SweepPages` | pallet-fuso-verifier/src/lib.rs:1465-1476 | the page loop accepts exactly when every page but the last is emptied and prices go strictly down (ask) or never down (bid) from the bound, and returns the last bound and the depth taken |
| `Orders.CheckAskPages` | pallet-fuso-verifier/src/lib.rs:1453-1532 | the page checks of an ask pass exactly when `AskMovesPages` holds, which `OrderMarkets.AskAcceptedIff` describes in market terms |
| `Orders.CheckBidPages` | pallet-fuso-verifier/src/lib.rs:1675-1752 | the page checks of a bid pass exactly when `BidMovesPages` holds, which `OrderMarkets.BidAcceptedIff` describes in market terms |
| `Orders.VerifyAskLimit` | pallet-fuso-verifier/src/lib.rs:1318-1538 | accepts exactly the asks that satisfy `AskAccepted` (both directions), and returns their clearing: one mutation per party and the two fees |
| `Orders.VerifyBidLimit` | pallet-fuso-verifier/src/lib.rs:1540-1758 | accepts exactly the bids that satisfy `BidAccepted` (both directions), and returns their clearing |
| `OrderMarkets.AskAcceptedIff` | pallet-fuso-verifier/src/lib.rs:1318-1538 | exactly the asks that fit an independent description are accepted: which side of the book shrinks or grows, strictly falling prices over emptied pages, what is left at the ask's own price, and which half of the seller's base pays |
| `OrderMarkets.BidAcceptedIff` | pallet-fuso-verifier/src/lib.rs:1540-1758 | exactly the bids that fit the mirrored description are accepted |
| `RestingOrders.RestingAskMoves` | pallet-fuso-verifier/src/lib.rs:1514-1531 | an accepted ask that only rests: its page lies above the best bid and gains the amount, which moves from the available to the frozen half of the seller's base; nobody's base total moves |
| `RestingOrders.RestingBidMoves` | pallet-fuso-verifier/src/lib.rs:1734-1751 | an accepted bid that only rests: bid side and page at its own price gain the amount, no base moves |
| `RestingOrders.AskRestsAccepted` | pallet-fuso-verifier/src/lib.rs:1318-1538 | every honest resting ask above the best bid is accepted, with or without bids on the book, and charges nothing |
| `RestingOrders.BidRestsAccepted` | pallet-fuso-verifier/src/lib.rs:1540-1758 | every honest resting bid is accepted, with or without asks on the book, and charges nothing |
| `RestingOrders.PartialAskMoves` | pallet-fuso-verifier/src/lib.rs:1478-1496 | an accepted ask that trades and leaves something trades down to its own price; depth taken and depth left are the amount, which the available base pays for |
| `RestingOrders.PartialBidMoves` | pallet-fuso-verifier/src/lib.rs:1699-1713 | an accepted bid that trades and leaves something: what it takes and what it leaves are the amount, at its own price |
| `RestingOrders.AskTradesAccepted` | pallet-fuso-verifier/src/lib.rs:1318-1538 | every ask partly filled by one maker from the whole of one page is accepted and pays the maker fee in base and the taker fee in quote |
| `RestingOrders.BidTradesAccepted` | pallet-fuso-verifier/src/lib.rs:1540-1758 | every bid partly filled by one maker from the whole of one page is accepted and pays the taker fee in base and the maker fee in quote |
| `RestingOrders.ARestingAskMayMoveQuote` | pallet-fuso-verifier/src/lib.rs:1514-1531 | a concrete resting ask that takes five units of quote from a listed maker for nothing passes every check |
| `CallEffects.OrderReachesSettlementIff` | pallet-fuso-verifier/src/lib.rs:1088-1142 | an order reaches settlement exactly with both fees within their caps, a stable quote, whole maker pairs and leaves that pass |
| `OrderBook.AskWalksDown` | pallet-fuso-verifier/src/lib.rs:1459-1513 | an accepted trading ask has strictly descending page prices, all inside [new best bid, old best bid], and empties every page but the last |
| `OrderBook.BidWalksUp` | pallet-fuso-verifier/src/lib.rs:1681-1733 | an accepted trading bid walks up from the old best ask over strictly ascending emptied pages, the last page apart; the last page lies above them all exactly when it is not below the final bound, which the code does not check |
| `OrderBook.BidStaysBelow` | pallet-fuso-verifier/src/lib.rs:1681-1733 | its pages stay within the new best ask exactly when the last two do, which the code does not check |
| `OrderBook.AskFillsMatch` | pallet-fuso-verifier/src/lib.rs:1431-1513 | for a filled ask, depth taken from pages = decrease of the bid book = base the seller gives = base the makers receive + base fee |
| `OrderBook.BidFillsMatch` | pallet-fuso-verifier/src/lib.rs:1643-1733 | for a filled bid, depth taken from pages = decrease of the ask book = base the makers give = base the buyer receives + base fee |
| `OrderBook.AskConserves` | pallet-fuso-verifier/src/lib.rs:1318-1538 | for any number of makers, old base leaves = new base leaves + base fee and old quote leaves = new quote leaves + quote fee, exactly |
| `OrderBook.BidConserves` | pallet-fuso-verifier/src/lib.rs:1540-1758 | the same conservation for an accepted bid |
| `OrderBook.MakerlessAsk` | pallet-fuso-verifier/src/lib.rs:1431-1445 | an accepted ask without makers changes the taker's base total by at most one unit and the quote total not at all |
| `OrderBook.MakerlessBid` | pallet-fuso-verifier/src/lib.rs:1643-1660 | the mirror image for a bid without makers |
| `SampleTrades.AnAskIsAccepted` | pallet-fuso-verifier/src/lib.rs:1318-1538 | a concrete filled ask with one maker, one page and both fees non-zero passes every check |
| `SampleTrades.ABidIsAccepted` | pallet-fuso-verifier/src/lib.rs:1540-1758 | a concrete filled bid passes every check |
| `SampleTrades.ABidMayTakeAStrayPage` | pallet-fuso-verifier/src/lib.rs:1714-1733 | a concrete filled bid whose only page lies below the old and above the new best ask passes every check, against the remark in the code |
| `SampleTrades.ALonelyAskIsAccepted` | pallet-fuso-verifier/src/lib.rs:1431-1445 | a concrete ask without makers that lowers the taker's total by one passes every check |
| `SampleRuns.ATradeSettles` | pallet-fuso-verifier/src/lib.rs:1055-1190 | a run from genesis that ends with an ask with one maker accepted against the committed tree and settled |
| `VerifierTypes.UpdatedAt` | pallet-fuso-verifier/src/lib.rs:1055-1080 | after a proof the committed map holds the new value at every leaf (keys pairwise distinct) |
| `VerifierTypes.UpdatedElsewhere` | pallet-fuso-verifier/src/lib.rs:1055-1080 | and is unchanged at every key that is not a leaf |
| `LeafMoves.TreeAfter` | pallet-fuso-verifier/src/lib.rs:1309-1315 | an accepted proof writes its new leaves, its event and its block and nothing else; a rejection writes nothing |
| `LeafMoves.WithdrawalAcceptedIff` | pallet-fuso-verifier/src/lib.rs:1196-1236 | a withdrawal is accepted exactly when the open receipt asks for it, the available half of the leaf falls by the amount, the frozen half stays and the ledger can free it |
| `LeafMoves.WithdrawalMoves` | pallet-fuso-verifier/src/lib.rs:1196-1236 | it lowers available leaf half, authorised entry and reserved balance by the amount, raises the free balance by it and closes the receipt |
| `LeafMoves.WithdrawalRejectedIff` | pallet-fuso-verifier/src/lib.rs:1271-1294 | a withdrawal is turned down exactly when it asks for more than the available half; that only closes the receipt |
| `LeafMoves.DepositAcceptedIff` | pallet-fuso-verifier/src/lib.rs:1237-1270 | a deposit is accepted exactly when the open receipt asks for it, the available half of the leaf grows by the amount, the frozen half stays and the entry can take it |
| `LeafMoves.DepositMoves` | pallet-fuso-verifier/src/lib.rs:1237-1270 | it raises available leaf half and authorised entry by the amount, empties the stash, touches no balance and closes the receipt |
| `LeafMoves.DepositRejectedIff` | pallet-fuso-verifier/src/lib.rs:1295-1307 | a deposit can always be turned down; that only closes the receipt |
| `LeafMoves.CancelMoves` | pallet-fuso-verifier/src/lib.rs:1823-1872 | an accepted cancel takes from the page exactly what it takes from the side of the book the page belongs to; totals, ledger and receipts stay |
| `LeafMoves.AskCancelAccepted` | pallet-fuso-verifier/src/lib.rs:1823-1872 | every honest cancel of an ask is accepted |
| `LeafMoves.BidCancelAccepted` | pallet-fuso-verifier/src/lib.rs:1823-1872 | every honest cancel of a bid is accepted |
| `LeafMoves.NoCommonBitIsBitwise` | pallet-fuso-verifier/src/lib.rs:1836-1837 | the bitwise test holds exactly when no binary digit is set in both amounts |
| `Agreement.LedgerFollowsTree` | pallet-fuso-verifier/src/lib.rs:1055-1316 | after every run of well-formed proofs, for every dominator that is not evicted, every user and every token, the authorised reserve is within 10^11 + 1 of the total in the user's tree leaf |
| `Agreement.LedgerEqualsTree` | pallet-fuso-verifier/src/lib.rs:1055-1316 | and equal to it in runs where no order without makers changes a total |
| `Agreement.OrderGap` | pallet-fuso-verifier/src/lib.rs:1120-1190 | ledger minus tree after one order, exactly: unchanged for everybody it does not concern, 0 for the parties of an order with makers, shifted by minus the taker's own change for an order without makers |
| `Agreement.StepKeepsGap` | pallet-fuso-verifier/src/lib.rs:920-1021 | no call other than `verify` changes the gap between ledger and tree of a live dominator |
| `TradeAccounting.TradeNearlyConserves` | pallet-fuso-verifier/src/lib.rs:1120-1190 | with m >= 1 makers, what the m + 1 parties have reserved plus the dominator's free balance (base) or the season's profit (quote) moves by at most (m + 1) * 10^11 |
| `TradeAccounting.TradeConservesExactly` | pallet-fuso-verifier/src/lib.rs:1120-1190 | and by nothing at all when ledger and tree agreed about the parties beforehand |
| `TradeAccounting.OrderFees` | pallet-fuso-verifier/src/lib.rs:1143-1150 | the base fee lands in the dominator's free balance, the quote fee in the profit of the season under way |
| `Conservation.NothingIsMadeOrLost` | pallet-fuso-verifier/src/lib.rs:1120-1190 | after every run of well-formed proofs in which no order without makers changes a total, all free and reserved units of a token over all accounts plus the season profit not drawn yet are exactly what other pallets brought in |
| `Conservation.TakeSharesBooks` | pallet-fuso-verifier/src/lib.rs:1928-1957 | what a staker is credited is what the seasons have drawn from them, token by token |
| `Receipts.RunsAreBacked` | pallet-fuso-verifier/src/lib.rs:1900-2006 | solvency: in every reachable state a user's reserved balance of a token is at least the sum of all that user's entries over every reserve id and holder, and every open Authorize receipt is covered by its stash |
| `Receipts.ClearNeverFallsBack` | pallet-fuso-verifier/src/lib.rs:1901-1924 | in every reachable state the subtraction in `clear` is exact, so its `unwrap_or_default` fallback is never taken |
| `Solvency.StepSlack` | pallet-fuso-verifier/src/lib.rs:1960-2006 | no call outside `verify` changes the difference between reserved balance and promises |
| `Solvency.TransferInSlack` | pallet-fuso-verifier/src/lib.rs:1249-1285 | a TransferIn frees exactly the part of the stash its receipt does not ask for |
| `Leftovers.SlackIsWhatWasDropped` | pallet-fuso-verifier/src/lib.rs:1249-1306 | solvency in closed form: after every run, reserved balance minus promises is exactly the sum of what TransferIns dropped of the stash beyond their receipts, and never negative |
| `SampleRuns.AStashIsLeftOver` | pallet-fuso-verifier/src/lib.rs:1249-1306 | a run from genesis (deposit, rejection, deposit, arrival) after which five reserved units are promised to nobody |
| `Receipts.VerifyOneBacked` | pallet-fuso-verifier/src/lib.rs:1055-1316 | an accepted proof changes that difference by exactly that amount, never downwards |
| `ExactBacking.RunsExactlyBacked` | pallet-fuso-verifier/src/lib.rs:1249-1306 | in runs without RejectTransferIn, reserved balance and promises are equal |
| `ReceiptProtocol.RunsFollowProtocol` | pallet-fuso-verifier/src/lib.rs:920-1021 | over every run the receipts of a user at a dominator open and close strictly in turn, and the stored receipt is the one the history leaves open |
| `ReceiptProtocol.NoReceiptEndsTwice` | pallet-fuso-verifier/src/lib.rs:1196-1307 | openings of a receipt = its consumptions + its withdrawals + (1 if it is the open one): nothing is consumed twice |
| `ReceiptProtocol.TransfersConsume` | pallet-fuso-verifier/src/lib.rs:1196-1285 | an accepted TransferIn or TransferOut consumes exactly the open receipt, which asked for the same kind, token and amount |
| `CallEffects.AuthorizeAcceptedIff` | pallet-fuso-verifier/src/lib.rs:920-955 | funds can be hosted exactly at an Active dominator, with no receipt open and the amount free |
| `CallEffects.AuthorizeEffect` | pallet-fuso-verifier/src/lib.rs:920-955 | that opens a receipt for just this deposit and moves the amount from free to reserved and into the stash |
| `CallEffects.RevokeAcceptedIff` | pallet-fuso-verifier/src/lib.rs:958-1021 | at a launched dominator a withdrawal can be asked for exactly with no receipt open and the amount authorised; that opens a receipt for just this withdrawal and moves nothing |
| `Eviction.StepDominator` | pallet-fuso-verifier/src/lib.rs:546-583 | no call removes a dominator, moves its start or lifts an eviction, and only `verify` moves its tree |
| `Eviction.EvictionIsAbsorbing` | pallet-fuso-verifier/src/lib.rs:546-562 | once evicted, evicted after every continuation of the run |
| `Eviction.EvictedFundsComeBack` | pallet-fuso-verifier/src/lib.rs:965-1000 | from every reachable state with an evicted dominator, revoking zero and then the sum returns the whole authorised plus stashed amount to the free balance, exactly when the token is native or the free balance can take the amount |
| `StakeLedgers.StakeTotalsAgree` | pallet-fuso-verifier/src/lib.rs:2009-2160 | in every reachable state a dominator's `staked` is the sum of its stakings; Registered means nothing staked; launched and not evicted means Active iff the threshold is met |
| `StakeLedgers.StakersAreReserved` | pallet-fuso-verifier/src/lib.rs:2009-2160 | in every reachable state each staking entry equals the matching STAKING reserve and is at least the minimal stake |
| `CallEffects.StakeAcceptedIff` | pallet-fuso-verifier/src/lib.rs:2009-2068 | a stake is accepted exactly at a launched dominator that is not evicted, from the minimal stake on, with the amount free and room for it and for the shares that fall due |
| `CallEffects.UnstakeAcceptedIff` | pallet-fuso-verifier/src/lib.rs:2071-2124 | an unstaking is accepted exactly up to the stake, leaving nothing or the minimal stake, when the funds can move and the shares that fall due fit |
| `Unstaking.UnstakesAreReleasedOnTime` | pallet-fuso-verifier/src/lib.rs:2099-2124 | in every reachable state what is queued for a staker equals the PENDING_UNSTAKE reserve; for every block b, what was unstaked with unlock block b is still queued before b and was released, once, in block b |
| `Unstaking.HookNeverFails` | pallet-fuso-verifier/src/lib.rs:477-495 | when its turn comes in the hook, every listed staker is due the whole amount unstaked for this block and releasing it succeeds: the error branch is unreachable |
| `Unstaking.ReleaseEffect` | pallet-fuso-verifier/src/lib.rs:477-495 | one release pays exactly the queued amount into the free balance and takes it off the reserve |
| `Unstaking.UnlockIsAhead` | pallet-fuso-verifier/src/lib.rs:2106-2110 | the unlock block is in the future and is a block in which the hook runs |
| `Unstaking.UnlockAfterTheDelay` | pallet-fuso-verifier/src/lib.rs:2114-2117 | the unlock block lies more than 57600 less the grace period and at most 57600 blocks ahead |
| `Unstaking.ReleasedUnitsWaited` | pallet-fuso-verifier/src/lib.rs:477-495 | over every run, what is released to a staker in block b is exactly what was unstaked for b in the blocks b - 57600, ..., b - 57600 + grace - 1 |
| `Seasons.NextSeason` | pallet-fuso-verifier/src/lib.rs:464-476 | across a block a season number grows by one exactly when the block closes the season, and then the hook runs in that block |
| `Seasons.SeasonClocks` | pallet-fuso-verifier/src/lib.rs:2162-2167 | in every reachable state seasons start on a hook block in the past and nobody waits for a season that has not begun |
| `Seasons.StakingPayments` | pallet-fuso-verifier/src/lib.rs:1928-1957 | a staking call records for each finished unclaimed season one payment of the caller's whole stake at that season's record, and nothing else |
| `SeasonPayouts.FinishedSeasonsNeverChange` | pallet-fuso-verifier/src/lib.rs:460-476 | the record of a finished season is the same after every later operation of every run |
| `SeasonPayouts.SeasonsArePaidOnce` | pallet-fuso-verifier/src/lib.rs:1928-1957 | in every reachable state the snapshot of a finished season = stakes already paid from it + stakes that can still claim it; every payment used that very record; no staker was paid for a season twice; nothing is paid for an unfinished season |
| `SeasonPayouts.SeasonNeverOverdrawn` | pallet-fuso-verifier/src/lib.rs:1939-1956 | in every reachable state the n payments of a season, each to a different staker, draw at most profit + n/2 units of every token |
| `SeasonPayouts.PaidStakesDrawTheirPart` | pallet-fuso-verifier/src/lib.rs:1939-1956 | in every reachable state, stakes paid from a season have drawn at least their part of its profit, less half a unit and profit / 10^18 each |
| `SeasonPayouts.FinishedSeasonIsPaidOut` | pallet-fuso-verifier/src/lib.rs:1939-1956 | once nobody can claim a finished season any more, its n payments have drawn the whole profit, less half a unit and profit / 10^18 each |
| `PendingShares.TakingCreditsWhatItRecords` | pallet-fuso-verifier/src/lib.rs:1928-1957 | taking shares credits each account, token by token, exactly what it records as paid, and touches no reserved balance |
| `PendingShares.PendingIsWhatAClaimCredits` | pallet-fuso-verifier/src/lib.rs:2201-2231 | in every reachable state the pending-shares query equals the total a claim credits at that moment |
| `ShareLoops.AddSeason` | pallet-fuso-verifier/src/lib.rs:1939-1951 | the loop over the tokens of a season adds that season's shares to those collected |
| `ShareLoops.CollectShares` | pallet-fuso-verifier/src/lib.rs:1937-1951 | the loop over seasons collects the shares of exactly the seasons in the range |
| `ShareLoops.TotalOfSeason` | pallet-fuso-verifier/src/lib.rs:2218-2229 | the query's inner loop adds up one season over all its tokens |
| `ShareLoops.TotalOfSeasons` | pallet-fuso-verifier/src/lib.rs:2218-2229 | the query's outer loop adds up the range, or is refused when the total does not fit |
| `Seasons.RegisterClock` | pallet-fuso-verifier/src/lib.rs:508-543 | a new dominator's seasons start on a hook block in the past, in season 0 |
| `Solvency.ReserveSlack` | pallet-fuso-verifier/src/lib.rs:1960-1978 | setting funds aside keeps reserved balance minus promises of every user and token |
| `Entries.UnreserveUndoesReserve` | pallet-fuso-verifier/src/lib.rs:1981-2006 | freeing what was just set aside succeeds and restores every entry and every balance |
| `Solvency.ClearSlack` | pallet-fuso-verifier/src/lib.rs:1901-1924 | in a solvent state `clear` writes the tree's value and keeps reserved balance minus promises |
| `SeasonPayouts.CallBonus` | pallet-fuso-verifier/src/lib.rs:2174-2191 | a call can only add profit, and only to the season under way |
| `VerifierPallet.Verifier.CreditShares` | pallet-fuso-verifier/src/lib.rs:1952-1956 | credits all shares, or none when one does not fit |
| `VerifierPallet.Verifier.PayShares` | pallet-fuso-verifier/src/lib.rs:1928-1957 | the two loops together are `TakeShares` |
| `VerifierPallet.Verifier.PendingSharesOf` | pallet-fuso-verifier/src/lib.rs:2201-2231 | the query computes `Pending` |
| `VerifierPallet.Verifier.StakeOn` | pallet-fuso-verifier/src/lib.rs:2009-2068 | the in-place call reaches the state of `DoStake`, a failure after partial changes is undone |
| `VerifierPallet.Verifier.UnstakeFrom` | pallet-fuso-verifier/src/lib.rs:2071-2160 | the in-place call reaches the state of `DoUnstake`, a failure after partial changes is undone |
| `VerifierPallet.Verifier.Claim` | pallet-fuso-verifier/src/lib.rs:789-813 | the in-place call reaches the state of `DoClaim` |
| `VerifierPallet.Verifier.RevokeAuthority` | pallet-fuso-verifier/src/lib.rs:958-1021 | opens a Revoke receipt, or for an evicted dominator folds the stash in and frees the amount at once |
| `VerifierPallet.Verifier.SettleOrder` | pallet-fuso-verifier/src/lib.rs:1120-1190 | the clearing loop, the profit and the dominator's fee together are `Settle` |
| `VerifierPallet.Verifier.VerifyAndUpdate` | pallet-fuso-verifier/src/lib.rs:1055-1316 | one proof reaches the state of `VerifyOne` or changes nothing |
| `VerifierPallet.Verifier.VerifyBatch` | pallet-fuso-verifier/src/lib.rs:1023-1052 | a batch is verified proof by proof and goes through as a whole or not at all |
| `VerifierPallet.Verifier.OnInitialize` | pallet-fuso-verifier/src/lib.rs:460-496 | the hook writes the ending snapshots and releases the listed stakers |
| `VerifierPallet.Verifier.Dispatch` | pallet-fuso-verifier/src/lib.rs:460-860 | whatever was called on the object before, a call or block leaves it where the run leads: entries backed, receipts covered and in turn, stakes, seasons and unstakings in agreement with their records, no eviction lifted, and the ledger within 10^11 + 1 of the trees if all proofs were well-formed |
| `BridgeVoting.VerdictFollowsNumbers` | pallet-chainbridge/src/lib.rs:540-621 | with a fixed committee and successful dispatch, any interleaving of ballots (late and repeated ones included), re-evaluations and blocks before expiry ends in the status that the numbers of backers and opponents ask for |
| `BridgeVoting.VoteOrderDoesNotMatter` | pallet-chainbridge/src/lib.rs:53-63 | two schedules of the same preferences end in the same status: Approved iff votes for reach the threshold, Rejected iff they no longer can and the threshold is within the relayer count, else Initiated |
| `BridgeVoting.ExecutedAtMostOnce` | pallet-chainbridge/src/lib.rs:540-637 | over every run, with relayers and threshold changing freely, a proposal is dispatched at most once, exactly when it stands Approved, with at least threshold different voters; both vote lists are duplicate-free and disjoint; RelayerCount is the size of the relayer set |
| `BridgeVoting.SettledRecordsAreFinal` | pallet-chainbridge/src/lib.rs:553-586 | a completed or expired record never changes again |
| `BridgeVoting.VotesComeFromRelayers` | pallet-chainbridge/src/lib.rs:371-422 | a name enters a vote list only by that account's own vote while it is a relayer |
| `BridgeVoting.RejectApprovesIff` | pallet-chainbridge/src/lib.rs:576-621 | an accepted vote against approves exactly when the votes for already reach the threshold in force |
| `BridgeVoting.RejectNeverApproves` | pallet-chainbridge/src/lib.rs:576-621 | in every run in which no call lowers the threshold, an accepted vote against neither approves nor executes anything |
| `BridgeVoting.ARejectVoteApproves` | pallet-chainbridge/src/lib.rs:483-488 | a run from genesis (vote for, threshold lowered to one, vote against) that ends Approved |
| `BridgeVoting.StepCount` | pallet-chainbridge/src/lib.rs:517-537 | every call keeps RelayerCount equal to the relayer set's size and the threshold positive |
| `BridgeVoting.NoncesHaveNoGaps` | pallet-chainbridge/src/lib.rs:474-478 | the nonces emitted for a chain are 1, 2, 3, ... without gaps, over every run |
| `BridgeVoting.CommitKeeps` | pallet-chainbridge/src/lib.rs:540-573 | an accepted vote keeps both lists of every record duplicate-free and disjoint and executes nothing |
| `BridgeCalls.VoteAcceptedIff` | pallet-chainbridge/src/lib.rs:371-422 | a vote is accepted exactly from a relayer, for a whitelisted chain and a known resource, on a record open to this account; with enough votes for, the call has to succeed |
| `BridgeCalls.VoteEffect` | pallet-chainbridge/src/lib.rs:540-637 | it adds the voter to one side, keeps the expiry or sets it a lifetime ahead, decides by the new numbers, executes exactly when it approves and touches no other record |
| `BridgeCalls.EvaluationAcceptedIff` | pallet-chainbridge/src/lib.rs:576-598 | a re-evaluation is accepted exactly on an undecided record that is not expired |
| `BridgeCalls.ChainsOpen` | pallet-chainbridge/src/lib.rs:503-514 | a foreign chain is whitelisted once and starts at nonce 0; whatever leaves takes the next nonce |
| `BridgePallet.Bridge.Resolve` | pallet-chainbridge/src/lib.rs:576-598 | sets the verdict in place; a failing dispatch undoes the write |
| `BridgePallet.Bridge.CastVote` | pallet-chainbridge/src/lib.rs:371-422 | gates, vote and resolution as one transaction |
| `BridgePallet.Bridge.RegisterRelayer` | pallet-chainbridge/src/lib.rs:517-526 | adds the relayer and counts it |
| `BridgePallet.Bridge.UnregisterRelayer` | pallet-chainbridge/src/lib.rs:529-537 | removes the relayer and uncounts it |
| `BridgePallet.Bridge.Dispatch` | pallet-chainbridge/src/lib.rs:281-440 | whatever was called on the object before, after any call no proposal was dispatched twice or without threshold different voters, settled records are as they were, and nonces have no gaps |
| `RewardHistory.RunsRefineHistory` | pallet-fuso-reward/src/lib.rs:173-210 | in every reachable state: stored era volume = traded volume = open + settled volume; pending volume = the trader's volume in era `last_modify`; every traded unit is pending or settled exactly once; every settlement used the final volume of the trader and the final denominator |
| `RewardHistory.NeverDividesByZero` | pallet-fuso-reward/src/lib.rs:188-191 | the DivideByZero branch is unreachable |
| `RewardHistory.EraNeverOverpaid` | pallet-fuso-reward/src/lib.rs:188-204 | whatever happens to the reward, the n traders settled for an era, each once, together earn at most the largest reward any of them was valued at + n/2 |
| `RewardHistory.EraWithinHeldReward` | pallet-fuso-reward/src/lib.rs:188-204 | while nobody sets another reward, that bound is the reward + n/2 |
| `RewardHistory.SettledEraIsPaidOut` | pallet-fuso-reward/src/lib.rs:188-204 | while the reward is held and the programme runs, the n traders of a fully settled era together earn at least the reward, less half a unit and reward / 10^18 each |
| `RewardHistory.SettlementConfirms` | pallet-fuso-reward/src/lib.rs:188-204 | one settlement confirms the trader's part of the reward up to rounding until the programme ends, and nothing afterwards |
| `RewardHistory.ErasPartitionTime` | pallet-fuso-reward/src/lib.rs:241 | eras are the stretches of the era duration that start at its multiples |
| `RewardHistory.ClaimsAreIssued` | pallet-fuso-reward/src/lib.rs:142-170 | issuance and free balance grow by exactly what is claimed, and confirmed + claimed = earned for every trader: each confirmed unit is paid once |
| `RewardHistory.ClaimPaysEverything` | pallet-fuso-reward/src/lib.rs:142-170 | a claim leaves nothing confirmed: everything earned is paid |
| `RewardPallet.Payouts.RotateReward` | pallet-fuso-reward/src/lib.rs:173-210 | the in-place record update is `Rotate`, or fails and changes nothing |
| `RewardPallet.Payouts.Save` | pallet-fuso-reward/src/lib.rs:233-247 | volume and record move together, a failing rotation undoes the volume |
| `RewardPallet.Payouts.Claim` | pallet-fuso-reward/src/lib.rs:142-170 | rotates and pays out as one transaction, and returns what issuance grew by |
| `RewardPallet.Payouts.Dispatch` | pallet-fuso-reward/src/lib.rs:116-133 | whatever was called on the object before, the books agree with the trade history, no call meets a division by zero, and money is issued exactly as claimed |
| `Tokens.UnifyDecimals` | pallet-fuso-token/src/lib.rs:239-253 | the digit loop is one multiplication by a power of ten or one floor division by it, refused exactly when the result does not fit |
| `TokenEffects.ScalingSteps` | pallet-fuso-token/src/lib.rs:239-253 | 18 decimals are left alone, 17 are scaled by ten, 19 by a tenth, 6 and 24 by a million million and a millionth |
| `TokenEffects.MintEffect` | pallet-fuso-token/src/lib.rs:258-299 | a mint goes to the free half of the beneficiary and to issuance and nowhere else |
| `TokenEffects.BurnEffect` | pallet-fuso-token/src/lib.rs:306-349 | a burn takes from the free half of the holder and from issuance and from nowhere else |
| `TokenSupply.SupplyNeverExceedsIssuance` | pallet-fuso-token/src/lib.rs:258-349 | over every run, what accounts hold of a non-native token never exceeds its issuance, and FND10 tokens are never issued |
| `TokenSupply.IssuanceIsSupplyAndDestroyed` | pallet-fuso-token/src/lib.rs:490-542 | over every run issuance exceeds supply by exactly what transfers to oneself destroyed |
| `TokenSupply.SupplyEqualsIssuance` | pallet-fuso-token/src/lib.rs:490-542 | when all transfers have distinct endpoints, supply equals issuance |
| `TokenSupply.OverflowIsUnreachable` | pallet-fuso-token/src/lib.rs:640-777 | in every reachable state the Overflow branches on account additions cannot fire, transfers to oneself apart |
| `TokenSupply.PayingOneself` | pallet-fuso-token/src/lib.rs:511-537 | paying oneself loses the amount, and overflows exactly when the doubled balance does not fit |
| `TokenSupply.TransferSupply` | pallet-fuso-token/src/lib.rs:490-542 | between two accounts a transfer conserves supply, to oneself it destroys the amount |
| `TokenEffects.TransferAcceptedIff` | pallet-fuso-token/src/lib.rs:490-542 | between two accounts a transfer goes through exactly when the payer has the free amount and the payee can take it |
| `TokenEffects.TransferEffect` | pallet-fuso-token/src/lib.rs:490-542 | the payer's free balance falls and the payee's grows by the amount; nothing else moves |
| `TokenSupply.CreateIssuance` | pallet-fuso-token/src/lib.rs:437-487 | creating a token issues nothing, touches no balance and keeps unused ids unused |
| `TokenEffects.CreateAcceptedIff` | pallet-fuso-token/src/lib.rs:437-487 | which tokens may be created, and that they take the next id |
| `TokenPallet.Ledger.MintInto` | pallet-fuso-token/src/lib.rs:258-299 | issuance and beneficiary grow by the unified amount, or nothing changes |
| `TokenPallet.Ledger.BurnFrom` | pallet-fuso-token/src/lib.rs:306-349 | issuance and holder shrink by the unified amount, or nothing changes |
| `TokenPallet.Ledger.Dispatch` | pallet-fuso-token/src/lib.rs:258-777 | whatever was called on the object before, holdings of every non-native token stay within issuance, and equal it as long as nobody paid oneself |
| `TokenSupply.ReserveSupply` | pallet-fuso-token/src/lib.rs:640-667 | reserving conserves supply |
| `TokenSupply.UnreserveSupply` | pallet-fuso-token/src/lib.rs:670-699 | unreserving conserves supply |
| `TokenEffects.ReserveEffect` | pallet-fuso-token/src/lib.rs:640-667 | reserving moves the amount from the free to the reserved half of one account |
| `TokenEffects.UnreserveEffect` | pallet-fuso-token/src/lib.rs:670-699 | and unreserving back |
| `TokenSupply.RepatriateSupply` | pallet-fuso-token/src/lib.rs:709-777 | repatriating conserves the supply of every non-native token, whichever token it moves |
| `TokenEffects.RepatriateAcceptedIff` | pallet-fuso-token/src/lib.rs:709-777 | between two accounts repatriation goes through exactly when the giver has the amount in reserve and the receiving half can take it |
| `TokenEffects.RepatriateEffect` | pallet-fuso-token/src/lib.rs:709-777 | the giver's reserved half falls by the amount, the receiver's free or reserved half grows by it as the status says, every other half and account stays |
| `TokenEffects.RepatriationReachesTheFreeHalf` | pallet-fuso-token/src/lib.rs:750-764 | a concrete repatriation of two units as free to a new account |
| `TokenSupply.RepatriatingToOneself` | pallet-fuso-token/src/lib.rs:709-735 | to oneself as reserved: the native token stays as it is, any other token moves as much again from free to reserved, so nothing changes exactly for the native token or zero |
| `TokenSupply.RepatriationReservesAgain` | pallet-fuso-token/src/lib.rs:729-734 | a concrete account with three free and two reserved units that ends with one and four |
| `BridgeHandler.FeeIsOneDivision` | pallet-chainbridge-handler/src/lib.rs:296-307 | the two-step fee is one floor division of usd * 10^18 by the price |
| `BridgeEffects.LockEffect` | pallet-chainbridge-handler/src/lib.rs:310-344 | a lock takes exactly the amount from the sender: the fee goes to the treasury, the rest to the bridge account, and the rest is announced |
| `BridgeEffects.LockAcceptedIff` | pallet-chainbridge-handler/src/lib.rs:310-344 | which locks are accepted: within the limit if there is one, more than twice the fee, and paid for |
| `BridgeEffects.BurnAssetsEffect` | pallet-chainbridge-handler/src/lib.rs:358-378 | a burn takes the fee for the treasury and the scaled rest out of issuance from the sender, and announces the rest in the token's own decimals |
| `BridgeEffects.OutgoingTokenIs` | pallet-chainbridge-handler/src/lib.rs:281-285 | what leaves is the native token exactly for resources with the native chain and id, else the token the resource stands for |
| `BridgeEffects.IncomingTokenIs` | pallet-chainbridge-handler/src/lib.rs:281-285 | and the same for what arrives |
| `BridgeEffects.UnlockEffect` | pallet-chainbridge-handler/src/lib.rs:347-355 | a release takes the amount from the bridge account and gives it to the recipient |
| `BridgeEffects.HostEffect` | pallet-chainbridge-handler/src/lib.rs:196-240 | with a dominator associated and willing, the scaled arrival is reserved if the recipient has it free, else nothing happens |
| `BridgeEffects.DonateEffect` | pallet-chainbridge-handler/src/lib.rs:241-249 | a newcomer gets the donation if the donor can pay it, nobody else gets anything |
| `BridgeAccounting.IssuanceIsNetFlow` | pallet-chainbridge-handler/src/lib.rs:310-391 | across any sequence of bridge transfers and other calls that neither mint nor burn, a token's issuance is the scaled sum of amounts in minus the scaled sum emitted out |
| `BridgeAccounting.NativeIntakeIsEmittedMinusReleased` | pallet-chainbridge-handler/src/lib.rs:310-355 | the bridge account's native balance grows by exactly what is emitted minus what is released |
| `BridgeAccounting.AnnouncedWithoutGaps` | pallet-chainbridge/src/lib.rs:647-668 | whatever is sent, each chain sees the nonces 1, 2, 3, ... without gaps |
| `BridgeDesk.Desk.Lock` | pallet-chainbridge-handler/src/lib.rs:310-344 | limit, fee, both payments and the announcement as one transaction |
| `BridgeDesk.Desk.BurnAssets` | pallet-chainbridge-handler/src/lib.rs:358-378 | fee, burn and announcement as one transaction |
| `BridgeAccounting.UnlockIntake` | pallet-chainbridge-handler/src/lib.rs:347-355 | a release lowers the bridge account's native balance by exactly what it records as released |
| `BridgeAccounting.MintFlow` | pallet-chainbridge-handler/src/lib.rs:381-391 | a mint raises issuance by exactly what it records as brought in, scaled |
| `BridgeDesk.Desk.Bring` | pallet-chainbridge-handler/src/lib.rs:186-251 | arrival, hosting with the dominator and the newcomer's gift as one transaction |
| `BridgeDesk.Desk.Dispatch` | pallet-chainbridge-handler/src/lib.rs:154-262 | whatever was called on the desk before, every token's issuance is its net flow over the bridge, and with the bridge account kept apart its native balance is the net intake |
| `Foundation.VestingClosedForm` | pallet-fuso-foundation/src/lib.rs:149-195 | after block n, at tick k = n / duration, released is 0 before the delay and first + min(times, (k - delay) / interval) * amount from then on; the rest is still reserved and the record shows the instalments left |
| `Foundation.RecordEnds` | pallet-fuso-foundation/src/lib.rs:172-186 | all instalments are paid exactly from tick delay + times * interval on, with everything released |
| `Foundation.Vault.Build` | pallet-fuso-foundation/src/lib.rs:72-91 | genesis reserves every listed grant in full for its account and frees nothing; of several for one account the last is on record |
| `Foundation.Vault.UnlockFund` | pallet-fuso-foundation/src/lib.rs:158-195 | serving the accounts one by one, in any order, is the simultaneous tick |
| `Foundation.Vault.OnInitialize` | pallet-fuso-foundation/src/lib.rs:127-156 | after any number of blocks every account that started with a fund is exactly on its schedule |
| `ResourceId.DeriveResourceId` | fuso-support/src/external_chain.rs:80-95 | writing the slices yields length, zero padding, id, dex, chain; refused exactly for ids over 28 bytes |
| `ResourceId.BytesOfAnId` | fuso-support/src/external_chain.rs:80-95 | byte by byte: length, zeros, the id right-aligned before byte 29, the dex byte, the chain id with its low byte first |
| `ResourceId.RoundTrip` | fuso-support/src/external_chain.rs:80-103 | decoding a derived id returns the same chain, dex and id |
| `ResourceId.DeriveIsInjective` | fuso-support/src/external_chain.rs:80-95 | different triples have different ids |
| `ResourceId.RederiveIffCanonical` | fuso-support/src/external_chain.rs:80-103 | re-deriving a decoded id restores it exactly when the length byte is at most 28 and the padding is zero |
| `ResourceId.DecodeFailsOnLongLengths` | fuso-support/src/external_chain.rs:97-103 | decoding works exactly for length bytes up to 29 and yields that many bytes |

## Left out

- Sparse-Merkle-tree internals, blake2, lz4 and SCALE decoding of proofs: foreign code, replaced by the abstract commitment above.
- Errors of order checks are not told apart: a refused order or cancel is `ProofsUnsatisfied`, whichever check fails first.
- Price-limit claims ("every fill is at or better than the limit") and "exactly one side shrinks on cancel": the checks do not establish them.
- Partial fills: the partial branches check only a sum against the order amount, so equality of page depth and book size is stated for filled orders only.
- VerifierPallet.Verifier.SettleOrder: does not record trades with the reward pallet inside the clearing loop; that pallet is modelled on its own, and a rejection there rejects the order, which leaves storage as it was.
- VerifierPallet.Verifier.VerifyAndUpdate: does not run the callback of a consumed Revoke receipt.
- VerifierPallet.Verifier.VerifyBatch: does not pass the traded volumes on to the price indicator.
- BridgeDesk.Desk.Bring: `authorize_to` appears as an optional reservation of the arriving amount, with the verifier's own conditions as an input.
- Dominator names, settings, brokers, RPC endpoints, beneficiary signatures and `listing`: plain map writes or cryptography.
- Eviction.EvictedFundsComeBack: assumes that the user's free and reserved balances are u128 values each, which the verifier model, whose free balances other pallets may set, does not track.
- BridgePallet.Bridge.Resolve: counts of votes and relayers are unbounded, the u32 sum in the rejection test would need 2^31 relayers to overflow; nonces are unbounded too.
- BridgeAccounting.NativeIntakeIsEmittedMinusReleased: the bridge account must differ from sender, recipient, treasury and donor, and other native transfers must not touch it; a release to the bridge account itself moves nothing but counts as released.
- TokenSupply.RepatriateSupply: native repatriation moves in a plain ledger, without the balances pallet's check that the beneficiary exists.
- Tokens: `issue` (which burns native tokens before `create`), `mark_stable`, `associate_token` beyond the handler's use, and raw account mutation by other pallets.
- Foundation.Vault.Build: amounts are unbounded.
- Foundation.Vault.OnInitialize: every grant must have delay, interval and times of at least one; otherwise the source stops on a division by zero or an underflow, or never pays the first amount.
- `pallet-fuso-agent`, `pallet-fuso-indicator`, `rpc/`, `runtime-api/`, weights, benchmarking, mocks, events and logging.
