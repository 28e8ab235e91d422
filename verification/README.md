# Saito consensus, verified

A Dafny model of the consensus core of `saito-core`: the block economics, the block ring, the block-fetch
scheduler, the Merkle tree with lite blocks and ghost chains, and the mempool. `dafny verify dfyconfig.toml`
checks the whole project.

Every piece follows the same plan. The operation is modelled in the form that the code has (a loop stays a
loop, a struct with `&mut self` methods stays a class), it is proved equal to a function on values, and what the
code is for is proved about that function, over all inputs or all runs.

## The parts

**Economics.** `Types` holds slips, transactions, blocks and the 22 figures that `validate` recomputes.
`Lottery` draws the winning router, `Rebroadcast` scans an expiring block for automatic rebroadcasts (ATR),
`Capping` looks at the 5% cap, `Payouts` settles fees, `Smoothing` averages, and `Consensus` puts them together
as `generate_consensus_values`. `Creation` is `create`, `Validation` what `validate` compares, `DoubleSpends`
what both look for, and `Agreement` says when the second accepts what the first builds. What accepted blocks
promise their readers is in `Fairness` (who wins how often over random numbers), `Settlement` (who is paid what by
which output), `Owners` (what becomes of expiring slips) and `Averages` (how averages, rates, difficulty and burn
fee follow from the parent). `Utxo` winds and unwinds blocks, `Supply` defines the chain
state, acceptance and the sum that the node insists on, `Expiry` and `Conservation` prove by exactly how much each
accepted block moves that sum, `Runs` draws the conclusions for whole runs, and `Extension` says when a next block
exists. `Staging` builds runs of accepted blocks from a genesis block, and `Examples` holds what such runs can lead to.

**Block ring.** `RingModel` and `RingRuns` hold the ring as a value, a plain stack and a plain list, and the
proof that they agree over every history; `BlockRing` holds the two classes. `Modular` is the modular arithmetic,
shared with the lottery.

**Scheduler.** `SyncModel`, `SyncLists`, `SyncRuns` and `SyncBounds` hold the state machine, its invariant and
its bounds; `SyncProgress` says what each event brings about, from announcement to hand-out; `SyncState` holds the
class and its loops.

**Merkle tree, lite block, ghost chain.** `Merkle`, `LiteBlock`, `GhostChain`.

**Mempool.** `Mempool`. `Sums` holds sums over sequences and finite sets, used everywhere.

## What turned out to be false, and when it is true

- An accepted block need not hold valid transactions only. The loop at the end of `validate` drops the verdict on each
  transaction and rejects a block only for a slip entered twice (`Validation.CheckTransactions`). Rebroadcasts whose
  payout is multiplied spend a slip that never existed, and are accepted. With honest users, all transactions spend
  slips of the utxoset, and a reorganization restores it, exactly when the payout multiplier is one or nothing is
  rebroadcast (`Conservation.ValidIffUnmultiplied`, `Examples.TreasuryMayPay`).
- The supply is not constant over every run of accepted blocks. `Conservation.SupplyStep` gives the exact
  change: what users add or lose (`Conservation.FundedDrift`), what NFT slips add (`Conservation.NftDriftExact`), what the
  cap creates (`Conservation.CapDriftExact`), what unchecked or missing fee transactions add or lose
  (`Conservation.FeeDriftExact`), less the share of a miner with the zero key and the slips that a purged block names
  ahead of time. `Runs.SupplyIsConstant` is the law where all of these are zero; the treasury may pay for rebroadcasts
  there. `Examples` has an accepted block on a reachable state for each of the others: `ExpiredSlipCountsTwice`,
  `UncountedFeeIsLost`, `CapMovesTheSupply`, `FeeTransactionMints`, `MissingFeeTransactionLoses`. A comment (`block.rs`,
  line 1517) calls expired slips unspendable; the code keeps them in the utxoset until they are purged and accepts them
  as inputs.
- `create` computes its values while the new block's treasury is still zero, `validate` with the real treasury.
  All values and contents agree exactly when `Agreement.Acceptable` holds: the caps agree, no rebroadcast was submitted
  and, if a payout is owed, none pays a fee (`Agreement.CreateValidateAgreement`, `Agreement.CreatedBlockValidates`,
  `Examples.CreatedBlockMayBeRejected`). Submitted fee transactions do pass, and mint what they pay
  (`Runs.CreatedBlockMints`).
- A next block need not exist. The treasury that a block states decides the cap, and the cap decides the treasury; some
  header is acceptable exactly when `Extension.Fundable` holds (`Extension.NextBlockIff`). On reachable states with a
  treasury from 200 to 209 it does not, and the chain ends (`Examples.NoNextBlock`).
- The 5% cap does not cap. When the uncapped payout exceeds the treasury's share, the payout stays within the share if
  and only if the share is less than the nolan taken in, and is nothing then; otherwise it is at least the uncapped
  one, since amounts that were multiplied already are multiplied again (`Owners.CapHoldsIff`).
- Three of the averages forget: those of the treasury, graveyard and ATR payouts restart from zero in every block
  (`Averages.AcceptedRates`), since `generate_consensus_values` never reads the parent's.
- The ATR balance fails for NFT groups, whose fee is booked but not deducted (`Rebroadcast.ScanBalance`,
  `Rebroadcast.GroupBreaksTheBalance`).
- Deleting a block can promote an off-chain sibling to the longest chain (`RingModel.DeleteKeepsLongestIff`,
  `RingModel.DeletePromotesABystander`).
- A merged placeholder in a lite block stands for two transactions at most (`LiteBlock.MergeCounts`), although the
  merge loop is written as if it could go on to larger powers of two; of placeholders in a row two thirds of the
  entries remain (`LiteBlock.MergeLeavesTwoThirds`).
- When block creation fails inside `bundle_block`, the mempool is empty but keeps the old running total
  (`Mempool.Mempool.BundleBlock`).

## Model

| member | source | states |
|---|---|---|
| `Smoothing.SmoothStaysBetween` | saito-core/src/core/consensus/block.rs:1949-1987 | the new average lies between old average and sample, so the cast back to u64 is exact |
| `Smoothing.SmoothFixedPoint` | saito-core/src/core/consensus/block.rs:1949-1987 | a step changes nothing if and only if the sample is closer than one genesis period |
| `Smoothing.SmoothStepKeepsRestingPoint` | saito-core/src/core/consensus/block.rs:1949-1987 | a step keeps the resting point and strictly shortens the distance until it is reached |
| `Smoothing.SmoothRunSettles` | saito-core/src/core/consensus/block.rs:2236-2248 | under a constant sample every run is monotone, never overshoots, and rests after finitely many blocks exactly one less than a genesis period from the sample, unless it began closer |
| `Averages.AveragesMove` | saito-core/src/core/consensus/block.rs:1945-2248 | in an accepted block every carried average (total, new and ATR fees, routing, mining, fee per byte, rebroadcast nolan) moves from the parent's average of that name toward the figure of that name, by the whole part of one genesis period's share of the distance |
| `Averages.AveragesSettle` | saito-core/src/core/consensus/block.rs:1945-2248 | over a run of accepted blocks with one and the same figure, the average in the tip never overshoots and comes to rest, unmoved if it began within a genesis period and otherwise one less than a period away |
| `Averages.AcceptedRates` | saito-core/src/core/consensus/block.rs:1939-2275 | total fees, new fees and fee per byte follow from the block's own transactions; the treasury, graveyard and ATR averages start from zero each time |
| `Averages.DifficultyAndBurnFee` | saito-core/src/core/consensus/block.rs:1474-1501 | difficulty rises by one exactly after a ticket upon a ticket and falls by one exactly after none upon none, not below zero; the burn fee is the one on the curve but never zero |
| `Lottery.OwnerIsUnique` | saito-core/src/core/consensus/block.rs:1132-1192 | a nolan belongs to one transaction at most |
| `Lottery.LotteryShare` | saito-core/src/core/consensus/block.rs:1132-1192 | the exact number of draws that end at each transaction or at the burn key, for any recorded total |
| `Lottery.LotteryIsFair` | saito-core/src/core/consensus/block.rs:1132-1192 | when the total is the sum of the fees, a transaction is drawn as often as its fee up to one, never for a zero fee, and no draw is burned |
| `Lottery.UncarriedFeesAreBurned` | saito-core/src/core/consensus/block.rs:1132-1192 | fees that no transaction carries are burned, draw for draw |
| `Lottery.FindWinningRouter` | saito-core/src/core/consensus/block.rs:1132-1192 | the search loop finds the owner of the drawn nolan; its assertion on cumulative fees cannot fire |
| `Lottery.WorkTable` | saito-core/src/core/consensus/transaction.rs:736-803 | the table holds the aggregate of halved work up to each hop |
| `Lottery.GetWinningRoutingNode` | saito-core/src/core/consensus/transaction.rs:736-803 | the two loops pick the first hop whose aggregate work reaches the draw and never run off the path |
| `Lottery.AggregateBelowTwiceFee` | saito-core/src/core/consensus/transaction.rs:736-803 | aggregate work stays below twice the fee however long the path |
| `Lottery.FirstHopHasTheMajority` | saito-core/src/core/consensus/transaction.rs:736-803 | the first hop wins more than half of all draws |
| `Fairness.SearchIsFair` | saito-core/src/core/consensus/block.rs:1132-1192 | of any n times the total of random numbers in a row, exactly n times its number of draws fall on a transaction, which is its fee up to one for each total, and the search pays that transaction for each of them |
| `Fairness.WorkHalves` | saito-core/src/core/consensus/transaction.rs:736-803 | the k-th hop after the first works for the fee divided by two to the k |
| `Fairness.UnroutedWinner` | saito-core/src/core/consensus/transaction.rs:736-803 | without a path the sender is paid, and without a fee nobody |
| `Fairness.HopIsPaid` | saito-core/src/core/consensus/transaction.rs:736-803 | the receiver of the hop that the reduced random number falls on is paid |
| `Fairness.HopsAreFair` | saito-core/src/core/consensus/transaction.rs:736-803 | of any n times the aggregate work of random numbers in a row, each hop wins exactly n times its own work, the first one draw more, the last one less |
| `Rebroadcast.CollectOutputs` | saito-core/src/core/consensus/block.rs:1564-1639 | the first loop collects the eligible outputs, NFT groups as a whole or not at all |
| `Rebroadcast.ScanExpiringBlock` | saito-core/src/core/consensus/block.rs:1564-1841 | the nested loops compute the scan function |
| `Rebroadcast.ScanBalance` | saito-core/src/core/consensus/block.rs:1564-1841 | nolan taken in plus payout equals outputs plus fees, and ATR fees equal dust plus carried fees, each up to exactly the fees booked for NFT slips |
| `Rebroadcast.SingleStepBalance` | saito-core/src/core/consensus/block.rs:1751-1841 | a single slip keeps the balance whatever its amount, fee and multiplier |
| `Rebroadcast.GroupStepBalance` | saito-core/src/core/consensus/block.rs:1660-1750 | an NFT group is off by the booked fee exactly when it is rebroadcast |
| `Rebroadcast.GroupBreaksTheBalance` | saito-core/src/core/consensus/block.rs:1660-1750 | a concrete NFT scan that books 270 nolan which nobody pays |
| `Rebroadcast.RescaleRebroadcasts` | saito-core/src/core/consensus/block.rs:1856-1923 | the cap loop rewrites each payload output from its input and sums the surplus |
| `Capping.CapBalance` | saito-core/src/core/consensus/block.rs:1856-1923 | the capped scan is off by uncapped payout less dust, so it balances if and only if these are equal |
| `Capping.CumulativeFeesAreCarried` | saito-core/src/core/consensus/block.rs:1833-1841 | total_fees_cumulative is the new fees plus the fees that rebroadcasts carry, plus fees booked for NFT slips |
| `Owners.ScanCarries` | saito-core/src/core/consensus/block.rs:1660-1841 | every rebroadcast goes to the owners of the slips it is made of: a single slip multiplied and less the fee, an NFT group with its payload multiplied and undiminished; and it holds the original of its transaction |
| `Owners.OwnerIsServed` | saito-core/src/core/consensus/block.rs:1751-1841 | every unspent slip that is worth more than its fee is rebroadcast, in transactions without NFT slips |
| `Owners.OriginalsAreKept` | saito-core/src/core/consensus/transaction.rs:351-402 | however often a transaction is rebroadcast, its first original stays inside: in accepted blocks no rebroadcast ever wraps a rebroadcast |
| `Owners.PayoutFollowsTreasury` | saito-core/src/core/consensus/block.rs:1530-1562 | the uncapped payout is what is rebroadcast times the whole number of genesis periods of average loops that the treasury holds |
| `Owners.CapHoldsIff` | saito-core/src/core/consensus/block.rs:1856-1923 | once the cap is taken the payout stays within the share of the treasury if and only if that share is less than the nolan taken in, when it is nothing; otherwise it is at least the uncapped payout |
| `Owners.AcceptedRebroadcasts` | saito-core/src/core/consensus/block.rs:3122-3165 | every rebroadcast of an accepted block carries on slips of the block that leaves the window, at the parent's fee rate and the multiplier its treasury allows, up to what is not signed |
| `Owners.AcceptedBlockServes` | saito-core/src/core/consensus/block.rs:3122-3165 | and every unspent slip of that block worth more than its fee is carried on by some transaction of the accepted block, in transactions without NFT slips |
| `Payouts.TicketSettlesEverything` | saito-core/src/core/consensus/block.rs:2004-2231 | fee-transaction outputs, treasury, graveyard and a dropped miner share add up to the fees being settled, for every cap and every mix of burn-key winners |
| `Payouts.DrawShares` | saito-core/src/core/consensus/block.rs:2015-2130 | the branches over caps and previous tickets compute the four shares, what is cut off and the two routers |
| `Payouts.PayWinners` | saito-core/src/core/consensus/block.rs:2140-2205 | the outputs of the fee transaction in order, numbered as they come, and what is burned instead |
| `Payouts.SettleFees` | saito-core/src/core/consensus/block.rs:2004-2231 | with a ticket and without, the branches compute the payouts that the settlement results are about |
| `Settlement.TicketIsLast` | saito-core/src/core/consensus/block.rs:1408-1509 | the ticket that counts is the last golden ticket of the block |
| `Settlement.UncappedSplit` | saito-core/src/core/consensus/block.rs:2015-2130 | where no cap binds, two shares add up to the fees and are at most one nolan apart |
| `Settlement.SplitIsUnique` | saito-core/src/core/consensus/block.rs:2015-2130 | fees and cap determine both shares, so the promise admits no other payouts |
| `Settlement.TicketPaysAsPromised` | saito-core/src/core/consensus/block.rs:2015-2205 | miner and first router split the previous block, treasury and second router the one before it if that is still due, each half cut to the cap; each winner with a key has one output with his key, share and kind, in order |
| `Settlement.AcceptedBlockPays` | saito-core/src/core/consensus/block.rs:2004-2231 | an accepted block with a ticket reports exactly these shares in its figures, and its fee transaction pays them to the solver and to the winners drawn from the two blocks |
| `Settlement.AcceptedBlockPaysNobody` | saito-core/src/core/consensus/block.rs:2206-2231 | an accepted block without a ticket reports no payouts, and what has waited for two blocks falls into the graveyard |
| `Consensus.SweepTransactions` | saito-core/src/core/consensus/block.rs:1408-1509 | the counting loop: fees and bytes of normal and golden-ticket transactions, last ticket and last fee transaction |
| `Consensus.ScanAndCap` | saito-core/src/core/consensus/block.rs:1519-1923 | scan and cap, step by step, compute the raw and the capped scan |
| `Consensus.GenerateConsensusValues` | saito-core/src/core/consensus/block.rs:1382-2255 | the imperative form computes the function that all results on consensus values are about |
| `Utxo.ReorganizeSlips` | saito-core/src/core/consensus/slip.rs:159-183 | slips with value enter or leave the utxoset, others do not |
| `Utxo.Reorganize` | saito-core/src/core/consensus/block.rs:2282-2296 | the loop over a block's transactions winds or unwinds them |
| `Utxo.WindIsBulk` | saito-core/src/core/consensus/transaction.rs:806-828 | without spends inside the list, winding removes all spent and adds all created slips |
| `Utxo.UnwindUndoesWind` | saito-core/src/core/consensus/transaction.rs:806-828 | winding and unwinding leaves all spent slips behind, so it restores the utxoset if and only if that held them |
| `Utxo.LocationIsUnique` | saito-core/src/core/consensus/transaction.rs:623-671 | a located block creates at most one slip per ordinal and index |
| `Expiry.ScanNolan` | saito-core/src/core/consensus/block.rs:1564-1841 | every unspent slip of the expiring block is taken in once, except payloads of broken NFT groups, and lone Bound slips at their face amount |
| `Expiry.ScanOrigins` | saito-core/src/core/consensus/block.rs:1655-1800 | every rebroadcast, of a slip or an NFT group, spends a slip of the expiring block with its amount multiplied |
| `Supply.GenesisIsSound` | saito-core/src/core/consensus/blockchain.rs:2221-2321 | a first block with located outputs establishes the state invariant |
| `Validation.CheckTransactions` | saito-core/src/core/consensus/block.rs:3193-3217 | the loop over the transactions accepts if and only if no slip is entered twice by transactions that validate; the verdict itself is dropped |
| `Validation.SignedIff` | saito-core/src/core/consensus/transaction.rs:907-945 | what is signed is kind, time, data, replacements and, of each slip, key, amount, index and kind: two transactions sign alike if and only if they agree in these |
| `DoubleSpends.ValidateFindsDoubleSpends` | saito-core/src/core/consensus/block.rs:3193-3217 | the check fails if and only if a validating transaction lists an input with value twice or two of them share one, fee transactions and Bound slips aside |
| `DoubleSpends.CreateFindsDoubleSpends` | saito-core/src/core/consensus/block.rs:822-855 | the check of create fails if and only if a transaction lists an input with value twice or two of them share one, fee transactions aside |
| `Supply.NewSlips` | saito-core/src/core/consensus/transaction.rs:623-671 | a block creates distinct slips that are new to the utxoset |
| `Supply.UnwindingABlock` | saito-core/src/core/consensus/block.rs:2282-2296 | unwinding a block that spends slips of earlier blocks restores the utxoset if and only if every transaction in it spent slips of the utxoset |
| `Conservation.MultipleIsNotInUtxo` | saito-core/src/core/consensus/slip.rs:125-143 | in a reachable state a slip and its multiple are never both in the utxoset |
| `Conservation.ValidIffUnmultiplied` | saito-core/src/core/consensus/block.rs:3193-3217 | with honest users, an accepted block spends only slips of the utxoset, and can be unwound exactly, if and only if the payout multiplier is one or nothing is rebroadcast |
| `Conservation.HonestBlockSpendsThePast` | saito-core/src/core/consensus/block.rs:3193-3217 | a block with honest users and computed rebroadcasts spends only slips of earlier blocks |
| `Conservation.WindingFlow` | saito-core/src/core/consensus/transaction.rs:806-828 | winding a block changes the value inside the window by its outputs less what each transaction takes from the utxoset as it finds it, even if it spends what the block itself creates |
| `Conservation.TakenInBulk` | saito-core/src/core/consensus/transaction.rs:806-828 | which is the value inside the window of all it spends, if it spends slips of earlier blocks only |
| `Conservation.WindowSpentOnce` | saito-core/src/core/consensus/block.rs:3193-3217 | where users' transactions validate, no slip inside the window is spent twice |
| `Conservation.UserDriftByTransaction` | saito-core/src/core/consensus/block.rs:1433-1438 | and the users' part of the drift is the sum over their transactions |
| `Conservation.CapDriftExact` | saito-core/src/core/consensus/block.rs:1856-1923 | an accepted block drifts by uncapped payout less waived fees less remaining payout if the cap is taken, and not at all otherwise |
| `Conservation.NftDriftExact` | saito-core/src/core/consensus/block.rs:1564-1841 | expiring NFT slips move the supply by the face amount of lone Bound slips plus the fees booked for groups less the payloads of broken groups |
| `Conservation.NftDriftVanishes` | saito-core/src/core/consensus/block.rs:1564-1841 | without NFT slips in the expiring block the scan takes in exactly what leaves the window |
| `Conservation.FeeDriftExact` | saito-core/src/core/consensus/block.rs:3122-3165 | the fee transactions of an accepted block are off by exactly the outputs of those that are compared with nothing, or by what the winners were due if there is none |
| `Conservation.FundedDrift` | saito-core/src/core/consensus/block.rs:1433-1438 | a funded normal or golden-ticket transaction never lowers the supply, and keeps it if and only if all it spends is inside the window |
| `Conservation.PurgeOutsideWindow` | saito-core/src/core/consensus/blockchain.rs:1691-1798 | purging a block changes nothing inside the window unless some block named a slip of a later one |
| `Conservation.BlockSettles` | saito-core/src/core/consensus/block.rs:2004-2231 | what an accepted block disburses plus what it leaves unpaid is what was due plus the drift of its fee transactions |
| `Conservation.RebroadcastFlow` | saito-core/src/core/consensus/block.rs:1925-1937 | rebroadcast outputs and ATR fees less the treasury payout, against the value leaving the window, for any payout, capped or not |
| `Conservation.StepIsSound` | saito-core/src/core/consensus/blockchain.rs:1691-1798 | every legal block, wound and followed by its purge, keeps the state invariant |
| `Conservation.SupplyStep` | saito-core/src/core/consensus/blockchain.rs:2221-2321 | the exact change of the total supply by any accepted block, whatever it spends, whatever the treasury pays for rebroadcasts and whether or not the cap is taken |
| `Conservation.OrdinaryBlockDrift` | saito-core/src/core/consensus/blockchain.rs:2221-2321 | ordinary blocks do not move the supply, even when the treasury pays |
| `Runs.SupplyOverRun` | saito-core/src/core/consensus/blockchain.rs:2221-2321 | after every run of accepted blocks the supply is the initial one plus the drifts of its blocks |
| `Runs.ReachableIsSound` | saito-core/src/core/consensus/blockchain.rs:1319-1370 | every state that accepted blocks lead to from a genesis block satisfies the invariant |
| `Runs.ReachableIsRecent` | saito-core/src/core/consensus/blockchain.rs:1691-1798 | in every reachable state the utxoset holds only slips of the last two genesis periods |
| `Runs.SupplyIsConstant` | saito-core/src/core/consensus/blockchain.rs:2221-2321 | over every run of ordinary accepted blocks the total supply never changes, with or without golden tickets and whatever the treasury pays, so the supply panic cannot fire |
| `Runs.AmountsStayBounded` | saito-core/src/core/defs.rs:43-43 | in such runs all amounts in the window and at the tip, and their sum, fit a u64 |
| `Runs.FeesAreConserved` | saito-core/src/core/consensus/block.rs:2004-2231 | over every run, fees collected are fees disbursed plus those of the last blocks still due, up to the drift of the fee transactions |
| `Runs.SettledWithinTwoBlocks` | saito-core/src/core/consensus/block.rs:2004-2231 | each block's fees are disbursed exactly once, by the next block or by the one after it, up to the drift of the fee transactions |
| `Runs.EntriesAreSpent` | saito-core/src/core/consensus/block.rs:822-855 | the double-spend check of validate passes whenever that of create did |
| `Runs.CreatedBlockIsLegal` | saito-core/src/core/consensus/block.rs:566-880 | a block that create returns is a legal step if and only if it is not empty, the caps agree, no rebroadcast and no issuance was submitted and, if a payout is owed, no rebroadcast pays a fee |
| `Runs.CreatedBlockMints` | saito-core/src/core/consensus/block.rs:566-880 | a created block mints exactly the outputs of the fee transactions submitted with it |
| `Extension.RescaledIsLinear` | saito-core/src/core/consensus/block.rs:1880-1923 | rescaling pays the payloads once for every unit by which the multiplier exceeds one |
| `Extension.FundableIff` | saito-core/src/core/consensus/block.rs:1856-1923 | some treasury is left after its own payout exactly when nothing is owed, or the share of the rest covers what is owed, or some multiple of the payloads leaves a treasury whose cap allows that multiple |
| `Extension.NextBlockIff` | saito-core/src/core/consensus/block.rs:2628-3225 | some header makes a block with given transactions acceptable if and only if the transactions are admissible and the treasury can fund the rebroadcasts |
| `Examples.OrdinaryBlocksExist` | saito-core/src/core/consensus_thread.rs:718-787 | on every genesis block of the family, a legal, ordinary, fee-paying block |
| `Examples.UncountedFeeIsLost` | saito-core/src/core/consensus/block.rs:1433-1438 | a reachable state and an accepted block of honest users that lowers the supply by one |
| `Examples.ExpiredSlipCountsTwice` | saito-core/src/core/consensus/blockchain.rs:2249-2257 | a reachable state after block four has collected a slip as dust, and an accepted block five of honest users that spends it and raises the supply by its ten nolan |
| `Examples.TreasuryMayPay` | saito-core/src/core/consensus/block.rs:3193-3217 | for every treasury from 210 on, a reachable state and an accepted, ordinary block whose treasury pays ten nolan to a rebroadcast that does not validate; the supply stays, unwinding leaves a slip that never existed |
| `Examples.CapMovesTheSupply` | saito-core/src/core/consensus/block.rs:1856-1923 | for every treasury from 2 to 199, a reachable state and an accepted capped block that raises the supply by ten |
| `Examples.CapCreatesValue` | saito-core/src/core/consensus/block.rs:1856-1923 | on such a reachable state the capped scan is off balance by ten |
| `Examples.NoNextBlock` | saito-core/src/core/consensus/block.rs:2959-2981 | for every treasury from 200 to 209, a reachable state on which no next block whatever is accepted |
| `Examples.FeeTransactionMints` | saito-core/src/core/consensus/block.rs:3122-3165 | an accepted block without a ticket whose fee transaction mints five nolan |
| `Examples.MissingFeeTransactionLoses` | saito-core/src/core/consensus/block.rs:3122-3165 | an accepted ticket block without its fee transaction that loses at least fifty nolan |
| `Creation.DraftPaysNothing` | saito-core/src/core/consensus/block.rs:656-690 | with the treasury still zero the cap reduces every rebroadcast payout to nothing |
| `Creation.RawPayoutNeedsNolan` | saito-core/src/core/consensus/block.rs:1856-1862 | the division in the cap branch never divides by zero |
| `Creation.CheckDoubleSpends` | saito-core/src/core/consensus/block.rs:822-855 | the loop succeeds if and only if no slip with value is spent twice outside fee transactions |
| `Creation.Create` | saito-core/src/core/consensus/block.rs:566-880 | fails exactly on a double spend, and otherwise returns the finished block |
| `Agreement.CreateValidateAgreement` | saito-core/src/core/consensus/block.rs:2686-2981 | for every transaction set, all figure, treasury, graveyard and unpaid checks pass on a created block if and only if the caps at treasury zero and at the next treasury agree |
| `Agreement.AgreementBeforeRebroadcasts` | saito-core/src/core/consensus/block.rs:2686-2981 | they pass for every id up to genesis_period + 1, and beyond it at multiplier one |
| `Examples.CreatedBlockMayBeRejected` | saito-core/src/core/consensus/block.rs:2686-2981 | for every treasury from 200 on, a reachable state on which the figures of a created block do not validate, whatever it was given |
| `Agreement.CreatedBlockValidates` | saito-core/src/core/consensus/block.rs:2686-3165 | figures, rebroadcasts and fee transaction of a created block validate if and only if the caps agree, no rebroadcast was submitted and, if a payout is owed, every rebroadcast goes out undiminished |
| `Agreement.UndiminishedIff` | saito-core/src/core/consensus/block.rs:1655-1800 | which is exactly when the fee rate is zero or only NFT groups are rebroadcast |
| `Agreement.SlipCountFollows` | saito-core/src/core/consensus/block.rs:3077-3102 | the slip-count check rejects nothing that the rebroadcast-hash check accepts |
| `Agreement.CreatedBlockIsWellBuilt` | saito-core/src/core/consensus/block.rs:775-880 | a created block is located, spends what was submitted and scanned, and carries the scanned rebroadcasts and the expected fee transaction beside what was submitted |
| `Agreement.CreatedBlockContinues` | saito-core/src/core/consensus/block.rs:569-880 | a created block has the next id and the parent hash, time and creator it was ordered with; the ticket and the submitted transactions come first, the same but for the location of their outputs, and only rebroadcasts and fee transactions follow |
| `RingModel.SurvivorKeepsItsPlace` | saito-core/src/core/consensus/ringitem.rs:28-49 | the longest-chain entry keeps its status when another entry is deleted |
| `RingModel.DeleteKeepsLongestIff` | saito-core/src/core/consensus/ringitem.rs:28-49 | deletion keeps a slot's longest-chain entry if and only if it survives, or there is none and the slot becomes empty |
| `RingModel.DeletePromotesABystander` | saito-core/src/core/consensus/ringitem.rs:28-49 | a concrete deletion that puts an off-chain block onto the longest chain |
| `RingRuns.WindAgrees` | saito-core/src/core/consensus/blockring.rs:157-210 | winding the next block keeps ring and stack in agreement, forgetting the id one ring below |
| `RingRuns.UnwindAgrees` | saito-core/src/core/consensus/blockring.rs:157-210 | unwinding the tip keeps them in agreement, across wrap-around |
| `RingRuns.LookupAgrees` | saito-core/src/core/consensus/blockring.rs:82-120 | for every id the longest-chain lookup is the stack's above the floor and nothing elsewhere |
| `RingRuns.LatestAgrees` | saito-core/src/core/consensus/blockring.rs:58-80 | latest id and hash are the stack's tip exactly while the tip is above the floor |
| `RingRuns.EventKeepsConsistency` | saito-core/src/core/consensus/blockring.rs:43-210 | every addition, deletion of a bystander, wind and unwind keeps ring, stack and list consistent |
| `RingRuns.RingAgreesWithHistory` | saito-core/src/core/consensus/blockring.rs:43-210 | after every history each lookup, the tip and the hashes per id are those of stack and list |
| `RingRuns.HashLookupIsExact` | saito-core/src/core/consensus/blockring.rs:136-155 | after any calls whatever, with any colliding ids, the per-id lookup returns exactly the hashes added and not deleted, in order |
| `RingRuns.FloorStaysLow` | saito-core/src/core/consensus/blockring.rs:157-210 | an id is not forgotten while no tip has been a whole ring above it |
| `RingRuns.RingIsTheStack` | saito-core/src/core/consensus/blockring.rs:58-120 | from an empty ring, lookups less than 2 * genesis_period below the highest tip reached, and the tip itself, agree with a plain stack |
| `RingRuns.DetourRestoresStack` | saito-core/src/core/consensus/blockring.rs:157-210 | winding k blocks and unwinding them restores the chain and raises the floor by exactly what was overwritten |
| `RingRuns.DetourRestoresLookups` | saito-core/src/core/consensus/blockring.rs:58-120 | and with it the tip and every lookup in the untouched window |
| `BlockRing.RingItem.AddBlock` | saito-core/src/core/consensus/ringitem.rs:19-22 | appends to both vectors and leaves the longest-chain position |
| `BlockRing.RingItem.ContainsBlockHash` | saito-core/src/core/consensus/ringitem.rs:24-26 | true exactly when some entry has the hash |
| `BlockRing.RingItem.DeleteBlock` | saito-core/src/core/consensus/ringitem.rs:28-49 | the rebuilding loop computes the slot without the entry, with the position falling back to zero |
| `BlockRing.RingItem.OnChainReorganization` | saito-core/src/core/consensus/ringitem.rs:51-62 | the position becomes that of the first entry with the hash, or none |
| `BlockRing.BlockRing.constructor` | saito-core/src/core/consensus/blockring.rs:27-39 | twice the genesis period of empty, distinct slots |
| `BlockRing.BlockRing.AddBlock` | saito-core/src/core/consensus/blockring.rs:43-51 | changes one slot, by id modulo the size |
| `BlockRing.BlockRing.DeleteBlock` | saito-core/src/core/consensus/blockring.rs:136-144 | changes one slot, by id modulo the size |
| `BlockRing.BlockRing.OnChainReorganization` | saito-core/src/core/consensus/blockring.rs:157-210 | marks the block, or unmarks it and falls back to the parent's slot if that holds the parent |
| `BlockRing.BlockRing.GetLongestChainBlockHashAtBlockId` | saito-core/src/core/consensus/blockring.rs:82-120 | the lookup of the model |
| `BlockRing.BlockRing.GetLatestBlock` | saito-core/src/core/consensus/blockring.rs:58-80 | latest id and hash of the model |
| `BlockRing.BlockRing.GetBlockHashesAtBlockId` | saito-core/src/core/consensus/blockring.rs:146-155 | the per-id lookup of the model |
| `SyncModel.SortIncreasing` | saito-core/src/core/consensus/blockchain_sync_state.rs:136-165 | a list without duplicates is sorted strictly by id and hash |
| `SyncLists.VisitedIff` | saito-core/src/core/consensus/blockchain_sync_state.rs:166-229 | an entry is visited if and only if those before it leave quota |
| `SyncLists.PickedIff` | saito-core/src/core/consensus/blockchain_sync_state.rs:166-229 | a block is handed out if and only if it is queued and visited |
| `SyncLists.PicksIncrease` | saito-core/src/core/consensus/blockchain_sync_state.rs:136-251 | blocks are handed out in increasing order of id and hash |
| `SyncRuns.EventKeepsGood` | saito-core/src/core/consensus/blockchain_sync_state.rs:57-465 | every operation keeps the invariant: no duplicates, no empty list, at most batch_size blocks being fetched per peer |
| `SyncRuns.ReachableIsGood` | saito-core/src/core/consensus/blockchain_sync_state.rs:57-465 | hence it holds in every reachable state and the quota subtraction never underflows |
| `SyncRuns.SelectionIsInOrder` | saito-core/src/core/consensus/blockchain_sync_state.rs:136-251 | a queued block is left out if and only if smaller ones have used up the quota |
| `SyncRuns.NothingIsLost` | saito-core/src/core/consensus/blockchain_sync_state.rs:57-128 | an announced block stays on record unless it is on chain, fetched or removed |
| `SyncRuns.NothingIsLostInRuns` | saito-core/src/core/consensus/blockchain_sync_state.rs:57-383 | the same over every run |
| `SyncProgress.AnnouncementIsRecorded` | saito-core/src/core/consensus/blockchain_sync_state.rs:328-374 | an announcement is recorded behind what is there for its peer or, without one, for every askable peer, and for nobody else |
| `SyncProgress.PictureIsExact` | saito-core/src/core/consensus/blockchain_sync_state.rs:57-128 | a picture adds exactly the announced blocks that are neither on chain nor listed, as queued entries without retries, and uses the announcements up |
| `SyncProgress.SelectionIsExact` | saito-core/src/core/consensus/blockchain_sync_state.rs:136-251 | an entry is reached if and only if the smaller entries due and the blocks being fetched leave some of the batch; exactly the queued ones reached are handed out, and failed ones are queued again until their retries are used up |
| `SyncProgress.AnnouncedBlockIsHandedOut` | saito-core/src/core/consensus/blockchain_sync_state.rs:57-374 | a block announced by a peer, neither on chain nor listed, is handed out by the selection after the next picture, if fewer smaller blocks wait and are being fetched than the batch holds |
| `SyncProgress.IdleMeansBusy` | saito-core/src/core/consensus/blockchain_sync_state.rs:136-251 | a selection leaves a list as it is only if the batch is full or nothing is due |
| `SyncProgress.FailureIsExact` | saito-core/src/core/consensus/blockchain_sync_state.rs:442-465 | a failure changes the status of the named block at the named peer and nothing else |
| `SyncProgress.FetchIsExact` | saito-core/src/core/consensus/blockchain_sync_state.rs:267-312 | of every list exactly the first entry with the fetched hash goes |
| `SyncProgress.RemovalIsExact` | saito-core/src/core/consensus/blockchain_sync_state.rs:376-383 | of every list exactly the entries with the removed hash go |
| `SyncBounds.EventLowersMeasure` | saito-core/src/core/consensus/blockchain_sync_state.rs:57-229 | every event other than an announcement, building a picture included, lowers the measure or changes no status |
| `SyncBounds.FinitelyManyChanges` | saito-core/src/core/consensus/blockchain_sync_state.rs:57-229 | without new announcements a run of any length, with any pending announcements at its start, has boundedly many status changes |
| `SyncBounds.HandOutsAreBounded` | saito-core/src/core/consensus/blockchain_sync_state.rs:29-229 | one entry is handed out at most MAX_RETRIES_PER_BLOCK + 1 times, however often its block is announced again |
| `SyncState.SelectFrom` | saito-core/src/core/consensus/blockchain_sync_state.rs:166-229 | the selection loop with its early exit computes new list and hand-outs |
| `SyncState.BuildLists` | saito-core/src/core/consensus/blockchain_sync_state.rs:57-128 | the loops over peers and announcements compute the queues, in whatever order the peers come |
| `SyncState.BlockchainSyncState.AddEntry` | saito-core/src/core/consensus/blockchain_sync_state.rs:328-374 | an announcement reaches its peer or, without one, every askable peer; what follows from it is in `SyncProgress` |
| `SyncState.BlockchainSyncState.BuildPeerBlockPicture` | saito-core/src/core/consensus/blockchain_sync_state.rs:57-128 | announcements become queued entries; the invariant is kept |
| `SyncState.BlockchainSyncState.GetBlocksToFetchPerPeer` | saito-core/src/core/consensus/blockchain_sync_state.rs:136-251 | hand-outs and new state of the model; the invariant is kept |
| `SyncState.BlockchainSyncState.MarkAsFetched` | saito-core/src/core/consensus/blockchain_sync_state.rs:267-312 | the first entry for the hash at each peer is dropped; the invariant is kept |
| `SyncState.BlockchainSyncState.MarkAsFailed` | saito-core/src/core/consensus/blockchain_sync_state.rs:442-465 | one entry of one peer fails; the invariant is kept |
| `SyncState.BlockchainSyncState.RemoveEntry` | saito-core/src/core/consensus/blockchain_sync_state.rs:376-383 | all entries for the hash go, and lists that become empty; the invariant is kept |
| `Merkle.LevelUpKeepsRoot` | saito-core/src/core/consensus/merkle.rs:66-139 | combining one level from the bottom keeps the root that is defined from the top |
| `Merkle.RootBindsLeaves` | saito-core/src/core/consensus/merkle.rs:141-148 | equally many leaves with equal roots are equal, or the hash has a collision |
| `Merkle.TxLeavesStandFor` | saito-core/src/core/consensus/merkle.rs:66-100 | how many leaves there are, and which transaction and hash each of them stands for, merged placeholders included |
| `Merkle.RootBindsTransactions` | saito-core/src/core/consensus/merkle.rs:66-148 | of two lists with as many leaves at each place and the same root, the transactions hash alike one by one, or the hash has a collision |
| `Merkle.Generate` | saito-core/src/core/consensus/merkle.rs:66-139 | terminates with a well-formed tree whose leaves stand for the transactions in order, whose root is the one defined from the top and whose counts count nodes; nothing for no transactions |
| `Merkle.CombineLevel` | saito-core/src/core/consensus/merkle.rs:66-139 | one round of the outer loop pairs neighbours and promotes an odd node |
| `Merkle.MakeLeaves` | saito-core/src/core/consensus/merkle.rs:66-100 | one leaf per transaction, a merged placeholder repeated |
| `Merkle.PruneIsFaithful` | saito-core/src/core/consensus/merkle.rs:252-280 | pruning keeps all hashes, counts and wanted leaves, and gives a node up, with all below it, if and only if nothing below it is wanted |
| `Merkle.RecomputeIsHash` | saito-core/src/core/consensus/merkle.rs:181-204 | the hash recomputed from the children is the stored one |
| `Merkle.PrunedTreeProves` | saito-core/src/core/consensus/merkle.rs:252-280 | a pruned tree that recomputes to the root shows no forged leaf, or the hash has a collision |
| `LiteBlock.MergeNeighbours` | saito-core/src/core/consensus/block.rs:2527-2600 | the merge loop with its staying index computes the merge function |
| `LiteBlock.AssignOrdinals` | saito-core/src/core/consensus/block.rs:1223-1240 | each entry's ordinal counts what the entries before it stand for |
| `LiteBlock.OrdinalsPlace` | saito-core/src/core/consensus/block.rs:1223-1240 | those ordinals put the kept transactions where the placement of the merge results says |
| `LiteBlock.MergeKeepsPlaces` | saito-core/src/core/consensus/block.rs:2527-2600 | merging keeps kept transactions, their order and their ordinals, and the total |
| `LiteBlock.MergeCounts` | saito-core/src/core/consensus/block.rs:2527-2600 | a placeholder stands for one or two transactions |
| `LiteBlock.MergeSkipsOne` | saito-core/src/core/consensus/block.rs:2562-2586 | after a merge the loop passes over the next entry and tries again behind it |
| `LiteBlock.MergeLeavesTwoThirds` | saito-core/src/core/consensus/block.rs:2562-2586 | of n placeholders in a row, n less a third of n + 1 entries remain |
| `LiteBlock.WantedAtIff` | saito-core/src/core/consensus/block.rs:2527-2560 | the kept transactions are exactly the golden tickets and those with a listed key among inputs or outputs, each at its own position |
| `LiteBlock.EntriesCommit` | saito-core/src/core/consensus/block.rs:2527-2600 | every entry has the hash of the transaction of the full block that it stands for, or the combined hash of the two, in order |
| `LiteBlock.HashBindsHeader` | saito-core/src/core/consensus/block.rs:2305-2371 | two blocks have the same hash if and only if they agree in the seventeen header fields, or one of the hashes has a collision |
| `LiteBlock.CompressionIsFaithful` | saito-core/src/core/consensus/block.rs:2527-2600 | wanted transactions come through unchanged and in order, and the ordinals that generate assigns to them are those of the full block; the entries stand for all transactions |
| `LiteBlock.GenerateLiteBlock` | saito-core/src/core/consensus/block.rs:2527-2625 | the lite block has the full block's header, pre-hash and hash if the stored Merkle root is the block's own; the header agrees if and only if it is |
| `LiteBlock.ReceiveLiteBlock` | saito-core/src/core/consensus/block.rs:1213-1245 | compression followed by generate: full-block ordinals and full-block hash, and every entry commits to what it stands for |
| `GhostChain.GenerateGhostChain` | saito-core/src/core/routing_thread.rs:318-373 | the message carries exactly the longest-chain blocks above the ancestor |
| `GhostChain.ProcessGhostChain` | saito-core/src/core/routing_thread.rs:592-639 | requests, ghosts and reorganization target for every message |
| `GhostChain.RoundTrip` | saito-core/src/core/routing_thread.rs:592-639 | the running hash rebuilds the sender's hashes if the blocks are linked and, barring collisions, only then |
| `GhostChain.BlockHashesAreRebuilt` | saito-core/src/core/routing_thread.rs:318-639 | where every block names the hash of the one before it, the receiver rebuilds the hash of every block |
| `GhostChain.EveryBlockIsHandled` | saito-core/src/core/routing_thread.rs:592-639 | each block is requested or added as a ghost, once |
| `GhostChain.LinkedIsHandled` | saito-core/src/core/routing_thread.rs:592-639 | and, for a linked chain, under the hash it has at the sender |
| `GhostChain.LinkedTarget` | saito-core/src/core/routing_thread.rs:592-639 | the target is the last block of the longest prefix without relevant transactions |
| `GhostChain.SyncLightClient` | saito-core/src/core/routing_thread.rs:318-639 | sender and receiver together, for any linked chain above a known ancestor |
| `GhostChain.GapFreeIsHandled` | saito-core/src/core/routing_thread.rs:592-639 | on a chain without gaps, every id above the ancestor is handled |
| `Mempool.GenerateTotalWork` | saito-core/src/core/consensus/transaction.rs:673-723 | the fee's share of two to the number of hops after the first, rounded up; zero for a path that is broken or ends elsewhere |
| `Mempool.WorkIsShare` | saito-core/src/core/consensus/transaction.rs:673-723 | the work is the fee divided by two to the number of hops before the last, rounded up, exactly for whoever the unbroken path ends at |
| `Mempool.DrainedSpendsOnce` | saito-core/src/core/consensus/mempool.rs:132-180 | conflict-free transactions with distinct inputs spend every slip once |
| `Mempool.BundleHasNoDoubleSpend` | saito-core/src/core/consensus/block.rs:822-855 | before rebroadcasts apply, create cannot take its double-spend exit on such transactions |
| `Mempool.BundleCarriesTheWork` | saito-core/src/core/consensus/block.rs:1265-1270 | a created block carries at least the work of the bundled transactions |
| `Mempool.BundleHeld` | saito-core/src/core/consensus/mempool.rs:213-276 | draining and creating loses no transaction and no work, and fails before rebroadcasts only on a transaction that lists an input twice or is a fee transaction |
| `Mempool.Mempool.AddGoldenTicket` | saito-core/src/core/consensus/mempool.rs:82-101 | the first ticket per target wins |
| `Mempool.Mempool.AddTransaction` | saito-core/src/core/consensus/mempool.rs:132-180 | accepted exactly when new and free of conflicts with the index; the running total stays the work of what is held |
| `Mempool.Mempool.DeleteTransactions` | saito-core/src/core/consensus/mempool.rs:394-410 | with the filter that its caller (blockchain.rs, line 704) applies first: what is invalid or in the block goes, the total is recomputed, and a stale index does no harm |
| `Mempool.Mempool.CanBundleBlock` | saito-core/src/core/consensus/mempool.rs:313-385 | says yes if and only if something new is held, the chain, queue, tickets and delay allow it, and the work of what is held meets the burn-fee curve |
| `Mempool.Mempool.BundleBlock` | saito-core/src/core/consensus/mempool.rs:182-276 | when it is not ready or has no stake; a bundled block is created from all that is held, meets the routing-work check of validate, and leaves a valid empty mempool without its inputs in the index; failure leaves a stale total |

## Left out

- Conservation.SupplyStep: states are gap-free single chains; of an accepted block it assumes that its outputs are located, as `generate` locates them before any check when no transaction has more than 256 outputs and every placeholder replaces at least one.
- Supply.UnwindingABlock: assumes a block that spends slips of earlier blocks only, which honest users and computed rebroadcasts guarantee (`Conservation.HonestBlockSpendsThePast`).
- Conservation.ValidIffUnmultiplied: assumes rebroadcasts that spend the slips they were computed from; the rebroadcast hash does not cover block id and ordinal of a slip.
- Runs.SupplyIsConstant: assumes ordinary blocks; `Conservation.SupplyStep` is the exact statement for all others.
- Agreement.CreatedBlockValidates: covers the value, rebroadcast and fee-transaction checks; block signature, golden-ticket proof of work, staking count and routing work are not part of it.
- Creation.Create: the Merkle root, the pre-hash and the signature of the new block are not set.
- Lottery.GetWinningRoutingNode: the fees of a transaction that was only deserialized (the original inside a rebroadcast) are zero, as in the code, so a routed rebroadcast pays the burn key.
- Owners.AcceptedBlockServes: of transactions with NFT slips it says nothing slip by slip, because what counts as a group depends on which neighbours are spendable; `Expiry.ScanNolan` accounts for their value.
- Merkle.MakeLeaves: every transaction has its hash computed; the code refuses to build a tree otherwise.
- Merkle.PruneIsFaithful: nodes are values, each owned by its parent; update in place is not modelled.
- BlockRing.BlockRing.GetLatestBlock: two lookups in one method, and it requires that the tip slot's position is not stale, since the code indexes without a check.
- SyncState.BlockchainSyncState.MarkAsFetched: deque updates are modelled on sequences held in a map, sort_by as an insertion sort.
- Mempool.Mempool.BundleBlock: the chain tip, delay, ticket count, burn-fee curve and staking transaction are parameters; HashMap iteration is an arbitrary order.
- Wrap-around of u64 is not modelled, except that averages and all amounts of ordinary runs are shown to fit.
- Floating-point values (the 1.5 cap, the 5% treasury share, the burn fee) and all hash functions are parameters; the treasury share of zero is zero.
- The burn-fee curve, golden-ticket difficulty proof, signatures and routing-path signatures.
- Transaction::validate itself: its verdict is a parameter, and honest users are those whose transactions it passes, who spend slips of the utxoset and whose outputs are funded.
- The spent-slip map of Block::generate, which stops recording after the first non-fee transaction; `Creation.CheckDoubleSpends` models the complete check of create.
- The wind/unwind failure protocol of the blockchain, checkpoints, and unwinding across a purge.
- Returning transactions to the mempool after a reorganization, which bypasses the running total and the conflict index.
- The Merkle root of a lite block's own transaction list: merged entries are no nodes of the full tree, so only the copied root matters.
- Wire formats, storage, wallet, peers, configuration, statistics, event loops, and the Rust, WASM and JavaScript front ends.
