# Stafi runtime pallets: a verified model

This project models the Stafi pallets that keep token accounts in storage maps, and proves what they keep over whole
runs. Each component is written twice: as functions from state to state (with the error a call returns and the writes
it leaves behind even when it fails), and as a class whose methods change fields step by step and are proved to leave
exactly the state of those functions and to keep the component's invariant. The properties are then proved about the
functions, over every sequence of calls.

- **rToken staking** (`Rate`, `Ledger`, `Series`, `Staking`): bonds, eras, snapshots, reports and unbonds of one symbol.
  `EraMachine` and `EraProgress` treat the two work lists and the snapshot states, `EraRates` the rate of each era,
  `Pipelines` the bond and unbond counters, `Solvency` and `SolvencyLimits` the backing of rTokens, `SingleMint` the
  executions of a transaction, `UnbondingChunks` and `ChunkLimits` the pruning of a user's list, `StakeAccounts` the stake
  of each pool across reports, `StakingEffects` what each call moves and when it succeeds, `Reachable` runs from an
  unused symbol. `LedgerPallet` and `SeriesPallet` are the two pallets as they run.
- **AMM** (`SwapMath`, `Dex`, `DexCustody`, `DexDepth`, `DexPricing`, `DexEffects`, `DexLimits`, `DexPallet`): the slip-fee
  pools of rdex/swap.
- **LP mining** (`Mining`, `MiningBound`, `MiningRuns`, `MiningEmission`, `MiningEffects`, `MiningPayouts`,
  `MiningPallet`).
- **Reward acts and vesting** (`Vesting`, `RewardActs`, `RewardActProofs`, `RewardEffects`, `RewardPallet`).
- **Relayer voting** (`Votes`, `VoteOutcome`, `BridgeVotes`).
- Shared: `Arithmetic` (fixed-width operations), `Sums`, `Tokens` (rtoken/balances and rdex/balances), `Primitives`.

Calls that the relayers' origin dispatches are taken as arbitrary and repeatable, so safety rests on the guards inside
the calls. Signatures, block numbers, native-currency transfers and bridge checks are inputs of the calls.

Results a reader may not expect, with runs from an unused chain or symbol. Solvency needs a slack in four cases, and all
of it: a last report that finds no stake sets the rate to one to one whatever is left (`SolvencyLimits.NothingLeftBreaks`);
era 0 and era u32::MAX may be set repeatedly and then add up (`SolvencyLimits.EraZeroTwiceBreaks`); unbonding from an
already reported pool before the era's last report is not deducted from the total the rate is computed from
(`SolvencyLimits.LateUnbondBreaks`); and a bridged execution refused for its destination keeps its mint
(`SolvencyLimits.RefusedMintBreaks`) and can be dispatched again (`SingleMint.TwiceMinted`). After the bonding duration is
shortened a user may lose a chunk that is still to unlock (`ChunkLimits.LiveChunkLost`). Adding to an emptied pool, or out
of proportion, may leave it less deep (`DexLimits.ReseedLowersDepth`, `DexLimits.LopsidedLowersDepth`), and an add whose
total units clamp can be removed at a gain (`DexLimits.ClampedAddGains`). Besides, for every run: rejected rToken proposals
are dispatched like approved ones (`Votes.DispatchesForGood`).

## Model

| member | source | states |
|---|---|---|
| `Solvency.SolventInRuns` | node/pallets/rtoken/ledger/src/lib.rs:224-597 | after any run at all from an unused symbol, unless part-way through an era's active reports, rate × issuance ≤ RATEBASE × (sum of the pipelines' active + slack). Runs mix root calls, reports in any order and number, bonds, executions, unbonds, fee mints and transfers. The slack is what was unbonded from reported pools before an era's last report, the amounts of records minted to a refused destination, the reports an era counts again when it is set twice, and what a last report with nothing left is short of; each era's first active report clears it |
| `Solvency.PlainRunsSolvent` | node/pallets/rtoken/ledger/src/lib.rs:224-597 | runs with none of those four are solvent outright: rate × issuance ≤ RATEBASE × (sum of the pipelines' active) |
| `Solvency.BackedInRuns` | node/pallets/rtoken/ledger/src/lib.rs:224-597 | the invariant behind it, in every state of every run: part-way through the reports the expected total is covered by the reported pools and the slack, otherwise the issuance is covered by all pools and the slack |
| `Solvency.StepBacked` | node/pallets/rtoken/ledger/src/lib.rs:224-597 | every single call keeps that invariant, with no condition on the call |
| `Solvency.ClosingReport` | node/pallets/rtoken/ledger/src/lib.rs:471-493 | the last report of an era leaves the symbol covered up to a slack if and only if, with that slack, it finds something left: a positive total with its own stake counted, or enough stake in the other pools to cover every rToken one to one; slashing is included |
| `Solvency.ReportAccounts` | node/pallets/rtoken/ledger/src/lib.rs:462-493 | an active report adds its expected stake to the total and to the reported pools alike, and the last one sets the rate from that total and the issuance |
| `Solvency.InitBondBacked` | node/pallets/rtoken/ledger/src/lib.rs:224-243 | an init bond mints no more than its stake covers, also when it is the one that creates the rate |
| `Solvency.ExecuteBacked` | node/pallets/rtoken/series/src/lib.rs:414-465 | an executed bond mints no more than the stake it adds covers; one that is refused after its mint costs the slack exactly its amount, or nothing while the era's reports are under way |
| `Solvency.UnbondBacked` | node/pallets/rtoken/series/src/lib.rs:469-541 | an unbond burns at least what the stake it takes is worth; what it takes from a reported pool between the first and last report of an era is exactly the added slack |
| `Solvency.EraIsNew` | node/pallets/rtoken/ledger/src/lib.rs:299-300 | an era other than 0 and u32::MAX has no reports when it is set |
| `Solvency.NewEraBacked` | node/pallets/rtoken/ledger/src/lib.rs:299-316 | a new era keeps the backing if and only if it has no earlier reports, or no more than the slack, or no pool is bonded |
| `SolvencyLimits.LateUnbondBreaks` | node/pallets/rtoken/series/src/lib.rs:491-540 | a run from an unused symbol: 50 tokens unbonded between two reports of an era; a slack of 50 is needed in full |
| `SolvencyLimits.RefusedMintBreaks` | node/pallets/rtoken/series/src/lib.rs:445-458 | a run from an unused symbol: a record of 50 tokens minted to a refused destination; a slack of 50 is needed in full |
| `SolvencyLimits.NothingLeftBreaks` | node/pallets/rtoken/rate/src/lib.rs:42-57 | a run from an unused symbol: the only pool is slashed to nothing before its report, and the rate goes back to one; a slack of all 100 rTokens is needed |
| `SolvencyLimits.EraZeroTwiceBreaks` | node/pallets/rtoken/ledger/src/lib.rs:299-316 | a run from an unused symbol: era 0 set a second time doubles the rate; a slack of the 100 it had reported before is needed in full |
| `StakeAccounts.StakeInRuns` | node/pallets/rtoken/ledger/src/lib.rs:289-556 | in every state of every run: while a snapshot is open, the stake of its pool plus what was unbonded since is what was snapshotted plus what was bonded since; once reported, absent saturation, what was reported takes the place of the snapshot, until the next era |
| `StakeAccounts.ReportedStake` | node/pallets/rtoken/ledger/src/lib.rs:440-495 | right after an unclamped active report: stake + unbonded since = reported + bonded since |
| `StakeAccounts.ReportLeaves` | node/pallets/rtoken/ledger/src/lib.rs:445-473 | in general, every active report leaves its pool with stake + reported − snapshotted, clamped at u128 and at nothing, bonds again what is unstaked, and changes no other pool |
| `StakeAccounts.StepAccounts` | node/pallets/rtoken/ledger/src/lib.rs:224-597 | every single call keeps these accounts |
| `StakeAccounts.GenesisAccounts` | node/pallets/rtoken/ledger/src/lib.rs:289-318 | an unused symbol starts there |
| `Rate.RateCovered` | node/pallets/rtoken/rate/src/lib.rs:42-57 | the rate set for a total never values the rTokens above it, through the cut to 64 bits |
| `Rate.MintCovered` | node/pallets/rtoken/rate/src/lib.rs:59-66 | rTokens minted for v tokens are worth at most v |
| `Rate.RedeemCovered` | node/pallets/rtoken/rate/src/lib.rs:68-75 | tokens paid for v rTokens are worth at most v |
| `Rate.RoundTrips` | node/pallets/rtoken/rate/src/lib.rs:59-75 | neither order of the two conversions ever gains |
| `Rate.RateIsExact` | node/pallets/rtoken/rate/src/lib.rs:42-57 | the rate set is the quotient RATEBASE·total / rTokens rounded down, bounded on both sides, cut to 64 bits, and one to one where there is no stake, no rToken or no fitting quotient |
| `Rate.MintIsExact` | node/pallets/rtoken/rate/src/lib.rs:59-66 | tokens turn into rTokens at the rate rounded down, both bounds: rate·out ≤ RATEBASE·v < rate·out + rate; nothing where that does not fit, v without a rate |
| `Rate.RedeemIsExact` | node/pallets/rtoken/rate/src/lib.rs:68-75 | and back likewise: RATEBASE·out ≤ rate·v < RATEBASE·out + RATEBASE; nothing where that does not fit, v without a rate |
| `EraMachine.SoundInRuns` | node/pallets/rtoken/ledger/src/lib.rs:289-597 | in every run: the current list holds exactly the unfinished snapshots, each era's list exactly those not yet reported active, every unfinished snapshot belongs to the current era, and a pool has at most one |
| `EraMachine.StepKeeps` | node/pallets/rtoken/ledger/src/lib.rs:289-597 | every call of ledger and series keeps all of this |
| `EraMachine.NewEraKeeps` | node/pallets/rtoken/ledger/src/lib.rs:289-318 | a new era keeps it, and starts only when all earlier snapshots are finished |
| `EraMachine.AllFinished` | node/pallets/rtoken/ledger/src/lib.rs:291-292 | with the current list empty, every snapshot is finished and every era's list is empty |
| `EraMachine.ReportKeeps` | node/pallets/rtoken/ledger/src/models.rs:47-71 | moving one unfinished snapshot forward and taking it off the lists it leaves keeps both work lists in step with the states |
| `EraMachine.ActiveKeeps` | node/pallets/rtoken/ledger/src/lib.rs:398-434 | an active report keeps the machine |
| `EraMachine.UnfinishedIsCurrent` | node/pallets/rtoken/ledger/src/lib.rs:453-460 | an unfinished snapshot is on the current list and in the current era, and on its era's list exactly while it is open |
| `EraProgress.ReportsBounded` | node/pallets/rtoken/ledger/src/lib.rs:322-597 | over any run, successful reports plus what is still to do are at most the earlier backlog plus four per snapshot taken |
| `EraProgress.EraCloses` | node/pallets/rtoken/ledger/src/lib.rs:289-597 | an era of n pools takes at most 4n successful reports, and 4n reports close it |
| `EraProgress.ReportAdvances` | node/pallets/rtoken/ledger/src/models.rs:82-94 | every successful report raises the rank of its own snapshot and changes no other |
| `EraProgress.OthersIdle` | node/pallets/rtoken/ledger/src/lib.rs:322-597 | failed calls and calls that are not reports leave every snapshot and list alone |
| `EraRates.RatesInRuns` | node/pallets/rtoken/ledger/src/lib.rs:462-493 | in every run, for every era but 0 and u32::MAX: the stored total is the sum of the stakes left by the era's reports, a snapshot is counted exactly if it has been reported, and the era's rate is stored exactly if all its snapshots are reported, written once and computed from that sum and the issuance at that moment |
| `EraRates.RatesFromGenesis` | node/pallets/rtoken/ledger/src/lib.rs:462-493 | the same era by era from an unused symbol |
| `EraRates.RateStaysInRuns` | node/pallets/rtoken/ledger/src/lib.rs:474-478 | an era's rate, once written, is never changed by any later run |
| `EraRates.LastReport` | node/pallets/rtoken/ledger/src/lib.rs:474-478 | the report that empties the era's list is the one that writes its rate |
| `EraRates.TotalReported` | node/pallets/rtoken/ledger/src/lib.rs:468-480 | a report adds its own stake to the era's total, saturating like the sum |
| `Pipelines.ExactInRuns` | node/pallets/rtoken/ledger/src/lib.rs:303-365 | in every run, while a snapshot waits for its bond report, the pipeline holds the snapshot's bond and unbond plus exactly what was bonded and unbonded since |
| `Pipelines.BondReportExact` | node/pallets/rtoken/ledger/src/lib.rs:344-370 | a bond report takes exactly what its action settles, nothing truncates, and after a two-sided report the pipeline holds exactly what was added since the snapshot |
| `Pipelines.CombinedReportExact` | node/pallets/rtoken/ledger/src/lib.rs:381-396 | the same for the combined report, with the reward bonded on top |
| `Pipelines.NewEraExact` | node/pallets/rtoken/ledger/src/lib.rs:303-311 | fresh snapshots match the pipelines they were taken from |
| `Staking.ActiveStep` | node/pallets/rtoken/ledger/src/lib.rs:375-554 | each of the three active reports, when it succeeds, is one common report on an open snapshot, and leaves the stake to that report |
| `Staking.FailedReport` | node/pallets/rtoken/ledger/src/lib.rs:375-554 | a failed active report has written nothing |
| `SingleMint.AtMostOneMint` | node/pallets/rtoken/series/src/lib.rs:414-465 | for each transaction, over any run of any records, retries and repeated dispatch, at most one execution mints, if bridged destinations stay whitelisted |
| `SingleMint.MintedOnce` | node/pallets/rtoken/series/src/lib.rs:414-465 | with no condition: Success is final, nothing mints after it, and the mints for a transaction are one per bridge refusal plus one exactly if it came to Success |
| `SingleMint.MintsExactly` | node/pallets/rtoken/series/src/lib.rs:440-453 | a minting execution pays the record's amount at the rate to the bonder or the bridge account; any other execution leaves the whole ledger alone |
| `SingleMint.MarkedUnlessRefused` | node/pallets/rtoken/series/src/lib.rs:445-458 | a mint marks its transaction if and only if the destination is local or whitelisted; otherwise it stays minted and nothing is marked |
| `SingleMint.RefusedMintsAgain` | node/pallets/rtoken/series/src/lib.rs:445-458 | after a refusal the same execution mints again while the balance fits |
| `SingleMint.TwiceMinted` | node/pallets/rtoken/series/src/lib.rs:445-458 | a run from an unused symbol reaches such a state: one bridged record of 50 tokens mints 100 rTokens |
| `UnbondingChunks.UnbondKeepsChunks` | node/pallets/rtoken/series/src/lib.rs:503-528 | an unbond keeps every chunk that is still to unlock, in order, and appends its own, worth exactly what the rTokens less the fee are at the rate, bounded on both sides |
| `UnbondingChunks.InOrderInRuns` | node/pallets/rtoken/series/src/lib.rs:479-528 | lists stay sorted by unlock era in every run whose duration is not shortened and whose unlock eras do not wrap |
| `UnbondingChunks.ShortInRuns` | node/pallets/rtoken/series/src/lib.rs:503-521 | no list ever exceeds 32 chunks, with no condition, so the drain stays in range |
| `UnbondingChunks.PruneLoses` | node/pallets/rtoken/series/src/lib.rs:505-519 | pruning keeps all chunks still to unlock if and only if the list is not full, or at least 16 are active, or the 17 oldest have all expired |
| `ChunkLimits.LiveChunkLost` | node/pallets/rtoken/series/src/lib.rs:505-519 | a run from an unused symbol: the duration is shortened from 100 to 1, and a user with a full list loses a chunk that unlocks 50 eras later |
| `UnbondingChunks.PruneKeeps` | node/pallets/rtoken/series/src/lib.rs:505-519 | so it always does on a sorted list, and the list stays sorted |
| `StakingEffects.InitBondDoes` | node/pallets/rtoken/ledger/src/lib.rs:224-243 | an init bond adds the pool with its stake and credits the receiver with rTokens for exactly that, bounded on both sides |
| `StakingEffects.SubmitDoes` | node/pallets/rtoken/series/src/lib.rs:342-411 | a bond is accepted if and only if its surroundings allow it, its amount is positive, the pool is bonded, the record is new and its transaction unknown or failed; it is stored, numbered and dealing |
| `StakingEffects.ExecuteDoes` | node/pallets/rtoken/series/src/lib.rs:414-465 | an executed bond adds its amount once to the pool's bond and stake and credits the bonder, or the bridge, with exactly the rTokens it is worth; nothing else of the pipelines and balances moves |
| `StakingEffects.ExecuteSucceeds` | node/pallets/rtoken/series/src/lib.rs:414-465 | and succeeds if and only if its transaction is dealing or failed, the surroundings allow it and nothing passes u128; one against it marks it failed |
| `StakingEffects.UnbondDoes` | node/pallets/rtoken/series/src/lib.rs:469-541 | an unbond pays the fee to the receiver, burns the rest and moves exactly what the rest is worth, bounded on both sides, from the pool's stake to its unbond counter |
| `StakingEffects.UnbondQueues` | node/pallets/rtoken/series/src/lib.rs:523-540 | the same amount is queued for the pool in its unlock era, and no other queue changes |
| `StakingEffects.UnbondSucceeds` | node/pallets/rtoken/series/src/lib.rs:469-541 | and succeeds if and only if the user has the rTokens, the pool the stake, both lists have room, and nothing passes u128 |
| `StakingEffects.EraStarts` | node/pallets/rtoken/ledger/src/lib.rs:289-302 | an era starts if and only if the last is finished, a voter is known and it is the next era, or any era while the last is 0 |
| `StakingEffects.EraSnapshots` | node/pallets/rtoken/ledger/src/lib.rs:303-316 | and takes one open snapshot of each bonded pool, in order, of its pipeline as it is |
| `StakingEffects.ReportTable` | node/pallets/rtoken/ledger/src/lib.rs:322-597 | each report succeeds if and only if its snapshot is in the state it needs, an active one also if its fee can be minted, and leaves the snapshot where it should |
| `StakingEffects.ActiveReportSucceeds` | node/pallets/rtoken/ledger/src/lib.rs:375-554 | an active report succeeds if and only if its snapshot waits for it, a rate and a receiver are known and the commission fits its account |
| `StakingEffects.FeeGoes` | node/pallets/rtoken/ledger/src/lib.rs:398-466 | the commission of an active report is the asked share of its gain, in rTokens at the rate before it, and goes to the receiver; without a gain no balance moves |
| `LedgerPallet.RTokenLedger.InitBond` | node/pallets/rtoken/ledger/src/lib.rs:224-243 | the storage after the call and its error are those of `SetInitBond`; keeps the era machine |
| `LedgerPallet.RTokenLedger.AddPool` | node/pallets/rtoken/ledger/src/lib.rs:170-179 | appends a pool that is not there yet, otherwise fails unchanged; keeps the era machine |
| `LedgerPallet.RTokenLedger.StartEra` | node/pallets/rtoken/ledger/src/lib.rs:289-318 | `set_chain_era` with its three checks leaves the state of `SetChainEra`; keeps the era machine |
| `LedgerPallet.RTokenLedger.TakeSnapshots` | node/pallets/rtoken/ledger/src/lib.rs:304-313 | the loop takes one snapshot per bonded pool, in order, from the pipelines as they were |
| `LedgerPallet.RTokenLedger.ReportBond` | node/pallets/rtoken/ledger/src/lib.rs:344-370 | `new_bond_report`, and `bond_report` with both sides, leave the state of `BondReport`; keeps the era machine |
| `LedgerPallet.RTokenLedger.ReportBondAndActive` | node/pallets/rtoken/ledger/src/lib.rs:375-434 | leaves the state of `BondAndReportActive`; keeps the era machine |
| `LedgerPallet.RTokenLedger.ReportActiveStake` | node/pallets/rtoken/ledger/src/lib.rs:440-495 | leaves the state of `ActiveReport`; keeps the era machine |
| `LedgerPallet.RTokenLedger.ReportStaked` | node/pallets/rtoken/ledger/src/lib.rs:499-556 | leaves the state of `NewActiveReport`; keeps the era machine |
| `LedgerPallet.RTokenLedger.FinishActive` | node/pallets/rtoken/ledger/src/lib.rs:445-495 | the common end of the active reports, its failures before any write included |
| `LedgerPallet.RTokenLedger.CountReport` | node/pallets/rtoken/ledger/src/lib.rs:468-480 | takes the snapshot off its era's list and sets rate and era rate only when the list is empty |
| `LedgerPallet.RTokenLedger.ReportWithdrawn` | node/pallets/rtoken/ledger/src/lib.rs:560-573 | leaves the state of `WithdrawReport`; keeps the era machine |
| `LedgerPallet.RTokenLedger.ReportTransferred` | node/pallets/rtoken/ledger/src/lib.rs:577-597 | leaves the state of `TransferReport`; keeps the era machine |
| `LedgerPallet.Position` | node/pallets/rtoken/ledger/src/lib.rs:453-456 | the first index of an id, or the length |
| `LedgerPallet.RemoveAt` | node/pallets/rtoken/ledger/src/lib.rs:474-474 | removing at the first index is removing the first occurrence |
| `SeriesPallet.RTokenSeries.Bond` | node/pallets/rtoken/series/src/lib.rs:342-411 | the checks in the order of the source, then the record, its number and its dealing state are stored, or nothing is; keeps the era machine and the records |
| `SeriesPallet.RTokenSeries.ExecuteRecord` | node/pallets/rtoken/series/src/lib.rs:414-465 | the storage of series, ledger and balances after the call, also where it fails after the mint; keeps the era machine and the records |
| `SeriesPallet.RTokenSeries.Unbond` | node/pallets/rtoken/series/src/lib.rs:469-541 | the storage of series, ledger and balances after the call and its error; keeps the era machine and the records |
| `SeriesPallet.RTokenSeries.TakeRtokens` | node/pallets/rtoken/series/src/lib.rs:536-537 | the fee goes to the receiver and the rest is burned; a failed burn leaves the fee paid |
| `SeriesPallet.RTokenSeries.FilterActive` | node/pallets/rtoken/series/src/lib.rs:506-513 | the chunks still to unlock, in order |
| `SeriesPallet.RTokenSeries.Prune` | node/pallets/rtoken/series/src/lib.rs:503-519 | the list with room made for one more chunk |
| `Tokens.IssuanceIsSupply` | node/pallets/rtoken/balances/src/lib.rs:146-224 | the recorded issuance is the sum of all balances after every run that does not saturate it |
| `Tokens.TransferConserves` | node/pallets/rtoken/balances/src/lib.rs:146-173 | a transfer moves exactly the value between two accounts and keeps the sum and the issuance |
| `Tokens.TransferFailsOnlyShort` | node/pallets/rtoken/balances/src/lib.rs:146-173 | while all balances fit u128 a transfer fails if and only if the sender is short |
| `Tokens.MintAdds` | node/pallets/rtoken/balances/src/lib.rs:176-200 | a mint adds its value to the holdings and, saturating, to the issuance |
| `Tokens.BurnSubtracts` | node/pallets/rdex/balances/src/lib.rs:211-232 | a burn takes its value from the holdings and the issuance |
| `Tokens.TransferPays` | node/pallets/rtoken/balances/src/lib.rs:146-173 | a transfer takes exactly the value from one account, gives it to the other, and leaves every other account and the issuance |
| `Tokens.MintCredits` | node/pallets/rtoken/balances/src/lib.rs:176-200 | a mint succeeds if and only if the balance fits, and credits exactly the value to that account alone |
| `Tokens.BurnDebits` | node/pallets/rtoken/balances/src/lib.rs:202-224 | a burn succeeds if and only if the balance covers it, and debits exactly the value from that account alone |
| `Tokens.TokenBalances.TransferTo` | node/pallets/rdex/balances/src/lib.rs:144-182 | the accounts after the call are those of `Transfer`, unchanged on failure |
| `Tokens.TokenBalances.MintTo` | node/pallets/rdex/balances/src/lib.rs:184-209 | likewise for `Mint` |
| `Tokens.TokenBalances.BurnFrom` | node/pallets/rtoken/balances/src/lib.rs:202-224 | likewise for `Burn` |
| `DexDepth.DepthInRuns` | node/pallets/rdex/swap/src/lib.rs:92-222 | over any run of swaps, removals with or without the embedded swap and exactly proportional adds to a pool that has units, mixed with calls on other pools, F·R/P² never falls: F'·R'·P² ≥ F·R·P'²; the run may empty the pool |
| `DexDepth.EmptyStays` | node/pallets/rdex/swap/src/lib.rs:92-222 | an emptied pool stays empty under every call but an add to it |
| `DexLimits.ReseedLowersDepth` | node/pallets/rdex/swap/src/lib.rs:133-163 | an add that is left out: emptying a pool and adding to it again, from a chain without pools, takes it from (4, 4, 4) to the less deep (2, 1, 2) |
| `DexLimits.LopsidedLowersDepth` | node/pallets/rdex/swap/src/lib.rs:291-359 | another: an add of (100, 50), out of proportion, takes a pool from (1, 1, 1) to the less deep (101, 51, 76) |
| `SwapMath.DeeperIs` | node/pallets/rdex/swap/src/lib.rs:92-222 | the comparison written with repeated sums is the one of the products |
| `DexDepth.SwapDeeper` | node/pallets/rdex/swap/src/lib.rs:92-129 | a swap does not lower it |
| `DexDepth.RemovalDeeper` | node/pallets/rdex/swap/src/lib.rs:167-222 | a removal does not, with the swap of part of the share inside it |
| `DexDepth.AddDeeper` | node/pallets/rdex/swap/src/lib.rs:133-163 | a proportional add does not |
| `DexCustody.CustodyInRuns` | node/pallets/rdex/swap/src/lib.rs:92-251 | in every run the FIS reserves of all pools together are within the module's FIS, each rToken reserve within the module's rToken, total units equal the LP issuance, and F = 0 iff R = 0 iff P = 0 |
| `DexCustody.SwapKeeps` | node/pallets/rdex/swap/src/lib.rs:92-129 | a swap keeps custody, trades exactly the computed output, and on failure has moved nothing |
| `DexCustody.AddKeeps` | node/pallets/rdex/swap/src/lib.rs:133-163 | an add keeps custody and on failure leaves pools and LP balances alone |
| `DexCustody.CreateKeeps` | node/pallets/rdex/swap/src/lib.rs:226-251 | creating a pool keeps custody likewise |
| `DexCustody.RemoveKeeps` | node/pallets/rdex/swap/src/lib.rs:167-222 | a removal keeps custody and on failure has moved nothing |
| `DexCustody.RemovalConserves` | node/pallets/rdex/swap/src/lib.rs:174-204 | what the user gets is exactly what leaves the pool, with or without the embedded swap |
| `DexCustody.UnitsAreIssuance` | node/pallets/rdex/swap/src/lib.rs:291-359 | the units stored are the LP issuance after the mint, through both clamps |
| `DexCustody.GenesisCustody` | node/pallets/rdex/swap/src/lib.rs:92-251 | a chain without pools starts in custody |
| `DexEffects.SwapDoes` | node/pallets/rdex/swap/src/lib.rs:92-129 | a successful swap takes exactly the input from the trader and gives it exactly the output of the formula, at least minOut; the module's balances and the pool move by the same amounts, and no other account does |
| `DexEffects.SwapSucceeds` | node/pallets/rdex/swap/src/lib.rs:92-129 | a swap succeeds if and only if the output meets minOut, the trader has the input (and, in FIS, something left) and the receiving side has room |
| `DexEffects.AddDoes` | node/pallets/rdex/swap/src/lib.rs:133-163 | an add takes exactly its two amounts from the provider and credits it with exactly the units of the formula, or with the FIS added where the pool has none |
| `DexEffects.CreateDoes` | node/pallets/rdex/swap/src/lib.rs:226-251 | creating a pool takes exactly its two amounts, and credits the first provider with one unit for every FIS |
| `DexEffects.RemoveDoes` | node/pallets/rdex/swap/src/lib.rs:167-222 | a removal pays the provider exactly what leaves the pool, at least minFis and minRtoken, and burns exactly its units; no other account changes |
| `DexEffects.RemovalLeaves` | node/pallets/rdex/swap/src/lib.rs:174-204 | what leaves the pool is the share of each reserve, with the part to be swapped traded against what remains |
| `SwapMath.OutputExact` | node/pallets/rdex/swap/src/lib.rs:363-393 | the output is the exact formula on every input: no U512 step saturates and nothing is clamped |
| `SwapMath.FeeExact` | node/pallets/rdex/swap/src/lib.rs:363-393 | likewise for the fee |
| `DexDepth.SwapResultIsTradeOut` | node/pallets/rdex/swap/src/lib.rs:363-393 | the pallet's output in either direction is the exact formula, no input included |
| `SwapMath.PoolUnitExact` | node/pallets/rdex/swap/src/lib.rs:291-359 | the unit formula is exact on every seeded pool, clamped only at the end |
| `DexPricing.QuarterPaid` | node/pallets/rdex/swap/src/lib.rs:363-393 | the output is at most a quarter of its reserve, for every input |
| `DexPricing.SwapPricing` | node/pallets/rdex/swap/src/lib.rs:92-129 | for every swap under custody the product of the reserves does not fall, and swapping the output straight back never returns more than was put in |
| `DexPricing.SwapShape` | node/pallets/rdex/swap/src/lib.rs:363-393 | for x ≤ x' the output rises while x·x' ≤ X² and falls once x·x' ≥ X² |
| `DexPricing.AddThenRemovePricing` | node/pallets/rdex/swap/src/lib.rs:133-222 | for every add under custody, removing the granted units returns at the pre-add price at most what went in times the unclamped over the stored total; so when the total fits u128 no more value, never more of both tokens, and after a proportional add no more of either |
| `DexLimits.ClampedAddGains` | node/pallets/rdex/swap/src/lib.rs:291-359 | an input where the total clamps: in five calls from a chain without pools, an add puts in 8 and 9·Q and its removal takes out 11 and more than 13·Q |
| `DexPricing.AddKeepsUnitValue` | node/pallets/rdex/swap/src/lib.rs:133-163 | every add under custody, clamped or not, keeps the value per unit at the pre-add price: (F'R + R'F)·P ≥ 2FR·P' |
| `DexPricing.UnitValueKeptIs` | node/pallets/rdex/swap/src/lib.rs:291-359 | that comparison is the one of the products |
| `SwapMath.ShareKept` | node/pallets/rdex/swap/src/lib.rs:395-442 | a removal takes at most its share of a reserve, all of it exactly for all units, and never the last of a reserve otherwise |
| `DexPallet.RDexSwap.SwapTokens` | node/pallets/rdex/swap/src/lib.rs:92-129 | storage and balances after the call and its error are those of `Swap`; keeps custody |
| `DexPallet.RDexSwap.AddToPool` | node/pallets/rdex/swap/src/lib.rs:133-163 | likewise for `AddLiquidity`; keeps custody |
| `DexPallet.RDexSwap.Create` | node/pallets/rdex/swap/src/lib.rs:226-251 | likewise for `CreatePool`; keeps custody |
| `DexPallet.RDexSwap.Remove` | node/pallets/rdex/swap/src/lib.rs:167-222 | likewise for `RemoveLiquidity`; keeps custody |
| `MiningRuns.PayoutBound` | node/pallets/rdex/mining/src/lib.rs:103-316 | over any run, the removal of last grades included, and for every grade, REWARD_FACTOR × paid ≤ REWARD_FACTOR × emitted + (REWARD_FACTOR − 1) × (deposits + withdrawals), and every stake's debt is within what it accrued |
| `MiningRuns.RunSound` | node/pallets/rdex/mining/src/lib.rs:103-248 | the potential behind it, over all stakes of all grades, in every state of every run |
| `MiningRuns.GenesisSound` | node/pallets/rdex/mining/src/lib.rs:103-248 | an unused pallet starts there |
| `MiningBound.EmissionKeeps` | node/pallets/rdex/mining/src/lib.rs:411-442 | an update emits what it takes from the budget, which pays for the growth of everything owed, through the saturating products |
| `MiningBound.DepositKeeps` | node/pallets/rdex/mining/src/lib.rs:121-136 | a deposit opens a stake owed less than one unit |
| `MiningBound.WithdrawKeeps` | node/pallets/rdex/mining/src/lib.rs:160-188 | a withdrawal pays what was owed; its subtraction does not saturate |
| `MiningBound.ClaimKeeps` | node/pallets/rdex/mining/src/lib.rs:203-219 | a claim pays exactly what stops being owed |
| `MiningBound.EmergencyKeeps` | node/pallets/rdex/mining/src/lib.rs:224-248 | an emergency withdrawal forfeits what was owed |
| `MiningBound.OwedExact` | node/pallets/rdex/mining/src/lib.rs:161-163 | the payout subtraction never saturates |
| `MiningEmission.EmissionPathIndependent` | node/pallets/rdex/mining/src/lib.rs:411-452 | over constant positive stake any n updates leave the same pool as one, but for a reward per share lower by at most n − 1, and never higher while the scaled emission fits u128 |
| `MiningEmission.SaturationCredits` | node/pallets/rdex/mining/src/lib.rs:411-442 | an input past that bound: the same emission in two updates credits more than in one |
| `MiningEmission.BudgetChange` | node/pallets/rdex/mining/src/lib.rs:284-301 | a new total keeps left + emitted = total if and only if it does not cut below what was emitted |
| `MiningEmission.PaidWithinBudget` | node/pallets/rdex/mining/src/lib.rs:284-301 | so a grade pays at most its total reward, up to the same rounding |
| `MiningPayouts.ClaimedIsPaid` | node/pallets/rdex/mining/src/lib.rs:144-248 | over any run, the claimed amount of every stake grows by exactly what the calls paid out for it, saturating like the record |
| `MiningPayouts.EmissionCovered` | node/pallets/rdex/mining/src/lib.rs:103-248 | and from below: over any run in which the products of the updates fit u128, what a grade emitted is paid, owed to its stakes, or lost, in scaled units: less than the staked units per update that emits, less than one unit of reward per withdrawal, and what is owed to a stake withdrawn in an emergency |
| `MiningPayouts.StepCovered` | node/pallets/rdex/mining/src/lib.rs:103-248 | the same for every single call |
| `MiningEffects.UpdateDoes` | node/pallets/rdex/mining/src/lib.rs:411-452 | an update moves min(blocks × perBlock, left) out of the budget and credits every unit with its exact share, bounded on both sides |
| `MiningEffects.DepositDoes` | node/pallets/rdex/mining/src/lib.rs:121-136 | a deposit moves exactly its LP into the module and opens a stake of that size whose debt is exactly what it would have accrued |
| `MiningEffects.DepositSucceeds` | node/pallets/rdex/mining/src/lib.rs:103-120 | and succeeds if and only if the grade takes it, the lock ends before the grade, and the account has the LP |
| `MiningEffects.ClaimDoes` | node/pallets/rdex/mining/src/lib.rs:193-220 | after a claim, paid + old debt is exactly the stake's accrual, REWARD_FACTOR·(paid + debt) ≤ lp·perShare < REWARD_FACTOR·(paid + debt) + REWARD_FACTOR up to the cut at u128; it becomes the debt, and the record grows by what was paid |
| `MiningEffects.ClaimSucceeds` | node/pallets/rdex/mining/src/lib.rs:193-212 | and it succeeds if and only if there is no emergency and the reward, if any, can be paid |
| `MiningEffects.WithdrawDoes` | node/pallets/rdex/mining/src/lib.rs:160-188 | a withdrawal returns exactly the LP asked for and settles likewise, with the debt of the units that stay |
| `MiningEffects.WithdrawSucceeds` | node/pallets/rdex/mining/src/lib.rs:144-175 | and succeeds if and only if the block is past deposit height + locked blocks, there is no emergency, the stake has the units and the reward can be paid |
| `MiningEffects.EmergencyDoes` | node/pallets/rdex/mining/src/lib.rs:224-248 | an emergency withdrawal succeeds if and only if the grade is in emergency and something is staked, returns the whole stake and pays nothing |
| `MiningEffects.NewGradeEmits` | node/pallets/rdex/mining/src/lib.rs:252-280 | a new grade is empty, holds its whole reward and emits it from its start, or its creation if later, at its rate |
| `MiningPallet.RDexMining.DepositLp` | node/pallets/rdex/mining/src/lib.rs:103-140 | storage and LP balances after the call, its error and its payout are those of `Deposit`; keeps the history and the potential of every grade |
| `MiningPallet.RDexMining.WithdrawLp` | node/pallets/rdex/mining/src/lib.rs:144-189 | likewise for `Withdraw`; keeps the history and the potential of every grade |
| `MiningPallet.RDexMining.Claim` | node/pallets/rdex/mining/src/lib.rs:193-220 | likewise for the claim; keeps the history and the potential of every grade |
| `MiningPallet.RDexMining.WithdrawInEmergency` | node/pallets/rdex/mining/src/lib.rs:224-248 | likewise for the emergency withdrawal; keeps the history and the potential of every grade |
| `MiningPallet.RDexMining.AddGrade` | node/pallets/rdex/mining/src/lib.rs:252-280 | likewise for `add_pool`; keeps the history and the potential of every grade |
| `MiningPallet.RDexMining.UpdateGrade` | node/pallets/rdex/mining/src/lib.rs:284-301 | likewise for `update_stake_pool`; keeps the history and the potential of every grade |
| `MiningPallet.RDexMining.RemoveGrade` | node/pallets/rdex/mining/src/lib.rs:305-316 | likewise for `rm_pool`, which keeps them when the last grade goes |
| `MiningBound.EmptyIsGone` | node/pallets/rdex/mining/src/lib.rs:305-316 | nothing is staked in or owed by a grade that may be removed |
| `Vesting.VestingOverClaims` | node/pallets/claims/rclaim/src/lib.rs:316-344 | for any number and timing of claims: claimed × locked ≤ reward × (now − mint) before the final block, the shortfall after n paid claims is less than n units, and a claim at or after the final block completes exactly |
| `RewardActProofs.VestingInRuns` | node/pallets/claims/rclaim/src/lib.rs:316-344 | the same for a claim record in the pallet, over any run whose updates of its act leave locked_blocks |
| `Vesting.ClaimsOnSchedule` | node/pallets/claims/rclaim/src/lib.rs:316-344 | the same from any point reached by earlier claims |
| `RewardActProofs.BudgetsInRuns` | node/pallets/claims/rclaim/src/lib.rs:135-222 | in every run whose updates do not cut below what is allocated, left + all allocated rewards of a cycle = its total, for every cycle |
| `RewardActProofs.UpdateBudget` | node/pallets/claims/rclaim/src/lib.rs:182-222 | an update keeps that equation if and only if the new total covers what is allocated |
| `RewardActProofs.AllocateKeeps` | node/pallets/claims/rclaim/src/lib.rs:505-552 | an allocation moves its reward from left to the claims of its own cycle |
| `RewardActProofs.CursorInRuns` | node/pallets/claims/rclaim/src/lib.rs:478-582 | after any run that moves no window of an act, at any later block, the incremental cursor finds exactly the one act whose window contains the block |
| `RewardActProofs.LocateIsSearch` | node/pallets/claims/rclaim/src/lib.rs:556-582 | one advance of the cursor gives what a search of the whole list would |
| `RewardActProofs.BatchIsSequence` | node/pallets/claims/rclaim/src/lib.rs:383-462 | the batch entry point leaves the same state as one update per entry |
| `RewardActProofs.RecordInRuns` | node/pallets/claims/rclaim/src/lib.rs:316-344 | whatever else a run does, as long as locked_blocks of its act stays, a claim record changes only by its own paid claims, as the vesting laws describe |
| `RewardEffects.PaidInRuns` | node/pallets/claims/rclaim/src/lib.rs:316-344 | what the claims of a fresh reward pay over a run that leaves its vesting time: at most the reward, never ahead of the line, behind it by less than one unit per paid claim, and exactly the reward once a claim comes at the final block |
| `RewardEffects.PaidIsClaimed` | node/pallets/claims/rclaim/src/lib.rs:316-344 | over any run, whatever is updated, everything paid for a record equals the growth of its claimed amount, and never passes the reward |
| `RewardEffects.ClaimPays` | node/pallets/claims/rclaim/src/lib.rs:316-344 | a claim succeeds if and only if it is worth something and can be paid; it then pays exactly that and records it, otherwise it pays nothing and changes nothing; what it is worth is bounded on both sides |
| `RewardEffects.MintAllocates` | node/pallets/claims/rclaim/src/lib.rs:478-553 | a mint while an act with budget runs records exactly native × rate / RATEBASE rounded down, cut by the budget and the user limit, takes it from the budget, and touches no other record or act |
| `RewardEffects.MintIgnored` | node/pallets/claims/rclaim/src/lib.rs:478-500 | any other mint only moves the cursor |
| `RewardEffects.RewardIsGrant` | node/pallets/claims/rclaim/src/lib.rs:503-522 | the reward is that quotient, bounded on both sides, and nothing where it does not fit u128 |
| `RewardEffects.AddActDoes` | node/pallets/claims/rclaim/src/lib.rs:135-178 | an act is added if and only if its parameters are sound, it is not over and begins after the last one ends; it starts with its whole budget |
| `RewardEffects.UpdateActDoes` | node/pallets/claims/rclaim/src/lib.rs:182-222 | an update sets the parameters, keeps what was minted and moves what is left by the change of the total, cut at both ends |
| `RewardPallet.RClaim.AddRewardAct` | node/pallets/claims/rclaim/src/lib.rs:135-178 | storage after the call and its error are those of `AddAct`; keeps the budgets and the order of the acts |
| `RewardPallet.RClaim.UpdateRewardAct` | node/pallets/claims/rclaim/src/lib.rs:182-222 | likewise for `UpdateAct`; keeps the budgets and the order of the acts |
| `RewardPallet.RClaim.AdvanceCursor` | node/pallets/claims/rclaim/src/lib.rs:556-582 | the scanning loop leaves the cursor of `Advance` |
| `RewardPallet.RClaim.RecordMint` | node/pallets/claims/rclaim/src/lib.rs:478-553 | likewise for `UpdateClaimInfo`; keeps the budgets and the order of the acts |
| `RewardPallet.RClaim.RecordBatch` | node/pallets/claims/rclaim/src/lib.rs:383-462 | the batch loop leaves the state of `UpdateBatch`, its refusals included; keeps the budgets and the order of the acts |
| `RewardPallet.RClaim.ClaimRtokenReward` | node/pallets/claims/rclaim/src/lib.rs:316-344 | likewise for `ClaimReward`; keeps the budgets and the order of the acts |
| `VoteOutcome.VoteDecides` | node/pallets/rtoken/votes/src/lib.rs:41-61 | with N fixed relayers and a threshold t in 1..N, once all have voted in time the proposal is Approved if and only if at least t first votes favoured it, in every order; otherwise it is Rejected, or for N = u32::MAX left undecided |
| `VoteOutcome.RunRecords` | node/pallets/rtoken/votes/src/lib.rs:150-185 | at every point the stored tallies are the first votes of distinct relayers, and the status the one they call for |
| `Votes.DecisionsInRuns` | node/pallets/rtoken/votes/src/lib.rs:150-185 | in any run, with relayers and thresholds changing, no account votes twice on either side and a decided status never changes |
| `Votes.DispatchesForGood` | node/pallets/rtoken/votes/src/lib.rs:188-202 | a decided proposal, rejected ones included, is dispatched by every later relayer call, and only decided ones are |
| `Votes.VoteSettles` | node/pallets/rtoken/votes/src/lib.rs:41-52 | a first vote in time on an open proposal counts on its side, approves it if and only if enough are then in favour, rejects it if and only if too few can still be, and dispatches exactly what it settles |
| `Votes.LateVoteExpires` | node/pallets/rtoken/votes/src/lib.rs:150-185 | a first vote at or after expiry on an open proposal fails, stores it as expired, and no later call of any run dispatches it |
| `Votes.VoteAfter` | node/pallets/rtoken/votes/src/lib.rs:150-202 | a repeated vote changes no ballot, one on a settled proposal is only recorded, and either dispatches exactly if the proposal is decided |
| `Votes.CountInRuns` | node/pallets/rtoken/relayers/src/lib.rs:77-101 | the relayer counter is the size of the relayer set |
| `Votes.RTokenVotes.SetRelayerThreshold` | node/pallets/rtoken/relayers/src/lib.rs:66-73 | stores a positive threshold, refuses zero; keeps voters, decisions and the count |
| `Votes.RTokenVotes.AddToRelayers` | node/pallets/rtoken/relayers/src/lib.rs:77-87 | adds a new relayer and counts it, or fails unchanged; keeps voters, decisions and the count |
| `Votes.RTokenVotes.RemoveFromRelayers` | node/pallets/rtoken/relayers/src/lib.rs:91-101 | removes a relayer and uncounts it, or fails unchanged; keeps voters, decisions and the count |
| `Votes.RTokenVotes.Commit` | node/pallets/rtoken/votes/src/lib.rs:150-185 | the stored ballot and error are those of `CommitVote`; expiry is stored although the call fails |
| `Votes.RTokenVotes.AcknowledgeProposal` | node/pallets/rtoken/votes/src/lib.rs:131-138 | likewise for the whole call, with the last voter stored first and with whether it dispatched; keeps voters, decisions and the count |
| `BridgeVotes.ProposalsInRuns` | node/pallets/bridge/common/src/lib.rs:614-663 | for every proposal and run: dispatched successfully at most once, never once expired, and only after as many distinct voters as the threshold asked for when it first passed, through failed dispatches and retries; executed and expired are final |
| `BridgeVotes.VotePasses` | node/pallets/bridge/common/src/lib.rs:614-663 | a new vote in time counts, passes the proposal as soon as there are as many as the threshold asks for, and dispatches a passed one at once; the outcome of the dispatch decides between executed and still passed |
| `BridgeVotes.LateVoteExpires` | node/pallets/bridge/common/src/lib.rs:614-636 | a new vote at or after expiry fails, stores the proposal as expired, and no later call of any run attempts its dispatch |
| `BridgeVotes.VoteRefused` | node/pallets/bridge/common/src/lib.rs:614-630 | a call that is not allowed, a vote on a completed proposal and a repeated vote change nothing, also where a passed proposal still waits for its dispatch |
| `BridgeVotes.VoteOk` | node/pallets/bridge/common/src/lib.rs:72-105 | one vote, with its dispatch, keeps this for its own proposal |
| `BridgeVotes.BridgeCommon.Commit` | node/pallets/bridge/common/src/lib.rs:614-636 | the stored ballot and error are those of `CommitVote`; expiry is stored although the call fails |
| `BridgeVotes.BridgeCommon.AcknowledgeProposal` | node/pallets/bridge/common/src/lib.rs:640-663 | likewise with the dispatch; a failed one leaves the proposal passed; keeps the agreement of every proposal with its history |
| `BridgeVotes.GenesisOk` | node/pallets/bridge/common/src/lib.rs:614-663 | a bridge without proposals starts there |

## Left out

- `multiply_by_rational`: taken as the floor of a·b/c, absent when that does not fit u128; the library's rounding of products of 2^128 and more is not modelled.
- `Perbill` commissions: any amount between nothing and the whole; the percentages are inputs.
- Hashes of snapshots and bond records are injective, so an id is what it was made from.
- The native currency is a plain ledger, or a flag saying whether a transfer succeeds; existential deposits and keep-alive rules are not modelled.
- Plain `+` on u32 wraps as in a release build; the mining, claims and voting runs assume that their own u32 and u64 counters do not wrap.
- Pipelines.CombinedReportExact: its last clause takes the pipeline's bond plus the reward to fit u128, because that addition saturates.
- DexDepth.DepthInRuns: adds to the pool are exactly proportional and find units in it; others can lower the depth (`DexLimits`) and are covered by the value-per-unit law.
- DexPricing.AddThenRemovePricing: its last clause is for totals that fit u128; past that it fails in `DexLimits.ClampedAddGains` and holds in `DexLimits.ClampedAddMayLose`, by the rounding of the payout alone, and the bound of its first clause is what remains.
- StakeAccounts.StakeInRuns: its clause on reported pools is for reports that are not clamped; a clamped one leaves what `StakeAccounts.ReportLeaves` says.
- MiningPayouts.EmissionCovered: for runs whose updates have products within u128, tested on the grade before each call; past that the products are cut and part of an emission is credited to nobody (`MiningEmission.SaturationCredits`).
- Solvency.SolventInRuns: one symbol of the common kind; RFIS and RETH are backed by other pallets.
- UnbondingChunks.InOrderInRuns: durations do not shrink and unlock eras do not wrap; `UnbondingChunks.PruneLoses` has the exact condition for any list and `ChunkLimits.LiveChunkLost` a run that breaks it.
- RewardPallet.RClaim.RecordBatch: the rETH storage is taken as one more instance of the rToken act and claim storage.
- Switches, signature and recipient checks, fee receivers and native fees of bonds and unbonds are inputs, tested in the order of the source; the bridge's own checks of a destination are one of them.
- The swap record's fee, expiry and refund (`refund_swap_fee`) and `submit_signatures`.
- The root calls that bypass the protocol: `clear_current_era_snap_shots`, ledger `remove_pool`, and mining `rm_pool` of any grade but the last, which shifts the indices of the grades behind it.
- The informational mining fields, the guard fund, and every whitelist and switch beyond whether it admits the call.
- rtoken/rfis, rdexn, xclaim, bridge/swap, xtoken, the signature code, events, weights and origins: one-step transfers, queues or code outside these pallets.
