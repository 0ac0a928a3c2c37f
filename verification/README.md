# Verification of the subgraph ledgers

A Dafny model of the event handlers that keep ledger-like state: funds and bonds of Pearl services, swap
slippage of portfolio agents, tokenomics epochs and OLAS holders, staking epochs, daily snapshots, and
protocol-owned liquidity with its prices. Every handler is a step over a store of entities, and the results
are about every run of these steps. `dafny verify dfyconfig.toml` checks the whole project.

How a module is built:

- the entities are datatypes, and one function per event gives the state it leaves behind;
- a class holds the same tables as mutable fields, with one method per handler, loop for loop; each method
  is proved equal to the function of its event;
- the results are lemmas over runs of that function, against independent definitions: the ERC-20 ledger of
  the same events, the fate of a swap read off the event list, the prefix sums of the rewards.

| file | what it models |
|---|---|
| `pearl_ids.dfy` | entity ids as byte strings |
| `pearl_state.dfy`, `pearl_frames.dfy`, `pearl_invariants.dfy` | tables, events, classifier; what each handler leaves alone; links, write-once roles, single spawns |
| `pearl_ledger.dfy`, `pearl_rows.dfy`, `pearl_links.dfy`, `pearl_rewards.dfy` | balances against the token ledger; immutable rows and funding groups; what rows say of roles; daily rewards |
| `pearl_classes.dfy`, `pearl_services.dfy`, `pearl_discovery.dfy` | the row each event writes; services and operators; safes, proxies, owners and tracked addresses, all read off the events |
| `pearl_bonds.dfy`, `pearl_attribution.dfy`, `pearl_store.dfy` | the per-transaction bond queue; the queue and the tables together; the handlers |
| `pearl_witnesses.dfy` | short runs on which a natural claim fails |
| `swap_ring.dfy`, `swap_buffer.dfy`, `text.dfy` | the four-bucket ring; its printed form; printing and parsing |
| `epochs.dfy`, `holders.dfy` | epoch timeline and matured bonds; holder ledger |
| `staking.dfy`, `staking_services.dfy` | staking epochs; services, lists, histories and totals read off the events |
| `snapshots.dfy`, `snapshot_series.dfy`, `medians.dfy` | snapshots and population metrics; who counts in which series; medians and seven-day windows |
| `liquidity.dfy`, `liquidity_figures.dfy`, `clamped_supply.dfy` | POL accounting; its figures read off the events; clamped counters |
| `price_discovery.dfy`, `price_answers.dfy` | token prices; what is averaged, returned and stored |
| `collections.dfy` | duplicate-free lists and finite sums |

`int` stands for BigInt and exact `real` for BigDecimal. Contract calls (`getOwners`, `getAnswer`, price
adapters, staking parameters) are inputs of the events, a revert being `None`.

Where the code and its documentation differ, or a natural claim is false, the code is modelled and the exact
condition is proved:

- The association window is 1200 seconds and the schema comments speak of buckets of fixed age, but a rotation
  moves one bucket per insert. Swaps of the last 900 seconds are always charged; an older one inside the
  window is charged if and only if fewer than four later swaps opened a bucket (`ChargedIffFewRotations`,
  `WindowSwapLost`).
- A bond maturing exactly at a settlement is listed by both adjacent epochs (`BoundaryMaturityListedTwice`,
  `BoundaryWitness`); one created before the first settlement by none (`EarlyBondNeverListed`, `EarlyBondWitness`).
- Transfers between Agent Safes debit the sender only, so an Agent Safe balance falls short of its holdings
  by exactly these inflows (`AgentBalanceIsHoldings`, `AgentToAgentWitness`).
- An Agent Safe is tracked as one if and only if its service had a Master Safe and its address was not tracked when
  it was discovered (`AgentTrackedIff`). It fails for a multisig created before the link (`LateMasterWitness`) and for
  an address seen before as Master Safe or operator (`MasterAsAgentWitness`, `OperatorAsAgentWitness`).
- A Master Safe balance leaves out what ServiceRegistryL2 sends (`MasterBalanceIsHoldings`,
  `MasterBalanceExactIff`).
- A treasury self-transfer counts as incoming, which can take the stored share above 100 percent
  (`TreasuryExactIff`, `SelfTransferOvercounts`).
- The checkpoint of an epoch overwrites with zero the reward that an unstake recorded, unless it pays the service the
  same, the reward is zero, or the service is by then unlisted or staked elsewhere (`UnstakeRewardSurvivesIff`,
  `UnstakeRewardLost`, `UnstakeRewardKeptByRestaking`).
- A zero-to-zero transfer raises the recorded supply without a holder (`SupplyExactIff`).

## Model

| member | source | states |
|---|---|---|
| PearlLedger.MasterBalanceIsHoldings | subgraphs/pearl-transactions/src/erc20.ts:119-163 | For every run and every Master Safe: when each Master/SRTU leg is paired with a TokenDeposit or TokenRefund of the same amount, the TokenBalance is the change of its ERC-20 holdings since it was tracked, less what ServiceRegistryL2 sent it |
| PearlLedger.MasterBalanceExactIff | subgraphs/pearl-transactions/src/utils.ts:797-805 | Without assuming pairing: a Master balance equals the change of its holdings if and only if the suppressed SRTU legs, the booked bonds and the registry inflows cancel |
| PearlLedger.MasterBalanceSince | subgraphs/pearl-transactions/src/service-registry-token-utility.ts:44-101 | The same balance with no assumption on the bonds: inflow less outflow since tracked, SRTU legs replaced by booked deposits and refunds, registry inflows left out; self-transfers cancel |
| PearlLedger.AgentBalanceIsHoldings | subgraphs/pearl-transactions/src/utils.ts:890-906 | An Agent Safe balance is the change of its holdings since it was tracked, less what other Agent Safes sent it: such a transfer debits its sender only |
| PearlLedger.AgentBalanceSince | subgraphs/pearl-transactions/src/erc20.ts:121-150 | The Agent Safe balance as tallies of the run: inflows less outflows less inflows from Agent Safes |
| PearlLedger.AgentEoaBalanceSince | subgraphs/pearl-transactions/src/erc20.ts:151-154 | An Agent EOA balance is the sum of what Master Safes sent it since it was tracked; it is never debited |
| PearlLedger.NetFlowIsErc20Change | subgraphs/pearl-transactions/src/erc20.ts:42-46 | The inflow and outflow tallies since an event are the change of an independently defined ERC-20 ledger |
| PearlLedger.OnlySafesAndAgentsHaveBalances | subgraphs/pearl-transactions/src/utils.ts:718-740 | In no run does an untracked address, a Master EOA or a staking proxy get a TokenBalance |
| PearlLedger.TrackedSinceSome | subgraphs/pearl-transactions/src/utils.ts:647-662 | Every tracked address became tracked at one event of the run and stays tracked, so the balance theorems apply to all of them |
| PearlLedger.UntrackedHasNoBalance | subgraphs/pearl-transactions/src/utils.ts:789-792 | An address that was never tracked has balance zero for every token |
| PearlLedger.StepMoves | subgraphs/pearl-transactions/src/utils.ts:778-916 | Each of the fifteen events changes each balance by exactly the amount the (from, to) role pair says; the other handlers move nothing |
| PearlInvariants.StepKeepsInv | subgraphs/pearl-transactions/src/utils.ts:116-302 | Every handler keeps: each tracked address links to an existing Master, Agent or staking entity of its role, the Safe template is spawned once per address seen as Master, Agent or both, and balances belong to tracked addresses |
| PearlInvariants.RunKeepsInv | subgraphs/pearl-transactions/src/utils.ts:203-212 | ... in every run from the empty store |
| PearlInvariants.RunExtends | subgraphs/pearl-transactions/src/utils.ts:636-662 | Roles and links are write-once: nothing a run has tracked or discovered is lost or re-tagged by any continuation |
| PearlInvariants.AgentTrackedIff | subgraphs/pearl-transactions/src/utils.ts:244-274 | A discovered Agent Safe is tracked as AGENT, at every later time, if and only if its service had a Master Safe and its address was not tracked yet when it was discovered |
| PearlInvariants.AgentDiscoveredAt | subgraphs/pearl-transactions/src/utils.ts:249-259 | Every stored Agent Safe was discovered by one event of the run, so the condition above decides all of them |
| PearlInvariants.MasterlessAgentNeverTracked | subgraphs/pearl-transactions/src/utils.ts:253-274 | The first failing class: discovered before its service has a Master Safe, never tracked as an Agent Safe |
| PearlWitnesses.LateMasterWitness | subgraphs/pearl-transactions/src/utils.ts:266-274 | A run of the first class: multisig created, then the service linked, the Agent Safe untracked |
| PearlWitnesses.MasterAsAgentWitness | subgraphs/pearl-transactions/src/utils.ts:654-661 | A run of the second class: an address tracked as MASTER becomes the multisig of a linked service and stays MASTER |
| PearlWitnesses.OperatorAsAgentWitness | subgraphs/pearl-transactions/src/utils.ts:288-299 | ... and one where an operator tracked as AGENT_EOA becomes the multisig of another linked service |
| PearlWitnesses.AgentToAgentWitness | subgraphs/pearl-transactions/src/utils.ts:890-898 | A run where an Agent Safe passes an amount on to another: both balances are 0, the second one holds the amount |
| PearlState.Upsert | subgraphs/pearl-transactions/src/utils.ts:647-662 | A first write adds the address with the value given; no entry already there changes |
| PearlState.UpsertOperators | subgraphs/pearl-transactions/src/utils.ts:288-299 | The operator loop tracks exactly the operators other than the Master Safe and leaves earlier entries alone |
| PearlRows.RowsWrittenOnce | subgraphs/pearl-transactions/src/utils.ts:60-70 | In every run with distinct (transaction, log index) pairs no two FundsMovement rows have the same id bytes, so an immutable row is saved once |
| PearlRows.RunOncePerMaster | subgraphs/pearl-transactions/src/utils.ts:853-867 | Each Master Safe has exactly one SAFE_DEPLOYED row and at most one SAFE_SETUP_TRANSFER row, which it has if and only if its flag is set |
| PearlRows.RunFundingAgrees | subgraphs/pearl-transactions/src/utils.ts:940-975 | Each AgentFundingEvent totals are the sums of the OLAS rows and of the native rows linked to it |
| PearlLinks.RowsStayExplained | subgraphs/pearl-transactions/src/utils.ts:778-916 | For every run and raw row, at any later time: its links lead to stored entities and its Agent Safe to its service, and the roles of its two addresses are among those its category allows; which category they get is decided by PearlClasses.TransferRowByRoles |
| PearlClasses.TransferRowByRoles | subgraphs/pearl-transactions/src/utils.ts:778-916 | For every transfer of every run, from the roles of its two sides alone: no row exactly for two unknown sides or an SRTU leg of a Master Safe; otherwise one row with its log id, token, amount and parties, each category exactly for its own role pairs in the priority order of the source (a setup transfer exactly while its recipient has no such row), and the links of the Safe involved |
| PearlClasses.RawRowByRoles | subgraphs/pearl-transactions/src/erc20.ts:66-119 | ... so every raw row of a run was left by one of its transfers in that way |
| PearlClasses.RewardRow | subgraphs/pearl-transactions/src/staking-proxy.ts:63-144 | A claim or an unstake writes one row: the reward in OLAS from the proxy to the multisig, under the service, its Master Safe (or else the owner of the event) and its Agent Safe (or else the multisig) |
| PearlClasses.EvictionRows | subgraphs/pearl-transactions/src/staking-proxy.ts:175-220 | An eviction writes, in order, one row of amount zero per service id under its slot id, with the same links, a missing owner or multisig being the zero address |
| PearlClasses.DeployedRowAt | subgraphs/pearl-transactions/src/utils.ts:217-232 | Every other event writes nothing but the SAFE_DEPLOYED row of an address that becomes a Master Safe with it, and this row exactly then |
| PearlClasses.RowsKept | subgraphs/pearl-transactions/src/utils.ts:60-70 | Rows are only appended: those of a prefix are a prefix of the rows |
| PearlClasses.RowWrittenAt | subgraphs/pearl-transactions/src/utils.ts:60-70 | Every row of a run was written by one of its events |
| PearlServices.MasterOfLastLink | subgraphs/pearl-transactions/src/service-registry.ts:115-146 | In every run the Master Safe of a service is the recipient or owner of the last event that handed it to an address then known as a Master Safe, burns and staking proxies aside, whether or not it had one before |
| PearlServices.UnlinkedHasNoMaster | subgraphs/pearl-transactions/src/service-registry.ts:138-145 | ... and a service never handed over so has none |
| PearlServices.AgentOfLastMultisig | subgraphs/pearl-transactions/src/service-registry.ts:95-99 | The Agent Safe of a service is the multisig of the last deployment or stake of it |
| PearlServices.UnnamedHasNoAgent | subgraphs/pearl-transactions/src/utils.ts:306-325 | ... and without one the service has no Agent Safe |
| PearlServices.ServiceStoredIff | subgraphs/pearl-transactions/src/utils.ts:306-325 | A service is stored if and only if an event other than a registration has named it |
| PearlServices.OperatorsIff | subgraphs/pearl-transactions/src/utils.ts:408-447 | The operators of a service are exactly those registered while it was stored, and those registered before once a multisig is created for it later |
| PearlServices.PendingIff | subgraphs/pearl-transactions/src/utils.ts:362-403 | The buffered operators are exactly those registered before the service was stored |
| PearlDiscovery.MastersIff | subgraphs/pearl-transactions/src/utils.ts:116-215 | The Master Safes are exactly the addresses that answered getOwners with some owner when a service was handed to them, staking proxies accepted by then and the burn address aside for token moves |
| PearlDiscovery.StakingIff | subgraphs/pearl-transactions/src/staking-factory.ts:20-66 | A staking contract is stored if and only if its creation was accepted |
| PearlDiscovery.AgentsIff | subgraphs/pearl-transactions/src/utils.ts:244-259 | The Agent Safes are exactly the multisigs named by a deployment or a stake |
| PearlDiscovery.AgentOfFirstNaming | subgraphs/pearl-transactions/src/utils.ts:249-259 | An Agent Safe belongs for good to the service that named it first and to the Master Safe this service then had |
| PearlDiscovery.TrackedByFirstClaim | subgraphs/pearl-transactions/src/utils.ts:647-662 | Which role, Master Safe and service an address is tracked with: those of its first claim, for good (a new Master Safe, its first owner, a new Agent Safe of a linked service, an operator of it, an accepted proxy, in this order) |
| PearlDiscovery.OwnersMove | subgraphs/pearl-transactions/src/safe.ts:105-138 | Each event moves the owner list and the EOA of a stored Master Safe as its owner events say; a removed EOA is replaced by the first owner left, if any |
| PearlDiscovery.OwnerOfLastTouch | subgraphs/pearl-transactions/src/safe.ts:105-138 | An address owns a Master Safe when its last owner event added it |
| PearlDiscovery.OwnerOfProbe | subgraphs/pearl-transactions/src/utils.ts:153-167 | ... and without an owner event since the safe was stored, when the answer that stored it named the address |
| PearlDiscovery.WithoutAppend | subgraphs/pearl-transactions/src/safe.ts:125-129 | Filtering a removed owner takes out every occurrence and keeps the others in their order |
| PearlIds.RowIdInjective | subgraphs/pearl-transactions/src/staking-proxy.ts:181-219 | Per-event, per-evicted-slot and safe-deployed ids are equal byte strings only for equal keys, within a kind and across kinds |
| PearlIds.SlotIdInjective | subgraphs/pearl-transactions/src/utils.ts:95-97 | Queue slot ids determine the transaction and the slot, for all i32 slots |
| PearlIds.BalanceIdInjective | subgraphs/pearl-transactions/src/utils.ts:725-728 | TokenBalance ids determine the safe and the token |
| PearlRewards.TotalIsAllRewards | subgraphs/pearl-transactions/src/utils.ts:608-611 | A service total is the sum of all its claimed and unstaked rewards, in any event order |
| PearlRewards.BucketPerRewardedDay | subgraphs/pearl-transactions/src/utils.ts:593-601 | A daily bucket exists exactly for the days with a reward event of the service |
| PearlRewards.BucketsArePrefixSums | subgraphs/pearl-transactions/src/utils.ts:585-611 | With block times in order each bucket holds its day sum and, as cumulative value, the prefix sum of the daily sums |
| PearlRewards.ThroughIsPrefixSum | subgraphs/pearl-transactions/src/utils.ts:575-579 | Rewards booked through a day are the sum of the daily amounts of all days up to it |
| Collections.DayStartIs | subgraphs/pearl-transactions/src/utils.ts:575-579 | The days of the buckets start at multiples of 86400 seconds and last that long |
| PearlBonds.AttributionIsFifo | subgraphs/pearl-transactions/src/utils.ts:506-550 | In every interleaving the j-th row appended in a transaction carries the service, bond type and safes of the j-th served request of that transaction, and nothing but the stamp of its producer while there is no such request |
| PearlBonds.QueueCounts | subgraphs/pearl-transactions/src/utils.ts:485-499 | A queue holds exactly the rows appended in its transaction; the attributed prefix is as long as the requests served |
| PearlBonds.InterleavingIrrelevant | subgraphs/pearl-transactions/src/utils.ts:459-468 | Events of other transactions neither change a queue and its rows nor the requests it serves |
| PearlBonds.AppendedDistinct | subgraphs/pearl-transactions/src/utils.ts:482-499 | Different slots and different transactions never hold the same row, so no row is attributed twice |
| PearlBonds.RegisterInstanceTakesOneRow | subgraphs/pearl-transactions/src/utils.ts:557-569 | Repeated RegisterInstance events of one (transaction, service) consume at most one row |
| PearlBonds.ServedIff | subgraphs/pearl-transactions/src/utils.ts:506-569 | A request is served if and only if its transaction has a row left and, for RegisterInstance, none of the service came before it in the transaction, served or not |
| PearlBonds.GuardedIffAsked | subgraphs/pearl-transactions/src/utils.ts:557-569 | The guard of a (transaction, service) is set exactly after a RegisterInstance of it |
| PearlAttribution.AttributedBondEndsWith | subgraphs/pearl-transactions/src/utils.ts:523-545 | In runs interleaving all handlers, an attributed BondMovement was produced and attributed by one SRTU and one registry event of its transaction and carries the service and bond type of the latter, the paying Master Safe or else that of the service, and the Agent Safe the service had right then |
| PearlAttribution.OpenBondCarriesStamp | subgraphs/pearl-transactions/src/service-registry-token-utility.ts:44-101 | A row no request reached carries the stamp of its producer and nothing else |
| PearlAttribution.BondLinksResolve | subgraphs/pearl-transactions/src/utils.ts:535-543 | The Master Safe and the Agent Safe an attributed row names are stored entities at every later time |
| PearlAttribution.MasterKeepsItsBonds | subgraphs/pearl-transactions/src/service-registry-token-utility.ts:52-54 | A row paid by or refunded to a tracked Master Safe names it for good |
| PearlAttribution.RunStoresAgentSafes | subgraphs/pearl-transactions/src/service-registry.ts:95-99 | Every Agent Safe a Service names is stored, in every run |
| PearlAttribution.RowsAreBonds | subgraphs/pearl-transactions/src/service-registry-token-utility.ts:44-101 | The rows of a transaction are the ids of its SRTU deposits and refunds, in log order |
| PearlAttribution.RegistryEventTakesRow | subgraphs/pearl-transactions/src/service-registry.ts:41-174 | RegisterInstance and OperatorUnbond ask for an agent bond, ActivateRegistration and TerminateService for a security deposit; each takes the oldest open row of its transaction if there is one, RegisterInstance only the first time for its service, and brings the links the service has right after the event |
| PearlAttribution.OtherEventsTakeNoRow | subgraphs/pearl-transactions/src/service-registry.ts:41-174 | No other event takes a row |
| PearlBonds.BondQueue.EnqueueRow | subgraphs/pearl-transactions/src/utils.ts:470-499 | The producer: a new row goes to slot nextEnqueueSlot unattributed and the queue grows by it at the end; other queues are unchanged |
| PearlBonds.BondQueue.Scan | subgraphs/pearl-transactions/src/utils.ts:514-549 | The slot scan finds the first open slot of any table, and counts its probes |
| PearlBonds.BondQueue.DequeueAndAttribute | subgraphs/pearl-transactions/src/utils.ts:506-550 | On a well-formed queue the scan stops at its first probe when the queue is not empty; the oldest row is attributed and nothing else changes |
| PearlBonds.BondQueue.Attribute | subgraphs/pearl-transactions/src/utils.ts:517-547 | Filling one slot: flag, counter and row |
| PearlBonds.BondQueue.Consume | subgraphs/pearl-transactions/src/service-registry.ts:41-78 | RegisterInstance goes through the once-per-service guard, the other consumers straight to the queue; both come to the queue specification |
| PearlStore.Store.UpsertTrackedAddress | subgraphs/pearl-transactions/src/utils.ts:647-662 | Write-once tracking of one address |
| PearlStore.Store.GetOrCreateMasterSafe | subgraphs/pearl-transactions/src/utils.ts:116-215 | First sighting: getOwners probe, entity, SAFE_DEPLOYED row, two tracked addresses and at most one spawn; a failed probe changes nothing |
| PearlStore.Store.TrackOperators | subgraphs/pearl-transactions/src/utils.ts:288-299 | The operator loop |
| PearlStore.Store.GetOrCreateAgentSafe | subgraphs/pearl-transactions/src/utils.ts:244-302 | First sighting of an Agent Safe; masterless services track nothing |
| PearlStore.Store.GetOrCreateService | subgraphs/pearl-transactions/src/utils.ts:306-325 | Existing service or a new empty one, saved |
| PearlStore.AppendOnce | subgraphs/pearl-transactions/src/utils.ts:346-357 | The membership loop appends exactly when the value is missing |
| PearlStore.MergeLists | subgraphs/pearl-transactions/src/utils.ts:431-444 | The nested merge loops unite two lists without duplicates, order kept |
| PearlStore.Store.HandleRegisterInstance | subgraphs/pearl-transactions/src/service-registry.ts:41-60 | Operator into the service, or buffered until the service exists |
| PearlStore.Store.HandleCreateMultisigWithAgents | subgraphs/pearl-transactions/src/service-registry.ts:84-102 | Buffered operators are drained, the Agent Safe is discovered and linked |
| PearlStore.Store.HandleServiceNftTransfer | subgraphs/pearl-transactions/src/service-registry.ts:115-146 | Burns and staking proxies keep the link, a Safe recipient becomes the Master Safe, replacing any earlier one; over runs this is PearlServices.MasterOfLastLink |
| PearlStore.Store.HandleTerminateService | subgraphs/pearl-transactions/src/service-registry.ts:151-163 | Only the service row itself is touched |
| PearlStore.Store.HandleServiceStaked | subgraphs/pearl-transactions/src/staking-proxy.ts:32-57 | Owner as Master Safe when it is a Safe, multisig as Agent Safe |
| PearlStore.Store.HandleInstanceCreated | subgraphs/pearl-transactions/src/staking-factory.ts:20-66 | An accepted proxy becomes a staking contract and a tracked STAKING address |
| PearlStore.Store.HandleSafeAddedOwner | subgraphs/pearl-transactions/src/safe.ts:105-118 | Owners of known Master Safes only, without duplicates |
| PearlStore.Store.HandleSafeRemovedOwner | subgraphs/pearl-transactions/src/safe.ts:120-138 | All copies of the owner go; a removed Master EOA is replaced by the first owner left |
| PearlStore.Store.UpsertTokenBalance | subgraphs/pearl-transactions/src/utils.ts:718-740 | A signed delta on one (safe, token) balance, zero when missing |
| PearlStore.Store.MarkSetupTransferSeen | subgraphs/pearl-transactions/src/utils.ts:921-926 | The flag of an existing Master Safe |
| PearlStore.Store.BookRow | subgraphs/pearl-transactions/src/erc20.ts:66-119 | Row, setup flag and funding group of a classified transfer |
| PearlStore.CreditsByCategory | subgraphs/pearl-transactions/src/erc20.ts:121-134 | A classified pair is credited by role exactly when its category is one the handler credits |
| PearlStore.DebitsByCategory | subgraphs/pearl-transactions/src/erc20.ts:135-160 | ... and debited exactly when its category is one the handler debits or the transfer is between Master Safes |
| PearlStore.Store.AddToFundingEvent | subgraphs/pearl-transactions/src/utils.ts:940-975 | One group, created at zero, raised by OLAS or native amounts only |
| PearlStore.Store.UpdateBalances | subgraphs/pearl-transactions/src/erc20.ts:121-162 | The branches on the category come to the role-pair rule for credit and debit |
| PearlStore.Store.HandleErc20Transfer | subgraphs/pearl-transactions/src/erc20.ts:42-163 | The whole handler: nothing when unclassified, otherwise row, flag, group and balances; over runs the row is PearlClasses.TransferRowByRoles |
| PearlStore.Store.HandleSafeReceived | subgraphs/pearl-transactions/src/safe.ts:29-79 | The native path through the same classifier; it moves no TokenBalance |
| PearlStore.Store.BookBond | subgraphs/pearl-transactions/src/service-registry-token-utility.ts:22-101 | Deposit debits and refund credits a tracked Master Safe, and nobody else |
| PearlStore.Store.AddDailyOlasReward | subgraphs/pearl-transactions/src/utils.ts:585-611 | Day bucket and running total go up by the same amount |
| PearlStore.Store.HandleRewardClaimed | subgraphs/pearl-transactions/src/staking-proxy.ts:63-100 | One row and one daily reward |
| PearlStore.Store.HandleAnyUnstake | subgraphs/pearl-transactions/src/staking-proxy.ts:102-144 | One row, and a daily reward when the reward is positive |
| PearlStore.Store.HandleServicesEvicted | subgraphs/pearl-transactions/src/staking-proxy.ts:175-220 | One row per evicted slot, missing owners and multisigs as the zero address |
| SwapRing.RingHoldsFates | subgraphs/babydegen/babydegen-base/src/swapTracking.ts:187-225 | In every run the four buckets hold exactly the swaps whose fate says so, in order: each added swap is in one bucket, or charged, or discarded |
| SwapRing.BufferedIndexBound | subgraphs/babydegen/babydegen-base/src/swapTracking.ts:203-212 | A swap in bucket i has a bucket index of at most currentBucketIndex - i |
| SwapRing.DiscardedIsOld | subgraphs/babydegen/babydegen-base/src/swapTracking.ts:79-82 | A rotation discards only swaps more than 900 seconds older than the swap causing it |
| SwapRing.ChargeIsSumOfFates | subgraphs/babydegen/babydegen-base/src/helpers.ts:737-820 | A position is charged the sum of the slippages of exactly the swaps whose fate is that position, and zero when that sum is negative |
| SwapRing.FateIsFinal | subgraphs/babydegen/babydegen-base/src/helpers.ts:803-813 | A swap once charged or discarded stays so, whatever comes later |
| SwapRing.NoSwapChargedTwice | subgraphs/babydegen/babydegen-base/src/helpers.ts:803-820 | No swap reaches two positions of a run |
| SwapRing.UnchargedFate | subgraphs/babydegen/babydegen-base/src/swapTracking.ts:205-211 | An uncharged swap sits in the bucket its count of rotations says, and is lost after four |
| SwapRing.ChargedIffFewRotations | subgraphs/babydegen/babydegen-base/src/helpers.ts:737-777 | A swap inside the 1200 s window is charged if and only if fewer than four later swaps opened a new bucket |
| SwapRing.RecentSwapsAreCharged | subgraphs/babydegen/babydegen-base/src/helpers.ts:746-777 | With block times in order every uncharged swap of the last 900 seconds is charged |
| SwapRing.WindowSwapLost | subgraphs/babydegen/babydegen-base/src/swapTracking.ts:203-212 | A concrete run where a swap 901 seconds old, inside the window, has been discarded |
| SwapRing.FlaggedIffCharged | subgraphs/babydegen/babydegen-base/src/helpers.ts:784-798 | A SwapTransaction is marked associated exactly when its fate is to be charged |
| SwapRing.WindowTestsAgree | subgraphs/babydegen/babydegen-base/src/swapTracking.ts:178-183 | The expiry test of an entry never decides differently from the window test |
| SwapRing.BucketBounds | subgraphs/babydegen/babydegen-base/src/swapTracking.ts:79-82 | Bucket k holds the times from 300 k up to 300 (k + 1) |
| SwapRing.FateBounded | subgraphs/babydegen/babydegen-base/src/helpers.ts:746-777 | A charged swap was charged by a later position at most 1200 seconds after it was made |
| SwapBuffer.EntryFields | subgraphs/babydegen/babydegen-base/src/swapTracking.ts:86-88 | Splitting a printed entry at commas gives back timestamp, id, slippage, expiry and id |
| SwapBuffer.RenderRoundTrip | subgraphs/babydegen/babydegen-base/src/swapTracking.ts:214-220 | Splitting a stored bucket at bars gives back exactly the entries written |
| SwapBuffer.ParsedTotal | subgraphs/babydegen/babydegen-base/src/helpers.ts:713-735 | The parsed total of a stored bucket is the sum of the slippages of its swaps |
| SwapBuffer.FilteredEntries | subgraphs/babydegen/babydegen-base/src/helpers.ts:761-777 | Filtering the text by window and expiry is the text of the filtered swaps, kept and taken alike |
| SwapBuffer.BracketsAreNoBucket | subgraphs/babydegen/babydegen-base/src/helpers.ts:714-716 | No stored bucket is the literal that the parser treats as empty |
| SwapBuffer.FlagIffCharged | subgraphs/babydegen/babydegen-base/src/helpers.ts:784-798 | The stored isAssociated field of a swap is true exactly when its fate is to be charged |
| SwapBuffer.ParseTotalSlippageFromBucket | subgraphs/babydegen/babydegen-base/src/helpers.ts:713-735 | The parsing loop, on any text |
| SwapBuffer.SplitByWindow | subgraphs/babydegen/babydegen-base/src/helpers.ts:761-777 | The inner loop, on any entries |
| SwapBuffer.SwapStore.AddSwap | subgraphs/babydegen/babydegen-base/src/swapTracking.ts:176-225 | Rotation, append and the unassociated row keep every buffer the printed form of a ring |
| SwapBuffer.SwapStore.MarkAssociated | subgraphs/babydegen/babydegen-base/src/helpers.ts:784-798 | Exactly the listed ids that exist are marked |
| SwapBuffer.SwapStore.DrainBucket | subgraphs/babydegen/babydegen-base/src/helpers.ts:753-803 | One bucket: the text left, the slippage taken, the ids marked |
| SwapBuffer.SwapStore.DrainBuckets | subgraphs/babydegen/babydegen-base/src/helpers.ts:750-803 | All four buckets |
| SwapBuffer.SwapStore.AssociateSwapsWithPosition | subgraphs/babydegen/babydegen-base/src/helpers.ts:737-820 | The whole association: the slippage collected, or zero when that is negative, the drained ring and the marks, and nothing for an agent without a buffer |
| Text.DecimalRoundTrip | subgraphs/babydegen/babydegen-base/src/swapTracking.ts:86-88 | Parsing a printed decimal gives the same units at the same scale |
| Text.ValueScaled | subgraphs/babydegen/babydegen-base/src/helpers.ts:713-735 | The value of a decimal times its power of ten is its units |
| Text.NatRoundTrip | subgraphs/babydegen/babydegen-base/src/helpers.ts:767-769 | Parsing printed timestamps gives them back |
| Text.HexRoundTrip | subgraphs/babydegen/babydegen-base/src/helpers.ts:788-789 | Parsing a printed id gives its bytes back |
| Text.SplitJoin | subgraphs/babydegen/babydegen-base/src/helpers.ts:759-780 | Splitting a joined list gives the list back, for entries without the separator |
| Epochs.EpochsStored | subgraphs/tokenomics-eth/src/mappings.ts:32-49 | The stored epochs are exactly 1 up to the one after the last settlement |
| Epochs.EpochsOnTimeline | subgraphs/tokenomics-eth/src/mappings.ts:97-105 | Every stored epoch runs from the block after the previous settlement (16699195 for the first) to its own; only the last is open |
| Epochs.BlockInOneEpoch | subgraphs/tokenomics-eth/src/utils.ts:4-25 | The intervals partition the blocks from the first start block on: a block is in one epoch and in no other |
| Epochs.FindEpochIsUnique | subgraphs/tokenomics-eth/src/utils.ts:4-25 | The search returns that epoch for every block from there on |
| Epochs.NothingBeforeFirstBlock | subgraphs/tokenomics-eth/src/utils.ts:4-25 | ... and none for an earlier block |
| Epochs.BondFiled | subgraphs/tokenomics-eth/src/depository.ts:73-124 | A bond is filed under an epoch if and only if some settlement came before it and its block is not before the first |
| Epochs.BondFiledUnder | subgraphs/tokenomics-eth/src/depository.ts:73-124 | ... namely the one after the settlements strictly before its block, of those that had happened when it was created |
| Epochs.BondsFollowCreations | subgraphs/tokenomics-eth/src/depository.ts:73-124 | The k-th bond has the id, amount and maturity of the k-th creation event |
| Epochs.ListsAreOrdered | subgraphs/tokenomics-eth/src/mappings.ts:54-90 | Every list is in the order of the epochs and, within an epoch, of creation |
| Epochs.MaturedBondsExactly | subgraphs/tokenomics-eth/src/mappings.ts:54-88 | For every run, bond and settled epoch: it is listed once if filed before the settlement and maturing in the closed window between the two settlements, and otherwise not at all |
| Epochs.InteriorMaturityListedOnce | subgraphs/tokenomics-eth/src/mappings.ts:74-86 | An attributed bond maturing strictly between two settlements is in one list of the run, once |
| Epochs.BoundaryMaturityListedTwice | subgraphs/tokenomics-eth/src/mappings.ts:74-86 | A bond maturing exactly at a settlement between two swept epochs is in both lists |
| Epochs.EarlyBondNeverListed | subgraphs/tokenomics-eth/src/depository.ts:92-95 | A bond created before the first settlement is filed nowhere and never listed |
| Epochs.BoundaryListsTwice | subgraphs/tokenomics-eth/src/mappings.ts:74-86 | ... as it is in every run of the shape below |
| Epochs.BoundaryWitness | subgraphs/tokenomics-eth/src/mappings.ts:74-86 | A concrete run of that shape: a bond maturing at the second of three settlements |
| Epochs.EarlyListsNever | subgraphs/tokenomics-eth/src/depository.ts:92-95 | A bond created before the first of two settlements and maturing between them is in neither list |
| Epochs.EarlyBondWitness | subgraphs/tokenomics-eth/src/depository.ts:92-95 | A concrete run of that shape |
| Epochs.ClaimableIsListSum | subgraphs/tokenomics-eth/src/mappings.ts:54-95 | totalBondsClaimable is the sum of the amounts over the list |
| Epochs.AmountsAppend | subgraphs/tokenomics-eth/src/mappings.ts:86-88 | That sum is additive and of one bond its amount |
| Epochs.EpochStore.FindEpochId | subgraphs/tokenomics-eth/src/utils.ts:4-25 | The while (true) search ends for every table and returns the first hit before a gap |
| Epochs.EpochStore.HandleCreateBond | subgraphs/tokenomics-eth/src/depository.ts:73-124 | The new bond with the epoch the search found |
| Epochs.EpochStore.SweepEpoch | subgraphs/tokenomics-eth/src/mappings.ts:66-90 | The inner loop: list and running total |
| Epochs.EpochStore.HandleEpochSave | subgraphs/tokenomics-eth/src/mappings.ts:32-129 | The whole settlement: closed epoch, swept bonds, opened epoch |
| Holders.HolderBalanceIsNetFlow | subgraphs/tokenomics-eth/src/utils.ts:88-131 | A holder balance is what the address received less what it sent; the zero address has no row |
| Holders.SupplyIsSumOfBalances | subgraphs/tokenomics-eth/src/utils.ts:88-131 | The recorded supply is the sum of all holder balances plus the zero-to-zero transfers |
| Holders.SupplyExactIff | subgraphs/tokenomics-eth/src/utils.ts:88-105 | It is that sum if and only if nothing was sent from zero to zero |
| Holders.HolderCountIsExact | subgraphs/tokenomics-l2/src/utils.ts:34-83 | Over funded histories no balance is negative and holderCount is the number of positive balances, self-transfers included |
| Holders.MirrorIsVeOlasBalance | subgraphs/tokenomics-eth/src/olas.ts:47-77 | The balance of the veOLAS Token row is always the veOLAS holder balance |
| Holders.HolderStore.HandleTransferBalances | subgraphs/tokenomics-eth/src/utils.ts:88-131 | The handler body against the ledger step |
| Holders.HolderStore.HandleTransfer | subgraphs/tokenomics-eth/src/olas.ts:17-77 | ... with the veOLAS mirror |
| Staking.CheckpointUnitesLists | subgraphs/staking/src/staking-proxy.ts:121-155 | A checkpoint with a tracker makes the next list exactly the union of both, those staked for the next epoch first, and touches no other list |
| Staking.RunListsDistinct | subgraphs/staking/src/staking-proxy.ts:308-326 | No active list of any run names a service twice |
| Staking.StaysListed | subgraphs/staking/src/staking-proxy.ts:84-155 | A listed service stays listed through consecutive checkpoints of its contract, whatever comes between them |
| Staking.CheckpointCloses | subgraphs/staking/src/staking-proxy.ts:53-119 | Each rewarded service ends with a closed history of its reward, each active unrewarded unmigrated one with a closed history of zero (for distinct ids; surplus rewards are not read) |
| Staking.CheckpointLeaves | subgraphs/staking/src/staking-proxy.ts:94-105 | No other history is touched, neither of a migrated service nor of another contract or epoch |
| Staking.UnstakeRewardSurvivesIff | subgraphs/staking/src/utils.ts:284-294 | Whatever comes between an unstake and the next checkpoint of its contract and epoch: a checkpoint rewarding the service must pay the same for the reward to stay, any other keeps it if and only if it is zero, the service is not listed by then, or it is staked with another contract by then |
| Staking.RewardKeptIff | subgraphs/staking/src/staking-proxy.ts:53-119 | The same for the reward in any history, whatever put it there |
| Staking.UnstakeRewardLost | subgraphs/staking/src/staking-proxy.ts:115-118 | A run where the reward is overwritten with 0 |
| Staking.UnstakeRewardKeptByRestaking | subgraphs/staking/src/staking-proxy.ts:97-105 | A run where staking with another contract in between keeps it |
| Staking.RunAggregates | subgraphs/staking/src/utils.ts:265-301 | For every run: current stake is staked less unstaked, and both global figures are the service sums up to what unknown services moved |
| Staking.StakedFirstAggregates | subgraphs/staking/src/staking-proxy.ts:157-160 | When services are staked before they are rewarded or unstaked, global stake and rewards are the sums over services |
| Staking.EpochsParticipated | subgraphs/staking/src/utils.ts:230-263 | totalEpochsParticipated is the number of distinct (contract, epoch) histories of the service |
| StakingServices.ContractOfLastBinding | subgraphs/staking/src/utils.ts:276-282 | In every run the staking contract of a service is that of its last stake, and none after an unstake |
| StakingServices.ServiceKnownIff | subgraphs/staking/src/staking-proxy.ts:288-300 | A service is stored if and only if it was staked |
| StakingServices.FiguresSinceFirstStake | subgraphs/staking/src/utils.ts:265-301 | Since its first stake a service holds its stakes less its unstakes, has earned its rewards of completed checkpoints, and has claimed its claims and the rewards of its unstakes |
| StakingServices.GlobalsAreSums | subgraphs/staking/src/staking-proxy.ts:157-160 | The global figures are the sums of all stakes, all unstakes and all rewards of completed checkpoints |
| StakingServices.ListedIff | subgraphs/staking/src/staking-proxy.ts:84-155 | The list of an epoch names a service if and only if it was staked for it, or for an earlier epoch from which completed checkpoints of the contract, epoch after epoch, carried it there |
| StakingServices.HistoryOfLastWrite | subgraphs/staking/src/staking-proxy.ts:53-119 | A history holds what its last writer wrote: an unstake its reward, keeping the closing mark; a completed checkpoint the reward at the last place of the service, or zero when it is only listed and not staked elsewhere; both closed |
| StakingServices.HistoryNeverWritten | subgraphs/staking/src/utils.ts:230-263 | ... and without a writer it exists, open with reward zero, exactly when the service was staked for it |
| Staking.StakingStore.GetOrCreateHistory | subgraphs/staking/src/utils.ts:230-263 | A new history counts one epoch for a known service |
| Staking.StakingStore.RewardServices | subgraphs/staking/src/staking-proxy.ts:53-82 | The reward loop |
| Staking.StakingStore.CloseUnrewarded | subgraphs/staking/src/staking-proxy.ts:84-119 | The zero-reward loop with its two skips |
| Staking.StakingStore.MergeTracker | subgraphs/staking/src/staking-proxy.ts:121-155 | Both rollover cases |
| Staking.StakingStore.HandleCheckpoint | subgraphs/staking/src/staking-proxy.ts:28-172 | The whole checkpoint; with fewer rewards than ids it aborts and leaves nothing behind |
| Staking.StakingStore.HandleServiceStaked | subgraphs/staking/src/staking-proxy.ts:271-344 | Stake, active list, history and global figures |
| Staking.StakingStore.HandleRewardClaimed | subgraphs/staking/src/staking-proxy.ts:190-223 | The claimed counter of the service |
| Staking.StakingStore.ProcessUnstake | subgraphs/staking/src/utils.ts:265-301 | Unstake of a known or unknown service; over runs the contract it leaves is StakingServices.ContractOfLastBinding |
| Snapshots.EveryServiceSnapshotToday | subgraphs/babydegen/babydegen-base/src/portfolioScheduler.ts:65-98 | After every block each registered service has its last snapshot on the day of the block |
| Snapshots.OneSnapshotPerDay | subgraphs/babydegen/babydegen-base/src/portfolioScheduler.ts:111-133 | No service ever has two snapshots on one day |
| Snapshots.RunTracks | subgraphs/babydegen/babydegen-base/src/helpers.ts:606-645 | In every in-order run the remembered last snapshot of a portfolio is one of those made, stored, and no earlier than any other of the portfolio |
| Snapshots.MetricPerDay | subgraphs/babydegen/babydegen-base/src/globalMetrics.ts:680-795 | A day has a metric exactly when a block of it found a registered service; it counts the services registered at the first such block, and each of the fourteen series is the median of their readings there, with the exclusions of that series |
| Snapshots.WindowIsLastSevenDays | subgraphs/babydegen/babydegen-base/src/globalMetrics.ts:797-922 | Each window of each of the fourteen series is, in order, the medians of the last min(7, streak) consecutive recorded days, the average is their mean, and the over-long branch is never reached |
| Snapshots.BlockKeepsWindows | subgraphs/babydegen/babydegen-base/src/globalMetrics.ts:797-922 | One block keeps that for all days recorded so far |
| SnapshotSeries.MetricOfDay | subgraphs/babydegen/babydegen-base/src/globalMetrics.ts:680-795 | A recorded day counts everyone registered at the first block of the day that found a service, at their worth there; the median of each of the fourteen series is the middle of its values, and the second count is of those with more than two positions |
| SnapshotSeries.ReadingsAreValues | subgraphs/babydegen/babydegen-base/src/globalMetrics.ts:700-785 | Which agents count in each series with which of their figures, in snapshot order: all for the returns; those funded with a dollar or worth something for the PnL series; those with a funding balance for the managed value; the same of the agents with more than two positions for the Active ones |
| SnapshotSeries.DayRecordedIff | subgraphs/babydegen/babydegen-base/src/globalMetrics.ts:690-697 | A day is recorded if and only if one of its blocks found a registered service |
| SnapshotSeries.SnapshotMadeAt | subgraphs/babydegen/babydegen-base/src/helpers.ts:606-645 | A stored snapshot holds what its service was worth at a block of its time that listed the service |
| SnapshotSeries.RegistryIff | subgraphs/babydegen/babydegen-base/src/portfolioScheduler.ts:170-197 | The registry lists exactly the registered services |
| SnapshotSeries.DayBounds | subgraphs/babydegen/babydegen-base/src/globalMetrics.ts:21-24 | Day d holds the times from 86400 d up to 86400 (d + 1) |
| Medians.MedianSplitsValues | subgraphs/babydegen/babydegen-base/src/globalMetrics.ts:31-61 | At least half of the values are at most the median and at least half are at least the median |
| Medians.MedianIsMiddle | subgraphs/babydegen/babydegen-base/src/globalMetrics.ts:31-61 | For every ascending rearrangement of the values the median is its middle element, or the mean of its two middle elements |
| Medians.SortedPermutes | subgraphs/babydegen/babydegen-base/src/globalMetrics.ts:40-45 | Sorting rearranges the values |
| Medians.SumRealsAppend | subgraphs/babydegen/babydegen-base/src/globalMetrics.ts:81-87 | The sum behind the average is additive and of one value the value |
| Medians.CalculateMedian | subgraphs/babydegen/babydegen-base/src/globalMetrics.ts:31-61 | The four branches come to the middle of the values in ascending order, however they are arranged: the middle one for an odd number, the mean of the two middle ones for an even number, zero for none |
| Medians.UpdateHistoricalArray | subgraphs/babydegen/babydegen-base/src/globalMetrics.ts:216-229 | Push and shift come to the sliding step |
| Medians.Calculate7DaysSMA | subgraphs/babydegen/babydegen-base/src/globalMetrics.ts:68-88 | The mean, with its two guard branches |
| Snapshots.SnapshotStore.RegisterService | subgraphs/babydegen/babydegen-base/src/portfolioScheduler.ts:170-197 | Registration without duplicates |
| Snapshots.SnapshotStore.IsSnapshotDue | subgraphs/babydegen/babydegen-base/src/portfolioScheduler.ts:111-133 | Due on the first snapshot and on a later day |
| Snapshots.SnapshotStore.GetAllAgentSnapshotsForDay | subgraphs/babydegen/babydegen-base/src/globalMetrics.ts:95-140 | The snapshots of the services whose last one is of the day |
| Snapshots.CollectReadings | subgraphs/babydegen/babydegen-base/src/globalMetrics.ts:715-785 | The loops that collect a series: excluded, unfunded and stagnant agents left out |
| Snapshots.CountLifetimeActive | subgraphs/babydegen/babydegen-base/src/globalMetrics.ts:147-166 | The agents with more than two positions |
| Snapshots.SnapshotStore.SeriesRow | subgraphs/babydegen/babydegen-base/src/globalMetrics.ts:754-763 | Median, window and average of one series from the metric of the day before |
| Snapshots.SnapshotStore.PopulationRows | subgraphs/babydegen/babydegen-base/src/globalMetrics.ts:842-922 | All series |
| Snapshots.SnapshotStore.CalculateGlobalMetrics | subgraphs/babydegen/babydegen-base/src/globalMetrics.ts:680-982 | Guard, all series and both counts |
| Snapshots.SnapshotStore.HandleBlock | subgraphs/babydegen/babydegen-base/src/portfolioScheduler.ts:65-98 | The service loop, then the metrics when someone was due |
| ClampedSupply.ClampIsReflection | subgraphs/liquidity-l2/src/mapping.ts:79-96 | After every run the clamped balance is inflow less outflow plus the largest shortfall of any prefix, hence never negative; both totals are plain sums |
| ClampedSupply.ExactIffNeverShort | subgraphs/liquidity-l2/src/mapping.ts:88-96 | The balance is inflow less outflow if and only if no prefix sent out more than had come in |
| ClampedSupply.WorstIsReached | subgraphs/liquidity/src/mapping.ts:214-221 | The correction term is the shortfall of some prefix and no prefix has a larger one |
| ClampedSupply.SupplyCounts | subgraphs/liquidity-l2/src/mapping.ts:76-96 | Minted is all the zero address sent, burned all that others sent to it; their difference is its net flow in the token ledger, up to zero-to-zero transfers |
| ClampedSupply.HoldingCounts | subgraphs/liquidity/src/mapping.ts:201-227 | Transferred in is all that went to the treasury, transferred out all it sent to others; their difference is its net flow in the token ledger, up to self-transfers |
| ClampedSupply.CounterEntity.HandleBPTTransfer | subgraphs/liquidity-l2/src/mapping.ts:61-96 | Mint, clamped burn or nothing |
| ClampedSupply.CounterEntity.HandleBridgedLPTransfer | subgraphs/liquidity/src/mapping.ts:201-227 | Treasury inflow, clamped outflow or nothing |
| Liquidity.TreasuryIsBalancePlusSelf | subgraphs/liquidity/src/mapping.ts:88-93 | For every history the treasury balance kept is its token balance plus all it sent itself |
| Liquidity.TreasuryExactIff | subgraphs/liquidity/src/mapping.ts:88-93 | It is the real balance if and only if the treasury never sent itself a positive amount |
| Liquidity.SelfTransferOvercounts | subgraphs/liquidity/src/mapping.ts:88-93 | One self-transfer of everything, and the stored percentage is 200 percent |
| Liquidity.SupplyIsLedgerSupply | subgraphs/liquidity/src/utils.ts:298-304 | The LP supply is the supply of the holder ledger of the same transfers |
| Liquidity.TreasuryWithinSupply | subgraphs/liquidity/src/utils.ts:266-288 | In histories the token allows, without treasury self-transfers, the treasury holds between nothing and the supply |
| Liquidity.PercentageWithinBounds | subgraphs/liquidity/src/utils.ts:99-107 | ... so the percentage is between 0 and 10000 |
| Liquidity.UsdFormulas | subgraphs/liquidity/src/utils.ts:238-260 | After every event both USD values are their formulas on the stored reserve, price and percentage, and the stored price is the feed price |
| Liquidity.FeesAreSplit | subgraphs/liquidity/src/mapping.ts:157-191 | Protocol and external fees are non-negative and add up to the fees, per day and in total |
| Liquidity.DailySumsAreCumulative | subgraphs/liquidity/src/mapping.ts:174-191 | Daily USD sums over all days equal the cumulative ones, for all three figures |
| Liquidity.TokenFeesRounding | subgraphs/liquidity/src/mapping.ts:138-140 | For each token 0 <= 3 * sum of inputs - 1000 * sum of daily fees <= 999 * number of swaps |
| LiquidityFigures.ReservesOfLastSync | subgraphs/liquidity/src/utils.ts:327-340 | The stored reserves are those of the last Sync |
| LiquidityFigures.PriceOfLastRefresh | subgraphs/liquidity/src/mapping.ts:37-62 | The stored ETH/USD price is the answer of the last Sync that found none, or one over 3600 seconds old, and got a positive answer |
| LiquidityFigures.UnrefreshedHasNoPrice | subgraphs/liquidity/src/mapping.ts:37-62 | ... and there is none before |
| LiquidityFigures.UsdValues | subgraphs/liquidity/src/utils.ts:238-260 | In every run, as bounds on the products: the percentage is 10000 times holdings over supply, the pool value twice the ETH reserve times the price over 10^18, the protocol value its percentage of that, each rounded towards zero |
| LiquidityFigures.SwapFigures | subgraphs/liquidity/src/mapping.ts:133-194 | A swap adds 0.3 percent of each amount, rounded down, and one swap to its UTC day; when every price it needs is known it adds the USD value of both fees and the protocol share of it to the day and to the totals, else no USD value; no other day changes |
| LiquidityFigures.DailySwaps | subgraphs/liquidity/src/mapping.ts:174-181 | The record of a UTC day counts the swaps of that day |
| LiquidityFigures.DivTruncates | subgraphs/liquidity/src/utils.ts:238-260 | BigInt division rounds towards zero |
| Liquidity.LiquidityStore.HandleLPTransfer | subgraphs/liquidity/src/mapping.ts:68-96 | Treasury, supply, percentage, then USD values |
| Liquidity.LiquidityStore.UpdateTreasuryHoldings | subgraphs/liquidity/src/utils.ts:266-288 | One signed change of the treasury balance |
| Liquidity.LiquidityStore.UpdateGlobalMetricsAfterTransfer | subgraphs/liquidity/src/utils.ts:290-325 | Supply, copied treasury balance, percentage, USD values |
| Liquidity.LiquidityStore.RecalculateUsd | subgraphs/liquidity/src/utils.ts:238-260 | Nothing without a positive price |
| Liquidity.LiquidityStore.RefreshChainlinkPrice | subgraphs/liquidity/src/mapping.ts:37-62 | Only a missing or stale price is replaced, and only by a positive answer |
| Liquidity.LiquidityStore.HandleSync | subgraphs/liquidity/src/mapping.ts:103-126 | Price refresh, reserves, USD values |
| Liquidity.LiquidityStore.HandleSwap | subgraphs/liquidity/src/mapping.ts:133-194 | Fees, pricing guards, daily and cumulative figures |
| PriceDiscovery.AverageBetweenSources | subgraphs/babydegen/babydegen-base/src/priceDiscovery.ts:184-209 | With non-negative confidences the average lies between the least and the greatest accepted price |
| PriceDiscovery.AverageInBand | subgraphs/babydegen/babydegen-base/src/priceDiscovery.ts:312-339 | ... so it is strictly inside the band of the symbol whenever a source was accepted |
| PriceDiscovery.AcceptedInBand | subgraphs/babydegen/babydegen-base/src/priceDiscovery.ts:162-177 | Accepted prices are in band with confidence at most 1, and there is none if and only if every source is unsupported or out of band |
| PriceDiscovery.StoredPricesInBand | subgraphs/babydegen/babydegen-base/src/priceDiscovery.ts:51-91 | In every run each stored price is zero or in band, confident and recorded by its own PriceUpdate; the one-dollar fallback included |
| PriceDiscovery.ReturnedPrice | subgraphs/babydegen/babydegen-base/src/priceDiscovery.ts:21-96 | A returned price is positive and in band exactly when the token is known and cache, reliable average or fallback applies; otherwise it is zero |
| PriceDiscovery.CacheHitIsFresh | subgraphs/babydegen/babydegen-base/src/priceDiscovery.ts:40-46 | With block times in order a cache hit returns a non-zero price recorded less than 300 seconds before |
| PriceDiscovery.PriceStandsForFiveMinutes | subgraphs/babydegen/babydegen-base/src/priceDiscovery.ts:40-46 | Unforced queries within 300 seconds leave a confident price alone, whatever the sources answer |
| PriceAnswers.PriceIsWeightedMean | subgraphs/babydegen/babydegen-base/src/priceDiscovery.ts:184-209 | Over the supported sources with a quote in band: the price found times the sum of the confidences is the sum of the prices times the confidences, and its confidence times their number is that sum; without any confidence it is the plain mean |
| PriceAnswers.SourceGives | subgraphs/babydegen/babydegen-base/src/priceDiscovery.ts:212-310 | A source counts with its quote and a hundredth of its confidence, a reference feed with nine tenths of that, exactly when it is supported and its quote lies in the band of its symbol |
| PriceAnswers.PlausibleIsInBand | subgraphs/babydegen/babydegen-base/src/priceDiscovery.ts:312-339 | The three bands |
| PriceAnswers.RowOfLastStore | subgraphs/babydegen/babydegen-base/src/priceDiscovery.ts:51-91 | The price, confidence and time of a token are those of the last query that stored one |
| PriceAnswers.NeverStored | subgraphs/babydegen/babydegen-base/src/priceDiscovery.ts:30-38 | ... and zero without one |
| PriceAnswers.PriceReturned | subgraphs/babydegen/babydegen-base/src/priceDiscovery.ts:40-96 | The price returned after any run: the stored one under 300 seconds old and over one half confident unless a refresh is forced, else a positive average over one half confident, else one dollar for a listed stablecoin, else zero; what was looked up is recorded at its time |
| PriceDiscovery.GetPriceFromSources | subgraphs/babydegen/babydegen-base/src/priceDiscovery.ts:147-210 | The collecting loop and the four ways to average |
| PriceDiscovery.PriceStore.GetTokenPriceUSD | subgraphs/babydegen/babydegen-base/src/priceDiscovery.ts:21-96 | The whole lookup: state and returned price |

## Left out

- The Pearl timestamps, block numbers, network names, thresholds, service states, agent id lists, token metadata and ServiceIndex rows: copied fields on which no modelled branch depends.
- The amount and parties of a BondMovement row; the queue model keeps what attribution changes.
- PearlBonds.BondQueue.EnqueueRow: asks for fewer than 2^31 - 1 rows in one transaction, the range of the i32 slot counter.
- handleTokenDeposit and handleTokenRefund have their queue half in `BondQueue` and their balance half in `Store`; the stamp and the Service links the queue reads from the ledger tables are arguments there, and `PearlAttribution` runs both sides together.
- Service ids key their entities as numbers; the BigInt byte layout is not modelled, so ids that embed it (funding events, attribution guards) are keys of components.
- PearlStore.Store.HandleServicesEvicted: asks for fewer than 2^31 service ids, the range of the i32 loop counter.
- The template data source beyond the list of spawns, and the addresses and token tables of each network.
- Safe execution handlers, threshold changes and the remaining record-only handlers.
- BigDecimal rounding to 34 digits: averages, shares and medians are exact reals, and slippage texts are plain decimals without exponent.
- The totalSlippageUSD field of the swap buffer, and searchAndAssociateRecentSwaps, a second drain without a caller here.
- How a swap's slippage is computed from prices and token decimals: it is an input.
- Keccak hashing; transaction hashes are arbitrary 32-byte strings.
- Epoch figures other than blocks, settlement time, matured bonds and claimable total: top-ups, incentives, effective bond; redeemed bonds.
- Epochs.EpochStore.HandleEpochSave: saving an epoch after the first that was never opened has no start block; it is modelled as a failed handler that changes nothing.
- Staking reward updates, cumulative daily rows and their medians, and the plain event rows.
- The funded totals, the average days active and the with-rewards copies of a population metric: plain sums and copies.
- Portfolio valuation: the value a snapshot records is an input of the block; the array sort is the sorted list of the values.
- The MATIC and SOL price feeds, transfer counters and timestamps of the liquidity entities, pool reserves on other chains.
- Which source a PriceUpdate names, PriceSource rows, and the price adapters with their sqrtPrice arithmetic.
- Velodrome, Balancer and Uniswap positions, tick mathematics, credit conversions and the scripts.
