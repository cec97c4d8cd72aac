# Gacha pool: a verified model

A gacha pool sells random draws from a stock of NFTs. An authority deposits prizes into weighted
tiers; each purchase pins the stock as it was when the buyer signed, waits in a first-in first-out
queue, and is either settled from the operator's verified random output or, after its deadline,
refunded with a penalty. This project models the on-chain program and the planning code of its two
clients, and proves what they promise each other.

The model has three layers.

1. **The availability index** (`Bits`, `Stock`, `Index`). `Stock` is the linear inventory: one tag per
   position, counted and selected by a scan. `Index.Inventory` is the program's index: an array of
   96-byte blocks, each with eight little-endian Fenwick counts and 64 tags, updated in place by the
   program's own loops. Its invariant says that the bytes represent a linear inventory, and every
   operation is proved to do to the bytes what the linear operation does to the tags. `Bits` relates
   the expressions `n & (n - 1)`, `n & n.wrapping_neg()` and the power-of-two descent to the lowest
   set bit.
2. **The protocol** (`Draw`, `Protocol`, `Invariant`, `Preserve`). One function per instruction over a
   value-level state: header, live Items and Pulls, vault, token accounts, asset owners, slot, and a
   history of resolutions. `Invariant.Inv` is what every reachable pool satisfies. `Runs`,
   `Settlement`, `Queue`, `Conditions`, `Pinned`, `Lifecycle` and `Deadlines` prove the theorems about
   reachable states and whole runs, and `Scenario` shows on one sale that their hypotheses can be met.
   `Refusals` and `Effects` say, on the bare fields and without the protocol's own helper functions, which
   error each instruction gives and what each success changes.
3. **The program** (`Program`) and **the clients** (`Client`, `Batches`). `Program.Accounts` holds the
   fields the handlers change, with the Fenwick index as its stock; each handler is an imperative
   method proved to follow the protocol, and `Execute` adds the runtime's rollback. So every theorem
   about runs is a theorem about executions of these handlers on the Fenwick bytes. `Client` proves
   snapshot validation and both settlement planners, and `Batches` the transaction splitter.

A `Result` carries the program's error codes; `Abort` is a runtime panic (the workspace enables
overflow checks, so `u32` and `u64` arithmetic panics instead of wrapping). Randomness is an input:
`Settle` takes the verified output already expanded to one hash per draw, or nothing when the proof
does not verify. `dafny verify dfyconfig.toml` checks the whole project.

## Reading guide

- Restocking cannot touch an earlier purchase: `Pinned.LaterStockCannotSteer`.
- One counter comparison in Buy reserves every later settlement: `Preserve.BuyKeepsReserved`,
  `Settlement.SettleSucceedsExactly`, `Settlement.SettleNeverStarves`.
- The Fenwick descent is the linear scan, and lowers the nodes the climb would: `Index.Inventory.Take`,
  `Index.ProbeLevel`, `Index.Inventory.Descend`.
- The clients plan exactly what the program draws, even from a stale snapshot:
  `Client.PlansAreWhatTheChainDraws`.
- The odds of one prize, by tier weight and then uniformly by rank: `Draw.PrizeOdds`.
- Every queue can be emptied at once: `Queue.QueueEmpties`, with `Queue.QueueSettles` and
  `Queue.QueueDrains` for its two extremes.
- Exactly when each instruction succeeds: `Conditions` and `Settlement.SettleSucceedsExactly`; with which
  error it fails otherwise: `Refusals`; exactly what moves and changes when it succeeds: `Effects`.
- Money: `Runs.AlwaysSolvent`, `Runs.RunConservesTokens`.
- Custody: `Lifecycle.NoPrizeIsPromisedTwice`, `Lifecycle.PromisesAreKept`.
- A gap in the parameter bounds: `Deadlines.SellsExactlyWhenDeadlineFits`. CreatePool checks that ten
  payments with penalties fit `u64` but not that the slot plus the deadline does. Accepted parameters
  give a pool that can ever sell if and only if that sum fits; otherwise a Buy that meets every other
  condition panics, as `Deadlines.LargestDeadlinePanics` shows on a reachable pool.
  `Conditions.BuyPanicsExactly` has every reachable panic of Buy.
- The handlers on bytes follow all of this: `Program.Accounts.ExecuteAll`.

## Model

| member | source | states |
|---|---|---|
| Bits.AndPredClearsLowBit | program/src/inventory.rs:66-71 | `n & (n - 1)`, the step of the prefix walk, is `n` without its lowest set bit, for every positive `n` |
| Bits.WrappingNegIsolatesLowBit | program/src/inventory.rs:104-107 | `n & n.wrapping_neg()`, the step of both upward walks, is the lowest set bit of every nonzero machine word |
| Bits.ClimbVisitsCoveringNodes | program/src/inventory.rs:104-107 | The upward walk from a block's own node visits exactly the existing nodes whose range contains the block, for any number of blocks |
| Bits.ProbeSpan | program/src/inventory.rs:117-131 | The node the descent probes at width `s` has lowest bit `s`, so it spans exactly the next `s` blocks, and both outcomes keep the descent aligned |
| Bits.ProbeIsTheCoveringNode | program/src/inventory.rs:119-127 | Of all nodes of one width, the probed one is the only one whose range can contain a block of the descent's window |
| Stock.CandidateRank | tests/src/lib.rs:164-172 | The entry at index `rank` of the linear candidate list is an available position of the tier with exactly `rank` earlier candidates |
| Stock.RankDeterminesPosition | tests/src/lib.rs:164-172 | Every available position below the cutoff is in the candidate list at the index that is its rank, so rank selection and the list are inverse |
| Stock.CandidatesRemove | packages/gacha-rust/src/lib.rs:583 | Clearing a tag deletes exactly its own entry from its tier's candidate list and leaves the other tiers' lists alone |
| Stock.TiersPartitionStock | packages/gacha-core/src/state.rs:262-268 | The per-tier counts of any prefix add up to the number of available positions in it |
| Index.StoreCount | program/src/inventory.rs:52-60 | A stored little-endian count is read back and no other node or tier's count changes |
| Index.StoreCountKeepsTags | packages/gacha-core/src/constants.rs:47-50 | Storing any count changes no tag: the 32 count bytes and 64 tag bytes of the blocks are disjoint |
| Index.Layout | program/src/inventory.rs:51-60 | Where the bytes of an index that represents an inventory hold what: 96 bytes for every 64 positions, the tag of a position behind its block's counts, and each count low byte first |
| Index.NodeCountAppend | program/src/inventory.rs:103-108 | A deposit changes the value a Fenwick node must hold by one exactly when the node's range contains the new position's block and the tier matches |
| Index.NodeCountRemove | program/src/inventory.rs:163-171 | The same for a removal, lowering by one |
| Index.AppendSettles | program/src/inventory.rs:104-107 | If exactly the nodes of the upward walk were raised, every node equals its range sum over the longer inventory |
| Index.RemoveSettles | program/src/inventory.rs:164-171 | If exactly the nodes of the upward walk were lowered, every node equals its range sum over the inventory without the prize |
| Index.OpenedCounts | program/src/inventory.rs:98-102 | The difference of two prefix sums is the value a newly opened node must hold, never negative and within `u32` |
| Index.ZeroExtend | program/src/inventory.rs:260-275 | Growing by a zero block past the last position keeps every count and tag, and the new tags read as removed |
| Index.TargetSide | program/src/inventory.rs:121-124 | Comparing a probed node's count with the remaining rank decides on which side of the node's end the wanted block lies |
| Index.ProbeLevel | program/src/inventory.rs:117-131 | After probing width `s`, the nodes lowered so far are exactly those of the target's upward walk wider than `s / 2`: the descent lowers the same nodes a climb would |
| Index.FindTarget | program/src/inventory.rs:113-134 | A rank names a block inside the index exactly when it is below the tier's total, and then that block holds the candidate of that rank |
| Index.Inventory.PrefixCounts | program/src/inventory.rs:64-73 | The walk over Fenwick nodes returns the linear per-tier counts of the first `end` blocks; no `u32` sum overflows |
| Index.Inventory.Counts | program/src/inventory.rs:75-88 | For every cutoff within the index it returns the linear per-tier counts of that prefix; slicing past the index panics |
| Index.Inventory.Grow | program/src/inventory.rs:257-275 | Reallocation to the next position's space keeps the represented tags and zero-fills a new block when one is needed |
| Index.Inventory.OpenBlock | program/src/inventory.rs:98-102 | Opening a block sets every tier's count of its node to the sum over the older blocks the node covers |
| Index.Inventory.Append | program/src/inventory.rs:92-109 | After any history the index represents the old tags followed by the new tier's tag |
| Index.Inventory.Descend | program/src/inventory.rs:113-131 | The descent stops at the block of the rank with the rank left inside it, having lowered exactly the nodes of that block's upward walk; with no such block no byte changes |
| Index.Inventory.Scan | program/src/inventory.rs:136-149 | The scan of one block stops at the chosen position and cannot run off the block |
| Index.Inventory.Take | program/src/inventory.rs:113-151 | Returns the linear candidate of the rank over the whole index and clears only its tag; fails exactly when the rank is at least the tier's total, leaving every byte unchanged |
| Index.Inventory.Remove | program/src/inventory.rs:154-173 | Succeeds exactly when the position carries the tier's tag, then represents the inventory without it; the node counts never underflow |
| Draw.DrawTier | packages/gacha-core/src/state.rs:295-318 | Returns the tier whose cumulative share of the eligible weight contains the reduced roll; `SoldOut` exactly when the eligible weight is zero, and the error after the loop is unreachable |
| Draw.TierAtUnique | packages/gacha-core/src/state.rs:307-316 | The tiers' shares are disjoint: a roll inside a tier's share selects that tier |
| Draw.OddsAreExactlyWeighted | packages/gacha-core/src/state.rs:295-318 | Over all rolls below the eligible total a nonempty tier is chosen for exactly its weight's number of rolls, an empty tier for none |
| Draw.ModuloBiasBelowWeight | packages/gacha-core/src/state.rs:306 | Over the words below any `n` (2^64 on chain) reduction modulo the total moves a tier's number of hits off `n * weight / total` by less than its weight |
| Draw.RanksAreUniform | packages/gacha-core/src/state.rs:289-290 | Over the rank words below any `n` a candidate is selected `n / count` times give or take less than one, and over one period exactly once |
| Draw.DrawsByTierAndRank | packages/gacha-core/src/state.rs:283-292 | A draw takes an eligible prize exactly when the roll word names its tier and the rank word its rank in the tier |
| Draw.PrizeOdds | README.md:20-22 | The word pairs that draw one eligible prize number the hits of its tier times the hits of its rank, each within its bound; over one period of both words they number exactly its tier's weight, whichever prize of the tier it is |
| Draw.DrawOneSucceeds | packages/gacha-core/src/state.rs:283-292 | With nonzero weights a draw finds a prize exactly when any prize is available below the cutoff |
| Draw.DrawAllSucceeds | program/src/inventory.rs:180-209 | `n` draws in a row succeed exactly when `n` prizes are available below the cutoff, and lower every longer prefix's stock by exactly `n` |
| Draw.DrawAllPicks | program/src/inventory.rs:193-198 | The draws of one purchase pick distinct positions below the cutoff, each tagged with its drawn tier, and clear exactly these tags |
| Draw.DrawAllIgnoresLaterStock | program/src/inventory.rs:1-8 | Two inventories that agree below the pinned version give the same draws and still agree below it afterwards |
| Preserve.CreateEstablishesInv | program/src/admin/create_pool.rs:132-148 | A pool created within the parameter bounds satisfies the whole invariant |
| Preserve.RestockKeepsStock | program/src/inventory.rs:247-291 | A restock keeps header counters, tags and live Items three views of one stock |
| Preserve.RemoveKeepsStock | program/src/inventory.rs:195-206 | Removing a live Item's position keeps the three views in agreement, and its tier's counter was not zero |
| Preserve.AppendKeepsReserved | program/src/player/buy.rs:202-204 | Appending stock leaves every pending purchase's reservation covered |
| Preserve.BuyKeepsReserved | program/src/player/buy.rs:202-209 | One comparison of pending draws with header stock reserves the new purchase within its pinned prefix behind all older ones |
| Preserve.ResolveKeepsReserved | program/src/player/buy.rs:202-204 | Resolving the head, by draws or refund, leaves every later purchase's nested-prefix reservation covered |
| Preserve.DrawStepsFollowPlan | program/src/inventory.rs:190-208 | Whenever the draw loop succeeds, its awards, passed Items and recorded outcomes are the linear plan's picks in order, and exactly the awarded Items are closed |
| Preserve.SettleKeepsCustody | program/src/inventory.rs:195-204 | Settlement turns stock into awards without promising any asset twice |
| Preserve.DeliverKeepsCustody | program/src/operator/deliver.rs:154-187 | A delivery ends exactly one promise in the state it leaves, and no other promised asset changes hands |
| Preserve.SettleKeepsInv | program/src/operator/settle.rs:164-193 | Every successful Settle keeps the invariant |
| Preserve.RefundKeepsInv | program/src/player/refund.rs:133-154 | Every successful Refund keeps the invariant, solvency included |
| Preserve.BuyKeepsInv | program/src/player/buy.rs:192-256 | Every successful Buy keeps the invariant |
| Preserve.BuybackKeepsInv | program/src/player/buyback.rs:196-258 | Every successful Buyback keeps the invariant: it pays only from surplus, and the returned asset was not promised to anyone |
| Preserve.ApplyKeepsInv | program/src/inventory.rs:1-8 | Every instruction, from any signer with any arguments, keeps stock agreement, nested reservations, FIFO shape, deadline order, solvency, token supply, custody and the resolution history |
| Runs.ReachableStatesKeepInv | program/src/admin/create_pool.rs:187-237 | Any run from any created pool, failing instructions included, satisfies the invariant |
| Runs.AlwaysSolvent | program/src/helpers.rs:144-151 | In every reachable state `(price + bond) * pending_draws` fits `u64` and is at most the vault, so `spendable` never errs and equals the surplus |
| Runs.StepConservesTokens | program/src/helpers.rs:153-171 | No instruction creates or destroys tokens: vault plus all other accounts is constant |
| Runs.RunConservesTokens | program/src/helpers.rs:153-171 | The same over whole runs |
| Settlement.HeadIsReserved | program/src/player/buy.rs:202-204 | In every reachable state the head purchase's draws are available below its own pinned version |
| Settlement.SettleSucceedsExactly | program/src/operator/settle.rs:82-107 | In every reachable state settling the head succeeds if and only if its deadline has not passed, the proof verifies and the accounts are the planned Items in order |
| Settlement.SettleNeverStarves | program/src/operator/settle.rs:179-193 | In every reachable state Settle, with any accounts and output, never returns `SoldOut` and never panics: no zero modulus and no underflow of `remaining`, `available` or `pending_draws` |
| Queue.StepResolvesHead | program/src/operator/settle.rs:90-98 | Only a successful Settle or Refund resolves a purchase, it resolves the head, and it adds exactly one history entry |
| Queue.ResolutionsAreFinal | program/src/player/refund.rs:80-88 | Over any run every index is resolved at most once, in order and for good: settled not after its deadline or refunded after it, never both; the pending Pulls are exactly the indices from `next_settle` up to `next_index` |
| Queue.RefundHeadSucceeds | program/src/player/refund.rs:75-98 | An expired head can always be refunded in full to its recorded buyer |
| Queue.RefundStep | program/src/player/refund.rs:133-154 | Refunding the head credits price and penalty for all its draws to an account held by its buyer, and leaves the rest of the queue expired and payable |
| Queue.QueueDrains | program/src/player/refund.rs:12-21 | Once the slot passes the last deadline, refunding heads one by one succeeds at every step, empties the queue and pays out exactly the refund amount of all pending draws |
| Queue.QueueSettles | program/src/operator/settle.rs:13-22 | From any reachable state whose head is within its deadline, settling heads in turn with the planned Items, whatever the verified outputs, succeeds at every step, reveals every pending purchase, empties the queue and takes nothing from the vault |
| Queue.QueueEmpties | program/src/player/refund.rs:12-21 | Every reachable queue can be emptied in the current slot: refunding a late head and settling any other with its plan succeeds at every step, resolves each purchase as its deadline says and pays out exactly what the late draws are owed |
| Queue.RunKeepsTerms | packages/gacha-core/src/state.rs:378-393 | On any run, while a Pull is open its count, version, index, deadline, buyer and address never change, and a closed Pull never reappears under its index |
| Queue.RunKeepsDeadline | program/src/operator/settle.rs:96-98 | On any run a pending purchase is resolved against the deadline it was sold with |
| Queue.SaleTerms | program/src/player/buy.rs:231-245 | A successful Buy opens a Pull with the buyer's count and address, pinned to the stock of that moment, whose deadline counts from that slot and decides its resolution on every later run |
| Conditions.BuySucceedsExactly | program/src/player/buy.rs:84-256 | In every reachable state Buy succeeds if and only if the pool is active, the version current, the count within bounds and stock, no live Pull at the address of that seed and bump, the collateral sufficient, the payment available, and the deadline and queue index representable |
| Conditions.BuyPanicsExactly | program/src/player/buy.rs:206-245 | In every reachable state Buy panics if and only if the draws are offered and either the vault's balance with the payment passes `u64`, which no wallet can bring about by paying, or it fits, the collateral suffices and the deadline or queue index does not fit |
| Conditions.WithdrawSucceedsExactly | program/src/admin/withdraw.rs:60-141 | In every reachable state Withdraw succeeds if and only if the authority asks for at most the vault's surplus over all pending refunds |
| Conditions.RefundSucceedsExactly | program/src/player/refund.rs:75-154 | In every reachable state Refund succeeds if and only if it names the head of the queue, past its deadline, and an account of its buyer |
| Conditions.DepositSucceedsExactly | program/src/admin/deposit_item.rs:81-180 | In every reachable state Deposit succeeds if and only if the authority of an unretired pool deposits its own asset into an existing tier and a position is left |
| Conditions.BuybackSucceedsExactly | program/src/player/buyback.rs:91-258 | In every reachable state Buyback succeeds if and only if the pool is active, the quote signed and unexpired, the seller holds the asset and the destination, and the price is within surplus |
| Conditions.BuybackPaysFromSurplus | program/src/player/buyback.rs:216-258 | A buyback moves exactly the price from surplus to an account of the seller and the asset from the seller to the pool, and leaves every pending refund covered |
| Conditions.ReclaimSucceedsExactly | program/src/admin/lifecycle.rs:202-292 | In every reachable state Reclaim succeeds if and only if the authority of a retired pool with no pending draws names a live Item and its asset; the index removal cannot fail |
| Conditions.DeliverSucceedsExactly | program/src/operator/deliver.rs:82-187 | In every reachable state Deliver succeeds if and only if the outcome is an undelivered award of that asset |
| Refusals.CreateOutcome | program/src/admin/create_pool.rs:132-148 | A pool is accepted if and only if it has 1 to 8 tiers of positive weight, positive price, penalty and deadline, ten payments with penalties within `u64`, and an authority that can sign; it starts paused and empty, and otherwise the error is named |
| Refusals.SetStatusErrors | program/src/admin/lifecycle.rs:63-130 | Each error exactly when it applies: a stranger, then an unknown status, then leaving retirement |
| Refusals.WithdrawErrors | program/src/admin/withdraw.rs:65-133 | Only two errors: a stranger, or more than the vault holds above price and penalty of all pending draws |
| Refusals.DepositErrors | program/src/admin/deposit_item.rs:81-175 | In every reachable state each error exactly when it applies, in the handler's order; a panic only with a full `u32` of positions, and never a taken Item address |
| Refusals.ReclaimErrors | program/src/admin/lifecycle.rs:210-229 | In every reachable state each error exactly when it applies; past a drained retired pool and a live Item only the wrong asset is refused |
| Refusals.BuybackErrors | program/src/player/buyback.rs:91-247 | In every reachable state each error exactly when it applies, in the handler's order: a destination the seller does not own, quote, surplus, custody, and the full index last |
| Refusals.StockIsLiveItems | packages/gacha-core/src/state.rs:262-268 | In every reachable state the header's stock is the number of live Items |
| Refusals.BuyErrors | program/src/player/buy.rs:84-256 | In every reachable state each of ten errors exactly when it applies, in the handler's order, stock being the number of live Items |
| Refusals.RefundErrors | program/src/player/refund.rs:75-98 | In every reachable state each error exactly when it applies; a late head is refused only for an account its buyer does not own |
| Refusals.LoopFailsAtFirstWrong | program/src/inventory.rs:193-204 | Given other accounts than the planned Items, the draw loop fails at the first that differs: as closed if an earlier draw took that Item, as the wrong Item otherwise |
| Refusals.SettleErrors | program/src/operator/settle.rs:82-107 | In every reachable state the guards refuse in order, and past them the first account that differs from the plan decides the error |
| Refusals.DeliverErrors | program/src/operator/deliver.rs:84-166 | In every reachable state each error exactly when it applies: an unsettled Pull, no such or a delivered award, another asset |
| Effects.SetStatusEffect | program/src/admin/lifecycle.rs:125-133 | Succeeds exactly for the authority with a known status that does not leave retirement, and then the status is the requested one: 0 paused, 1 active, 2 retired; nothing else changes |
| Effects.WithdrawEffect | program/src/admin/withdraw.rs:128-141 | Exactly the amount asked for leaves the vault and reaches the named account; a withdrawal to the vault moves nothing |
| Effects.BuysBackAsset | program/src/player/buyback.rs:216-258 | The asset goes from the seller to the pool and to the end of the stock, and exactly the price from the vault to an account the seller owns; nothing else changes |
| Effects.ReclaimsAsset | program/src/admin/lifecycle.rs:263-292 | The position leaves tags, Items and its tier's counter together and the asset reaches the authority; nothing else changes |
| Effects.OpensPull | program/src/player/buy.rs:231-256 | Exactly price times count leaves the source and reaches the vault, and the new Pull carries buyer, address, whole-stock version, deadline and an empty outcome table under the next index |
| Effects.PaysBuyer | program/src/player/refund.rs:89-154 | Price and penalty of every draw go from the vault to an account the recorded buyer owns, and nobody else's balance changes; the Pull closes and the queue advances |
| Effects.RecordsPlan | program/src/inventory.rs:193-208 | A settlement writes tier and asset of each planned Item in draw order and no later outcome, and takes exactly the planned positions out of tags and Items, counters following; money and custody do not move |
| Effects.DeliversAward | program/src/operator/deliver.rs:157-187 | The asset reaches the recorded buyer, its entry alone is marked, and the Pull closes exactly when no other award is left |
| Effects.StepKeepsAddresses | program/src/helpers.rs:21-26 | Every instruction keeps the addresses of live Pulls distinct: only a purchase adds one, at an unused address |
| Effects.ReachableAddressesAreDistinct | program/src/player/buy.rs:91 | From creation on and through any run no two live Pulls, settled and undelivered ones included, share an address |
| Pinned.UnresolvedStepKeepsView | program/src/player/buy.rs:192-200 | Deposits, buybacks, buys, deliveries, reclaims and failed instructions leave the stock, Items and queue a purchase was sold on untouched |
| Pinned.RunsReplay | program/src/inventory.rs:180-209 | However a run continues, the awards of all purchases up to `k` are a function of what `k` was sold on and of how each of them is resolved |
| Pinned.LaterStockCannotSteer | README.md:67-78 | Two runs from states that agree on what a purchase was sold on, with equal resolutions up to it, award identical prizes whatever else differs |
| Pinned.ContinuationsAgree | README.md:67-78 | In particular, two continuations of one sale with different later deposits, buybacks and purchases |
| Pinned.RunKeepsView | README.md:67-78 | However long a run, as long as it resolves nothing, the stock, Items and queue a waiting purchase was sold on stay as they were |
| Pinned.AwardIsFixedAtSale | README.md:14-22 | For a purchase sold to an empty queue, and any map from Pull addresses to outputs, the award of every later settlement with the address's output is already determined by the stock of the sale |
| Lifecycle.NoPrizeIsPromisedTwice | program/src/operator/deliver.rs:154-187 | After any run the live Items and undelivered awards together name pairwise distinct assets, and the pool owns each of them |
| Lifecycle.StepKeepsPromise | README.md:58-65 | Every instruction leaves a promised prize promised, or succeeds in delivering it to the recorded buyer or reclaiming it for the authority |
| Lifecycle.PromisesAreKept | README.md:58-65 | On any run a promised prize stays promised, in stock or as an award, until an instruction of the run delivers it to the recorded buyer or reclaims it for the authority |
| Lifecycle.RestockGoesLast | program/src/inventory.rs:247-291 | A deposit or buyback takes the next, never used position, goes last in its tier's candidate list and leaves every other list, older Item and pinned prefix alone |
| Deadlines.FarDeadlinesNeverSell | program/src/player/buy.rs:239 | A pool whose deadline would pass the slot counter never sells: on any run `next_index` stays where it is |
| Deadlines.CreatedTooFarNeverSells | program/src/admin/create_pool.rs:139-148 | A pool created with a deadline that does not fit the slot counter never sells, whatever the balances and owners around it and on any run |
| Deadlines.DeadlineDecides | program/src/player/buy.rs:231-245 | For all accepted parameters and every slot a stocked, open and funded pool is reachable on which one draw may be bought; that Buy succeeds if slot plus deadline fits `u64` and panics otherwise |
| Deadlines.SellsExactlyWhenDeadlineFits | program/src/admin/create_pool.rs:132-148 | Accepted parameters give a pool that sells on some run in some world if and only if the slot of its creation plus its deadline fits `u64` |
| Deadlines.LargestDeadlinePanics | program/src/admin/create_pool.rs:139-148 | The input: deadline `u64::MAX` is accepted, and at slot 1 a reachable stocked pool panics on a purchase that meets every other condition |
| Deadlines.FullVaultPanics | program/src/player/buy.rs:212-214 | The other panic is reachable: with the whole `u64` supply in the vault the balance plus the payment overflows for every source account, both counters fitting |
| Lifecycle.AwardsAreDeliverable | program/src/operator/deliver.rs:153-187 | Every undelivered award of every reachable state, in any status, can be delivered to its buyer |
| Lifecycle.RunKeepsSpent | program/src/operator/deliver.rs:157-187 | On any run an award of a resolved purchase that is not deliverable never becomes deliverable again |
| Lifecycle.AwardsAreDeliveredOnce | program/src/operator/deliver.rs:157-166 | On every run after a delivery, delivering the same award again is refused, for whatever asset |
| Lifecycle.ExitsIgnoreStatus | README.md:58-60 | Settle, Refund, Deliver and Withdraw have the same result and effect in every status |
| Lifecycle.AdmissionsFollowStatus | README.md:52-56 | Only an active pool sells or buys back, a retired pool takes no deposit, unsold stock returns only from a retired pool with an empty queue, and only the authority changes a status that is not terminal |
| Lifecycle.RetirementIsTerminal | program/src/admin/lifecycle.rs:125-133 | Once retired, a pool stays retired through every run, sells nothing and takes no stock |
| Lifecycle.ReclaimSucceeds | program/src/admin/lifecycle.rs:210-292 | In a retired pool with no pending draws every live Item can be reclaimed and its asset reaches the authority |
| Lifecycle.AnyReclaimOrderSucceeds | program/src/admin/lifecycle.rs:263-292 | Reclaims in any order succeed at every step, leave exactly the Items not named, and leave every award in place |
| Client.FromAccount | packages/gacha-rust/src/lib.rs:247-288 | Accepts an account exactly when it is the program's, has the layout version, sits with its vault at the addresses and bump the client derives, has a sane header and, if the index was fetched, its tags are in range and agree with the header counters |
| Client.IndexAgrees | packages/gacha-kit/src/index.ts:171-179 | The recount agrees exactly when every tag is in range and every header counter equals its tier's tag count |
| Client.ReachablePoolsAreAccepted | packages/gacha-kit/src/index.ts:159-179 | Every reachable pool, with the index bytes that represent its stock, passes the validation of header and index |
| Client.PlanOutcome | packages/gacha-rust/src/lib.rs:537-560 | A client plans exactly for the pending head of its own pool, a version not past the snapshot, a complete index, a proof that verifies and enough stock below that version; each error exactly when its check is the first to fail |
| Client.PlanInRust | packages/gacha-rust/src/lib.rs:555-598 | The candidate-list loop computes the linear plan exactly when a client must plan, and otherwise refuses with the error of the first failing check |
| Client.PlanInTypeScript | packages/gacha-kit/src/index.ts:337-370 | The inlined weighted choice and `splice` compute the same plan under the same checks; its roll loop always breaks at a nonempty tier |
| Client.PlansAreWhatTheChainDraws | packages/gacha-rust/src/lib.rs:553-555 | The plan a client makes from a snapshot of a reachable pool, for the head purchase and any verified output, exists and stays right after any run that has not resolved that purchase: Settle before the deadline succeeds then with the planned Items and with no other list |
| Conditions.PendingIsStocked | packages/gacha-rust/src/lib.rs:350-354 | Pending draws never exceed header stock, so the clients' checked subtraction never fails on a reachable pool |
| Client.SpendableBalanceOutcome | packages/gacha-rust/src/lib.rs:336-342 | For any header and vault balance: the surplus over price and penalty of all pending draws, nothing when the vault is short, and an error exactly when the reserve leaves `u64` |
| Client.AvailableDrawsOutcome | packages/gacha-rust/src/lib.rs:346-357 | For any header and vault balance: nothing unless active, an error exactly when pending draws exceed the stock or the reserve leaves `u64`, and otherwise the largest number of at most ten draws that stock and surplus cover |
| Client.AvailableDrawsIsExact | packages/gacha-rust/src/lib.rs:344-357 | For every reachable pool, in any status, a purchase of 1 to 10 draws that the buyer can pay for and that fits the slot and index counters succeeds if and only if its count is at most the reported number |
| Batches.Batch | packages/gacha-rust/src/lib.rs:857-879 | Fails exactly when the initial group or a single instruction does not fit; otherwise the groups are nonempty, fit, concatenate to the original order, and no in-order grouping that keeps the initial instructions together uses fewer |
| Batches.OpenStaysTightest | packages/gacha-kit/src/index.ts:601-605 | Opening a group only when the instruction does not fit keeps the grouping minimal among all in-order groupings |
| Program.TakeIsPinned | program/src/inventory.rs:111-113 | A rank below the pinned prefix's count selects the pinned candidate although the search covers the whole index, and lowers exactly one of the prefix's counts |
| Program.Accounts.TakeDrawn | program/src/inventory.rs:190-195 | Weighted choice, rank and Fenwick removal together do the linear draw on the index bytes; the running `available` counts stay those of the pinned prefix |
| Program.Accounts.DrawPrize | program/src/inventory.rs:191-207 | One iteration of the draw loop on the accounts follows the protocol's step, errors included |
| Program.Accounts.DrawPrizes | program/src/inventory.rs:180-209 | The whole loop, from one initial prefix count, follows the protocol's draws |
| Program.Accounts.Restock | program/src/inventory.rs:247-291 | Growing the index, creating the Item and appending add one prize to the accounts; it panics exactly when the position or the tier's counter would leave `u32` |
| Program.Accounts.Deposit | program/src/admin/deposit_item.rs:149-180 | The handler has the protocol's result and, on success, its state |
| Program.Accounts.SetStatus | program/src/admin/lifecycle.rs:125-133 | The handler has the protocol's result and, on success, its state |
| Program.Accounts.Withdraw | program/src/admin/withdraw.rs:128-141 | The handler has the protocol's result and, on success, its state |
| Program.Accounts.Reclaim | program/src/admin/lifecycle.rs:210-292 | The handler, removing from the Fenwick index, has the protocol's result and, on success, its state |
| Program.Accounts.Buy | program/src/player/buy.rs:192-256 | The handler has the protocol's result and, on success, its state |
| Program.Accounts.CheckSettle | program/src/operator/settle.rs:82-107 | The guards refuse in the protocol's order with its error codes |
| Program.Accounts.Settle | program/src/operator/settle.rs:164-193 | The handler, drawing from the Fenwick index, has the protocol's result and, on success, its state |
| Program.Accounts.Refund | program/src/player/refund.rs:133-154 | The handler has the protocol's result and, on success, its state |
| Program.Accounts.Deliver | program/src/operator/deliver.rs:153-187 | The handler has the protocol's result and, on success, its state |
| Program.Accounts.Buyback | program/src/player/buyback.rs:196-258 | The handler has the protocol's result and, on success, its state |
| Program.Accounts.Execute | README.md:93-94 | An instruction is atomic: the accounts end in the protocol's next state on success and in the state before on failure, and keep the invariant |
| Program.Accounts.ExecuteAll | program/src/inventory.rs:1-8 | Any sequence of instructions executed on the accounts, Fenwick bytes included, ends in the protocol's run, so the theorems about runs hold of it |
| Program.Accounts.Fetch | program/src/state.rs:84-86 | The pool account's length, version, counters and index bytes form a snapshot of the state the clients can validate |
| Program.StockViewsAgree | program/src/inventory.rs:62-88 | In every reachable state of the accounts a tier's header counter, linear tag count and number of live Items are equal, the index length is that of the version, every Fenwick node holds its range sum and tags past the version are zero |
| Scenario.OneSale | program/src/operator/settle.rs:13-22 | One concrete pool is created, stocked, opened and sold; whatever the verified output, settling with its only Item succeeds and the award is delivered to the buyer |
| Program.CreatePool | program/src/admin/create_pool.rs:132-148 | Parameters within the bounds give fresh accounts in the paused, empty initial state; others are refused |

## Left out

- ECVRF proofs, SHA-256 and Ed25519: a verified output and its per-draw hashes are an input of Settle, and that the proof system makes the output a function of the Pull's address and seed enters only as the arbitrary map of `Pinned.AwardIsFixedAtSale`; `quoted` says whether the authority's signature over a buyback's terms verifies and `expired` whether its timestamp has passed.
- Program-derived addresses: a Pull's address is the pair of its seed and bump, which the passed account is assumed to match; whether a bump gives a valid address at all is not modelled. The pool's own address is a key; CreatePool takes any valid bump while the clients accept only the canonical one, which `Client.FromAccount` receives as an input.
- Rent, lamports and the system program: a new Item or pool account is assumed to be at a fresh address, and reallocation to zero-fill.
- The runtime's signer and writable flags beyond "the pool cannot sign as a buyer, seller or asset holder", account counts and instruction data lengths.
- Accounts of other pools and programs: a Pull or Item of another pool appears only as an unknown index or a foreign Item.
- Core and SPL programs: an asset transfer succeeds exactly when the signing authority owns the asset, and a token transfer exactly when the source holds the amount; collections, plugins, freezes, issuer delegates and token delegates are not modelled.
- Opening token accounts and changing their owners: the owner of every token account is fixed at creation of the pool, while their balances move by any transfer.
- The owner of a token account that pays into the vault; for refunds and buybacks the owner of the receiving account is checked.
- Events, logs, instruction dispatch bytes and compute figures.
- Field getters and setters other than the index's counts and tags, the Pull's packed outcome table, and the Core asset header reader.
- Client address derivation, account metas, RPC fetching and serialisation; the size of a transaction is any function that does not shrink when instructions are added.
- The TypeScript conversions through `Number` of ranks and positions: all of them are below 2^32 and exact.
- A client's own checks on a Pull account, whose draw count is taken to be at most ten.
- The one-method shape of the index operations: the loops of take, append and remove are split into Descend, Probe, Scan, OpenBlock, FillNode, Raise, Lower and StepWalk, called in the original order.
- Program.Accounts.Settle: requires the invariant of reachable pools, which every created pool has and every execution keeps, because it reads the pinned version and the outcome table of a stored Pull without checking them.
- Program.Accounts.Deliver: requires the invariant of reachable pools for the same reason.
- Client.AvailableDrawsIsExact: the guards the clients do not report (seed in use, buyer funds, slot and index overflow) are assumed to pass; the clients document buyer funds as unchecked, and `Conditions.BuySucceedsExactly` has them all.
