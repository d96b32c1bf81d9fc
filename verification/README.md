# A verified model of the node's core

This project models, in Dafny, the parts of the blockchain node under `libraries/` where most of its state changes
meet, and proves what they are relied on for. `dafny verify dfyconfig.toml` checks everything.

- **Undo and forks.** `UndoModel` holds the delta that one undo state records and how two are merged; `UndoRuns` runs
  deltas against a machine that keeps a full copy of the store per level; `UndoSessions` draws the consequences for
  nested sessions and for popping committed blocks; `ObjectDatabase` is the class with the loops. `Blocks` and
  `ForkDatabase` are the fork index and the search for the fork point; `BlockApplication` and `Chain` apply blocks and
  switch forks.
- **The market.** `Totals`, `Prices`, `Ordering` and `Ledger` are sums, floor arithmetic on prices, index order and
  single movements of value. `Book`, `Margin` and `Trading` state what orders, positions, settlement requests and
  settlement funds keep. `Events` lists what may happen between two user operations and `Calls` what margin calls
  leave undone; the loops of `Market` are proved to do exactly a list of such events. `Accounts` says whose balance
  gains what by each movement, with fees, cuts and shares in numbers. `Operations` and `ForceSettlement` are the
  users' operations and the pass over due settlement requests, and `MarketRuns` runs them in any order.
- **Deflation** (`Deflation`), **vesting** (`Vesting`) and **maintenance** (`Maintenance`): a burn applied behind a cursor,
  coin-seconds and linear vesting, and the budget with the fee and pay splits around it.
- **Consensus helpers.** `Sync` (how two peers find where their chains part), `WitnessSchedule` (shuffle, turns, slots),
  `Irreversibility` (the order statistic that decides what can no longer be undone).
- **Amounts as text** (`AmountStrings`): printing and parsing with an asset's precision. `Config` holds the constants,
  `Arithmetic` and `Arrays` what several modules use.

Objects the node updates in place are classes whose methods are proved against functions of their old state; the
properties are proved about those functions. A function that rounds has a lemma `...Iff` that says which number it
gives by inequalities on products alone. A method that returns `ok == false` stands for a failed check or an
exception: the enclosing undo session then restores the state, which is what `MarketRuns.Run` does.

Assumptions that the model fixes:

- A block id determines its whole history (ids are modelled as that history), so ids do not collide; a block's number is
  its parent's plus one. Evaluating a block is a deterministic function of the store and the block, and it leaves the
  recorded head block alone until the end, where it records its own id.
- An object is created under the next id of its kind. A session that is neither merged nor committed is undone when it
  goes out of scope; the model calls `Undo` there.
- An amount times a price is the floor of the exact product, at most 1 000 000 000 000; prices compare by cross
  multiplication; all hardfork dates have passed.
- `GRAPHENE_100_PERCENT` is 10000. Fee percentages are at most that, the two FBA percentages and the network and
  lifetime percentages of an account sum to at most that.
- The call price of a position and the squeeze price of a feed are given as data; the model needs only that they are
  positive.

Where the code and its comments disagree, the model follows the code:

- `linear_vesting_policy` is documented as taking no deposits, but accepts them; `Vesting.LinearDepositValidIff` says when
  the later assert still holds.
- `check_call_orders` never resets `filled_limit`, so after one bid was used up the bid cursor moves on after every
  call. The model keeps that: a bid passed over may still have something for sale (`Calls.BidPassedOver`). It also
  stops, as a failure, where the code would go on reading a bid that was refunded as too small while it was still the
  current one.
- `call_order_update_evaluator::do_evaluate` compares a balance with a negative amount when debt is repaid, which always
  holds; the debit itself is what fails, as in the model.
- An account charged early outside the range of a deflation round keeps its flag into the next round and is skipped
  there: `Deflation.LateFlagStays`, `Deflation.ChargedOnceIffUnflagged` and, as a run in which it happens,
  `Deflation.LateAccountEscapesTheNextRound`.
- A session committed inside another one is not undone by the outer one, and opening more sessions than the size limit
  drops the oldest: `UndoSessions.NestedCommitUndoesOnlyInner`, `UndoSessions.OpenKeepsSessionsIff`,
  `UndoSessions.UndoAfterOpening`.
- `push_block` is documented to unwind every partial change when it fails. After a failed switch it does so exactly if
  `Chain.ComesBack` holds: the fork index reaches as far below the old tip as the good part of the new branch is long, and
  no undo limit set on the way is smaller than that part. Otherwise it throws from between the branches, which is the
  result `Stuck`; `Chain.ForkFromGenesisSticks` is a run in which it happens.

## Model

| member | source | states |
|---|---|---|
| UndoModel.RecordCreateKeepsPast | libraries/db/undo_database.cpp:50-62 | Recording a creation leaves what the undo state stands for unchanged: reverting the new store gives exactly the store and next ids that reverting the old one gave |
| UndoModel.RecordModifyKeepsPast | libraries/db/undo_database.cpp:63-75 | The same for a modification, whether the object was new, already modified or untouched in this state |
| UndoModel.RecordRemoveKeepsPast | libraries/db/undo_database.cpp:76-96 | The same for a removal in each of its branches (new, modified, already removed, untouched) |
| UndoModel.RecordCreateFits | libraries/db/undo_database.cpp:50-62 | A creation keeps the undo state fitting its store: new ids present, old values present, removed ids absent, containers disjoint, next ids only grown |
| UndoModel.RecordModifyFits | libraries/db/undo_database.cpp:63-75 | The same for a modification |
| UndoModel.RecordRemoveFits | libraries/db/undo_database.cpp:76-96 | The same for a removal |
| UndoModel.NotApplicableNeverOccurs | libraries/db/undo_database.cpp:137-176 | For adjacent states that fit the same store, none of the cases the table marks N/A can arise |
| UndoModel.MergeFollowsTable | libraries/db/undo_database.cpp:137-176 | The merged state has for every object exactly the entry of the 4x4 table |
| UndoModel.MergeIsComposition | libraries/db/undo_database.cpp:130-243 | Reverting the merged state equals reverting the later state and then the earlier one, for objects and next ids |
| UndoModel.MergeKeepsDisjoint | libraries/db/undo_database.cpp:178-240 | Merging keeps new ids, old values and removed values pairwise disjoint |
| UndoModel.MergeFits | libraries/db/undo_database.cpp:130-243 | The merged state fits the current store |
| UndoRuns.OpenSimulates | libraries/db/undo_database.cpp:33-49 | Opening a session, with the oldest states dropped beyond the size limit and a second state pushed onto an empty stack, is opening on full copies |
| UndoRuns.DropOldest | libraries/db/undo_database.cpp:40-41 | Dropping the oldest states leaves what the others stand for as it was |
| UndoRuns.MergeSimulates | libraries/db/undo_database.cpp:130-243 | Merging two states drops the newer copy and keeps the older one |
| UndoRuns.StepSimulates | libraries/db/undo_database.cpp:33-286 | Every operation on deltas is the same operation on a machine that keeps a full copy of the store per level, failures included |
| UndoRuns.RunSimulates | libraries/db/undo_database.cpp:33-286 | Over any run the delta machine and the copy machine succeed or fail together and agree on the store and on every level |
| UndoSessions.UndoneSessionLeavesNoTrace | libraries/db/undo_database.cpp:98-128 | Start, any balanced run with nested sessions, undo: store and next ids are exactly those at the start |
| UndoSessions.MergedSessionKeepsChanges | libraries/db/undo_database.cpp:130-243 | Start, any balanced run, merge: the changes stay and the enclosing levels stand for the same stores |
| UndoSessions.NestedCommitUndoesOnlyInner | libraries/db/undo_database.cpp:244-248 | After committing a nested session, undoing the outer one restores the start of the nested one; it restores the start of the outer one if and only if nothing had changed in between |
| UndoSessions.OpenKeepsSessionsIff | libraries/db/undo_database.cpp:33-49 | With some sessions open, starting k more keeps the stores all of them started from if and only if the nesting stays within the size limit |
| UndoSessions.UndoAfterOpening | libraries/db/undo_database.cpp:33-49 | Undoing those k sessions and j of the earlier ones restores exactly the start of the j-th within the limit, and the oldest store the limit left beyond it |
| UndoSessions.OverNestingLosesTheOuterSession | libraries/db/undo_database.cpp:40-41 | A concrete run beyond the limit whose three undos do not bring the first store back |
| UndoSessions.CommitsThenPops | libraries/db/undo_database.cpp:244-286 | After k committed sessions, j pops succeed if and only if j states are on the stack, and then restore the store of j commits ago |
| ObjectDatabase.Database.constructor | libraries/db/include/graphene/db/undo_database.hpp:140-144 | An empty database with undo disabled |
| ObjectDatabase.Database.OnCreate | libraries/db/undo_database.cpp:50-62 | Adds the recording of a creation to the newest state |
| ObjectDatabase.Database.OnModify | libraries/db/undo_database.cpp:63-75 | Adds the recording of a modification to the newest state |
| ObjectDatabase.Database.OnRemove | libraries/db/undo_database.cpp:76-96 | Adds the recording of a removal to the newest state |
| ObjectDatabase.Database.Create | libraries/db/include/graphene/db/index.hpp:271-278 | A new object under the next id, recorded unless undo is disabled |
| ObjectDatabase.Database.Modify | libraries/db/include/graphene/db/index.hpp:288-297 | A changed object, its old value recorded unless undo is disabled |
| ObjectDatabase.Database.Remove | libraries/db/include/graphene/db/index.hpp:280-286 | A removed object, its old value recorded unless undo is disabled |
| ObjectDatabase.Database.StartUndoSession | libraries/db/undo_database.cpp:33-49 | The state machine step for opening a session |
| ObjectDatabase.Database.Undo | libraries/db/undo_database.cpp:98-128 | Loops over the four containers give the step for undo |
| ObjectDatabase.Database.Merge | libraries/db/undo_database.cpp:130-243 | Loops over the containers of the newer state give the step for merge |
| ObjectDatabase.Database.Commit | libraries/db/undo_database.cpp:244-248 | The step for commit |
| ObjectDatabase.Database.PopCommit | libraries/db/undo_database.cpp:250-286 | The step for pop_commit |
| ObjectDatabase.MergeValues | libraries/db/undo_database.cpp:179-196 | The loop over modified objects yields the old values of the table |
| ObjectDatabase.MergeNextIds | libraries/db/undo_database.cpp:202-217 | The loop over next ids keeps the older entry |
| ObjectDatabase.MergeRemoved | libraries/db/undo_database.cpp:219-240 | The loop over removed objects handles new, modified and untouched objects as the table says |
| Blocks.BranchesMeet | libraries/chain/fork_database.cpp:199-241 | The two branches end on children of one block |
| Blocks.BranchesShareOnlyOnOneLine | libraries/chain/fork_database.cpp:199-241 | The branches share a block only if one tip is an ancestor of the other |
| Blocks.MeetIsLowestCommonAncestor | libraries/chain/fork_database.cpp:202-203 | Where the branches meet is a common ancestor above every other |
| Blocks.OneLine | libraries/chain/fork_database.cpp:214-239 | If one tip lies on the other's branch, the shorter branch is that tip alone |
| ForkDatabase.ForkDb.PushBlock | libraries/chain/fork_database.cpp:58-106 | Refuses exactly the blocks that are too old or unlinked; otherwise the head is the highest block and the window moves with it |
| ForkDatabase.ForkDb.SetMaxSize | libraries/chain/fork_database.cpp:129-158 | Erases exactly the blocks below the window |
| ForkDatabase.ForkDb.DropBelow | libraries/chain/fork_database.cpp:99-101 | Erases exactly the blocks below a number |
| ForkDatabase.ForkDb.PopBlock | libraries/chain/fork_database.cpp:39-45 | The head moves to its parent, or the call fails |
| ForkDatabase.ForkDb.Remove | libraries/chain/fork_database.cpp:248-251 | Erases one block from the index |
| ForkDatabase.ForkDb.FetchBranchFrom | libraries/chain/fork_database.cpp:199-241 | Terminates and returns the two parent-linked paths down to children of one block, or fails if and only if a block on them is not indexed |
| BlockApplication.ApplySetsHead | libraries/chain/db_block.cpp:502-560 | A block that applies leaves its own id as head |
| BlockApplication.ReplayHead | libraries/chain/db_block.cpp:153-162 | A replayed branch leaves its newest block as head |
| BlockApplication.LimitsAllowIff | libraries/chain/db_update.cpp:98 | With the undo limit set as the code sets it, the limits met on a branch allow coming back if and only if, before each applied block but the newest, at most the block after the base is irreversible |
| BlockApplication.UndoableIsReplay | libraries/chain/db_block.cpp:452-465 | Stores left by applied blocks are those that replaying the same blocks from the older store gives |
| Chain.Blockchain.ApplyBlock | libraries/chain/db_block.cpp:157-163 | A block applies in a session as its evaluation says, or leaves store and levels as they were |
| Chain.Blockchain.PushApplied | libraries/chain/db_block.cpp:196-205 | A block is applied, stored and committed, or nothing changes |
| Chain.Blockchain.PopBlock | libraries/chain/db_block.cpp:452-465 | The newest block is taken back if and only if it is known, a level is left, and the fork head has a parent in the index |
| Chain.Blockchain.PopTo | libraries/chain/db_block.cpp:149-150 | For a block as many blocks below the head as are on the undo history: succeeds if and only if the blocks above it and the fork items below the fork head are there, and brings back the store of then; fails if no pop leads down to it |
| Chain.Blockchain.PushBranch | libraries/chain/db_block.cpp:153-162 | Applies a branch oldest first up to the first block that throws; what it started from stays within reach if the undo limits set on the way allow it, and is lost if they do not |
| Chain.Blockchain.ReturnToOldBranch | libraries/chain/db_block.cpp:164-188 | Takes the good part of the new branch back and replays the old one to the old store if and only if the index reaches as far below the old tip as the good part is long |
| Chain.Blockchain.DropFailed | libraries/chain/db_block.cpp:167-172 | Removes exactly the failed block and those built on it from the index |
| Chain.Blockchain.SwitchFork | libraries/chain/db_block.cpp:146-190 | With the old branch on the undo history: the new branch replayed if it is good; otherwise the old store and the index without the bad blocks, except that the code gets stuck between the branches exactly if ComesBack fails |
| Chain.Blockchain.PushBlock | libraries/chain/db_block.cpp:129-208 | Per case, the new store is the old prefix and the new branch replayed, or store and head are exactly the old ones; stuck exactly if ComesBack fails, or if the history is rooted and the old branch longer than it |
| Chain.ShortPartComesBack | libraries/chain/db_block.cpp:164-188 | The code comes back whenever the good part is shorter than the old branch and the undo limits allow it |
| Chain.GenesisForkComesBackIff | libraries/chain/fork_database.cpp:39-45 | From a fork that starts at genesis the code comes back if and only if fewer new blocks apply than the old branch holds and the limits allow it |
| Chain.ForkFromGenesisSticks | libraries/chain/db_block.cpp:164-188 | A concrete run: a block, a second chain from genesis and a bad block on it leave the code stuck, because the last pop would move the fork head to no block |
| Chain.TooDeep | libraries/chain/db_block.cpp:149-150 | Where every block that can be popped is counted, no pop leads further down than the undo history |
| Chain.LostBegins | libraries/chain/db_block.cpp:153-162 | An undo limit below the number of blocks applied so far puts the block they were applied to out of reach of every pop |
| Prices.MatchConsumes | libraries/chain/db_market.cpp:290-328 | Neither order pays more than it has, one pays all of it, and if the taker has some left the maker has none |
| Prices.ToQuoteIff | libraries/chain/protocol/asset.cpp:76-84 | An amount at a price is worth x if and only if x is the whole part of the exact worth and within the share limit |
| Prices.ToBaseIff | libraries/chain/protocol/asset.cpp:85-91 | The same in the other direction |
| Prices.LessAsFractions | libraries/chain/protocol/asset.cpp:43-54 | Cross multiplication compares the prices as fractions |
| Prices.CrossesAsFractions | libraries/chain/db_market.cpp:219-221 | Two orders meet if and only if the maker's price is at least the inverse of the taker's, as fractions |
| Prices.MatchIff | libraries/chain/db_market.cpp:297-311 | The trade in numbers, for all inputs: who pays all it has, what whole part the other pays, and that it fails exactly when a worth exceeds the share limit |
| Prices.MatchIsFair | libraries/chain/db_market.cpp:297-311 | The order that is not used up never trades at worse than the match price, and rounding costs the other less than one unit |
| Prices.PaysForNothingIff | libraries/chain/db_market.cpp:297-311 | Against a maker worth something the taker always pays; it pays for nothing exactly if its remainder is worth less than one unit |
| Prices.DustBuysNothing | libraries/chain/db_market.cpp:174-193 | An order is dust if and only if its amount to receive is zero |
| Ordering.NotAboveTransitive | libraries/chain/protocol/asset.cpp:43-54 | Comparison by cross multiplication is transitive |
| Ordering.First | libraries/chain/include/graphene/chain/market_object.hpp:145-152 | Finds the entry an index ordered by price, then age, yields first |
| Ledger.MarketFeeAtMostAmount | libraries/chain/db_market.cpp:681-715 | The market fee never exceeds the amount |
| Ledger.MarketFeeIff | libraries/chain/db_market.cpp:681-699 | The fee is x if and only if x is the whole part of the percentage, or the maximum fee where that is less, and 0 at 0% |
| Ledger.ExchangeCutIff | libraries/chain/db_market.cpp:382-402 | The exchange's cut is x if and only if x is the whole part of its rate of the proceeds, and 0 without a rate |
| Ledger.PayProceedsEffect | libraries/chain/db_market.cpp:374-412 | Paying a seller, the issuer's fee, the exchange and the deferred fee puts exactly the proceeds and that fee into the totals |
| Ledger.CancelLimitEffect | libraries/chain/db_market.cpp:152-171 | Cancelling returns everything the order held |
| Ledger.FillLimitEffect | libraries/chain/db_market.cpp:369-455 | A fill moves exactly what is paid and received |
| Ledger.FillCallEffect | libraries/chain/db_market.cpp:458-509 | A fill of a position takes the collateral paid; the debt repaid leaves debt and supply alike |
| Ledger.FillSettleEffect | libraries/chain/db_market.cpp:511-535 | A fill of a settlement request moves exactly what is paid and received |
| Ledger.CancelSettleEffect | libraries/chain/db_market.cpp:98-111 | Cancelling a request returns its balance |
| Book.FillLimitBook | libraries/chain/db_market.cpp:414-454 | What a fill leaves in the book: gone if all was paid, else the remainder, and with culling never dust |
| Book.MatchLimitsBook | libraries/chain/db_market.cpp:290-328 | After a match at least one order is gone, the flags say which, and no other order is touched |
| Book.MatchLimitsEffect | libraries/chain/db_market.cpp:290-328 | A match conserves every asset |
| Book.ShrinkingKeepsBook | libraries/chain/db_market.cpp:195-278 | Orders leaving or being partly filled keep the book uncrossed and free of dust |
| Margin.MarginFillQuiet | libraries/chain/db_market.cpp:636-662 | A margin call conserves every asset and keeps debt in step with supply |
| Margin.SettleFillQuiet | libraries/chain/db_market.cpp:336-367 | A forced settlement conserves every asset and keeps debt in step with supply |
| Margin.SupplyHasPosition | libraries/chain/db_update.cpp:398-399 | There is a position to settle against as long as there is supply |
| Margin.ShareWithinFund | libraries/chain/asset_evaluator.cpp:463-481 | For an amount out of the remaining supply the share never exceeds the fund, and the invariant fund * S0 >= supply * C0 is kept |
| Margin.FundNeverShort | libraries/chain/asset_evaluator.cpp:457-481 | Whoever holds the amount is paid: the check on the fund cannot fail |
| Margin.SettleFromFundMoves | libraries/chain/asset_evaluator.cpp:457-481 | Paying out of the fund conserves every asset and keeps every fund solvent |
| Trading.MatchTrades | libraries/chain/db_market.cpp:290-328 | A match of two limit orders is a step that keeps all market invariants |
| Trading.MarginTrades | libraries/chain/db_market.cpp:636-662 | So is a margin call |
| Trading.CancelTrades | libraries/chain/db_market.cpp:113-172 | So is a cancellation |
| Trading.SettleTrades | libraries/chain/db_market.cpp:336-367 | So is a forced settlement |
| Trading.ClosingStep | libraries/chain/db_market.cpp:66-80 | Closing one position keeps the books of a running global settlement |
| Trading.ClosingEnd | libraries/chain/db_market.cpp:82-94 | A completed global settlement conserves every asset and leaves a solvent fund |
| Trading.SwanIffBest | libraries/chain/db_update.cpp:215-239 | Looking at the best bid and the feed decides whether the first position is covered by any bid |
| Margin.SwanPaysIff | libraries/chain/db_market.cpp:69-75 | In a global settlement a position pays x if and only if x is the whole part of what its debt is worth, or all its collateral where that is less |
| Accounts.ProceedsPaid | libraries/chain/db_market.cpp:374-412 | Account by account: the seller gets the proceeds less fee and cut, the exchange its cut, and no other balance moves; it fails exactly where the seller cannot bear the cut |
| Accounts.FillPays | libraries/chain/db_market.cpp:369-455 | Account by account, a fill pays the proceeds, and refunds to the seller a remainder too small to buy anything |
| Accounts.MatchPays | libraries/chain/db_market.cpp:290-328 | Account by account, a match at the maker's price pays each seller the other side less fee and cut, and nobody else anything |
| Accounts.UntaxedMatchPays | libraries/chain/db_market.cpp:290-328 | At 0% and without an exchange each seller gets the whole other side of the trade |
| Accounts.CancelPays | libraries/chain/db_market.cpp:152-171 | Cancelling gives exactly the seller what was for sale and the deferred fee |
| Accounts.CallPays | libraries/chain/db_market.cpp:458-509 | A position without debt frees what is left of its collateral to its borrower, and nobody else's balance moves |
| Accounts.SettlementPays | libraries/chain/db_market.cpp:511-535 | The owner of a request gets what it receives less the fee, and nobody else anything |
| Accounts.CancelSettlePays | libraries/chain/db_market.cpp:98-111 | Cancelling a request gives exactly its owner its balance |
| Accounts.MarginCallPays | libraries/chain/db_market.cpp:636-662 | Who gains what in a margin call: the bid's seller, its exchange, and the borrower whose debt is gone |
| Accounts.ForcedSettlementPays | libraries/chain/db_market.cpp:336-367 | Who gains what in a forced settlement: the request's owner, and the borrower whose debt is gone |
| Accounts.FundPays | libraries/chain/asset_evaluator.cpp:457-481 | A holder gives the amount and gets the whole part of its share of the fund; the fund and the supply fall by just that |
| Accounts.SettlementReturns | libraries/chain/db_market.cpp:46-96 | A global settlement gives every borrower, in the backing asset, the collateral of its positions less what each pays in numbers, and nobody else anything; the fund is the sum of what they pay and the settlement price is supply over fund |
| Markets.Market.PaySeller | libraries/chain/db_market.cpp:374-412 | The new state is the specified one, or a withdrawal failed |
| Markets.Market.FillLimitOrder | libraries/chain/db_market.cpp:369-455 | The new state and result are the specified fill |
| Markets.Market.FillCallOrder | libraries/chain/db_market.cpp:458-509 | The new state is the specified fill of a position |
| Markets.Market.FillSettlement | libraries/chain/db_market.cpp:511-535 | The new state is the specified fill of a request |
| Markets.Market.CancelLimitOrder | libraries/chain/db_market.cpp:113-172 | The new state is the specified cancellation |
| Markets.Market.CancelSettlement | libraries/chain/db_market.cpp:98-111 | The new state is the specified cancellation |
| Markets.Market.CullIfSmall | libraries/chain/db_market.cpp:174-193 | Refunds the order exactly if it would receive nothing |
| Markets.Market.MatchOrders | libraries/chain/db_market.cpp:290-328 | Both orders trade at the maker's price; the flags say which is gone |
| Markets.Market.MatchBook | libraries/chain/db_market.cpp:208-262 | The taker trades event by event until it is gone or nothing meets it, in price and time priority |
| Markets.Market.BestBid | libraries/chain/db_update.cpp:215-236 | Finds the bid that precedes all others |
| Markets.Market.FirstCall | libraries/chain/db_update.cpp:225-230 | Finds the position first in line, or there is none |
| Markets.Market.GloballySettle | libraries/chain/db_market.cpp:46-96 | Closes every position at the price, in order; the fund is the sum of what they pay, the supply is restored; succeeds if and only if the asset was not settled before and no position's debt is worth more at the price than an amount can be |
| Markets.Market.CheckForBlackSwan | libraries/chain/db_update.cpp:200-255 | Settles the asset globally if and only if its first position is not covered by the feed or any bid; fails if and only if that is not allowed or not possible |
| Markets.Market.MarginCall | libraries/chain/db_market.cpp:636-662 | The position buys as much of its debt as the bid sells, or the fill is not defined |
| Markets.Market.CallNext | libraries/chain/db_market.cpp:602-634 | Stops exactly if the feed or the bid protects the position; settles globally only if the collateral is too small |
| Markets.Market.CallInTurn | libraries/chain/db_market.cpp:584-666 | The loop over positions and bids does exactly a list of allowed events; unless a bid was passed over, nothing is due at the end, and it fails only where the next step cannot be done |
| Markets.Market.CheckCallOrders | libraries/chain/db_market.cpp:537-667 | The same for the whole check; it leaves every position with collateral, and does nothing and succeeds where nothing is due |
| Calls.TurnNext | libraries/chain/db_market.cpp:636-664 | What one call leaves to both cursors: every bid that offers enough is still ahead unless one was passed over, and every position is |
| Calls.NoSwanCollateral | libraries/chain/db_market.cpp:584 | A call may take all collateral of a position that keeps some debt, but the next look for an uncovered position finds it |
| Calls.BidPassedOver | libraries/chain/db_market.cpp:584-664 | A concrete book of three due positions and two bids: the cursor passes the second bid over with a third of the debt unserved and something still for sale |
| Markets.Market.ApplyOrder | libraries/chain/db_market.cpp:195-278 | Calls, then the book, then calls, then culling; the book is uncrossed and free of dust afterwards; a failure has its place in that order |
| Markets.SweepStep | libraries/chain/db_market.cpp:219-262 | Trading with the first order not yet visited keeps priority and progress |
| Markets.BookRestored | libraries/chain/db_market.cpp:195-278 | A new order that meets nothing leaves the book as uncrossed as it was without it |
| Events.ReplayThen | libraries/chain/db_market.cpp:195-278 | Events in sequence compose |
| Operations.CreateLimitOrder | libraries/chain/market_evaluator.cpp:239-277 | The amount is withdrawn, the order applied as specified, the fee debited last; every market invariant is kept; fails only for a reason the contract lists |
| Operations.CancelOrder | libraries/chain/market_evaluator.cpp:279-334 | The order is refunded and margin calls follow as specified; every market invariant is kept; fails only for a foreign or missing order or where the calls cannot go on |
| Operations.UpdateCallOrder | libraries/chain/market_evaluator.cpp:336-484 | Debt and collateral move as asked, and the position ends up closed or not callable; every market invariant is kept; fails only for a reason the contract lists |
| Operations.PositionPays | libraries/chain/market_evaluator.cpp:376-403 | The payer gains the debt it takes on and gives the collateral it adds, and no other balance moves |
| Operations.SetPosition | libraries/chain/market_evaluator.cpp:405-446 | Changes the payer's own position, creates one only from positive amounts, removes it only when both amounts are zero |
| Operations.SettleAsset | libraries/chain/asset_evaluator.cpp:441-490 | Pays from the fund or records a request as specified; for a positive amount it succeeds whenever the checks before it pass and the fund is within the share limit |
| Operations.SettleGlobally | libraries/chain/asset_evaluator.cpp:414-439 | Settles at the issuer's price if and only if there is supply, the least collateralized position can pay and no position's debt is worth more at the price than an amount can be |
| Operations.LeastPaysIff | libraries/chain/asset_evaluator.cpp:430-431 | The least collateralized position can pay if and only if the whole part of what its debt is worth is within its collateral |
| Operations.LeastCollateralized | libraries/chain/asset_evaluator.cpp:422-429 | The least collateralized position exists as long as there is supply |
| Operations.PublishFeed | libraries/chain/asset_evaluator.cpp:536-555 | A changed median feed is followed by margin calls as specified; fails only for an asset already settled or where the calls cannot go on |
| Operations.BorrowedGood | libraries/chain/market_evaluator.cpp:376-446 | Borrowing and repaying conserve every asset and keep debt equal to supply |
| Operations.PlacedOrder | libraries/chain/market_evaluator.cpp:239-270 | Placing an order moves its amount into the book |
| Operations.FundKeeps | libraries/chain/asset_evaluator.cpp:457-481 | Paying from the fund keeps every market invariant |
| ForceSettlement.RoomMeansSupply | libraries/chain/db_update.cpp:363-399 | While the volume limit is not reached there is supply, so the asserted position exists |
| ForceSettlement.VolumeWithin | libraries/chain/asset_object.cpp:33-44 | The volume limit never exceeds what was outstanding |
| ForceSettlement.VolumeLimitIff | libraries/chain/asset_object.cpp:33-44 | The volume limit is x if and only if x is the whole part of the percentage of what was outstanding |
| ForceSettlement.WithinPercentage | libraries/chain/db_update.cpp:363-375 | What has been settled stays within the percentage of what was outstanding, in numbers |
| ForceSettlement.OffsetPriceIff | libraries/chain/db_update.cpp:383-389 | The price of a settlement in numbers: the balance against the whole part of its worth, less the whole part of the offset |
| ForceSettlement.WaitingMeans | libraries/chain/db_update.cpp:340-382 | A request is kept waiting only before its date or where one more unit would go beyond the percentage, in numbers |
| ForceSettlement.SettlingFill | libraries/chain/db_update.cpp:391-416 | Each part settled keeps supply plus volume constant and every market invariant |
| ForceSettlement.SettlePart | libraries/chain/db_update.cpp:394-415 | One part against the least collateralized position, or the request is cancelled exactly if it cannot be served; no part exactly if the position has no collateral or the part is out of range |
| ForceSettlement.SettleRequest | libraries/chain/db_update.cpp:383-422 | A request is settled part by part as specified until it is gone, dropped, or the volume is used up exactly; succeeds if and only if the whole request is worth no more than an amount can be |
| ForceSettlement.PartsArePriced | libraries/chain/db_update.cpp:383-409 | Once the whole request is within range, so is every part of it |
| ForceSettlement.Process | libraries/chain/db_update.cpp:319-423 | Waits, cancels, works or breaks off exactly as the request's date, the feed, the settlement, the volume and the range of amounts say |
| ForceSettlement.FirstRequest | libraries/chain/db_update.cpp:315-318 | Finds the first request by asset, date and age from an asset on |
| ForceSettlement.Progress | libraries/chain/db_update.cpp:314-423 | Requests, then assets, then volume: the pass makes progress lexicographically |
| ForceSettlement.ClearExpired | libraries/chain/db_update.cpp:287-424 | Terminates; every step is allowed, no asset goes past its volume, and whatever remains must wait: its date has not come or, in numbers, one more unit would go beyond the percentage of what was outstanding; breaks off only at a due request worth more than an amount can be, and never if there was none |
| MarketRuns.Run | libraries/chain/db_block.cpp:229-285 | Over any run of operations, failed ones rolled back: conservation, debt equal to supply, solvent funds, an uncrossed book without dust |
| MarketRuns.NewMarket | libraries/chain/db_init.cpp:390-410 | A market that holds the core supply in one account and no surplus in any asset is well formed |
| MarketRuns.StartGood | libraries/chain/db_init.cpp:390-410 | The invariants hold, with no surplus in any asset, when one account holds all of the core asset and nothing else is issued |
| Operations.IssueAsset | libraries/chain/asset_evaluator.cpp:158-184 | Supply and the receiver's balance rise together, exactly when the asset is neither core nor market-issued and its maximum supply allows it; every invariant is kept |
| Operations.ReserveAsset | libraries/chain/asset_evaluator.cpp:186-217 | Supply and the payer's balance fall together, exactly when both suffice and the asset is not market-issued; every invariant is kept |
| Deflation.ChargeEarlyKeeps | libraries/chain/transfer_evaluator.cpp:109-150 | An early charge freezes exactly what the account owes, at most its balance, and the account is due no more |
| Deflation.TransferKeeps | libraries/chain/transfer_evaluator.cpp:98-156 | A transfer conserves balances plus frozen amounts plus round totals |
| Deflation.TransferSucceedsIff | libraries/chain/transfer_evaluator.cpp:68-154 | A transfer succeeds if and only if the sender can pay the amount and what it owes; the recipient can always bear its own charge |
| Deflation.EarlyChargeIs | libraries/chain/transfer_evaluator.cpp:109-150 | An early charge is the floor of the round's share of the balance at that moment, that is what is frozen, and nothing else changes |
| Deflation.TransferPays | libraries/chain/transfer_evaluator.cpp:98-156 | The sender loses exactly the amount and its charge, the recipient gains exactly the amount less its charge, no other balance moves; the charges are given in numbers |
| Deflation.ReachPays | libraries/chain/deflation_evaluator.cpp:168-216 | The cursor takes the floor of the share from an account without a flag, and only what was frozen from one with a flag; no other balance moves |
| Deflation.EveryBalance | libraries/chain/deflation_evaluator.cpp:131-216 | Over any run every account ends with what it had and was sent, less what it sent and was charged |
| Deflation.UntouchedPaysOnce | libraries/chain/deflation_evaluator.cpp:35-216 | An account in range that no transfer touches ends the round with its opening balance less the floor of the share, or unchanged if it carried a flag |
| Deflation.OpenKeeps | libraries/chain/deflation_evaluator.cpp:35-129 | A new round conserves and starts with nobody charged in it |
| Deflation.ReachKeeps | libraries/chain/deflation_evaluator.cpp:168-216 | The cursor reaching an account conserves |
| Deflation.RunKeeps | libraries/chain/deflation_evaluator.cpp:131-216 | Over any run core is conserved and no account is charged twice in one round |
| Deflation.ChargedOnceIffUnflagged | libraries/chain/deflation_evaluator.cpp:168-216 | When a round closes, each account in its range was charged exactly once if it carried no flag from before, and not at all if it did |
| Deflation.LateFlagStays | libraries/chain/deflation_evaluator.cpp:178-188 | A flag outside the range survives the round if and only if it was set before or during it |
| Deflation.LateAccountEscapesTheNextRound | libraries/chain/deflation_evaluator.cpp:178-188 | A concrete run from a sound ledger: an account registered and paid during a round ends it flagged, and the next round, which covers it, closes without having charged it |
| Deflation.ReachSucceeds | libraries/chain/deflation_evaluator.cpp:131-168 | None of the checks fails for the account at the cursor |
| Deflation.BatchApplies | libraries/chain/db_deflation.cpp:89-114 | A generated transaction applies as a whole, moves the cursor by its length and closes the round at its end |
| Deflation.RoundCloses | libraries/chain/db_deflation.cpp:34-114 | Enough blocks close any round, whatever transfers, registrations and attempts at a new round come before each generated transaction |
| Deflation.DeflationDb.Transfer | libraries/chain/transfer_evaluator.cpp:98-156 | The objects are updated as specified |
| Deflation.DeflationDb.Open | libraries/chain/deflation_evaluator.cpp:35-129 | The objects are updated as specified |
| Deflation.DeflationDb.ReachAccount | libraries/chain/deflation_evaluator.cpp:131-216 | The objects are updated as specified |
| Deflation.DeflationDb.Generate | libraries/chain/db_deflation.cpp:89-114 | Lists the accounts from the cursor on, up to the limit and the last account |
| Vesting.AllowedWithin | libraries/chain/vesting_balance_object.cpp:112-142 | What may be withdrawn is within the balance and covered by coin-seconds: both asserts hold |
| Vesting.EarnedIff | libraries/chain/vesting_balance_object.cpp:90-110 | The coin-seconds in numbers: what was earned and the balance for each second since, up to the balance for a whole period |
| Vesting.AllowedIff | libraries/chain/vesting_balance_object.cpp:37-119 | The allowance in numbers: nothing before the start of claims or the cliff, then the whole coin-seconds per period, or the share of the time passed less what was taken |
| Vesting.BalancesMove | libraries/chain/vesting_balance_object.cpp:207-232 | A withdrawal takes its amount from the balance and a deposit adds its own, and the terms of the policy stay |
| Vesting.DepositsAreWithdrawnOnce | libraries/chain/vesting_balance_object.cpp:207-232 | Over any run the final balance and all withdrawals make up the opening balance and all deposits of the event list |
| Vesting.WithdrawValid | libraries/chain/vesting_balance_object.cpp:111-142 | Withdrawing x keeps the balance valid and lowers the allowance by exactly x |
| Vesting.DepositValid | libraries/chain/vesting_balance_object.cpp:121-130 | Deposits keep the coin-seconds within balance times period |
| Vesting.VestedDepositAllowed | libraries/chain/vesting_balance_object.cpp:126-130 | A deposit made as vested raises the allowance by exactly its amount |
| Vesting.VestedDepositExactIff | libraries/chain/vesting_balance_object.cpp:126-130 | For amounts within the share limit the code's coin-seconds after a vested deposit are the model's if and only if amount times period is below 2^63 |
| Vesting.UpdateInvisible | libraries/chain/vesting_balance_object.cpp:90-110 | An update in between changes neither what is earned nor what may be withdrawn later |
| Vesting.FullPeriodFullBalance | libraries/chain/vesting_balance_object.cpp:90-119 | After a full period without change the whole balance may be withdrawn |
| Vesting.WithdrawalsCovered | libraries/chain/vesting_balance_object.cpp:90-142 | Over any run, withdrawals times the period are covered by the balance held over time, vested deposits and what was earned before |
| Vesting.LinearGrows | libraries/chain/vesting_balance_object.cpp:37-69 | What has vested linearly never falls |
| Vesting.FullDurationFullBalance | libraries/chain/vesting_balance_object.cpp:49-61 | After the duration the whole linear balance may be withdrawn |
| Vesting.LinearDepositValidIff | libraries/chain/vesting_balance_object.cpp:70-78 | After a deposit into a linear balance the assert on withdrawals holds if and only if no more was deposited than had been withdrawn |
| Vesting.VestingBalance.MakeDeposit | libraries/chain/vesting_balance_object.cpp:207-212 | The object is updated as specified |
| Vesting.VestingBalance.MakeVestedDeposit | libraries/chain/vesting_balance_object.cpp:214-219 | The object is updated as specified; a linear balance refuses |
| Vesting.VestingBalance.AllowedWithdrawal | libraries/chain/vesting_balance_object.cpp:37-68 | Computes the allowance |
| Vesting.VestingBalance.MakeWithdrawal | libraries/chain/vesting_balance_object.cpp:226-232 | Withdraws exactly what is allowed, or refuses |
| Sync.HeightsShape | libraries/app/application.cpp:811-823 | A synopsis of the whole chain ends at the head and has as many entries as the length has bits |
| Sync.HeightsSorted | libraries/app/application.cpp:812-823 | Its entries strictly rise |
| Sync.HeightsRise | libraries/app/application.cpp:821 | Each gap is half of what is left, rounded as the code rounds it |
| Sync.GetSynopsis | libraries/app/application.cpp:710-827 | Whatever the reference point, the entries are the ancestors of the summarized block at the specified heights; each failure happens exactly under its condition |
| Sync.ForkHistory | libraries/app/application.cpp:753-773 | The blocks of the fork above the common ancestor, oldest first |
| Sync.LastKnown | libraries/app/application.cpp:604-614 | Finds the last entry the responder recognizes, and breaks off if and only if it meets a known block above its head before one |
| Sync.IdsFromIs | libraries/app/application.cpp:615-624 | The reply lists the chain from a block to the head, but no more than the limit |
| Sync.GetBlockIds | libraries/app/application.cpp:581-626 | Replies with the consecutive ids from the last recognized entry on, and the number that remain up to its head; unreachable if and only if no entry counts, and broken off if and only if the search was |
| Sync.SharedIffBelowFork | libraries/app/application.cpp:565-570 | Two chains share a block of a number if and only if it is not above the fork point |
| Sync.LastSharedIsNear | libraries/app/application.cpp:811-823 | The last entry both share is at most half the distance to the head below the fork point |
| Sync.Exchange | libraries/app/application.cpp:581-827 | Two peers: the reply starts with a shared block that near the fork point and ends, with the rest, at the responder's head; a fork below the synopsis is reported |
| WitnessSchedule.Shuffle | libraries/chain/db_witness_schedule.cpp:86-119 | The array is shuffled in place exactly as the generator's words say |
| WitnessSchedule.ShuffleIsPermutation | libraries/chain/db_witness_schedule.cpp:98-117 | For any words the result is a permutation |
| WitnessSchedule.ShuffledIsDrawn | libraries/chain/db_witness_schedule.cpp:98-117 | Exchanging in place is drawing: each position in turn takes one of those left, by its word modulo their number, and the first of them takes its place |
| WitnessSchedule.KnownWords | libraries/chain/db_witness_schedule.cpp:102-109 | The generator's first three words one second after the epoch |
| WitnessSchedule.ShuffledDistinct | libraries/chain/db_witness_schedule.cpp:86-119 | A permutation of distinct witnesses names the same witnesses, each once |
| WitnessSchedule.EachOnceInARound | libraries/chain/db_witness_schedule.cpp:34-40 | Among as many consecutive slots as there are witnesses each has exactly one turn |
| WitnessSchedule.ScheduledIs | libraries/chain/db_witness_schedule.cpp:34-40 | Turns go through the schedule from its start, over and over |
| WitnessSchedule.SlotTimeIs | libraries/chain/db_witness_schedule.cpp:42-70 | A slot's time counts intervals from genesis, or from the last whole interval before the head block, with the skipped ones after maintenance |
| WitnessSchedule.SlotOfItsTime | libraries/chain/db_witness_schedule.cpp:42-78 | The slot at a slot's own time is that slot |
| WitnessSchedule.SlotContainsTime | libraries/chain/db_witness_schedule.cpp:72-78 | Any time lies in the slot computed for it |
| WitnessSchedule.SlotsCarryOver | libraries/chain/db_update.cpp:43-84 | A block in slot n leaves slot n + k as slot k, with the same witness and time but for skipped maintenance slots and an unaligned genesis |
| Irreversibility.SelectNth | libraries/chain/db_update.cpp:141-145 | A selection: the element sorting would put at the position, with the smaller before and the larger after |
| Irreversibility.ReachingPermuted | libraries/chain/db_update.cpp:141-145 | How many reach a number does not depend on the order |
| Irreversibility.SelectedIsLargest | libraries/chain/db_update.cpp:135-147 | The selected element is the largest number that enough witnesses have confirmed |
| Irreversibility.OffsetBelow | libraries/chain/db_update.cpp:139 | The witnesses that must confirm are at least the threshold share of all |
| Irreversibility.OffsetIff | libraries/chain/db_update.cpp:139 | It is the most that may lag with 70% still left, in numbers |
| Irreversibility.ReachingIsConfirming | libraries/chain/db_update.cpp:135-147 | What is counted is the positions in the schedule whose witness has confirmed the block or a later one |
| Irreversibility.ChainStatus.UpdateLastIrreversible | libraries/chain/db_update.cpp:124-157 | Never falls, rises exactly to the largest number enough witnesses confirmed, and stays within the head |
| Irreversibility.ChainStatus.ApplyBlock | libraries/chain/db_update.cpp:102-157 | A block by a scheduled witness, active or just voted out, keeps all confirmations and the irreversible block within the head |
| Irreversibility.ChainStatus.ReplaceActive | libraries/chain/db_maint.cpp:278-360 | Voting in other witnesses keeps all confirmations and the irreversible block within the head; new witnesses have confirmed nothing |
| Maintenance.TwoCutsFit | libraries/chain/account_object.cpp:32-43 | Two cuts of one amount fit into it if their percentages do |
| Maintenance.CutFeeIff | libraries/chain/account_object.cpp:32-43 | A cut is x if and only if x is the whole part of the percentage |
| Maintenance.BudgetWithinReserve | libraries/chain/db_maint.cpp:439-485 | The budget stays within the reserve, and a positive reserve after a positive time gives a positive budget |
| Maintenance.TotalBudgetIff | libraries/chain/db_maint.cpp:459-484 | The budget is x if and only if x is the smallest whole number no less than 17 / 2^32 of the reserve for each second, or all of the reserve where that is less |
| Maintenance.RequestedIff | libraries/chain/db_maint.cpp:258-265 | A worker asks for x if and only if x is the whole part of its daily pay for the time passed |
| Maintenance.FeesPaidEffect | libraries/chain/account_object.cpp:56-94 | Paying out fees loses nothing to rounding |
| Maintenance.FeesArePaid | libraries/chain/account_object.cpp:56-94 | Account by account: who gets which part of a fee, in numbers; the parts of the chain's own accounts leave the supply |
| Maintenance.WorkersPaidEffect | libraries/chain/db_maint.cpp:256-276 | Workers get what they ask for until the budget runs out, and all kinds of pay conserve |
| Maintenance.WorkersArePaid | libraries/chain/db_maint.cpp:235-276 | Account by account: every account gains the pay of its own workers, in their order as far as the budget goes; burned pay goes to the null account and refunds leave the supply |
| Maintenance.NothingLeftToPay | libraries/chain/db_maint.cpp:256 | Once the budget is used up, further workers get nothing |
| Maintenance.CoreAsset.ProcessFees | libraries/chain/account_object.cpp:51-103 | Pending fees are paid out as specified and the surplus of what is held over the supply is kept |
| Maintenance.CoreAsset.SplitBuybackFees | libraries/chain/db_maint.cpp:644-722 | A fee accumulator is shared out as specified and the surplus is kept |
| Maintenance.CoreAsset.PayWitness | libraries/chain/db_update.cpp:102-116 | The witness gets its pay as far as the budget goes |
| Maintenance.CoreAsset.PayWorkers | libraries/chain/db_maint.cpp:235-276 | Workers are paid as specified |
| Maintenance.CoreAsset.ProcessBudget | libraries/chain/db_maint.cpp:490-584 | Budgets and supply change as specified, the surplus is kept, and the supply stays within its maximum |
| AmountStrings.AmountToString | libraries/chain/asset_object.cpp:148-160 | The loop and the padding give the specified string |
| AmountStrings.AmountFromString | libraries/chain/asset_object.cpp:93-146 | The character scan, conversion and padding give the specified amount or fail as specified |
| AmountStrings.PaddedDigits | libraries/chain/asset_object.cpp:158 | Writing one scale plus the decimals and dropping the first digit gives zero-padded decimals |
| AmountStrings.WrittenMeans | libraries/chain/asset_object.cpp:148-160 | What is written are the digits of the whole units and, unless it is zero, of the rest, in as many digits as the precision says |
| AmountStrings.DecimalIsRead | libraries/chain/asset_object.cpp:93-146 | Any decimal with at most as many digits after the point as the precision is read as what it says, with or without a minus sign |
| AmountStrings.RoundTrip | libraries/chain/asset_object.cpp:93-160 | Reading what was written gives the amount back, for every precision and every possible amount |

## Left out

- Chain.Blockchain.PushBlock: nothing is claimed of a switch whose old branch is longer than the undo history unless
  that history is rooted, which it is on every chain that started with an empty undo stack. The fork database's own
  head pointer after a switch and the ids under which restored blocks are stored are not part of the claim, because
  `pop_block` moves the head pointer whatever branch it is on and restored blocks are stored under the id of the
  failed block.
- Chain.Blockchain.SwitchFork: applying a block also prunes the fork index to the new undo limit; a switch is modelled
  with the index as it stands when the switch begins, less the blocks that failed.
- ForkDatabase.ForkDb.PushBlock: the refusal of a child of a block marked invalid is left out, because nothing in the
  repository ever sets that mark (`libraries/chain/include/graphene/chain/fork_database.hpp:51`).
- ObjectDatabase.Database.StartUndoSession: a session that enables undo by force does not disable it again when it
  ends.
- Markets.Market.CheckCallOrders: after calls in which the cursor passed a bid over (`Calls.Skips`) nothing is claimed
  about what is still due; `Calls.BidPassedOver` is a book in which something is.
- ForkDatabase.ForkDb.FetchBranchFrom: parent links are read off the index. In the code they are weak pointers that
  are unset for the first item pushed and expire when the parent is removed, even if it is pushed again later; the
  condition under which the branches are found is about the index.
- Operations.CreateLimitOrder: the fee is paid in core; the other checks of the fee (schedule, fee pool,
  authorization) are left out.
- Operations.CancelOrder: the fee of the cancellation is left out, as are the fees of the operations below.
- Operations.UpdateCallOrder: the call price is given; computing it from debt, collateral and ratio is left out.
- Operations.SettleGlobally: the checks of the issuer and of the permission are left out.
- Operations.PublishFeed: the median is given; its computation and the checks of the publisher are left out.
- Operations.IssueAsset: the checks of the issuer and of the receiver's authorization are left out, and the asset's
  maximum supply is given with the operation.
- ForceSettlement.ClearExpired: the cancelling of expired limit orders before the settlement pass is left out; it is
  `Operations.CancelOrder` in a loop.
- Vesting.WithdrawalsCovered: amounts and coin-seconds are unbounded; in the code a vested deposit multiplies in 64
  bits, which is exact under the condition of `Vesting.VestedDepositExactIff`.
- Vesting.VestedDepositAllowed: likewise.
- WitnessSchedule.SlotOfItsTime: times are unbounded; in the code they are 32-bit seconds.
- Undo while disabled (genesis, reindexing), moved session objects, and index modifications that violate a uniqueness
  constraint.
- The pending-transaction session, popped transactions, checkpoints, proposals, the unlinked index, and the pruning of
  the fork index by `set_max_size` while a block is being applied. The block store is the set of stored ids.
- Deflation of limit orders, and early deflation charges inside market operations: the market is modelled with no
  round open, deflation with transfers and account steps. A filled order drops its frozen amount and a buy or cancel
  freezes an amount without debiting it, so totals over both would not be conserved.
- The per-account counter `total_core_in_orders`: order deflation subtracts from it twice and freed collateral is
  subtracted without looking at the asset.
- The exchange fee is the floor of amount times rate over scale; the code computes it with `real128`. Rates above the
  scale are allowed, because the evaluator that should reject them swallows its own exceptions.
- How medians of price feeds, call prices and squeeze prices are computed; whitelists, blacklists and other
  permissions.
- Changing an asset's backing or options, market-fee claims, bids with expiration dates.
- Voting, the choice of active witnesses and committee members, the sorting of workers by votes, and the account
  member index.
- Genesis beyond the core asset, construction capital and incentives, confidential transfers, and everything
  networked, stored or logged.
