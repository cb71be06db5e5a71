# A verified model of the perpetual-futures engine

The engine keeps an order book, balances and netted positions in memory and is driven by
one durable input stream. This project models its deterministic core (`packages/domain`),
the recovery and redelivery protocol around it (`apps/engine/src`), and the stream adapter
it relies on (`packages/redis-streams`), and proves what the design rests on: that trading
neither creates nor loses money, that locked collateral accounts for every obligation, that
the book is consumed in price-time priority, that published events determine what clients
see, and that snapshot plus replay ends in the state of the whole log whatever was
crashed, corrupted or delivered twice.

## How it is built

**Numbers.** Amounts are integers counting units of 1e-8, the grid the source's `q` rounds
to. `RoundDiv(n, d)` is the rounded number of units of a quotient. `Money` and `Risk` prove,
over the reals, that `q` (here `Q`) is monotone, the identity on the grid, at most half a
unit off and shifts with grid amounts, and that each shape of expression the engine rounds
(sum, share, product, ratio, average, liquidation price) is the matching `RoundDiv`. On the
grid the source's `1e-9` thresholds are comparisons with 0; its `1e-6` tolerances are 100
units.

**Specification and engine.** `Accounts`, `Book` and `EngineSpec` say what each handler
does to a state value, with a flat order list per side and maps that remember insertion
order. `EngineStates.EngineState` and `Engines.Engine` are the mutable engine: price levels
holding queues, nested matching loops, loops over the maps. Every method is proved to end in
the state, and to return the drafts, that the specification gives; `Levels` shows that the
level structure is the flat list grouped by price. The properties over runs are then proved
once, about the specification.

**Runs.** `Invariants.Run` folds any sequence of inputs the schema admits from a
well-formed state; main results hold for every such sequence from genesis. History that the
source does not keep (trades, credits, issued ids, roundings) is computed beside the run.
A trade leg is a user, a signed quantity and a price; a liquidation is a leg of its own, at
the mark, taken over by a house account.

**Protocol.** `Recovery` is a step system: appends, deliveries with or without a
successful publish, redeliveries, dead-lettering, snapshots, file damage, crashes (with any
number of entries handed out and not handled) and starts from any valid file or from genesis.
Two states are `Alike` if they are equal but for stream position, applied count and the
order of their maps; that is proved to be what serialization can tell apart.
`Runtime.EngineRuntime` is the process itself, its methods proved to take those steps while
the log grows, publishing fails part way or a snapshot cannot be written.
`Consumers.StreamConsumer` is the consumer-group loop, over a server that keeps delivery
counts and times; `Driving` proves that its runs, on a log with distinct command ids and with
nothing pending for more than 50 000 entries, are executions of the step system.

| file | content |
|---|---|
| Money, Risk, JsMaps, States | rounding, margin arithmetic, insertion-ordered maps, the state |
| Accounts, Book, EngineSpec | what each operation and handler does |
| Invariants | well-formedness, kept by every event; runs |
| Levels, EngineState, Engine | price levels refine the flat book; the mutable engine refines the specification |
| GreedyMatching | the matching loop is greedy consumption of the crossing depth |
| Acceptance | which orders are accepted, and the reason given for the others |
| OrderOutcomes, FilledBook | the trades of an accepted order and the book it leaves |
| MarginShares, OrderAccounts | what one fill, and a whole order, does to every account |
| OrderReports, Cancelling, Ticks | order reports; which cancels take effect; which positions a tick closes |
| LockedMargin, Accounting | collateral and money over runs, price ticks, place then cancel |
| PositionLedger, ZeroSum, IdealLedger | positions against a cash ledger; the market nets to zero, with rounding and without |
| Projection, DepthFeed, Identifiers | what the emitted events determine |
| Snapshots, RestoreOrder | restoring a state, and what it changes |
| Redelivery, Forgetting | repeated delivery inside the id window and beyond it |
| SnapshotFiles, Recovery, Paging, Runtime | crash recovery as a step system, paged reading, the engine process |
| Consumer, DeadLetters, MissedDeadLetter, Driving | the stream consumer, its dead-letter limit, and how it drives the protocol |

## Where code and documentation differ

The model follows the code in each case.

- `packages/events/envelope.ts:12` calls a repeated command a "no-op re-emit"; the engine
  emits nothing for it. `Redelivery.NoOpExactlyWhenInert` states this.
- `packages/domain/engine.ts:69` promises the same outputs from the same state and events.
  A restored state is the same only up to map order. Its outputs are then the same up to
  their order, and in the same order exactly if the event is not a price tick that closes
  its users in another order (`Snapshots.DispatchAlike`, `Snapshots.TickAlike`).
  `RestoreOrder.RestoreReordersLiquidations` is a run of four inputs after which a state and
  its restored copy emit different sequences for the same tick.
- `packages/redis-streams/consumer.ts:36-37` promises that a message failing
  `maxDeliveries` times is dead-lettered. The count is looked up among the first pending
  entries of the whole group and defaults to 1, and the comparison is strict.
  `DeadLetters.ReclaimFate` says exactly when a claimed message is dead-lettered. For every
  limit, `MissedDeadLetter.DeadLetterMissed` is a run in which one failed dead-letter write
  makes the consumer hand a later message, already past the limit, to its handler again;
  `DeadLetters.HealthyRunsMissNothing` proves that without such failures none is missed.
- `order.accepted` for a resting order that was traded with (`packages/domain/engine.ts:263-275`)
  takes the size it first rested with, less the fills of the one incoming order. So it gives
  the quantity really left exactly if no earlier order had traded with it
  (`OrderReports.MakerReportIsTrueExactlyIf`).
- A command delivered again after 50 000 newer ones is applied again, since its id has left
  the window: `Forgetting.ForgottenCommandAppliesAgain` is such a run.
  `Forgetting.KnownUpToTheWindow` and `Redelivery.NoOpExactlyWhenInert` give the exact
  conditions, and `Recovery.RecentRedeliveryIsInsideWindow` one on the log.

## Model

| member | source | states |
|---|---|---|
| Money.QIdentityOnGrid | packages/domain/money.ts:11-13 | q leaves every grid amount as it is |
| Money.QMonotone | packages/domain/money.ts:11-13 | q is monotone |
| Money.QWithinHalfUnit | packages/domain/money.ts:11-13 | q moves an amount by at most half a unit |
| Money.QShift | packages/domain/engine.ts:210 | q(g + x) = g + q(x) for g on the grid, as in the running filled notional |
| Money.QSum | packages/domain/balances.ts:19-20 | sums and differences of grid amounts are not changed by q |
| Money.QShare | packages/domain/engine.ts:190-195 | the rounded pro-rata share q((part / whole) * amount) is RoundDiv(part * amount, whole) units |
| Money.QProduct | packages/domain/positions.ts:86 | a rounded product of a price and a quantity is the RoundDiv of their units |
| Money.QAverage | packages/domain/positions.ts:73 | the rounded volume-weighted average price is the RoundDiv of the weighted sum |
| Money.QRatio | packages/domain/engine.ts:291 | a rounded ratio, as in the average fill price, is RoundDiv(a * UNIT, b) units |
| Risk.RequiredMarginIsRounded | packages/domain/risk.ts:9-16 | the integer margin requirement is q(q(price * quantity) / leverage), and infinite exactly at a leverage of zero or less |
| Risk.LiquidationPriceIsRounded | packages/domain/risk.ts:18-27 | the integer liquidation price is the source's real formula rounded by q, floored at 0 for a long, and 0 at a leverage of zero or less |
| Risk.LiquidatableWhenMarginIsGone | packages/domain/risk.ts:18-36 | for every input, liquidatable exactly if the liquidation price does not round to 0 and the loss per contract has used up 1/leverage less the maintenance rate, to half a unit |
| Accounts.ApplyFillSound | packages/domain/positions.ts:49-114 | open, add, reduce, close and flip keep the account sound (total = free + locked, nothing negative locked, flat carries nothing, liqPrice current) and move total and realized PnL together |
| Accounts.LiquidateSound | packages/domain/positions.ts:138-146 | a forced close keeps the account sound and moves total and realized PnL together |
| Accounts.ReleaseShrinks | packages/domain/balances.ts:33-39 | the clamp in release only moves the gap between locked collateral and obligations towards zero |
| Accounts.ApplyFillShrinksGap | packages/domain/positions.ts:58-113 | no branch of applyFill widens the gap between locked collateral and obligations |
| Accounts.AverageBetween | packages/domain/positions.ts:71-73 | the rounded average entry lies between the old entry and the fill price |
| Book.InsertOk | packages/domain/book.ts:13-23 | inserting an order keeps strict price-time priority and adds exactly that order |
| Book.RemoveOk | packages/domain/book.ts:41 | removing an order keeps priority and adds nothing |
| Book.RemoveInserted | packages/domain/book.ts:13-44 | finding and removing a fresh order just inserted restores the side exactly |
| Levels.InsertLevelRefines | packages/domain/book.ts:13-23 | inserting through price levels, a new level included, is inserting in the flat book and keeps the levels ordered, non-empty and single-priced |
| Levels.CancelRefines | packages/domain/book.ts:30-44 | cancelling through its level finds the same order as the flat book or none, and removes exactly it, with its level if that is left empty |
| Levels.RemoveEmptyRefines | packages/domain/book.ts:25-28 | removing an empty level leaves the flat book as it is and the levels well formed |
| Levels.LevelDepthIsDepth | packages/domain/engine.ts:364-372 | the quantity in a depth update is the sum of all resting quantity at that price |
| Levels.SnapshotShowsBestDepth | packages/domain/book.ts:65-75 | the depth snapshot lists true depths, best price first, and leaves a price out only if nothing rests there or n better ones are listed |
| Levels.FlattenInjective | packages/domain/book.ts:5-11 | well-formed levels are determined by the flat order list |
| Levels.GroupOk | packages/domain/state.ts:141-142 | grouping a well-formed flat side gives well-formed levels with that flat list |
| EngineStates.EngineState.Lock | packages/domain/balances.ts:24-30 | moves the amount from free to locked, or refuses exactly if free falls short by more than 1e-6, then leaving at most a new empty balance |
| EngineStates.EngineState.Release | packages/domain/balances.ts:33-39 | returns what it moved back, clamped to what is locked, and changes that balance only |
| EngineStates.EngineState.Credit | packages/domain/balances.ts:17-21 | creates the balance if missing and credits total and free |
| EngineStates.EngineState.ApplyPnl | packages/domain/balances.ts:42-46 | adds the PnL to total and free of that user only |
| EngineStates.EngineState.ApplyFill | packages/domain/positions.ts:49-114 | leaves balances and positions as the account fold of the fill, in the same map order; only an opposing fill touches the balance |
| EngineStates.EngineState.OpposeFill | packages/domain/positions.ts:81-113 | reduce, close and flip as the account fold gives them |
| EngineStates.EngineState.CloseAgainst | packages/domain/positions.ts:82-96 | frees both margin parts, realizes the PnL of the closed part and nets the size |
| EngineStates.EngineState.MarkToMarket | packages/domain/positions.ts:116-122 | the loop marks every position and nothing else |
| EngineStates.EngineState.LiquidationSweep | packages/domain/positions.ts:131-150 | the loop, in map order, ends in the order-independent sweep and lists the closed positions in visiting order |
| EngineStates.EngineState.InsertResting | packages/domain/book.ts:13-23 | changes one side of the book, as the flat insertion does |
| EngineStates.EngineState.CancelResting | packages/domain/book.ts:30-44 | returns the order removed, or nothing and no change |
| EngineStates.EngineState.RemoveEmptyLevel | packages/domain/book.ts:25-28 | drops the level of that price if it is empty, and touches no other |
| Engines.Engine.FillBest | packages/domain/engine.ts:186-229 | one fill: maker reduced or shifted off, both legs folded, trade drafted with the next number |
| Engines.Engine.ConsumeLevel | packages/domain/engine.ts:185-233 | the inner loop terminates having consumed the level as far as quantity goes, and drafts its depth once |
| Engines.Engine.MatchOrder | packages/domain/engine.ts:178-234 | the nested loops terminate in the specified matching |
| Engines.Engine.OnPlaceOrder | packages/domain/engine.ts:142-295 | checks, lock, matching, remainder and all drafts are those of the specification; every refusal changes nothing |
| Engines.Engine.ExecuteOrder | packages/domain/engine.ts:167-294 | an order with its margin locked is matched, its remainder handled and everything reported as specified |
| Engines.Engine.OnCancelOrder | packages/domain/engine.ts:297-319 | an own resting order leaves the book and its margin is released; otherwise a rejection and no change |
| Engines.Engine.FindTarget | packages/domain/engine.ts:299-302 | finds through the level exactly the order the flat book has with this price and id |
| Engines.Engine.OnIndexPrice | packages/domain/engine.ts:321-334 | a stale tick does nothing; another marks, sweeps and reports every closed position |
| Engines.Engine.RecordCommand | packages/domain/engine.ts:87-95 | keeps the newest 50 000 command ids |
| Engines.Engine.Process | packages/domain/engine.ts:71-85 | state and outputs are those of the specification's step, for every event |
| GreedyMatching.MatchIsGreedy | packages/domain/engine.ts:178-234 | from any point of the loop, trades and remaining book are those of greedy consumption, best price first, then oldest |
| GreedyMatching.GreedyTotal | packages/domain/engine.ts:187 | greedy trades total exactly min(quantity, all that rests at prices no worse than the limit) |
| GreedyMatching.GreedyExecutions | packages/domain/engine.ts:180-187 | the trades are with distinct resting orders in book order, no worse than the limit price, and use each up but possibly the last |
| GreedyMatching.GreedyTakesPrefix | packages/domain/engine.ts:178-187 | on a book side trade i is with the i-th resting order, at its price and no worse than the limit, and all but the last use their order up |
| GreedyMatching.MatchRemaining | packages/domain/engine.ts:209 | what remains after matching is the quantity less min(quantity, crossing depth) |
| GreedyMatching.OrderFillsGreedily | packages/domain/engine.ts:171-236 | for an accepted order all of this at once, with filled + remaining = quantity and two opposite legs per trade |
| Acceptance.AcceptedExactlyIf | packages/domain/engine.ts:149-165 | an order is accepted exactly if its user has a balance, leverage and margin are in range, the margin covers q(q(price * quantity) / leverage) at a positive reference price to 1e-6, and free balance covers the margin to 1e-6; otherwise nothing changes and the two rejections give the first test that fails |
| Acceptance.AcceptsIs | packages/domain/engine.ts:155-158 | there is exactly one reference price: the limit, else the best opposite price, else the mark |
| FilledBook.TradesInsideTheLimit | packages/domain/engine.ts:178-227 | no trade of an accepted order is outside its limit; trade i is with the i-th order in price-time order, all but the last use theirs up, and they total min(quantity, all that rests within the limit) |
| FilledBook.BookAfterOrder | packages/domain/engine.ts:186-256 | the other side is left as the trades say, a partly taken order keeping margin in proportion to what is left of it to half a unit; a limit order's rest joins its own side behind its price with its own terms and its proportional margin; the last trade price is the last trade's |
| FilledBook.DepthIsConserved | packages/domain/engine.ts:187-253 | at every price, what rests after an order and what it traded there add up to what rested before, and its own side gains exactly its rest |
| OrderAccounts.OrderFoldsItsTrades | packages/domain/engine.ts:165-257 | every account after an accepted order is the one before with the margin locked, each trade folded in with its part of both margins and each side's own leverage, and a market order's rest unlocked |
| MarginShares.Opened | packages/domain/positions.ts:61-68 | a fill into a flat position is taken over as it is, and no money moves |
| MarginShares.Added | packages/domain/positions.ts:70-79 | adding sums sizes and margins, averages the entry price by volume under q, takes the new leverage, and no money moves |
| MarginShares.Reduced | packages/domain/positions.ts:81-96 | a partial reduction keeps entry and leverage and margin in proportion to the size left to half a unit, releases all other margin as far as it is locked, and books q((price - entry) * closed) |
| MarginShares.Closed | packages/domain/positions.ts:98-105 | a full close leaves nothing behind and releases both margins whole |
| MarginShares.Flipped | packages/domain/positions.ts:107-113 | a flip opens the leftover at the fill's price and leverage, with the fill's margin in proportion to the leftover to half a unit, and releases the rest |
| OrderReports.AcceptedOrderReports | packages/domain/engine.ts:236-293 | the last draft reports the order with the total of its trades, what is left, FILLED, PARTIAL, OPEN or CANCELLED exactly as those and its type say, and q(notional / filled); before it each order id traded with is reported once, with its own total; nothing else is |
| OrderReports.MakerReportIsTrueExactlyIf | packages/domain/engine.ts:200-275 | with distinct ids the report on an order traded with gives the quantity really left, and calls it filled when used up, exactly if no earlier order had traded with it |
| Cancelling.OwnerCancels | packages/domain/engine.ts:312-318 | the first order at a price with an id leaves the book when its owner cancels it, partly filled or not; min(locked, its margin) becomes free, nothing else changes, and the drafts report the depth less its quantity and the rise in free |
| Cancelling.StrangerCancelsNothing | packages/domain/engine.ts:303-311 | if no order there has this price, id and user, nothing changes and the answer is the two rejections |
| Cancelling.OthersDoNot | packages/domain/engine.ts:302-303 | with repeated ids too: a cancel by anyone but the owner of the first such order changes nothing |
| Cancelling.CancelledExactlyIfOwned | packages/domain/engine.ts:297-319 | with ids distinct at each price a cancel takes effect exactly if its user owns the order it names |
| Invariants.StepWf | packages/domain/engine.ts:71-85 | every event keeps strict price-time priority, positive resting quantities no larger than at first, best bid below best ask, sound accounts, and a duplicate-free bounded id window |
| Invariants.FillStepReady | packages/domain/engine.ts:186-229 | every iteration of the loop keeps the book and all accounts well formed |
| Invariants.RestedBookOk | packages/domain/engine.ts:239-253 | resting the remainder does not cross the book |
| Invariants.RunConcat | packages/domain/engine.ts:71-85 | a run over two parts is the second run from the end of the first |
| LockedMargin.StepGap | packages/domain/engine.ts:165-261 | one event widens the gap between locked and owed collateral by at most half a unit per share rounded for the taker |
| LockedMargin.LockedAccountsForObligations | packages/domain/engine.ts:165-261 | over every run locked differs from resting margins plus position margin by at most half a unit per taker allocation so far |
| LockedMargin.MakerLegGap | packages/domain/engine.ts:190-197 | the maker's leg adds no error |
| LockedMargin.TakerLegGap | packages/domain/engine.ts:195-198 | the taker's leg adds at most half a unit |
| LockedMargin.RemainderGap | packages/domain/engine.ts:239-257 | resting or releasing the remainder adds at most half a unit |
| PositionLedger.LedgerRefinement | packages/domain/positions.ts:58-113 | for every fill history, size is the net quantity and realized PnL less the cost of the open position is minus the cash paid, up to a residue bounded by half the new size per addition and half a unit per opposing fill |
| PositionLedger.ExactLedger | packages/domain/positions.ts:58-113 | the identity is exact when no division leaves a remainder |
| PositionLedger.ResidueBound | packages/domain/positions.ts:73 | the bound on what one leg's rounding adds |
| PositionLedger.ApplyFillIsFoldLeg | packages/domain/positions.ts:49-114 | the fill code acts on size, entry and realized PnL as one ledger leg |
| PositionLedger.LiquidateIsFoldLeg | packages/domain/positions.ts:138-146 | a liquidation is a trade of the whole position at the mark |
| PositionLedger.EntryInRange | packages/domain/positions.ts:61-78 | the entry price stays between the lowest and highest price paid since the position opened or flipped, rounding included |
| PositionLedger.ReductionKeepsEntry | packages/domain/positions.ts:107-112 | a partial reduction leaves the entry price alone |
| ZeroSum.RunRecords | packages/domain/engine.ts:197-198 | over every run each position is the fold of the trades and liquidations of its owner |
| ZeroSum.PositionsRefineCashLedger | packages/domain/positions.ts:58-113 | for every user and run the engine's own position obeys the cash identity, its exact form and the entry range |
| ZeroSum.MarketIsZeroSum | packages/domain/engine.ts:197-198 | at every mark open sizes plus the house's inventory are 0 exactly, and all PnL plus the house's is 0 up to the bounded residues |
| ZeroSum.MarketIsExactlyZeroSum | packages/domain/positions.ts:131-150 | where no division of a run leaves a remainder the market is exactly zero-sum |
| IdealLedger.IdealIsCashLedger | packages/domain/positions.ts:58-113 | with q as identity the position fold is exactly the cash ledger, for every fill history |
| IdealLedger.MarketIsIdeallyZeroSum | packages/domain/engine.ts:197-198 | with q as identity the market is exactly zero-sum at every mark, on the trades of every run |
| IdealLedger.ExactFoldIsIdeal | packages/domain/positions.ts:73 | where nothing is rounded the engine's fold is the ideal one |
| Accounting.BalancesAddUp | packages/domain/balances.ts:17-46 | in every reachable state total = free + locked, locked is not negative, and total = credits + realized PnL exactly |
| Accounting.TickClosesExactlyTheUnderwater | packages/domain/positions.ts:116-150 | an accepted tick closes exactly the underwater positions, each reported once, leaves none liquidatable, and makes every unrealized PnL current |
| Ticks.TickLiquidatesExactlyIf | packages/domain/positions.ts:116-150 | told from entry, leverage and size alone: an accepted tick closes a position exactly if its loss has used up the initial margin rate less the maintenance rate, realizing q((mark - entry) * size), freeing its margin as far as it is locked and reporting exactly that; any other account is only marked |
| Accounting.LiquidationPriceIsCurrent | packages/domain/positions.ts:29-40 | in every reachable state the cached liquidation price equals its recomputation, and is 0 with entry and margin when flat |
| Accounting.PlaceThenCancel | packages/domain/engine.ts:297-319 | placing a non-crossing limit order under a fresh id and cancelling it restores both book sides and every balance, adding at most one flat position |
| Projection.StepAgrees | packages/domain/engine.ts:278-281 | after one event a reader of the emitted balances and positions agrees with the engine about every user |
| Projection.ReportsDetermineAccounts | packages/domain/engine.ts:312-333 | over every run no handler changes a user without reporting the final values |
| DepthFeed.StepShows | packages/domain/engine.ts:364-372 | the depth updates of one event take the depth before it to the depth after it, at every price |
| DepthFeed.DeltasDetermineDepth | packages/domain/engine.ts:232-254 | over every run a client applying the updates holds exactly the aggregated book |
| Identifiers.IdsIssuedOnce | packages/domain/engine.ts:62-65 | over every run trade and event ids rise strictly, so none is issued twice |
| Snapshots.SerializeCharacterizesAlike | packages/domain/state.ts:112-128 | two states serialize identically exactly if they are alike and stand at the same position and count |
| Snapshots.RestoreAlike | packages/domain/state.ts:130-148 | restoring a serialized state gives a well-formed, alike state at the same position |
| Snapshots.TickAlike | packages/domain/positions.ts:131-150 | the effect of a tick does not depend on the order of positions; its events are the same up to order, and in the same order exactly if the doomed users are |
| Snapshots.DispatchAlike | packages/domain/engine.ts:111-124 | alike states stay alike and draft the same events up to order, in the same order exactly if the event is not a tick closing users in another order |
| Snapshots.StepAlike | packages/domain/engine.ts:71-85 | one step keeps alike states alike, whatever their stream positions |
| Snapshots.RestoreBisimulation | packages/domain/state.ts:112-148 | for every state and event sequence, continuing from the restored state and from the state itself serialize identically |
| RestoreOrder.RestoreReordersLiquidations | packages/domain/engine.ts:67-70 | a reachable state and its restored copy emit different event sequences for the same tick, with the same events |
| Redelivery.NoOpExactlyWhenInert | packages/domain/engine.ts:72-81 | an event leaves the core state as it is exactly if its id is in the window or it is a tick that is not newer, and then nothing is emitted |
| Redelivery.ProcessedIsInert | packages/domain/engine.ts:79 | a command or tick just processed would do nothing if delivered again |
| Redelivery.ObserverSeqMonotone | packages/domain/engine.ts:322-323 | the newest tick number never goes back |
| Redelivery.WindowIsNewest | packages/domain/engine.ts:87-95 | over every run the window holds exactly the newest at most 50 000 applied ids, none twice |
| Redelivery.DuplicatesChangeNothing | packages/domain/engine.ts:71-95 | folding a sequence with duplicate deliveries inside the window equals folding its first deliveries |
| Redelivery.ShortRunsRepeatInsideWindow | packages/domain/engine.ts:41 | in a run of at most 50 000 inputs every keyed duplicate is inside the window |
| Forgetting.KnownUpToTheWindow | packages/domain/engine.ts:87-95 | in a run of distinct commands the first is still known exactly up to the 50 000th |
| Forgetting.ForgottenCommandAppliesAgain | packages/domain/engine.ts:72-81 | after 50 000 newer commands a repeated deposit credits the user again |
| Recovery.ReplayCatchesUp | apps/engine/src/runtime.ts:64-77 | replaying after a snapshot's position reaches the fold of the whole log, even if a redelivery had moved that position back |
| Recovery.RecoveryReachesTheLog | apps/engine/src/runtime.ts:54-85 | from any valid file, or none, recovery ends in the genesis fold of the whole log and at its end |
| Recovery.RecoveryIsConfluent | apps/engine/src/snapshot.ts:88-104 | any two recoveries from the same log end alike |
| Recovery.NextKeepsInv | apps/engine/src/runtime.ts:99-115 | every step of the protocol keeps the invariant that the process reflects a log prefix holding all that was handed out |
| Recovery.StateIsAFoldOfTheLog | apps/engine/src/runtime.ts:54-115 | for every interleaving the running state is the genesis fold of a log prefix that includes everything acknowledged, pending or dead-lettered |
| Recovery.ExecutionsExtend | apps/engine/src/runtime.ts:88-115 | every enabled step extends every execution |
| Recovery.RecentEntriesAreInert | packages/domain/engine.ts:72-95 | with ids on everything but ticks and none used twice, every entry among the last 50 000 of the log would do nothing again |
| Recovery.RecentRedeliveryIsInsideWindow | apps/engine/src/runtime.ts:99-114 | on such a log, redelivering a pending entry with at most 50 000 handed out since is inside the window |
| Recovery.KeyedStateIsAFoldOfTheLog | apps/engine/src/runtime.ts:54-115 | the fold theorem with redelivery restricted by log and group alone |
| Recovery.KeyedExecutionsExtend | apps/engine/src/runtime.ts:88-115 | every step allowed by log and group alone extends every such execution |
| Paging.ReadRange | packages/redis-streams/replay.ts:13-31 | for every page size the pages of a log that may grow meanwhile concatenate to exactly its entries after the id as of the last read, in order and once each |
| Paging.PageRead | packages/redis-streams/replay.ts:20-30 | one page is the next entries in order, short only at the end of the log |
| SnapshotFiles.SaveKeepsNewest | apps/engine/src/snapshot.ts:46-85 | saving keeps the listing sorted by applied count and time, and of all files at most the five newest |
| Runtime.SnapshotStore.Save | apps/engine/src/snapshot.ts:54-85 | writes the file into the sorted listing, replacing one of the same name, and deletes all but the newest |
| Runtime.SnapshotStore.LoadLatest | apps/engine/src/snapshot.ts:88-104 | the first valid file, all newer ones being corrupt, or none if all are |
| Runtime.EngineRuntime.Recover | apps/engine/src/runtime.ts:54-85 | with the log growing while it is read, takes exactly the protocol's start step from the newest valid file, after the entries seen were appended |
| Runtime.EngineRuntime.ReplayEntries | apps/engine/src/runtime.ts:68-77 | the loop is the replay fold; undecodable entries only move the position |
| Runtime.EngineRuntime.Publish | apps/engine/src/runtime.ts:124-128 | publishes in order and stops where the output stream fails |
| Runtime.EngineRuntime.HandleMessage | apps/engine/src/runtime.ts:99-114 | takes exactly the protocol's handling step, returns normally exactly if the step acknowledges, publishes the outputs as far as they are accepted, and saves exactly when due and possible |
| Runtime.EngineRuntime.SaveSnapshot | apps/engine/src/runtime.ts:136-144 | stores the serialized state and clears the counter, or changes nothing if writing fails |
| Consumers.StreamConsumer.Start | packages/redis-streams/consumer.ts:71-94 | any number of turns of the loop, client errors included, end in the specified group state, every entry still having one place |
| Consumers.StreamConsumer.OneTurn | packages/redis-streams/consumer.ts:77-92 | claims, dispatches, reads and dispatches; a failing claim, read or dead-letter write ends the turn there |
| Consumers.StreamConsumer.DispatchBatch | packages/redis-streams/consumer.ts:79-82 | dispatches in order and stops where giving a message up fails |
| Consumers.StreamConsumer.Dispatch | packages/redis-streams/consumer.ts:158-193 | gives up, acknowledges or leaves pending one message; a copy may be written and its acknowledgement fail |
| Consumers.StreamConsumer.ReclaimAbandoned | packages/redis-streams/consumer.ts:109-129 | claims the first idle entries and attaches the counts the lookup finds |
| Consumers.StreamConsumer.ReadNew | packages/redis-streams/consumer.ts:96-107 | hands out the next entries, which become pending |
| Consumers.EveryEntryHasOnePlace | packages/redis-streams/consumer.ts:29-39 | over any number of turns each entry handed out is pending, acknowledged or dead-lettered, exactly one of them and once, and what is dead-lettered has a copy |
| Consumers.FirstCallsFollowTheLog | packages/redis-streams/consumer.ts:71-94 | repetitions apart, the handler meets exactly the entries handed out, in stream order and without a gap |
| DeadLetters.Fates | packages/redis-streams/consumer.ts:158-193 | of a batch, as far as it is dealt with, a message is handed over exactly if its recorded count is within the limit, acknowledged exactly if the handler then resolves, and dead-lettered exactly otherwise |
| DeadLetters.CountIsRankLimited | packages/redis-streams/consumer.ts:131-145 | the looked-up delivery count is right exactly for the first n pending entries, 1 for the others |
| DeadLetters.ReclaimFate | packages/redis-streams/consumer.ts:109-129 | a claimed message dealt with is dead-lettered exactly if its true count is past the limit and it is among the first as many pending entries as were claimed |
| DeadLetters.OverdueIsDeadLettered | packages/redis-streams/consumer.ts:158-173 | in a turn without dead-letter failure, on a list where earlier entries are ahead in deliveries, exactly the claimed messages past the limit are dead-lettered |
| DeadLetters.NothingOverdueStays | packages/redis-streams/consumer.ts:71-94 | over every run without such failures earlier entries stay ahead, and no pending message has been delivered more often than the limit |
| DeadLetters.HealthyRunsMissNothing | packages/redis-streams/consumer.ts:36-37 | so after every such run from an empty group exactly the claimed messages past the limit are dead-lettered |
| MissedDeadLetter.DeadLetterMissed | packages/redis-streams/consumer.ts:127 | for every limit, a run with one refused dead-letter write after which a message past the limit is handed to the handler again |
| Driving.TurnIsAnExecution | packages/redis-streams/consumer.ts:77-92 | one turn of the loop is a sequence of protocol steps, with matching cursor, pending entries and dead letters |
| Driving.ConsumerRunIsAnExecution | apps/engine/src/runtime.ts:92-114 | any number of turns extend an execution of the protocol |
| Driving.DrivenEngineFoldsTheLog | apps/engine/src/runtime.ts:88-115 | from a first start, whatever the turns bring, the engine's state is the genesis fold of a log prefix that holds every entry handed out |

## Left out

- IEEE-754 arithmetic: input quantities, prices, margins and leverages are taken to lie on the 1e-8 grid, and arithmetic is exact up to `q`.
- Aliasing of records: balances, positions and resting orders are values held in maps and sequences that the engine's methods reassign, so sharing one record between two holders is not captured.
- Torn snapshots: `serialize` shares references with the live state and the file is written later; a file is either valid, holding the state as it was, or corrupt, and a checksum is taken to detect any change.
- Snapshot files: a saved state holds the flat order list of each side, from which the levels are recovered (`Levels.FlattenInjective`, `Levels.GroupOk`); temporary files and fsync are left out, and names are compared as numbers, which their padding makes the same below 10^12 applied events and for times of equal length.
- Publishing: there is no claim that every output is published; what the output stream did not accept is not sent again, since a redelivered event emits nothing.
- Lost replies to group reads: entries are handed out in stream order and none is lost between server and consumer. Lost replies to claims and failing claims and reads are modelled.
- Consumers.StreamConsumer.Dispatch: a failing acknowledgement after the handler counts as a handler that did not resolve; other consumers of the same group are left out.
- Consumers.StreamConsumer.ReclaimAbandoned: the server's own bound on how many pending entries one claim scans is left out.
- Recovery.StateIsAFoldOfTheLog: redelivery is restricted to the window in which the state still has evidence of the entry; `Recovery.KeyedStateIsAFoldOfTheLog` states it with a restriction on the log instead. Outside it the engine applies a command again.
- Driving.ConsumerRunIsAnExecution: covers one life of the process; crashes and restarts are steps of the protocol between such runs.
- Accounting.PlaceThenCancel: the order id must be fresh among the resting orders at its price; the engine does not enforce unique ids.
- Snapshot timer and query server: a snapshot may be taken between any two steps; live queries only read.
- Event codecs: the round trip through JSON and the schemas of `packages/events`; the schemas' positivity constraints are the precondition `Admitted`.
- String order is by character; `stableStringify` is represented by equality of serialized values.
- `findResting` and `getBalance`, plain lookups.
- `ProcessedSet`, the database projector, HTTP and websocket services, the price observer, logging and metrics.
