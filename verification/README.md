# Trading Network: a verified model of the trading core

This project models, in Dafny, the core of a paper-trading social network. Each user has a simulated cash portfolio:
- a balance that starts at 100000;
- coin holdings, each with a quantity and a weighted-average buy price;
- a most-recent-first history of at most 50 entries.

Four paths change a portfolio:
- **interactive trades** — market buys and sells, closing all or part of a position, placing limit and stop orders (which fill at once or wait with buy funds reserved), and cancelling a waiting order;
- **the order engine** — on each cycle it groups the waiting orders by coin, looks up one price per coin, and fills, fails or leaves each order by the limit/stop trigger rule;
- **the strategy engine** — it runs each active strategy whose conditions all hold at its coin's price, executing the strategy's buy and sell actions in order and updating the strategy's performance counters on sells;
- **the strategy endpoints** — they create, update, activate, deactivate and delete strategies, and report a strategy's performance.

Around this core the model also covers:
- the analytics reports (totals, trade statistics, the daily profit/loss chart, the report on one coin);
- the leaderboards (portfolio value, and gainers by day, week and month);
- the friend-request and follow relations, and the activity feed;
- the posts: likes, comments, ownership and content checks, and paged listings.

## How it is modelled

- **Prices, time and identity are inputs.** Every price lookup is a parameter `Quote` (`Price(v)`, `Undefined` or `Failed`). The clock reading is a parameter `now`. The requesting user is a parameter `me`.
- **The store** is the class `Store.Database`. It holds portfolios by user id and the trade collection, in creation order, with a counter for fresh ids.
- **A loaded user document** is a `Ledger.Portfolio` object. Operations change its fields in place and save it back.
- **Strategies** live in `Strategies.StrategyStore`, **posts** in `Posts.PostCollection`, and **the social graph** in `Social.Network`.
- **Methods are proved against specification functions.**
  - Examples: `MarketVerdict`, `CloseVerdict`, `Placement`, `ProcessedRecords`, `ActionStep`, `Revise`, `Accept`, `Like`, `ListPosts`.
  - Lemmas state what those functions promise: conservation of cash plus cost basis, the history bound, the trigger rule, counter accounting, ranking order and completeness, relation symmetry, round trips.
- **The engines are modelled as one sequential cycle.**
  - `OrderProcessing.ProcessOrders` folds `ProcessOrder` over the schedule built by `Grouping.GroupBy`; `StrategyProcessing.ProcessStrategies` does the same with `ProcessStrategy`.
  - The schedule is: coins in order of first appearance; each coin's items in order; nothing for a coin without a usable price.
- **Money and quantities are `real`.** `toFixed(8)` is the concrete half-up rounding `TradeController.Round8`.

### Where the three copies of the ledger update differ

The model keeps each divergence as the code has it:
- **Dropping a holding after a sell:**
  - a market sell (controllers/tradeController.js:113), an order fill and a strategy sell drop the holding only at exactly 0 (`Ledger.SellOut`);
  - closing a position drops it below 1e-8 (`Ledger.CloseOut`, controllers/tradeController.js:239).
- **Paying for a filled buy order:**
  - a triggered stop buy gets no balance change when it fills (services/orderProcessingService.js:124-130);
  - a limit buy is refunded the difference between its reservation and the cost at fill time.
  - `OrderProcessing.LimitBuyPaysFillPrice` and `OrderProcessing.StopBuyPaysPlacementPrice` state what each therefore pays.

### Behaviour worth knowing

- **A strategy fires on every cycle while its conditions hold.** Nothing in services/strategyProcessingService.js marks a strategy as done. `StrategyProcessing.ScenarioSale` shows a second sale on the next cycle.
- **`totalProfit` can fall.** A sell at a loss adds a negative profit to it.
- **Several fields are written or read but not declared by the schemas.** A strict schema drops undeclared paths on `create` and `save`:
  - the trade schema (models/Trade.js) declares no `strategy` and no `profit` (both written by the strategy engine), and no `profitLoss` or `profitLossPercentage` (written when a position is closed);
  - the user schema (models/User.js) declares no `portfolio.totalValue`, and no `currentValue` or `currentPrice` on a holding, though the leaderboards and the coin report read them.
- **How the model treats them:**
  - The trade fields are kept as the code writes them, and the strategy report is modelled on them. The finding on services/strategyProcessingService.js below shows what the report shows for documents as stored (`StrategyController.StoredReportIsEmpty`).
  - The three user fields are optional inputs of the model. `Leaderboard.StoredValueIsBalance` states what the value leaderboards show for a document as the schema stores it.
  - `Analytics.HoldingPrice` gives the coin report no price while the coin is held.

## Model

| member | source | states |
|---|---|---|
| Common.SideOf | controllers/tradeController.js:18-23 | only "buy" and "sell" are trade sides |
| Common.Without | controllers/socialController.js:120-126 | filtering an id out of a list keeps exactly the other entries, and never lengthens the list |
| Ledger.NewAccount | models/User.js:32-35 | a new portfolio holds 100000 in cash, no holdings and no history |
| Ledger.Find | controllers/tradeController.js:69-71 | finds the first holding of the coin, or reports that there is none |
| Ledger.RemoveCoinKeepsOthers | controllers/tradeController.js:113-117 | filtering out a coin keeps exactly the holdings of other coins, and changes nothing when the coin is absent |
| Ledger.Record | controllers/tradeController.js:134-148 | the new entry comes first, the older entries follow in order, and at most 50 are kept |
| Ledger.BuyIntoCostBasis | controllers/tradeController.js:69-89 | a buy adds exactly q to the coin and the fill cost to its cost basis, keeps at most one holding per coin, and touches no other coin |
| Ledger.AverageBetween | controllers/tradeController.js:73-81 | the new weighted average lies between the old average and the fill price |
| Ledger.BuyAll | controllers/tradeController.js:69-89 | repeated buys keep at most one positive holding per coin |
| Ledger.AccumulatedFills | controllers/tradeController.js:69-89 | after any sequence of buys of a coin not held before, the quantity is the total bought and the cost basis is the total paid |
| Ledger.AverageOfFills | controllers/tradeController.js:73-81 | after any sequence of buys, the average buy price is the quantity-weighted mean of the fill prices |
| Ledger.SellOutEffect | controllers/tradeController.js:107-117 | a sell of part of a holding keeps its average, a sell of all of it removes the coin, and other coins are untouched |
| Ledger.CloseOutEffect | controllers/tradeController.js:236-243 | closing never leaves a holding below 1e-8, keeps the average otherwise, and touches no other coin |
| Ledger.RemoveCoinDropsOne | controllers/tradeController.js:113-117 | in a well-formed list, the filter deletes exactly the one holding of that coin, and keeps the rest in order |
| Ledger.LoggedValid | controllers/tradeController.js:134-148 | logging keeps the history within 50 entries, with the new entry first |
| Ledger.MarketBuyEffect | controllers/tradeController.js:56-91 | a buy debits exactly price*q, adds q to the coin, conserves cash plus cost basis, and touches no other coin or the history |
| Ledger.MarketSellEffect | controllers/tradeController.js:93-118 | a sell credits exactly price*q, takes q from the coin, keeps the average while coins remain, and touches no other coin |
| Ledger.BuyThenSellRestores | controllers/tradeController.js:56-118 | buying a coin not held, then selling the same quantity at the same price, restores the account |
| Ledger.TradeScenario | controllers/tradeController.js:56-118 | two buys at 100 and 130, then a sell at 150, give an average of 110 and a realized gain of 40 |
| Ledger.Portfolio.Load | controllers/tradeController.js:46-53 | the loaded object holds the stored portfolio |
| Ledger.Portfolio.Fill | controllers/tradeController.js:56-118 | the in-place market fill yields the specified account and keeps it valid |
| Ledger.Portfolio.Acquire | services/orderProcessingService.js:133-152 | adds the filled coins at the fill price and leaves the cash alone |
| Ledger.Portfolio.Close | controllers/tradeController.js:233-243 | the in-place close credits the proceeds and withdraws the quantity, dropping dust |
| Ledger.Portfolio.Log | controllers/tradeController.js:134-148 | prepends one entry, caps the history at 50, and leaves cash and holdings alone |
| Store.KindOf | models/Trade.js:40-42 | an order type is accepted exactly when it is market, limit or stop |
| Store.EntryOf | controllers/tradeController.js:134-143 | the history entry carries the trade's id, coin, side, quantity, price and total |
| Store.FindTrade | controllers/tradeController.js:444-451 | finds the document with the id, or reports that there is none |
| Store.DeleteTrade | controllers/tradeController.js:477 | removes exactly the documents with the id |
| Store.DeleteTradeKeepsIds | controllers/tradeController.js:477 | deleting keeps ids unique and below the counter |
| Store.ReplaceTrade | services/orderProcessingService.js:178 | saving replaces exactly the document with the same id |
| Store.Newest | controllers/socialController.js:453 | newest first is store order reversed |
| Store.Database.Insert | controllers/tradeController.js:121-131 | stores the document under a fresh id, and keeps the store valid |
| Store.Database.Replace | services/orderProcessingService.js:178 | writes back a loaded trade, and changes nothing else |
| Store.Database.Delete | controllers/tradeController.js:477 | removes the document, and changes nothing else |
| Store.Database.Commit | controllers/tradeController.js:121-150 | stores the trade, logs its entry first in the owner's history, and saves the portfolio |
| Store.Database.Store | controllers/tradeController.js:150 | saves the loaded portfolio under its user, and changes nothing else |
| TradeController.CheckMarket | controllers/tradeController.js:11-30 | rejects missing fields, then a type other than buy/sell, then a non-positive quantity, and otherwise yields the trade intent |
| TradeController.MarketVerdict | controllers/tradeController.js:11-104 | a trade passes only with all fields valid, a usable price, an existing user, and enough cash (buy) or coins (sell); a failed lookup is an error |
| TradeController.MarketTrade | controllers/tradeController.js:121-131 | the stored market trade is completed, with total price*q |
| TradeController.ExecuteMarketTrade | controllers/tradeController.js:8-160 | a refused trade changes nothing; a filled one stores one completed trade, applies the market fill, and prepends one history entry |
| TradeController.Round8 | controllers/tradeController.js:218-222 | rounding at the eighth decimal moves a value by at most half a unit in that place |
| TradeController.CloseQuantity | controllers/tradeController.js:218-222 | the sold quantity is the rounded percentage of the holding, never more than held |
| TradeController.ReturnPercent | controllers/tradeController.js:228-230 | the return is (price-avg)/avg*100, with no number for a zero average |
| TradeController.CloseVerdict | controllers/tradeController.js:169-215 | rejects a missing coin, then a percentage outside (0,100], then a missing or empty holding; on success it points at the holding |
| TradeController.CloseOutcome | controllers/tradeController.js:225-258 | the closing trade is a sell of q at total price*q, with profit/loss = total - q*avg |
| TradeController.ClosePosition | controllers/tradeController.js:166-294 | a refused close changes nothing; a close sells the computed quantity, drops dust, stores the trade and logs it |
| TradeController.CloseFullPosition | controllers/tradeController.js:218-243 | closing 100 percent removes the holding, and leaves other coins alone |
| TradeController.CloseHalfPosition | controllers/tradeController.js:218-243 | closing 50 percent leaves half the holding (up to rounding) at the same average, and credits the proceeds |
| TradeController.Placement | controllers/tradeController.js:311-404 | an order is forwarded as a market trade exactly when its trigger already holds; otherwise a buy reserves limit*q (limit) or price*q (stop) and needs that much cash |
| TradeController.PlacementAgrees | controllers/tradeController.js:311-404 | on well-formed requests the corrected placement decides exactly as the code |
| TradeController.QueuedReserveNonNegative | controllers/tradeController.js:368-389 | with positive prices a waiting order never reserves a negative amount |
| TradeController.NegativeQuantityCredits | controllers/tradeController.js:368-389 | as written, a limit buy of quantity -1 is queued with a reservation of -100, which credits the balance |
| TradeController.UnknownOrderTypeStrands | controllers/tradeController.js:376-404 | as written, a buy with an order type outside the enum loses its reservation |
| TradeController.PendingOrder | controllers/tradeController.js:392-404 | the waiting order is pending, with its reservation as total |
| TradeController.QueueOrder | controllers/tradeController.js:375-404 | a buy's reservation leaves its owner's balance, then one pending order is stored under the next id; nothing else changes |
| TradeController.PlaceOrder | controllers/tradeController.js:300-417 | runs the corrected placement (the first two Findings; `PlacementAgrees` ties it to the code): a refused order changes nothing; a forwarded one is a market trade; a queued one stores one pending order and takes its reservation from the balance |
| TradeController.CancelOrder | controllers/tradeController.js:442-486 | not found, not owner and not pending are refused with no change; otherwise the reservation is refunded and the order removed |
| TradeController.CancelUndoesPlacement | controllers/tradeController.js:470-477 | cancelling a just-placed order gives back the balances and the trade collection |
| TradeController.ViewOf | controllers/tradeController.js:507-541 | a holding's value is price*quantity, and its profit/loss is value - avg*quantity |
| TradeController.GetPortfolio | controllers/tradeController.js:491-553 | values every holding at its quote; the total is cash plus the values; a failed lookup fails the request |
| OrderProcessing.Decide | services/orderProcessingService.js:56-105 | an order stays untouched exactly when its trigger does not fire; a triggered order fails exactly when its owner is gone or a sell lacks the coins |
| OrderProcessing.FillEntry | services/orderProcessingService.js:161-170 | the history entry of a fill carries the fill price and total, and no profit figures |
| OrderProcessing.ProcessedRecords | services/orderProcessingService.js:53-184 | processing one order adds and removes nothing, touches only the order and its owner, and keeps the store valid |
| OrderProcessing.ProcessOrder | services/orderProcessingService.js:53-184 | the in-place processing of one order yields the specified store |
| OrderProcessing.Settle | services/orderProcessingService.js:107-178 | a fill updates and logs the owner's portfolio, and saves the order completed at the fill price |
| OrderProcessing.FillOrder | services/orderProcessingService.js:107-152 | a sell is credited as a market sell; a buy gets its refund and the coins at the fill price |
| OrderProcessing.PendingList | services/orderProcessingService.js:11 | lists exactly the pending orders |
| OrderProcessing.FoldOrders | services/orderProcessingService.js:29-46 | settling orders in turn keeps the store valid, and keeps every document in place |
| OrderProcessing.CycleJobs | services/orderProcessingService.js:20-46 | every order settled in a cycle is a pending order of the store, for a positive quantity |
| OrderProcessing.ProcessOrders | services/orderProcessingService.js:6-50 | each coin's price is looked up once, in order of first appearance, and the store ends as the cycle specifies |
| OrderProcessing.ProcessCoin | services/orderProcessingService.js:29-46 | one coin's step extends the cycle by that coin's orders at its price |
| OrderProcessing.ProcessBatch | services/orderProcessingService.js:29-46 | one coin's orders are settled in turn at that coin's price |
| OrderProcessing.LimitBuyPaysFillPrice | services/orderProcessingService.js:124-130 | a limit buy ends up paying exactly the fill price times the quantity |
| OrderProcessing.StopBuyPaysPlacementPrice | services/orderProcessingService.js:124-130 | a stop buy pays what it reserved at placement, while its coins enter the cost basis at the fill price |
| OrderProcessing.UnscheduledTradesStay | services/orderProcessingService.js:34-37 | a cycle leaves alone documents that are not pending, and the orders of coins without a price |
| OrderProcessing.IdleUsersStay | services/orderProcessingService.js:29-46 | a cycle does not touch the portfolio of a user with no pending order |
| OrderProcessing.StopSellScenario | services/orderProcessingService.js:56-119 | a stop sell at 90: nothing happens at 91; at 88 the holding is sold for 440 and the order is completed |
| Grouping.FirstAppearanceMembers | services/orderProcessingService.js:20-26 | lists exactly the keys that occur |
| Grouping.FirstAppearanceDistinct | services/orderProcessingService.js:20-29 | no coin is visited twice, so no price is looked up twice in a cycle |
| Grouping.Having | services/orderProcessingService.js:20-26 | a group holds only items of its key |
| Grouping.GroupBy | services/orderProcessingService.js:20-26 | the dictionary loop yields every key once, in order of first appearance, each with its items in order |
| Grouping.GroupedSnoc | services/orderProcessingService.js:20-26 | one more item extends the grouping as the loop body does |
| Grouping.GroupsPartition | services/orderProcessingService.js:20-26 | every item lands in exactly one group |
| Grouping.Schedule | services/orderProcessingService.js:29-46 | every scheduled item is at its own coin's usable price |
| Strategies.ConditionsMet | services/strategyProcessingService.js:218-243 | a strategy's conditions hold exactly when each of them holds; an empty list holds |
| Strategies.PriceData | services/strategyProcessingService.js:63-67 | the engine's market data has the price and nothing else |
| Strategies.HoldsNeedsData | services/strategyProcessingService.js:218-243 | a condition holds only on an indicator with a value, with one of the five operators |
| Strategies.OnlyPriceConditionsFire | services/strategyProcessingService.js:63-67 | with the price as the only data, a strategy fires only when all its conditions are on the price |
| Strategies.ComplementaryOperators | services/strategyProcessingService.js:229-241 | > and <= are complementary, as are < and >=; == is <= and >= together |
| Strategies.MoreConditionsFireLess | services/strategyProcessingService.js:218-243 | adding conditions can only make a strategy fire less |
| Strategies.Sells | controllers/strategyController.js:305-312 | counts the trades that carry a profit, never more than all trades |
| Strategies.Wins | controllers/strategyController.js:305-312 | trades with positive profit never outnumber the trades with a profit |
| Strategies.FindStrategy | controllers/strategyController.js:88-95 | finds the strategy with the id, or reports that there is none |
| Strategies.ReplaceStrategy | controllers/strategyController.js:157 | saving replaces exactly the strategy with the same id |
| Strategies.DeleteStrategy | controllers/strategyController.js:190 | removes exactly the strategy with the id |
| Strategies.DeleteStrategyKeepsBook | controllers/strategyController.js:190 | deleting keeps ids unique and every stored action positive |
| Strategies.ReplaceStrategyKeepsBook | controllers/strategyController.js:157 | saving a strategy with positive actions keeps the collection valid |
| Strategies.StrategyStore.Insert | controllers/strategyController.js:45-55 | stores the strategy under a fresh id |
| Strategies.StrategyStore.Replace | controllers/strategyController.js:157 | the collection becomes the saved one |
| Strategies.StrategyStore.Delete | controllers/strategyController.js:190 | the collection loses the strategy |
| StrategyController.CreateCheck | controllers/strategyController.js:21-55 | rejects missing fields, then empty conditions, then empty actions (each iff), and non-positive quantities; a created strategy is the owner's, active, with zero counters |
| StrategyController.CreateCheckAgrees | controllers/strategyController.js:21-55 | on requests with positive quantities the corrected check decides exactly as the code |
| StrategyController.NegativeActionAccepted | controllers/strategyController.js:36-55 | as written, a buy action of quantity -1 is stored, and passes the engine's funds check on an empty balance |
| StrategyController.CreateStrategy | controllers/strategyController.js:8-64 | runs the corrected check (the third Finding; `CreateCheckAgrees` ties it to the code): a refused request changes nothing; an accepted one stores the checked strategy under a fresh id |
| StrategyController.Lookup | controllers/strategyController.js:88-103 | not found iff no strategy has the id; not authorized iff it is someone else's; otherwise the owner's strategy |
| StrategyController.GetStrategy | controllers/strategyController.js:86-112 | returns the lookup's outcome |
| StrategyController.SavedFound | controllers/strategyController.js:148-157 | after a save, the lookup finds the saved version, and saving it again changes nothing |
| StrategyController.MergedKeepsAbsent | controllers/strategyController.js:148-155 | a field the request does not carry keeps its value; id, owner and counters never change |
| StrategyController.MergedTakesGiven | controllers/strategyController.js:148-155 | a field the request carries takes the requested value |
| StrategyController.MergedIdempotent | controllers/strategyController.js:148-155 | applying an update twice is applying it once, and an empty update changes nothing |
| StrategyController.Revise | controllers/strategyController.js:148-157 | an update giving empty conditions or actions, or non-positive quantities, is refused; otherwise the merged strategy is saved, and non-empty lists stay non-empty |
| StrategyController.ReviseAgrees | controllers/strategyController.js:148-157 | on updates without empty lists or bad quantities the corrected update decides exactly as the code |
| StrategyController.EmptyConditionsAccepted | controllers/strategyController.js:153 | as written, an update to an empty condition list is saved, and then the strategy fires at every price |
| StrategyController.UpdateStrategy | controllers/strategyController.js:117-166 | the lookup, then the corrected update, saved only on success |
| StrategyController.UpdateTouchesOne | controllers/strategyController.js:148-157 | a successful update changes only the updated strategy, and the lookup then returns it |
| StrategyController.DeleteStrategy | controllers/strategyController.js:171-199 | a refused delete changes nothing; otherwise the strategy is removed |
| StrategyController.DeleteRemoves | controllers/strategyController.js:190 | after a delete the strategy is not found by anyone, and every other strategy remains |
| StrategyController.Toggled | controllers/strategyController.js:206-224 | after the lookup, only the active flag changes, to the requested value |
| StrategyController.SetActive | controllers/strategyController.js:204-269 | sets the flag on the owner's strategy and saves it; a refusal changes nothing |
| StrategyController.ActivateStrategy | controllers/strategyController.js:204-234 | active becomes true |
| StrategyController.DeactivateStrategy | controllers/strategyController.js:239-269 | active becomes false |
| StrategyController.ToggleIdempotent | controllers/strategyController.js:224-225 | activating or deactivating twice is doing it once |
| StrategyController.DeactivatedNotScheduled | controllers/strategyController.js:259 | a deactivated strategy gets no work in the engine's next cycle |
| StrategyController.StrategyTrades | controllers/strategyController.js:294-298 | lists exactly the completed trades of the owner tagged with the strategy, each once per stored copy, in store order |
| StrategyController.SuccessRate | controllers/strategyController.js:314 | 0 without trades, between 0 and 100 otherwise, and 100 when every trade succeeded |
| StrategyController.ConditionsNow | controllers/strategyController.js:316-328 | true exactly when the price is positive and every condition holds at it |
| StrategyController.Recent | controllers/strategyController.js:339 | the first ten trades, or all of them when there are fewer |
| StrategyController.GetStrategyPerformance | controllers/strategyController.js:274-345 | the report counts the strategy's completed trades, those with positive profit and their profit sum; the rate is within 0 to 100 |
| StrategyController.TalliesNewest | controllers/strategyController.js:298-312 | the tallies do not depend on the order trades are visited in |
| StrategyController.TalliesAppend | controllers/strategyController.js:305-312 | the tallies of two lists of trades add up |
| StrategyController.ReportTracksEngine | controllers/strategyController.js:294-312 | over any run of the engine, the report's wins and profit grow exactly as the stored counters do, while its trade count also counts the buys (with the tag and profit kept as the code writes them) |
| StrategyController.AsStored | models/Trade.js:3-54 | the document as the schema keeps it: no strategy tag, no profit, no profitLoss figures, and every declared field unchanged |
| StrategyController.StoredAll | models/Trade.js:3-54 | every document of the collection as the schema keeps it |
| StrategyController.StoredReportIsEmpty | controllers/strategyController.js:294-312 | over documents as stored, the report's query finds nothing, and no sell, success or profit would be counted even without the tag |
| StrategyController.StoredSaleUnreported | services/strategyProcessingService.js:115-179 | the scenario's sale at a profit of 150 is reported as 1 success and 150 with the fields kept, and as nothing with the document as stored |
| StrategyProcessing.ActionStepReady | services/strategyProcessingService.js:89-215 | an action keeps the stores valid, and changes only the running strategy's counters |
| StrategyProcessing.RunActions | services/strategyProcessingService.js:80-82 | running the actions in order keeps the stores valid |
| StrategyProcessing.ExecuteStrategyAction | services/strategyProcessingService.js:89-215 | the in-place action yields the specified stores and strategy |
| StrategyProcessing.Perform | services/strategyProcessingService.js:115-209 | the part after the check yields the specified stores |
| StrategyProcessing.Credit | services/strategyProcessingService.js:174-179 | a sell adds one executed trade, one success iff the profit is positive, and the profit, then saves |
| StrategyProcessing.StrategyRun | services/strategyProcessingService.js:60-86 | running a strategy keeps the stores valid, and touches no other strategy |
| StrategyProcessing.ProcessStrategy | services/strategyProcessingService.js:60-86 | the in-place run yields the specified stores |
| StrategyProcessing.ActiveList | services/strategyProcessingService.js:13 | lists exactly the active strategies |
| StrategyProcessing.FoldStrategies | services/strategyProcessingService.js:31-53 | running strategies in turn keeps the stores valid, and keeps every strategy in place |
| StrategyProcessing.CycleJobs | services/strategyProcessingService.js:22-53 | every strategy run in a cycle is an active strategy of the collection |
| StrategyProcessing.ProcessStrategies | services/strategyProcessingService.js:8-57 | each coin's price is looked up once, in order of first appearance, and the stores end as the cycle specifies |
| StrategyProcessing.ProcessCoin | services/strategyProcessingService.js:31-53 | one coin's step extends the cycle by that coin's strategies at its price |
| StrategyProcessing.ProcessGroup | services/strategyProcessingService.js:31-53 | one coin's strategies run in turn at that coin's price |
| StrategyProcessing.ActionRunsIff | services/strategyProcessingService.js:99-112 | an action changes anything exactly when it has the funds (buy) or the coins (sell) |
| StrategyProcessing.ActionRecordFacts | services/strategyProcessingService.js:115-126 | only a sell records a profit on its trade, the proceeds less q*avg |
| StrategyProcessing.BuyActionEffect | services/strategyProcessingService.js:129-151 | a buy debits price*q without overdrawing, adds q, stores and logs one trade, and leaves the counters, other strategies and other users alone |
| StrategyProcessing.SellActionEffect | services/strategyProcessingService.js:152-180 | a sell credits price*q, takes q, stores and logs one trade with its profit, and credits the counters with that profit |
| StrategyProcessing.RunKeepsCountersOrdered | services/strategyProcessingService.js:174-179 | successful trades never outnumber executed ones |
| StrategyProcessing.RunAccounting | services/strategyProcessingService.js:115-179 | the counters account exactly for the sells, wins and profits of the trades a run stores |
| StrategyProcessing.ScenarioQuiet | services/strategyProcessingService.js:63-67 | a price > 200 strategy does nothing while the price is at most 200 |
| StrategyProcessing.ScenarioSale | services/strategyProcessingService.js:152-180 | above 200 each run sells one coin at a profit of 150, and credits the counters |
| Analytics.CompletedOf | controllers/analyticsController.js:11-14 | lists exactly the user's completed trades, in store order |
| Analytics.CountIndices | controllers/analyticsController.js:17-19 | a side's count is the number of positions holding a trade of that side |
| Analytics.SidesSplit | controllers/analyticsController.js:17-31 | buy and sell counts add up to the trade count, and the two volumes to the total value |
| Analytics.Percent | controllers/analyticsController.js:33-34 | profit/loss relative to the amount invested, in percent, and 0 with nothing invested |
| Analytics.CoinTally | controllers/analyticsController.js:37-57 | the per-coin loop yields each coin once, in order of first appearance, with its count and volumes |
| Analytics.TalliedSnoc | controllers/analyticsController.js:38-57 | one more trade extends the tallies as the loop body does |
| Analytics.CoinSumPartition | controllers/analyticsController.js:37-57 | the per-coin volumes of a side add up to that side's total |
| Analytics.GetPerformanceMetrics | controllers/analyticsController.js:8-75 | counts and volumes by side, profitLoss = returned - invested, one row per coin, and the rows' buy volumes sum to totalInvested |
| Analytics.RowOf | controllers/analyticsController.js:55-56 | a coin's profit/loss is its sell volume less its buy volume |
| Analytics.CoinRows | controllers/analyticsController.js:69 | the rows are the coins' tallies, in order |
| Analytics.FirstStamp | controllers/analyticsController.js:113-117 | the earliest creation stamp |
| Analytics.LastStamp | controllers/analyticsController.js:113-118 | the latest creation stamp |
| Analytics.SpanDays | controllers/analyticsController.js:119 | the time span is never negative |
| Analytics.GetTradeStatistics | controllers/analyticsController.js:80-158 | mean trade size (0 without trades); with fewer than 2 trades all rates are 0 and there is no top coin; per week = 7*per day, per month = 30*per day |
| Analytics.Frequency | controllers/analyticsController.js:122 | trades per day over the span, or the count when the span is 0 |
| Analytics.Leader | controllers/analyticsController.js:126-142 | the top coin has the most trades, and is first in order of appearance among ties |
| Analytics.AverageSize | controllers/analyticsController.js:92-96 | the mean total, 0 without trades |
| Analytics.StampRange | controllers/analyticsController.js:113-118 | the first and last stamps after sorting are the earliest and latest |
| Analytics.MostTraded | controllers/analyticsController.js:142 | the stable sort puts first the earliest coin with the largest count |
| Analytics.LeaderByGroups | controllers/analyticsController.js:126-142 | the leading tally is the coin with the most trades |
| Analytics.Window | controllers/analyticsController.js:166-178 | exactly the user's completed trades made on the start day or later |
| Analytics.GetProfitLossChart | controllers/analyticsController.js:163-223 | the points are the chart of the user's completed trades from `today - days` on, over days+1 days (none for a negative `days`) |
| Analytics.DailyNets | controllers/analyticsController.js:185-204 | every charted day holds the net of its trades, and no other day is present |
| Analytics.Cumulate | controllers/analyticsController.js:206-214 | the accumulating loop over the day map yields the chart: each day's net and the running total up to that day |
| Analytics.ChartShape | controllers/analyticsController.js:185-214 | one point per day in order, each with its day's net and the running total, and a last total equal to the net of the trades on the charted days |
| Analytics.RangeNetIsNet | controllers/analyticsController.js:196-214 | every charted trade is counted on exactly one day |
| Analytics.AveragePrice | controllers/analyticsController.js:309-310 | value/quantity, and 0 without quantity |
| Analytics.RealizedEstimate | controllers/analyticsController.js:313 | has a numeric value exactly when something was bought |
| Analytics.CoinTrades | controllers/analyticsController.js:274-278 | exactly the user's completed trades of the coin |
| Analytics.SideTotals | controllers/analyticsController.js:288-306 | the number of buys and sells and, per side, the sum of the quantities and of the totals |
| Analytics.HoldingPrice | controllers/analyticsController.js:319-322 | the price is 0 exactly when the user holds none of the coin, and undefined exactly when a holding exists (the holding schema has no price) |
| Analytics.Unrealized | controllers/analyticsController.js:325 | a number exactly when the price is one, and 0 at the average buy price |
| Analytics.UnrealizedPercent | controllers/analyticsController.js:326 | not a number exactly when the price is undefined and the average positive; 0 with no positive average |
| Analytics.GetCoinPerformance | controllers/analyticsController.js:269-354 | not found iff there are no trades; then an error iff the requester's document is missing; otherwise the volumes and quantities by side, averages, holding = bought - sold, the realized figures, and the holding's price with the unrealized figures it gives |
| Analytics.UniformBuysAverage | controllers/analyticsController.js:298-309 | when every buy was at price p, the reported average buy price is p |
| Leaderboard.PortfolioValueCases | controllers/leaderboardController.js:18-46 | the value is a truthy stored total, else the balance plus the holdings' values |
| Leaderboard.UnvaluedHoldings | controllers/leaderboardController.js:32-36 | holdings without a current value add nothing |
| Leaderboard.HoldingsValueNonNegative | controllers/leaderboardController.js:32-38 | non-negative holding values never bring the value below the balance |
| Leaderboard.StoredValueIsBalance | controllers/leaderboardController.js:18-46 | for a document as the schema stores it, the value is the cash balance |
| Leaderboard.ValueRows | controllers/leaderboardController.js:16-47 | one row per user, with the user's id, name, avatar and value |
| Leaderboard.GlobalLeaderboard | controllers/leaderboardController.js:8-56 | at most 50 rows, each user's value in query order |
| Leaderboard.FindCard | controllers/leaderboardController.js:63 | finds the requester's document, or reports that there is none |
| Leaderboard.Members | controllers/leaderboardController.js:75-77 | exactly the documents whose id is listed |
| Leaderboard.FriendRows | controllers/leaderboardController.js:80-111 | one row per user, marked iff it is the requester's |
| Leaderboard.FriendsLeaderboard | controllers/leaderboardController.js:61-120 | fails iff the requester is missing; isCurrentUser marks exactly the requester |
| Leaderboard.FriendsLeaderboardMembers | controllers/leaderboardController.js:65-109 | empty without friends; otherwise exactly the requester and their friends, with the requester marked |
| Leaderboard.InWindow | controllers/leaderboardController.js:137-140 | exactly the completed trades stamped within the window |
| Leaderboard.Aggregate | controllers/leaderboardController.js:143-168 | each trade adds one to its user's count; only a sell adds its profit (0 when missing) |
| Leaderboard.AggregatedSnoc | controllers/leaderboardController.js:145-168 | one more trade extends the entries as the loop body does |
| Leaderboard.Standings | controllers/leaderboardController.js:171 | one entry per trader, in order of first appearance |
| Leaderboard.Entries | controllers/leaderboardController.js:171 | reading the dictionary's values gives the standings |
| Leaderboard.Active | controllers/leaderboardController.js:172 | keeps only entries with trades |
| Leaderboard.StandingsAllActive | controllers/leaderboardController.js:172 | the filter keeps every entry |
| Leaderboard.Insert | controllers/leaderboardController.js:173 | insertion adds exactly one entry |
| Leaderboard.Ranked | controllers/leaderboardController.js:173 | the sort is a permutation |
| Leaderboard.RankedDescending | controllers/leaderboardController.js:173 | the ranking is a permutation in descending order of profit |
| Leaderboard.Top | controllers/leaderboardController.js:174 | the first 50 entries, or all of them |
| Leaderboard.GainerRows | controllers/leaderboardController.js:191-197 | each row has the entry's figures; a missing user is "Unknown User" with no avatar |
| Leaderboard.Gainers | controllers/leaderboardController.js:137-197 | the loop-built board is the specified ranking of the window's trades |
| Leaderboard.StandingsUsers | controllers/leaderboardController.js:143-171 | the entries are one per user, for distinct users |
| Leaderboard.BoardIsRanking | controllers/leaderboardController.js:171-174 | the board is the capped ranking of all standings |
| Leaderboard.BoardSize | controllers/leaderboardController.js:171-174 | at most 50 rows, one per trader while there are fewer |
| Leaderboard.BoardOrder | controllers/leaderboardController.js:173 | highest profit first, and no user twice |
| Leaderboard.BoardRows | controllers/leaderboardController.js:145-197 | each row is one trader's, with their counted trades (never 0), summed sell profit, and looked-up name |
| Leaderboard.BoardComplete | controllers/leaderboardController.js:171-174 | any trader who earned more than someone listed is listed |
| Leaderboard.DailyGainers | controllers/leaderboardController.js:125-206 | the ranking of trades since yesterday's midnight |
| Leaderboard.WeeklyGainers | controllers/leaderboardController.js:211-288 | the same ranking over seven days |
| Leaderboard.MonthlyGainers | controllers/leaderboardController.js:293-370 | the same ranking over thirty days |
| Leaderboard.WiderWindowCountsMore | controllers/leaderboardController.js:137-140 | a longer window counts at least as many of a user's trades |
| Social.SendRequest | controllers/socialController.js:13-64 | rejects an unknown target, oneself, a repeat request and an existing friend (each iff); otherwise the request is on both sides |
| Social.AcceptAsWritten | controllers/socialController.js:100-126 | as written: requires a received request, and pushes each user to the other's friends unguarded |
| Social.Accept | controllers/socialController.js:100-126 | the guarded accept (the last Finding): requires a received request (iff); the two become friends, and the request leaves both lists |
| Social.AcceptAgrees | controllers/socialController.js:100-126 | when neither user already lists the other as a friend, the guarded accept is exactly the code's accept |
| Social.Reject | controllers/socialController.js:162-176 | requires a received request (iff); the request leaves both lists |
| Social.Unfriend | controllers/socialController.js:209-223 | requires a friendship (iff); each leaves the other's list |
| Social.Follow | controllers/socialController.js:254-283 | rejects an unknown target, oneself and a repeat (each iff); otherwise appends to both lists |
| Social.Unfollow | controllers/socialController.js:319-334 | requires an existing follow (iff); removes both entries |
| Social.SendRecords | controllers/socialController.js:51-64 | a sent request is pending on both sides, and no friendship or follow changes |
| Social.SendKeepsConsistent | controllers/socialController.js:51-64 | sending keeps every relation mirrored and free of self-links |
| Social.SendKeepsNoRepeats | controllers/socialController.js:51-64 | sending keeps every list of every document free of repeats, since each id is pushed only when missing |
| Social.AcceptBefriends | controllers/socialController.js:116-126 | accepting makes the two friends on both sides, and settles the request |
| Social.AcceptKeepsConsistent | controllers/socialController.js:116-126 | accepting keeps every relation mirrored and free of self-links |
| Social.AcceptKeepsNoRepeats | controllers/socialController.js:116-126 | the guarded accept keeps every list of every document free of repeats |
| Social.AcceptMirrorsFriends | controllers/socialController.js:116-117 | after an accept, friendship is symmetric |
| Social.AcceptMirrorsRequests | controllers/socialController.js:120-126 | after an accept, sent and received stay mirrored |
| Social.AcceptKeepsFriendsDistinct | controllers/socialController.js:116-117 | with the guard, friends lists stay free of repeats |
| Social.CrossedRequestsDuplicateFriends | controllers/socialController.js:116-117 | as written, crossed requests accepted on both sides list each user twice |
| Social.CrossedRequestsSingleFriend | controllers/socialController.js:116-117 | the guarded accept lists each user once on the same path |
| Social.RejectSettles | controllers/socialController.js:162-176 | rejecting settles the request, and leaves friends alone |
| Social.RejectKeepsConsistent | controllers/socialController.js:162-176 | rejecting keeps every relation mirrored |
| Social.RejectKeepsNoRepeats | controllers/socialController.js:162-176 | rejecting keeps every list of every document free of repeats |
| Social.UnfriendSeparates | controllers/socialController.js:209-223 | removal ends the friendship on both sides |
| Social.UnfriendKeepsConsistent | controllers/socialController.js:209-223 | removal keeps every relation mirrored |
| Social.FollowKeepsConsistent | controllers/socialController.js:254-283 | following keeps followers and following mirrored |
| Social.UnfollowKeepsConsistent | controllers/socialController.js:319-334 | unfollowing keeps followers and following mirrored |
| Social.FollowUnfollowRestores | controllers/socialController.js:254-334 | follow, then unfollow, restores every document |
| Social.Network.SendFriendRequest | controllers/socialController.js:6-78 | the in-place update yields the specified graph, and a refusal changes nothing |
| Social.Network.AcceptFriendRequest | controllers/socialController.js:83-140 | runs the guarded accept (the last Finding; `AcceptAgrees` ties it to the code): the in-place update yields the specified graph, and a refusal changes nothing |
| Social.Network.RejectFriendRequest | controllers/socialController.js:145-187 | the in-place update yields the specified graph, and a refusal changes nothing |
| Social.Network.RemoveFriend | controllers/socialController.js:192-234 | the in-place update yields the specified graph, and a refusal changes nothing |
| Social.Network.FollowUser | controllers/socialController.js:239-297 | the in-place update yields the specified graph, and a refusal changes nothing |
| Social.Network.UnfollowUser | controllers/socialController.js:302-345 | the in-place update yields the specified graph, and a refusal changes nothing |
| Social.FeedUserIds | controllers/socialController.js:438-446 | the feed users are exactly friends, followed users and oneself |
| Social.FeedCandidates | controllers/socialController.js:449-452 | exactly the completed trades of the listed users |
| Social.ActivityFeed | controllers/socialController.js:433-470 | at most 50 completed trades, each by oneself, a friend or a followed user |
| Social.ActivityFeedNewest | controllers/socialController.js:449-454 | the newest matches come first, and all are shown when there are at most 50 |
| Social.FeedExcludesStrangers | controllers/socialController.js:438-454 | a trade by an unconnected user never shows |
| Posts.Locate | controllers/postController.js:332-341 | finds the first entry with the id, or reports that there is none |
| Posts.Like | controllers/postController.js:190-198 | fails iff already liked; otherwise likes gain exactly that user, and nothing else changes |
| Posts.Unlike | controllers/postController.js:239-251 | fails iff not liked; otherwise the user leaves the likes, and nothing else changes |
| Posts.LikeUnlikeRestores | controllers/postController.js:197-251 | like, then unlike, restores the post |
| Posts.Notify | controllers/postController.js:201-213 | the owner is notified iff the actor is someone else |
| Posts.DropComment | controllers/postController.js:352-356 | keeps exactly the comments with other ids |
| Posts.DropCommentRemovesOne | controllers/postController.js:352-356 | with unique ids, the filter removes exactly that comment, and keeps the rest in order |
| Posts.CommentRemovedAt | controllers/postController.js:352-356 | deleting a stored comment removes one entry, and keeps ids unique |
| Posts.CommentThenDeleteRestores | controllers/postController.js:286-356 | deleting a just-added comment restores the comments |
| Posts.QueryOr | controllers/postController.js:39-40 | a missing or zero parameter takes the default |
| Posts.PageCount | controllers/postController.js:64 | the ceiling of total/limit, for either sign of the limit |
| Posts.Window | controllers/postController.js:50-53 | a negative skip is an error; otherwise consecutive items from the start, as many as the limit allows |
| Posts.ByAuthors | controllers/postController.js:48-50 | exactly the posts of the listed authors |
| Posts.Paged | controllers/postController.js:52-66 | a negative skip is an error; otherwise the items from the start, at most the limit's magnitude of them, with the total and the ceiling page count |
| Posts.ListPosts | controllers/postController.js:39-66 | `Listed`: an error iff startIndex < 0; otherwise the page, total, ceil pages and count, with the listed authors' posts in newest-first order from startIndex on |
| Posts.Feed | controllers/postController.js:37-71 | lists only posts by the user or the users they follow |
| Posts.ByUser | controllers/postController.js:370-399 | lists only posts by the author |
| Posts.PageOfItem | controllers/postController.js:41-64 | item k is on page k/limit+1, which starts at or before it and is one of the counted pages |
| Posts.OnlyPageOfItem | controllers/postController.js:41-64 | no page but k/limit+1 holds item k |
| Posts.ListedOnItsPage | controllers/postController.js:39-64 | asking for page k/limit+1 lists the k-th newest post |
| Posts.GetPost | controllers/postController.js:76-97 | not found iff no post has the id |
| Posts.PostCollection.Insert | controllers/postController.js:20-23 | stores a new post under a fresh id, with no likes and no comments |
| Posts.PostCollection.CreatePost | controllers/postController.js:9-32 | empty content is refused with no change; otherwise one new post is stored |
| Posts.PostCollection.ShareTrade | controllers/postController.js:404-446 | refuses empty content, a missing trade, or someone else's trade; otherwise stores a post with the trade |
| Posts.PostCollection.UpdatePost | controllers/postController.js:102-140 | refuses empty content, a missing post, or a non-owner; otherwise only the content changes |
| Posts.PostCollection.DeletePost | controllers/postController.js:145-173 | a missing post or a non-owner is refused; otherwise exactly that post is removed |
| Posts.PostCollection.LikePost | controllers/postController.js:178-222 | applies Like to the found post, and notifies as Notify says |
| Posts.PostCollection.UnlikePost | controllers/postController.js:227-260 | applies Unlike to the found post |
| Posts.PostCollection.AddComment | controllers/postController.js:265-315 | the new comment goes first and is returned; empty content or a missing post changes nothing |
| Posts.PostCollection.DeleteComment | controllers/postController.js:320-365 | a missing post or comment is not found; only the author or the post's owner removes it, and only that comment goes |

## Left out

- Price lookups become the parameter `Quote`: the HTTP client, its errors and its latency are not modelled.
- Socket broadcasts and notification documents are left out. The post model returns the notice it would create (`Posts.Notify`).
- The `setInterval` timers are not modelled, and neither are concurrent saves (`Promise.all`) or interleaving with requests. Each engine is one sequential cycle.
- Authentication is taken as done: the requester's document is assumed present wherever the code reads it without a check.
- Sort orders are modelled as store order, since documents are stored in creation order.
  - `sort({ createdAt: -1 })` is store order reversed (`Store.Newest`).
  - The leaderboards' sort by `portfolio.totalValue`, which the schema does not declare, is not modelled: `Leaderboard.GlobalLeaderboard` and `Leaderboard.FriendsLeaderboard` take the users in the order the query returns them.
- Dates are day indices and millisecond stamps.
  - The chart and gainer windows start at midnight less whole days (`DayMs`).
  - Local time zones and daylight-saving shifts are not modelled.
- JavaScript number effects are not modelled: floating point, `NaN` and `Infinity`. A division by zero that would give `NaN` or `Infinity` is `None` (`TradeController.ReturnPercent`, `Analytics.RealizedEstimate`).
- OrderProcessing.ProcessOrders and StrategyProcessing.ProcessStrategies: the engines' behaviour on a pending order or a strategy action with a negative quantity is not modelled. Their buy paths divide by the new quantity, so the model requires positive quantities there. The code as written can store negative quantities (the first and third Findings); the corrected placement and strategy checks rule them out.
- StrategyProcessing.ActionTrade: keeps the trade's `strategy` tag and a sell's `profit` as services/strategyProcessingService.js writes them, although models/Trade.js declares neither and a strict schema drops both. The documents as stored are `StrategyController.AsStored`.
- ActionRecordFacts (StrategyProcessing.ActionRecordFacts): the tag and the profit it states for the stored trade are the ones the code writes; as stored, the document carries neither (`StrategyController.StoredReportIsEmpty`).
- SellActionEffect (StrategyProcessing.SellActionEffect): the trade it stores "with its profit" carries the profit as the code writes it; as stored, it has none.
- RunAccounting (StrategyProcessing.RunAccounting): accounts the counters against the tag and profits the code writes on the stored trades; documents as stored carry neither, so the counters cannot be recovered from the trade collection.
- ReportTracksEngine (StrategyController.ReportTracksEngine): holds for trades that keep `strategy` and `profit`; for documents as stored the report sees none of the engine's trades (`StrategyController.StoredSaleUnreported`).
- The leaderboards' gainers read `trade.profit` (`Leaderboard.Aggregate`), which as stored is always missing, so every listed profit would be 0. The model keeps the field as written.
- Which query the Mongoose version runs for the undeclared `strategy` filter is not modelled: if the filter were dropped, the report would count all the user's completed trades, still with no success and no profit (`StrategyController.StoredReportIsEmpty`).
- GroupBy (Grouping.GroupBy), CoinTally (Analytics.CoinTally) and Entries (Leaderboard.Entries): `Object.entries` and `Object.values` list integer-like keys first, in ascending order. Coin ids and user ids are taken to be non-numeric strings, so keys come in order of first appearance.
- History entries: the `date: Date.now()` of each entry (controllers/tradeController.js:142 and :269, services/orderProcessingService.js:169, services/strategyProcessingService.js:201) is not modelled; `Ledger.Entry` has no date.
- Post and comment ids come from one counter, standing in for MongoDB object ids.
- A negative MongoDB skip is an error. A negative limit returns at most its magnitude.
- `Analytics.GetTradeStatistics`: the tie order of `mostTradedCoin` follows a stable sort. The model states that the first coin in order of appearance among the largest counts is chosen.
- `Leaderboard.Ranked`: only the order by profit and the permutation are stated, not the stability of the sort among equal profits.
- `Posts.Feed` and `Posts.ByUser`: their contracts state only which posts may appear. The paging figures are stated once, on `Posts.ListPosts`, which both are built on.
- Plain read endpoints are left out. Each is a query with no invariant beyond the filters modelled here:
  - getOrders, getTradeHistory, getMarketData, getCoinDetails, searchCoins;
  - getStrategies;
  - getFollowers, getFollowing, getFriends, getFriendRequests;
  - getPortfolioHistory, getComparisonWithFriends.
- Field checks that the schema performs on save are modelled only where an operation reads them (`Store.KindOf`, `StrategyController.CreateCheck`). Response message formatting (`toFixed(2)`) is left out.

## Findings

| source | as written | input that shows it | evidently intended | confidence | as-written member | corrected member |
|---|---|---|---|---|---|---|
| controllers/tradeController.js:300-404 | placeOrder never checks that the quantity is positive | a limit buy of quantity -1 at limit 100 reserves -100, which credits the balance | the same quantity check as a market trade | not executed | TradeController.NegativeQuantityCredits | TradeController.QueuedReserveNonNegative |
| controllers/tradeController.js:376-404 | a buy's funds are reserved and saved before the order document, with its orderType enum, is validated | a buy with orderType "twap" keeps its 100 reserved while no order is stored | validate the order type before reserving | not executed | TradeController.UnknownOrderTypeStrands | TradeController.Placement |
| controllers/strategyController.js:36-55 | an action's quantity is never checked | a buy action of quantity -1 is stored, and passes the engine's funds check on an empty balance | quantities must be positive | not executed | StrategyController.NegativeActionAccepted | StrategyController.CreateCheck |
| controllers/strategyController.js:153-154 | updateStrategy accepts an empty conditions or actions list | an update with conditions [] makes the strategy fire at every price | the non-empty rule of creation | not executed | StrategyController.EmptyConditionsAccepted | StrategyController.Revise |
| services/strategyProcessingService.js:115-179 | the engine writes `strategy` and `profit` on its trades, which models/Trade.js does not declare, so both are dropped on save | a sale at a profit of 150: the counters say 1 success and 150, the strategy report over the stored documents shows no trade, no success and no profit | declare both fields in the trade schema | not executed | StrategyController.StoredSaleUnreported | StrategyController.ReportTracksEngine |
| controllers/socialController.js:116-117 | acceptFriendRequest adds friends without checking for an existing entry | a asks b, b asks a, a accepts, b accepts: each is on the other's friends list twice | add a friend only when missing | not executed | Social.CrossedRequestsDuplicateFriends | Social.AcceptKeepsFriendsDistinct |
