# Kue Preorder: stock, shopping, orders, payments and recipes

This project models the parts of a preorder bakery where quantities of stock and
money must add up, and proves what its documentation promises of them. `dafny
verify dfyconfig.toml` checks everything.

| modules | what they model |
|---|---|
| Base, Clock, Dates, Sums, Vectors | ids, options, sums, Jakarta time, dates in order, columns of numbers |
| Stock, Fifo, Backing | lots, which of them count on a date, first in first out, and who may count on which gram |
| Totals, TotalsLaws, BatchNeeds | what a batch needs, read from its orders and the catalog's recipes |
| ShoppingList, Packs, Allocation, AllocationLaws | a batch's shopping list, pack rounding, the date-ordered allocator and its laws |
| NewOrders, AllocationRuns, RunsApart | what new orders do to the batches, and runs of computations that overlap |
| OrderBatches | orders, batches and the queued jobs that compute them, over every run |
| Procurement, Deliveries, ProcurementLaws | purchase orders against shopping lists and the stock, over every interleaving |
| Production, ProductionLaws | a batch's way from open to done, and that its claim is there on its day |
| Ledger, Stockroom, StockView, Consumption, Inventory, Requests | the append-only stock ledger, how it is read and drained, the kitchen's actions on it, exactly-once requests |
| Payments, PaymentLedger, Orders, OrderService, OrderLaws | fees and deposits, an order's payments, its lifecycle, and what every run keeps |
| Recipe, Merge, Fit | recipe models over the reals, merging measurements, fitting models to them |
| Scheduling | when an order can be picked up, and what its deadlines are |

How the parts are modelled:

* Ids are natural numbers, instants are integers in nanoseconds, dates are day
  numbers, Jakarta is seven hours ahead of UTC, and `float64` is `real`.
* Services that change stored rows are classes whose fields are the tables. Each
  method is one transaction under its lock, and states its whole new state, as a
  function of the old one or directly. A failing transaction leaves the old state.
* A step that reads without a lock is a step of its own: the lookup of an
  idempotency key (Requests, OrderLaws) and the list of orders a sweep read before
  (OrderService).
* The daily expiry takes no lock, so it may run between any two statements of
  another stock action: `Inventory.Service.Meanwhile` moves the clock and marks
  what has expired by then, and runs before every read and write that follows one.
* Runs: orders, procurement and requests have a transition function and laws for
  every sequence of its steps. Every action of OrderService (Advance, RecordPayment,
  Cancel, EndOne, EnsureBalanceInvoice, Place) takes exactly one step of OrderLaws, a
  sweep one for each id; its other methods are parts of those steps. The methods of
  Procurement are its events; `ReceiveTx` and `CountTx` of Inventory are commits of
  Requests. The stock ledger has no transition function: its law is the class
  invariant, `Valid()`, which the constructor establishes and every method keeps.
* What a step function answers is also said without it: lemmas whose names end in
  `ExactlyWhen`, `Is`, `As` and `Because` state its outcome on the fields it is given,
  with the source's own numbers.

Where the code and its own documentation differ, the code is modelled, and lemmas
say exactly when the documented claim holds:

* `internal/recipe/quantity.go` says the noise allowance stays far below one unit
  at every amount accepted. It does only below 10^12; at 2^53 it takes off 9007
  units (`Recipe.WholeAmountsAreKeptBelow`, `Recipe.TheLargestAmountLosesThousands`,
  `Recipe.RoundUpFallsShortExactlyWhen`).
* `internal/scheduling/suggest.go` says a suggestion is at or after the requested
  time. A request after closing is offered at closing, and one with seconds at its
  minute, exactly when its own day fits and the notice allows
  (`Scheduling.SuggestedEarlierExactlyWhen`, `Scheduling.AfterClosingIsOfferedEarlier`).
* `internal/aggregation/engine.go` says a run takes a grown claim back from the later
  batches. A run lists its batches first, so it misses one made meanwhile: two
  overlapping runs always leave what one run leaves if and only if the dates of one
  are all dates of the other (`RunsApart.OverlappingRunsAreOneExactlyWhen`), and
  otherwise a gram may be claimed twice (`RunsApart.BothClaimTheGram`).
* Whole packs cover what is to buy for every pack size but one family of huge ones
  (`Packs.PacksCoverExactlyWhen`, `Packs.HugePacksFallShort`).

## Model

| member | source | states |
|---|---|---|
| Stock.DoesNotCountExactlyWhen | internal/inventory/domain.go:70-98 | a lot counts unless it is not available, empty, spoiled before the production day ends (in Jakarta), always bought fresh, or perishable and not found good in the last 24 hours |
| Clock.DaysStartAtSeventeen | internal/platform/clock/date.go:16-40 | a Jakarta day starts at 17.00 UTC of the day before and lasts 86 400 seconds, and a time of day is its whole minutes |
| Stock.AmountIs | internal/inventory/domain.go:70-111 | a lot counts all it holds, or nothing: by its ingredient, its policy, its expiry and its last check |
| Stock.Usable | internal/inventory/domain.go:102-111 | one pass over the lots gives every ingredient the sum of the balances that count on the date |
| Stock.CountableOnEarlierDates | internal/inventory/domain.go:83-98 | a lot that counts on a date counts on every earlier one |
| Stock.UsableFallsWithTheDate | internal/inventory/domain.go:102-111 | the stock usable on a date never grows with the date |
| Fifo.TakeIsWhatOlderLotsLack | internal/inventory/service.go:766-786 | the i-th oldest lot gives min(balance, max(quantity - older balances, 0)) |
| Fifo.TakesTotal | internal/inventory/service.go:766-791 | all that can be taken is taken, never more than asked or than a lot holds |
| Fifo.TakingTwiceIsTakingOnce | internal/inventory/service.go:766-786 | taking q1 and then q2 leaves every balance as taking q1 + q2 |
| Fifo.AllIsTaken | internal/inventory/service.go:738-745 | asked for all there is, every lot gives all it has |
| Backing.FittingClaimsHaveAPlan | internal/aggregation/engine.go:198-203 | claims that fit from every date on have a plan that hands out distinct grams |
| Backing.PlansNeedFittingClaims | internal/aggregation/engine.go:198-203 | a plan exists only when the claims fit from every date on |
| Backing.BackedExactlyWhenFitting | internal/aggregation/engine.go:198-203 | claims on nested lots can be backed by distinct grams if and only if, from every date on, they fit in what that date may use |
| BatchNeeds.ReadNeeds | internal/aggregation/engine.go:223-250 | what is read for the orders' variants and components alone gives the needs over the whole catalog, and fails when a recipe used cannot be built or evaluated |
| BatchNeeds.LinesReadDecide | internal/aggregation/engine.go:229-249 | uses and recipe lines that no order touches change no need and no failure |
| BatchNeeds.TotalsAreNeeds | internal/aggregation/compute.go:98-105 | the totals are an ingredient's double sum where it is more than nothing, or an error exactly when a line fails |
| BatchNeeds.BrokenExactlyWhen | internal/aggregation/engine.go:223-250 | needs cannot be told exactly when an ordered variant takes a component that cannot be built, or the recipe of a component that is made fails |
| Allocation.Engine.Recompute | internal/aggregation/engine.go:133-184 | one computation, from orders to lines, replaces the list of its batch, or marks the batch failed and keeps its list |
| Allocation.Engine.FreeStock | internal/aggregation/engine.go:204-221 | a batch may count on what is usable on its date less what earlier open batches claim, never below zero |
| Allocation.Engine.RecomputeAll | internal/aggregation/engine.go:294-305 | dates are computed in turn, a failing one does not stop the others; the number computed and the dates that failed, in order, are exact |
| Allocation.FailuresAreReported | internal/aggregation/engine.go:294-305 | exactly the dates that cannot be computed are reported, and the others are counted |
| Allocation.Engine.RecomputeFrom | internal/aggregation/engine.go:271-280 | the batch of the date and then every later batch that is not done, each once, in date order; the number computed and the failures are exact |
| Allocation.Engine.RecomputeUpcoming | internal/aggregation/engine.go:286-292 | every batch from today on that is not done, in date order; the number computed and the failures are exact |
| Allocation.DateFirst | internal/aggregation/engine.go:276-278 | putting the date in front of the later ones lists them all once, in order |
| Allocation.EarlierClaimsDecide | internal/aggregation/postgres/aggregation.sql.go:135-142 | what is claimed before a date depends only on the earlier batches |
| AllocationLaws.ComputingSettles | internal/aggregation/engine.go:129-132 | computing a batch twice leaves what computing it once leaves |
| AllocationLaws.RunSettlesItsDates | internal/aggregation/engine.go:294-305 | after a run in date order, computing any of its dates again would change nothing |
| AllocationLaws.SecondRunChangesNothing | internal/aggregation/engine.go:129-132 | a second run changes nothing |
| AllocationRuns.RunsAtOnce | internal/aggregation/engine.go:129-132 | in whatever order dates are computed, and however often, when only later dates come after each date's last computation the batches end as one run leaves them |
| AllocationRuns.OthersOnItsDatesDoNotMatter | internal/aggregation/engine.go:129-132 | a run in date order leaves what it leaves alone, whoever computes its dates at the same time |
| RunsApart.OverlappingRunsAreOneExactlyWhen | internal/aggregation/engine.go:266-280 | two overlapping runs always leave what one run over all their dates leaves if and only if the dates of one are all dates of the other |
| RunsApart.BothClaimTheGram | internal/aggregation/engine.go:198-203 | runs that each have a date the other has not can leave one gram claimed by both dates |
| AllocationRuns.UpcomingRunCanBeBacked | internal/aggregation/engine.go:282-292 | a successful run over the batches from a date on leaves claims of those batches that distinct grams back, whatever earlier batches still claim |
| AllocationLaws.FromTheChangedDateIsEnough | internal/aggregation/engine.go:266-280 | when only the orders of one date changed, computing from that date on equals computing everything |
| AllocationLaws.ClaimWhenUpToDate | internal/aggregation/compute.go:170-173 | an up-to-date batch claims what is free for it, as far as it needs |
| AllocationLaws.UpToDateClaimsAreGreedy | internal/aggregation/engine.go:204-221 | up-to-date batches claim greedily in date order |
| AllocationLaws.ClaimsCanBeBacked | internal/aggregation/engine.go:198-203 | no gram counts twice: some assignment of distinct grams gives each up-to-date batch its whole claim, only from lots that count on its own date |
| AllocationLaws.FullRunCanBeBacked | internal/aggregation/engine.go:294-305 | a full run that succeeds leaves claims that can be backed |
| AllocationLaws.WholeClaimsLeaveNoMoreThanThereIs | internal/aggregation/engine.go:201-203 | subtracting earlier claims whole leaves a batch at most what its own lots still hold, however those claims are backed |
| AllocationLaws.MoreNeedTakesFromLaterBatches | internal/aggregation/engine.go:198-203 | raising one need never lowers a prefix sum of claims, never raises another batch's claim, and leaves earlier batches alone |
| NewOrders.MoreOrdersNeedNoLess | internal/recipe/recipe.go:12-14 | with affine and piecewise recipes, more orders for a date need no less of anything, and what can be computed with them can be computed without them |
| NewOrders.NewOrdersTakeFromLaterBatches | internal/aggregation/engine.go:198-203 | new orders for a date, its first ones included, and a computation from that date on: earlier batches stay exactly as they are, the date's batch claims no less, later ones claim no more, every batch is up to date again, and distinct grams back all claims |
| OrderBatches.SummedItemsNeedTheSame | internal/orders/postgres/orders.sql.go:117-125 | summing the items by variant changes no need |
| OrderBatches.OneOrderMore | internal/orders/postgres/orders.sql.go:117-125 | an order adds its items to its own date alone, once its deposit is in and until it is ended |
| OrderBatches.CountsFromItsDeposit | internal/orders/status.go:54-63 | an order starts to count for its batch exactly when its deposit is recorded, and stops exactly when it is refunded, or forfeited past a balance deadline it missed |
| OrderBatches.OtherDatesMakeTheSame | internal/aggregation/worker/worker.go:104-116 | a step changes the committed items of no date but the one its event asks to compute |
| OrderBatches.NoChangeIsForgotten | internal/aggregation/worker/worker.go:104-116 | over every run of orders, stock and recipe changes, and of jobs taken in any order: from today on, each batch is as a computation would leave it now, or a job that computes it waits |
| OrderBatches.WhenNoJobWaits | internal/aggregation/worker/worker.go:158-182 | when no job waits, every date with committed orders has its batch, all batches from today on are settled, and unless a recipe is broken distinct grams back all their claims |
| ShoppingList.Shop | internal/aggregation/compute.go:155-182 | the three passes give every ingredient needed or touched the line of one formula |
| ShoppingList.ShoppedQuantities | internal/aggregation/compute.go:156-173 | exactly what is needed, ordered or delivered has a line; its need is what is free, on order, or to buy, and nothing is bought beyond that |
| ShoppingList.ShoppedPacks | internal/aggregation/compute.go:174-191 | a line holds the packs for what is to buy: the default pack, none when nothing is to buy, and else enough packs of which one fewer would not do |
| ShoppingList.StoredLine | internal/aggregation/postgres/aggregation.sql.go:489-499 | a stored list after a computation holds the lines computed, and of what was ordered and received what it held |
| ShoppingList.SaveResult | internal/aggregation/postgres/repo.go:153-185 | stored lines that are stale go, computed ones are written, and procurement's columns stay |
| ShoppingList.Apply | internal/aggregation/postgres/aggregation.sql.go:16-24 | changes are applied to their lines, or none when a line is missing or a quantity would fall below zero |
| ShoppingList.AppliedExactlyWhen | internal/aggregation/postgres/aggregation.sql.go:16-24 | changes succeed exactly when each names a line whose quantities stay at least zero; each such line moves by its change and has the status its quantities tell, and no other line changes |
| ShoppingList.ComputingKeepsProcurement | internal/aggregation/postgres/aggregation.sql.go:193-197 | no computation drops a touched line or changes what was ordered, received or its status |
| ShoppingList.ComputingTwiceIsComputingOnce | internal/aggregation/compute.go:155-182 | rebuilding a list with the same inputs changes nothing |
| Packs.PacksAreEnoughAndNoneTooMany | internal/aggregation/compute.go:184-191 | for sizes below 10^9 - 1: at least one pack, one fewer would not do, and the ordered quantity covers what is to buy |
| Packs.PackQtyIsWhole | internal/procurement/service.go:196-197 | an item asks for the least whole number that is not below what its packs hold, but for the noise |
| Packs.PacksCoverExactlyWhen | internal/aggregation/compute.go:184-191 | whole packs cover a quantity for every size, except exactly when the remainder is between almost one unit and the noise allowance of a pack |
| Packs.HugePacksFallShort | internal/procurement/service.go:188-212 | 2 000 000 001 in packs of two billion orders one unit too few |
| Totals.Quantities | internal/aggregation/compute.go:58-61 | a variant's quantity is the sum over the items |
| Totals.OrderedOneMore | internal/aggregation/compute.go:58-61 | each item adds its quantity to its variant and to no other |
| Totals.Level1 | internal/aggregation/compute.go:66-80 | a component's units are the sum over its uses; a component is there just when an ordered variant uses it |
| Totals.UnitsOneMore | internal/aggregation/compute.go:66-80 | each use of an ordered variant makes its component and adds quantity times units per item, and any other use does neither |
| Totals.SortLines | internal/aggregation/compute.go:82-85 | the recipe lines by component and ingredient, the same lines |
| Totals.Level2 | internal/aggregation/compute.go:86-97 | each ingredient's sum of rounded quantities, or the first line that fails |
| Totals.NeedOneMore | internal/aggregation/compute.go:86-97 | each line of a component that is made fails or adds its whole quantity, on all the units of the component, to its ingredient |
| Totals.ComputeTotals | internal/aggregation/compute.go:57-106 | both levels equal the double sum, and an error names the least failing component and ingredient |
| Totals.ErrorsNameTheLeast | internal/aggregation/compute.go:82-97 | an error names the least component that fails, and of that the least ingredient |
| TotalsLaws.TotalsInAnyOrder | internal/aggregation/compute.go:55-56 | items, uses and lines may come in any order: the result is the same, a failure included |
| TotalsLaws.MoreItemsNeedNoLess | internal/recipe/recipe.go:12-14 | adding items never lowers a need, and what can be computed with them can be computed without them |
| Procurement.Service.Record | internal/aggregation/purchasing.go:46-62 | the deltas are applied to the batch's lines and the batch is computed again, or it fails |
| Procurement.Service.Create | internal/procurement/service.go:149-237 | an order of what is still to buy from one supplier, with every outcome of the step |
| Procurement.Service.ItemsToOrder | internal/procurement/service.go:188-212 | one item for each line of the supplier with something to buy, in whole packs |
| Procurement.WhatIsOrdered | internal/procurement/service.go:189-197 | an order takes exactly the lines with something to buy that its supplier packs, or that nobody packs when it has no supplier, each for what its packs hold |
| ProcurementLaws.CreatedOrderIs | internal/procurement/service.go:186-219 | an accepted order is one more, waiting, of exactly its supplier's lines with something to buy, each for a positive quantity; other orders and deliveries stay |
| ProcurementLaws.OrderedIsOnTheList | internal/procurement/service.go:200-219 | an accepted order adds each item's quantity to what its line has on order and changes nothing else that procurement recorded |
| ProcurementLaws.CreatedExactlyWhen | internal/procurement/service.go:178-219 | in every reachable state the outcome is not found, batch done, nothing to order, failed for a broken recipe or empty packs, or accepted, each exactly when |
| Procurement.Service.Receive | internal/procurement/service.go:263-348 | ticked items come off the order and onto the list, each outcome included; accepted, each item that came is one lot, one movement and, where it perishes, one check more, and the stock rises by just what came; refused, the stock has only aged |
| Procurement.Service.TickItem | internal/procurement/service.go:294-325 | one item is checked, taken into the stock and ticked, or stops the checklist |
| Procurement.FirstWrongTickDecides | internal/procurement/service.go:305-318 | the first tick of an unknown item, of one that does not wait, or of a delivery the stock refuses stops the checklist, each with its own reason |
| Procurement.TicksGoThroughExactlyWhen | internal/procurement/service.go:305-326 | a checklist goes through exactly when each item waits on the order and the stock takes what came; then just these items have arrived, with what came |
| ProcurementLaws.ReceivedExactlyWhen | internal/procurement/service.go:263-348 | in every reachable state a checklist is accepted exactly when the order waits, every tick is in range, once, and fits the order and the stock, and the recipes can be evaluated; else nothing changes |
| Procurement.Service.Cancel | internal/procurement/service.go:350-407 | what still waits is dropped, what arrived stays |
| ProcurementLaws.CancelledExactlyWhen | internal/procurement/service.go:350-393 | in every reachable state cancelling a waiting order drops exactly the items that wait and closes it, unless a recipe is broken; else nothing changes |
| Procurement.Service.CloseIfDone | internal/procurement/service.go:409-422 | an order closes when no item waits, by whether anything arrived |
| Procurement.ClosedExactlyWhen | internal/procurement/service.go:409-422 | an order stays as it stands while an item waits, and else closes as received when something arrived and as cancelled when nothing did |
| ProcurementLaws.TickingBalances | internal/procurement/service.go:293-343 | a checklist moves each ticked item, its line and the stock by the same quantities |
| ProcurementLaws.ComputingKeepsTheBooks | internal/aggregation/postgres/aggregation.sql.go:489-499 | a computation keeps lists and orders in agreement and makes what to buy current |
| ProcurementLaws.CreatingKeepsInv | internal/procurement/service.go:178-232 | creating an order keeps orders, lists and stock in agreement |
| ProcurementLaws.ReceivingKeepsInv | internal/procurement/service.go:293-343 | receiving keeps orders, lists and stock in agreement |
| ProcurementLaws.BooksRiseByWhatCame | internal/procurement/service.go:293-343 | what the books say arrived with an accepted checklist is just what the stock gained by it |
| ProcurementLaws.CancellingKeepsInv | internal/procurement/service.go:369-403 | cancelling keeps orders, lists and stock in agreement |
| ProcurementLaws.EveryReachableStateIsConsistent | internal/aggregation/purchasing.go:46-62 | over any interleaving: a line's ordered is the sum of its waiting items, received the sum of what arrived, its status and what to buy follow, an order waits just while an item does, and the stock got what arrived |
| ProcurementLaws.CancelNeverMissesItsLines | internal/procurement/service.go:369-403 | cancelling a waiting order succeeds if and only if the day's recipes can be evaluated: its lines are always there |
| ProcurementLaws.ReceiveNeverMissesItsLines | internal/procurement/service.go:293-343 | receiving waiting items succeeds if and only if the day's recipes can be evaluated |
| ProcurementLaws.SecondOrderIsRefused | internal/procurement/service.go:188-218 | when the list was current and nothing else changes, a second order to the same supplier finds nothing to order |
| Production.Service.LockDue | internal/aggregation/production.go:37-66 | exactly the open batches whose cutoff has passed are locked and counted, nothing else changes |
| Production.Service.MarkInProduction | internal/aggregation/production.go:68-74 | an open or locked batch goes into production, a later one stays |
| Production.Service.SetStatus | internal/aggregation/postgres/aggregation.sql.go:427-431 | a batch moves only from one of the statuses given |
| Production.Service.Complete | internal/aggregation/production.go:92-170 | once, on or after the day: of each ingredient all that is needed or all that lasts is consumed, oldest lots first and from available lots only, entry by entry and in all; what is missing is missing because no available lot is left; the stock loses just what is reported, and the batch is done |
| Production.CompletionFreesItsClaim | internal/aggregation/production.go:92-96 | a completed batch gives its whole claim back to the later batches and changes nothing for earlier ones |
| ProductionLaws.CompletedBatchesGetTheirClaims | internal/aggregation/production.go:92-96 | a batch up to date with the stock and completed by the end of its day consumes at least what it claimed |
| ProductionLaws.AllBatchesGetTheirClaims | internal/aggregation/engine.go:198-203 | from one state where all batches are up to date, completed in date order, each by the end of its day and with no computation between, every batch consumes at least its claim |
| ProductionLaws.TakersGetTheirClaims | internal/aggregation/production.go:92-96 | a batch that takes more than its greedy claim has claimed all that was left, so later claims lose nothing |
| StockView.LastOKIsLatest | internal/inventory/postgres/inventory.sql.go:246-251 | a lot was last found good at the greatest time of its passed checks, or never |
| StockView.UsableIsHeld | internal/inventory/domain.go:102-111 | what may be counted on is the sum of the movements of the lots that count |
| StockView.UsableOfAvailable | internal/inventory/service.go:824-843 | listing only the available lots loses nothing that counts |
| StockView.PassedCheckCountsForADay | internal/inventory/domain.go:72-98 | with a passed check as its latest, a lot of a perishable ingredient counts exactly in the 24 hours from then, while it is available, holds something and lasts the day |
| StockView.FreshDeliveryCounts | internal/inventory/service.go:278-300 | a perishable delivery that lasts the day counts from its arrival, one always bought fresh never |
| Ledger.HeldIsSumOfBalances | internal/inventory/postgres/inventory.sql.go:297-305 | what listed lots hold is the sum of their balances, each a sum of movements |
| Ledger.DrainIsFirstInFirstOut | internal/inventory/service.go:766-786 | draining takes from each lot what the older ones lack, nothing from lots not listed, and min(quantity, total) in all |
| Ledger.DrainingHeldLots | internal/inventory/service.go:762-772 | listing only lots that hold something changes nothing |
| Ledger.ConsumingTwiceIsConsumingOnce | internal/inventory/service.go:747-801 | consuming q1 and then q2 leaves every lot as consuming q1 + q2 |
| Stockroom.ExpiringKeepsSound | internal/inventory/postgres/inventory.sql.go:51-54 | expiring lots at any moment keeps the ledger sound |
| Stockroom.MarkedExactlyWhen | internal/inventory/postgres/inventory.sql.go:51-54 | the daily job marks exactly the available lots whose time of expiry has come |
| Stockroom.InOrder | internal/inventory/postgres/inventory.sql.go:297-305 | the lots of an ingredient in some statuses, each once, oldest first |
| Stockroom.ListingsGoByArrival | internal/inventory/postgres/inventory.sql.go:297-305 | a listing goes by time of arrival, and by id among lots that came together |
| Stockroom.DrainingKeepsSound | internal/inventory/service.go:766-786 | draining and marking emptied lots keeps the ledger sound, whatever expires meanwhile |
| Stockroom.DrainingOneIngredient | internal/inventory/service.go:758-792 | a drain takes what it says out of one ingredient and nothing of others |
| Stockroom.NoneIsLeft | internal/inventory/service.go:743-746 | something is missing only when no available lot is left |
| Stockroom.ListedHoldAll | internal/inventory/service.go:647-655 | available and expired lots hold all of an ingredient's recorded stock |
| Inventory.Service.ExpireLots | internal/inventory/service.go:845-849 | exactly the available lots past their expiry are marked, how many is returned, and the ledger stays sound |
| Inventory.Service.Drain | internal/inventory/service.go:766-786 | the movements are those of first in, first out, the emptied lots are exhausted, and the rest is what the lots lacked |
| Inventory.Service.Intake | internal/inventory/service.go:278-311 | a delivery is a new lot with its whole quantity, and a perishable one counts as checked |
| Inventory.Service.Claim | internal/inventory/service.go:254-267 | a free key is claimed, a held one is left and answers as the lookup does |
| Inventory.Service.Receive | internal/inventory/service.go:160-230 | a delivery takes effect once per key: a retry gets the first lot before any validation, an invalid one changes nothing, an accepted one is one commit, one new lot, its movement and its first check |
| Inventory.Service.LooksUpWhatIsGiven | internal/inventory/service.go:232-251 | a key that is given is looked up before validation, and a missing one is left to it |
| Inventory.Service.RefusedExactlyWhen | internal/inventory/service.go:190-210 | a delivery is refused exactly without a key, for an unknown ingredient, a quantity out of range, an arrival over 30 days ago or over 5 minutes ahead, or an expiry not after the arrival; else it becomes an available lot as of its arrival |
| Inventory.ExpiryIs | internal/inventory/service.go:315-326 | a lot lasts as given, or whole days of its shelf life from its arrival, or for ever |
| Inventory.Service.ReceiveTx | internal/inventory/service.go:213-227 | exactly the commit step of the request protocol: the claim and the effect together; a held key has no effect again |
| Inventory.Service.CountTx | internal/inventory/service.go:618-645 | exactly the commit step of the request protocol, with the movements, lots and totals of a count, or nothing for a held key |
| Inventory.Service.ReceiveOrdered | internal/inventory/service.go:353-380 | a delivery of a known ingredient that is not past its expiry becomes one lot, any other is refused and changes nothing |
| Inventory.ReceivableExactlyWhen | internal/inventory/service.go:348-376 | an ordered delivery is taken exactly when it is known, in range and not past its expiry, and then becomes an available lot, looked at when it perishes |
| Inventory.Service.Undo | internal/inventory/service.go:353-380 | a failed transaction takes its own lots, movements and checks back; what expired meanwhile stays expired |
| Inventory.Service.LookAt | internal/inventory/service.go:492-547 | an empty lot is refused exactly when its balance is zero, one expired when looked at cannot pass, a bad one is thrown away whole, and a good one may still expire before the commit |
| Inventory.Service.Discard | internal/inventory/service.go:548-568 | a discarded lot holds nothing and its ingredient loses just its balance |
| Inventory.Service.NewestAvailable | internal/inventory/service.go:710-718 | the last listed lot that is available and holds something |
| Inventory.NewestCameLast | internal/inventory/service.go:711-718 | the lot a raised count goes into is the available one that came last |
| Inventory.Service.Raise | internal/inventory/service.go:683-699 | the difference goes into the newest available lot, or into a new one when there is none |
| Inventory.Service.CountStock | internal/inventory/service.go:647-699 | after a count the recorded stock is what was counted, by an oldest-first drain or one movement, and no other ingredient changes |
| Inventory.Service.Count | internal/inventory/service.go:595-643 | a count takes effect once per key, also when the stock moved since: less comes out of the oldest lots first, more goes into the newest, and the ledger only grows |
| Inventory.CountedIs | internal/inventory/service.go:650-701 | after a count the recorded stock is what was counted; less comes out of lots of the ingredient that may hold something, more goes as one movement into the available lot that came last, or into the new one |
| Inventory.Service.CountRefusedExactlyWhen | internal/inventory/service.go:623-639 | a count is refused exactly without a key or a reason, for an unknown ingredient, or out of range; what it finds without a lot becomes one that arrives now |
| Inventory.Service.ConsumeOne | internal/inventory/service.go:758-792 | consumed is min(quantity, available), consumed and missing make up the quantity, and missing means no available lot is left |
| Inventory.Service.ConsumeNext | internal/inventory/service.go:755-793 | one more entry keeps what is promised of the whole consumption |
| Inventory.Service.Consume | internal/inventory/service.go:747-801 | each entry consumes what it asks or all that the earlier ones left, each ingredient all that was asked or all that lasts, only from available lots and the oldest first; a shortage leaves no available lot; the stock loses just what is reported and other columns stay |
| Inventory.Service.UsableStock | internal/inventory/service.go:824-843 | what a batch may count on is what the lots that count hold |
| Consumption.DrainConsumes | internal/inventory/service.go:758-792 | a drain takes from available lots of its ingredient only, and from a younger one only after the older ones, whatever expires meanwhile |
| Consumption.EarlierArrivalsGoFirst | internal/inventory/service.go:767-786 | when a lot gave something, no lot of its ingredient that came before it is left available, nor one that came with it and has a lower id |
| Consumption.ConsumedTwice | internal/inventory/service.go:753-794 | consumptions in a row are one consumption from the stock before |
| Consumption.ConsumedIsWhatThereWas | internal/inventory/service.go:743-746 | consumed lies between the least of what is asked and what lasts, and the least of what is asked and what was available; the two are one when nothing expires meanwhile |
| Consumption.EntriesTakeWhatIsLeft | internal/inventory/service.go:753-794 | each entry takes what it asks, or what the entries before it left |
| Requests.AnsweredExactlyWhen | internal/inventory/service.go:232-276 | a key is unused when nobody holds it, answers its own request with the first result, and refuses every other request |
| Requests.CallsMoveOn | internal/inventory/service.go:232-276 | a call moves on only by its own lookup, rejection or transaction, and keeps the reply it got |
| Requests.EffectsExactlyWhen | internal/inventory/service.go:253-267 | just the transaction of a call that was looked up and whose key nobody holds has an effect, and it succeeds with its own result |
| Requests.ClaimingKeepsInv | internal/inventory/postgres/inventory.sql.go:15-20 | the first effect with a key takes it and changes no other reply |
| Requests.EveryScheduleKeepsInv | internal/inventory/service.go:232-276 | over every schedule, effects are of held keys, one each, and every reply is right |
| Requests.ExactlyOnce | internal/inventory/service.go:161-276 | for every schedule of concurrent and late retries: one effect per key, one result for all who succeed, never for another body or person |
| Payments.DPIsTheLeastEnough | internal/payments/dp.go:70-91 | the deposit is positive, at most the total, and the least that is the promised share and covers the ingredients |
| Payments.DPExactlyWhen | internal/payments/dp.go:70-91 | a deposit can be locked exactly for a share of 1 to 100 per cent and a total and a cost up to 2^40 |
| Payments.CoversFromTheSolutionOn | internal/payments/methods.go:121-129 | a gross leaves the whole amount if and only if it reaches the exact solution rounded up, so the correcting loop never iterates |
| Payments.CoversExactlyWhen | internal/payments/methods.go:85-114 | what a gross must hold: the amount, the fixed part with 11 % VAT, and the rate of the gross, with VAT unless it includes it, each rounded up to a rupiah |
| Payments.ComputeFee | internal/payments/methods.go:85-131 | the least fee that leaves the shop the whole amount, zero for QRIS, and an error exactly for an invalid rule or amount |
| Payments.RatesStayBelowAll | internal/payments/methods.go:108-114 | what is left of every gross is positive |
| Payments.GrossIsSmall | internal/payments/methods.go:121-126 | the gross stays below 2^43, far inside int64 |
| Payments.FeeGrowsWithTheAmount | internal/payments/methods.go:85-94 | a larger amount never has a smaller fee |
| PaymentLedger.SumPaid | internal/payments/ledger.go:68-78 | the loop gives the sum of the paid amounts |
| PaymentLedger.CloseOpen | internal/payments/ledger.go:190-196 | every open invoice is expired and counted, nothing else changes |
| PaymentLedger.RowsTakenExactlyWhen | internal/payments/ledger.go:151-186 | a pending row is exactly a payment of 1 to 2^40 that is no refund, with a fee of at least zero; a manual row is money received, or money returned as a refund, of as much |
| PaymentLedger.ExpiringKeepsWhatWasPaid | internal/payments/ledger.go:190-196 | closing invoices leaves none open and changes nothing paid |
| PaymentLedger.SettleTellsTheAmounts | internal/payments/status.go:63-82 | the status tells how far the order is paid while money comes in, and never moves back |
| PaymentLedger.SettlesExactlyWhen | internal/payments/status.go:63-82 | open payments settle on all when the total is paid, on the deposit when that is, and never go back |
| PaymentLedger.ClosedIsFinal | internal/payments/status.go:84-98 | forfeited and refunded need something paid, and nothing reopens them |
| Orders.TheLifecycle | internal/orders/status.go:90-121 | the steps the table allows, exactly, with the payments each needs |
| OrderService.Service.Advance | internal/orders/admin.go:241-269 | one step of production, a second tap harmless, refusals change nothing |
| OrderService.RepliesTell | internal/orders/admin.go:236-269 | an action answers that it changed the order exactly when its step is done, and else with its reason |
| OrderService.Service.RecordPayment | internal/orders/admin.go:277-351 | one payment step: the row, the statuses and the closing of open invoices together, or nothing |
| OrderService.Service.Cancel | internal/orders/admin.go:389-452 | one cancelling step, the refund row included, or nothing |
| OrderService.Service.Settle | internal/orders/admin.go:486-495 | the new statuses are stored and the open invoices closed |
| OrderService.Service.RunSweep | internal/orders/automation.go:103-128 | the run that ends each listed order still due at its turn, in its own transaction; the number ended is exact, and only ids without an order fail |
| OrderService.MissingAreCounted | internal/orders/automation.go:103-128 | the number that fails is that of the ids without an order |
| OrderService.Service.EndOne | internal/orders/automation.go:67-101 | an order due is ended through the lifecycle, which refuses none; one paid or ended meanwhile is left; one not there fails |
| OrderService.Service.EnsureBalanceInvoice | internal/orders/automation.go:151-178 | one billing step: the balance is billed, or nothing changes |
| OrderService.Service.Place | internal/orders/place.go:68-146 | a checkout is priced, and stored or answered with the order its key has |
| OrderService.Service.PlaceTx | internal/orders/place.go:118-141 | under the customer's lock: the key's order, a refusal of a third waiting order, or the new order |
| OrderLaws.PaymentsAcceptedExactlyWhen | internal/orders/admin.go:353-382 | a payment is accepted exactly for a deposit of a waiting order or at most the owed balance of a confirmed one, adds just that, and has the kind its size says |
| OrderLaws.PaymentsRefusedBecause | internal/orders/admin.go:353-382 | each reason a payment is refused, exactly when |
| OrderLaws.StepsAcceptedExactlyWhen | internal/orders/admin.go:236-261 | an order moves on exactly when asked where it is, or one step further and paid in full |
| OrderLaws.StepsAre | internal/orders/admin.go:236-269 | a step taken changes the status alone; money is the reason exactly when a confirmed order not paid in full is to be produced |
| OrderLaws.CancellingAcceptedExactlyWhen | internal/orders/admin.go:454-484 | an order ends early exactly when it waits, is refunded while confirmed, or is past a balance deadline it missed |
| OrderLaws.CancelledAs | internal/orders/admin.go:415-452 | an order ends expired, forfeited, or refunded by one row of all that was paid; its open invoices close and nothing else changes |
| OrderLaws.CancellingRefusedBecause | internal/orders/admin.go:454-484 | each reason an order does not end early, exactly when |
| OrderLaws.SweptExactlyWhen | internal/orders/automation.go:59-101 | the worker ends an order exactly half an hour past its deadline: a waiting one the deposit's, unpaid, and one with only its deposit paid the balance's, forfeited |
| OrderLaws.BilledExactlyWhen | internal/orders/automation.go:151-178 | a balance is billed exactly when the deposit is in, its deadline has not come and nothing is open, once, for all that is owed |
| OrderLaws.ActingIs | internal/orders/admin.go:236-484 | an action does its step to its own order, when that is done, and nothing to any other |
| OrderLaws.LedgersOnlyGrow | internal/payments/ledger.go:128-138 | an action loses and rewrites no ledger row; an open invoice may only expire |
| OrderLaws.HistoryIsKept | internal/payments/ledger.go:128-138 | over every run, each row of an order's ledger stays, and only an open invoice may still expire |
| OrderLaws.RecordingKeepsSound | internal/orders/admin.go:300-325 | a payment keeps an order sound |
| OrderLaws.CancellingKeepsSound | internal/orders/admin.go:415-429 | a cancellation keeps an order sound |
| OrderLaws.SweepingKeepsSound | internal/orders/automation.go:61-101 | a sweep keeps an order sound |
| OrderLaws.BillingKeepsSound | internal/orders/automation.go:153-177 | billing keeps an order sound: one open balance, of exactly what is owed |
| OrderLaws.LockedDPIsInRange | internal/orders/checkout.go:303-312 | the locked deposit is positive and at most the total, all of it when full payment is required |
| OrderLaws.NewOrdersAreSound | internal/orders/place.go:101-141 | a new order is sound, with one open first payment |
| OrderLaws.NewOrderIs | internal/orders/place.go:101-116 | a new order column by column: its deadlines, its deposit, and one pending payment of all or of the deposit; full payment for small orders, tight schedules and by wish |
| OrderLaws.PlacedExactlyWhen | internal/orders/place.go:118-141 | a checkout gets the order of its key, a refusal exactly when no order has its key and two wait, or the new order |
| OrderLaws.WhatActionsKeep | internal/orders/status.go:65-68 | no action changes an order's customer, key or price, brings it back to waiting, or changes one that ended |
| OrderLaws.EveryReachableStateIsSound | internal/orders/place.go:118-141 | over every run: each order's status says what was paid of it, at most one invoice is open, a key has one order, and a customer at most two waiting |
| OrderLaws.NoCakeLeavesUnpaid | internal/orders/status.go:90-92 | in every reachable state, an order in production or later was paid exactly its total with nothing open, paid and open never exceed the total, and a cancelled order kept its deposit or nothing |
| OrderLaws.UnlockedReadStaysRight | internal/orders/place.go:83-87 | the order an unlocked lookup found is the one every later lookup finds |
| OrderLaws.EndedOrdersStay | internal/orders/status.go:65-68 | an order that ended stays as it is, money included, whatever follows |
| Recipe.NewPiecewise | internal/recipe/models.go:72-92 | exactly 1 to 100 points that grow from (0, 0) are accepted |
| Recipe.NewAffine | internal/recipe/models.go:17-22 | exactly parameters that are not negative are accepted |
| Recipe.Search | internal/recipe/models.go:106 | the binary search finds the first point that reaches u |
| Recipe.Interpolate | internal/recipe/models.go:102-112 | the search clamped to a segment equals looking at one segment after another |
| Recipe.Resolve | internal/recipe/recipe.go:52-68 | no units need nothing, negative units and results are errors, otherwise the model's value |
| Recipe.ResolvedIs | internal/recipe/models.go:29-112 | the fixed part and the part of each unit; a straight line between neighbouring points, and past the end the last one drawn on; or the formula, unless negative |
| Recipe.NoUnitsNeedNothing | internal/recipe/recipe.go:52-68 | no units need nothing, and fewer than none are refused, whatever the model |
| Recipe.QuantityIs | internal/recipe/quantity.go:38-63 | a quantity is the amount times the waste, to the nearest unit or up but for the noise, and refused above 2^53 |
| Recipe.QuantityIsRefused | internal/recipe/quantity.go:38-45 | a waste factor below one is refused before anything else, and then what the model refuses |
| Recipe.SegmentIsScan | internal/recipe/models.go:105-110 | any segment not yet passed gives the linear scan's value |
| Recipe.MoreUnitsNeverNeedLess | internal/recipe/recipe.go:12-14 | every u from 0 on resolves, to amounts never negative and never falling, past the last point too |
| Recipe.PassesThroughEveryPoint | internal/recipe/models.go:63-65 | a piecewise model gives each measured point its amount |
| Recipe.QuantityRises | internal/recipe/quantity.go:34-63 | whole quantities keep that order under both roundings, and what is accepted for more is accepted for less |
| Recipe.WholeAmountsAreKeptBelow | internal/recipe/quantity.go:26-32 | rounding up keeps a whole amount if and only if it is below 10^12; rounding to nearest always does |
| Recipe.TheLargestAmountLosesThousands | internal/recipe/quantity.go:26-32 | a recipe of one a unit for 2^53 units needs 9007 fewer |
| Recipe.RoundUpFallsShortExactlyWhen | internal/recipe/quantity.go:52-55 | rounding up gives less than the amount exactly when its fraction is within the allowance, or the allowance is a whole unit |
| Recipe.Validate | internal/recipe/validate.go:22-36 | the loop accepts exactly models, formulas included, that resolve and rise from step to step |
| Recipe.StepRisesExactlyWhen | internal/recipe/validate.go:22-42 | a step rises exactly when half a unit more needs no less, but for a thousand-millionth |
| Recipe.MeasuredModelsRise | internal/recipe/validate.go:17-18 | affine and piecewise models pass by construction |
| Recipe.DipsBetweenStepsPass | internal/recipe/validate.go:20-21 | a formula that dips between two steps passes, and then more units need less |
| Recipe.QuantitiesAreNotNegative | internal/recipe/recipe.go:52-68 | no model, formula or measured, gives a negative quantity |
| Merge.SortByUnits | internal/recipe/fit.go:176-177 | the same points by units |
| Merge.TakeRun | internal/recipe/fit.go:179-186 | a run of equal units becomes one point with their average |
| Merge.MergeByUnits | internal/recipe/fit.go:174-188 | units strictly increase, each measured units is there once, with the average amount |
| Merge.MergedOnlyOneWay | internal/recipe/fit.go:174-188 | measurements in any order merge to the same points |
| Merge.MergingPreservesTheTotal | internal/recipe/fit.go:174-188 | the sum of the amounts, weighted by how often each units was measured, is preserved |
| Fit.LeastSquares | internal/recipe/fit.go:201-220 | the centred sums solve both normal equations |
| Fit.LeastSquaresSolves | internal/recipe/fit.go:213-219 | the centred slope and intercept make both slopes of the error zero |
| Fit.ThroughOrigin | internal/recipe/fit.go:222-230 | the least-squares b of amount = b*u, never negative |
| Fit.MovedError | internal/recipe/fit.go:201-230 | moving a line costs at least what the slopes of the error say |
| Fit.LevelLineIsBest | internal/recipe/fit.go:61-63 | a level line, or one through the origin that a fixed part would not help, is the best of all lines with a >= 0 |
| Fit.FallbackIsBest | internal/recipe/fit.go:75-77 | when the free optimum has a < 0, the line through the origin is the best of all lines with a >= 0 |
| Fit.OneUnitsThroughOrigin | internal/recipe/fit.go:63-69 | with a single distinct unit count the line through the origin is the best |
| Fit.FitAffine | internal/recipe/fit.go:61-87 | valid points are refused exactly when amounts fall as units grow; otherwise no line with a >= 0 has a smaller sum of squared errors |
| Fit.PointsRefusedExactlyWhen | internal/recipe/fit.go:152-168 | points are refused exactly when there are none or over a hundred, or one is of no units or a negative amount |
| Fit.FitPiecewise | internal/recipe/fit.go:119-141 | valid points are refused exactly when a merged amount falls; otherwise the model is accepted and passes through every merged point |
| Scheduling.MakePlan | internal/scheduling/plan.go:94-150 | the fold over the items and the checks in order give the one verdict of the rules |
| Scheduling.MalformedExactlyWhen | internal/scheduling/plan.go:98-114 | exactly the requests that are errors, not rejections |
| Scheduling.PlannedExactlyWhen | internal/scheduling/plan.go:116-141 | a request is planned exactly when it breaks no rule (365 days, each item's notice, hours, closed days, 30 minutes to the cutoff, capacity), and rejected for the first it breaks |
| Scheduling.PlannedAs | internal/scheduling/plan.go:124-149 | the plan's times: production early enough for the longest cake, the cutoff, both deadlines, and full payment exactly when the balance falls due by the deposit's deadline |
| Scheduling.AcceptedPlansAreInOrder | internal/scheduling/plan.go:71-150 | now + 30 min <= DP deadline <= cutoff <= production start < pickup, balance due <= production start, full payment exactly when the balance falls due by the DP deadline, never on a closed day |
| Scheduling.Suggest | internal/scheduling/suggest.go:16-51 | the first day tried whose candidate is accepted, or none of the 61 |
| Scheduling.SuggestedExactlyWhen | internal/scheduling/suggest.go:33-50 | a day is suggested exactly when the plan of its candidate is accepted |
| Scheduling.SuggestionsAreGood | internal/scheduling/suggest.go:16-23 | a suggestion respects the rounded notice, lies in the pickup hours, and is on the requested day or later |
| Scheduling.SuggestedEarlierExactlyWhen | internal/scheduling/suggest.go:16-31 | the suggestion is earlier than asked for if and only if its own day is tried first and fits, the notice does not reach past that time, and that time is after closing, or has seconds |
| Scheduling.AfterClosingIsOfferedEarlier | internal/scheduling/suggest.go:30 | a cake asked for at 18.00 with closing at 17.00 is offered at 17.00 the same day |
| Scheduling.RoundUp | internal/scheduling/suggest.go:53-60 | the least multiple of 15 minutes from t on |

## Left out

- Float rounding, NaN and infinity: amounts, units and pack sizes are reals, so the checks for finite numbers have nothing to refuse.
- Power and formula models (internal/recipe/models.go:34-52): a formula is any function from units to an amount or an error; its expression language, `math.Pow` and the fit of a power model are not modelled.
- Fit reports (internal/recipe/fit.go:232-264): R2 and residuals describe a fit and decide nothing.
- Totals.ComputeTotals: the two results are maps, so their sorted order, and the sorting of the uses that only fixes the order of float sums, are not modelled.
- Allocation.Engine.Recompute: the component totals saved beside a list (internal/aggregation/postgres/repo.go:153-185) and the texts of a failure are not stored; nothing reads them to compute.
- Table rows: shopping lists and batches are maps by id; the order rows come back in is modelled only where it decides something (dates, lots, recipe lines).
- Procurement.Service.Create: an order's items are keyed by ingredient, as the table's unique key says; the several database failures of one transaction are one outcome, Failed.
- Inventory.Service.Consume: uses are taken in the order given; sorting them by ingredient only keeps two transactions from waiting on each other.
- Inventory.Service.Receive: the JSON encoding of a request is a string given with it; its note is not modelled.
- Allocation.Engine.RecomputeUpcoming: batches before today that are not done keep their claims, as in the code; a batch whose recomputation fails keeps its old claim, which the laws on backing do not cover and BackedExactlyWhenFitting decides.
- OrderBatches.NoChangeIsForgotten: a worker's run is one step, which RunsApart.OverlappingRunsAreOneExactlyWhen says when it may be; changes without an event (a lot that expires, a check that runs out, the clock) are not among the events; batches become done in Production only, where completing frees a claim.
- Provider invoices and reports: an open invoice is never paid by a provider, because no such step exists in the code yet.
- OrderService.Service.EnsureBalanceInvoice: the choice of a payment method is a parameter with its fee; a failure to find one is refused.
- OrderService.Service.Place: customers, carts, prices, minimum orders, order codes and the choice of a pickup time come in as a priced checkout.
- OrderService.Service.RunSweep: the query for the orders past a deadline, with its limit of 100, is a list read before, which may be stale.
- Scheduling.Suggest: which closed days and cutoffs are loaded is the caller's; with a long notice the code may try days past what was loaded.
- Locks and isolation: a transaction under its lock is one step; deadlocks and the database's own atomicity are not modelled.
- Roles, texts, audit entries, events, tokens, HTTP, configuration and generated code.
