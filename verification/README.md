# Verified model of Moirae

Moirae is an event-sourcing and CQRS framework with sagas; its demo application has accounts,
orders and inventories. This project models the parts whose correctness spans several components
and proves what they promise together, for all inputs and all runs.

- **Event-sourced aggregates with compensation** (`Events`, `Aggregates`, `Accounts`,
  `Inventories`, `EventStore`). State is a fold over a stream. `rollback(c)` appends compensating
  events; the main result says exactly when that equals deleting `c` from history.
- **The order saga as a step machine** (`Messages`, `Sagas`, `Decisions`, `OrderSystem`). A state
  holds the stored events, the rows, both queues, the delivery under way, the command worker, the
  concurrent runs of outside commands and the registry of rollbacks. A handler run reads when it
  starts and commits when it ends, and any other step may come in between. `OrderInvariant` and
  `OrderPreservation` hold the invariant and its proof. `OrderRuns`, `OrderHistory`, `OrderReads`,
  `OrderOutcomes`, `OrderSources`, `OrderAtomicity`, `OrderErasure`, `OrderLedger`, `OrderDrain`,
  `OrderSolvency` and `OrderReadSide` hold what follows from it over whole runs (`LiveOrders` and
  `Totals` serve them), `OrderExamples` runs that show what the conditions are for.
- **The handlers and buses on the heap** (`CommandHandlers`, `Buses`). Classes that update store,
  publishers, cache and rows in place, each proved against the decision or step that `OrderSystem`
  uses for it.
- **Reservation of unique names** (`Reservation`), over all interleavings, crashes and redeliveries.
- **In-memory delivery** (`LinkedQueue`, `Delivery`, `Emitters`, `AsyncMaps`). It justifies that
  the order system handles one published command and one event at a time.
- **Cache refinement** (`Caches`): the relational cache against the map of sets.

## How the source is represented

- Ids are strings; an absent id is the empty string, which the framework treats alike. `randomUUID`
  is a value longer than every id in use, hence new and free of colons. Money is in cents.
- `undefined + number` is NaN and stays NaN, so an unset balance or quantity is `None` and stays
  `None`, and a comparison with it is false, as in JavaScript. An order on an account that was never
  opened is therefore accepted, by the code and by the model.
- Decorators become dispatch tables. sha1 and JSON encoding are injective. Serialization is the
  identity.
- A list of labels is a run; a label that is not enabled changes nothing, so the theorems about
  `After(ls)` speak about every reachable state. A book, computed from the labels, records for each
  committed order how far it got; no step reads it.
- Queued messages of the order system may be taken in any order, which covers first in first out.
- Outside commands arrive without ids and get new ones (`Buses.CommandBus.Execute` also covers
  commands that bring their own). They carry the declared fields of the inputs under
  `demo/common/src/dto` and no others: account ids contain no colon where an order is placed
  (`create-order.input.ts:6-7` has them validated as UUIDs) and are not ids of inventories. Signs are
  restricted for solvency only; except for the opening balance they are what those inputs validate.

## Where the code does less than its documentation says

- `moirae/core/README.md:169` promises rollback commands when an error occurs. A rejected event
  handler rolls back what is registered by then. For the event that starts the saga that is nothing
  (`RejectedPlacementIsNeverAtomic`); for a later one the removal may already have happened.
  `SagaAtomicity` states exactly which orders stay atomic, `RejectionTearsAnOrder` and
  `LateRejectionTearsAnOrder` are runs of the two kinds that do not.
- `commit` never advances the committed index, so a second commit stores the same events again
  (`CommitRepeatedly`, `ReloadAfterCommits`).
- `getAggregatePriorTo` is documented as a duplicate in the state before the event. It starts from
  the current fields, so it is that only under the conditions of `PriorCopyIsPriorState`; it appends
  to the history it shares with the original (`GetAggregatePriorTo`) and, on an account, to its order
  list (`ReplayOnCopy`, `OriginalIsKept`).
- `execute` hands out the stream id before the opening of an account is stored, so a deposit or an
  order can be committed first. The opening then overwrites what they moved: a deposit is lost
  (`EarlyDepositIsLost`), and an order compensated afterwards is refunded although its payment was
  overwritten (`RefundOfOverwrittenPayment`). `LedgerConservation` and `CompensatedPaymentIsErased`
  say exactly when this matters. An order is done or compensated by its events; that a compensated
  one leaves the balance as without it is the second of these results.
- A distributor's `clear` forgets subscriptions without removing listeners (`SubscriptionAgreement`).

## Model

| member | source | states |
|---|---|---|
| OrderAtomicity.SagaAtomicity | moirae/core/lib/busses/command.bus.ts:73-90 | In every run of the order system, once nothing is pending, an order is either fully done (listed, paid once, its inventory removed once) or fully compensated (not listed, payment taken back, no inventory removed), and never both, if and only if no rejected delivery tore it: its OrderCreated delivery was not rejected, and it is not both removed and rejected later |
| OrderAtomicity.EveryOrderIsAtomic | moirae/core/lib/busses/event.bus.ts:50-74 | In every run without a rejected delivery, once nothing is pending, every OrderCreated ever stored belongs to an order that is exactly one of done and compensated |
| OrderAtomicity.DoneOrCompensated | demo/account/src/handlers/create-order.handler.ts:22-53 | In every consistent state, also mid-saga: an order is done exactly when it was removed and not rolled back, compensated exactly when it was rolled back and not removed |
| OrderAtomicity.EffectsHappenOnce | moirae/core/lib/busses/command.bus.ts:73-90 | In every reachable state, with deliveries rejected and rollbacks repeated at will: an order was placed and paid once, rolled back at most once and as a whole, and its inventory was removed at most once |
| OrderErasure.CompensatedOrderIsErased | moirae/core/lib/classes/aggregate-root.class.ts:160-175 | In every reachable state, whatever is interleaved before, between and after, and whether the account was ever opened or not: the account of an order that was rolled back has the order list of its history with every event of the order deleted |
| OrderErasure.CompensatedPaymentIsErased | demo/account/src/aggregates/account.aggregate.ts:34-65 | In every reachable state the balance of that account is the one without the order, plus the cost if the account was opened between payment and refund: the two are equal if and only if it was not, or the order cost nothing |
| OrderAtomicity.EntriesAreOrders | demo/account/src/handlers/create-order.handler.ts:35-52 | Every entry of the book that the invariant speaks about is an order whose OrderCreated is in the store under its correlation |
| OrderAtomicity.OrdersHaveEntries | demo/account/src/handlers/create-order.handler.ts:35-52 | Every OrderCreated in the store has its own entry in the book |
| OrderAtomicity.RejectedPlacementIsNeverAtomic | moirae/core/lib/busses/event.bus.ts:57-61 | Where the delivery of OrderCreated is rejected, the order is neither done nor compensated at any later quiescence, whatever else happens: nothing is registered yet, so rolling back sends nothing |
| OrderAtomicity.LateRejectionIsNeverAtomic | moirae/core/lib/busses/event.bus.ts:57-61 | Where a later delivery of an order is rejected after its inventory was removed, the order ends rolled back and its inventory stays removed at every later quiescence |
| OrderAtomicity.TornForGood | moirae/core/lib/busses/event.bus.ts:57-61 | No later step of any run mends an order that a rejected delivery has torn |
| OrderExamples.RejectionTearsAnOrder | moirae/core/lib/busses/event.bus.ts:57-61 | A concrete run with one rejected delivery, that of OrderCreated, ends with nothing pending and an order that is neither done nor compensated |
| OrderExamples.LateRejectionTearsAnOrder | moirae/core/lib/busses/event.bus.ts:57-61 | A concrete run with one rejected delivery, that of the payment after the inventory was removed, can be drained, and then the order is rolled back and its inventory removed all the same |
| OrderExamples.EarlyDepositIsLost | moirae/core/lib/busses/command.bus.ts:62-71 | A concrete run of four steps: a deposit of 5 committed before the opening with 100 leaves a balance of 100 where the stream says 105 |
| OrderExamples.RefundOfOverwrittenPayment | moirae/core/lib/busses/command.bus.ts:62-90 | A concrete run in which an order overtakes the opening of its account and is then compensated: the account holds 120 and without the order it would hold 100 |
| OrderPreservation.StepKeepsInv | moirae/core/lib/busses/command.bus.ts:62-90 | Every step of the order system keeps its invariant: books, streams, queues, registry and runs stay in agreement |
| OrderRuns.ReachableInv | moirae/core/lib/busses/command.bus.ts:62-90 | The invariant holds in every state that any list of steps reaches |
| OrderRuns.CompensationIsRegisteredFirst | moirae/core/lib/classes/saga.class.ts:71-85 | In every reachable state a RemoveInventory that is in an outbox, in the queue or running has its compensation in the registry: rolling back its correlation at that moment gives exactly one command, RollbackAccount for the account stream of its order |
| OrderRuns.OnlyOrdersAreRegistered | moirae/core/lib/classes/saga-manager.class.ts:47-56 | In every reachable state a correlation that is no order, or whose order was never issued, decodes to no rollback command; that includes the absent correlation |
| OrderRuns.OnlyRegisteredAreRolledBack | moirae/core/lib/classes/saga-manager.class.ts:47-56 | In every reachable state a pending rollback command is for an order whose rollback was registered, and is addressed to the account stream of that order |
| OrderPreservation.FinishCommandKeepsInv | moirae/core/lib/busses/command.bus.ts:73-90 | The end of a published command keeps the invariant: a removal that commits, one that throws and publishes the registered rollback, a rollback that commits, one that throws |
| OrderPreservation.SettleOrderKeepsInv | moirae/core/lib/busses/event.bus.ts:50-70 | Settling OrderCreated keeps the invariant: accepted, the rollback is registered and RemoveInventory issued; rejected, nothing is sent |
| OrderPreservation.SettleOtherKeepsInv | moirae/core/lib/busses/event.bus.ts:50-70 | Settling any other event keeps the invariant; rejected after registration, it sends the rollback under the correlation of the event |
| OrderPreservation.FinishOrderKeepsInv | demo/account/src/handlers/create-order.handler.ts:29-52 | A committed order keeps the invariant: order and payment enter the store together under one correlation |
| OrderPreservation.WorkerRollback | demo/account/src/handlers/rollback-account.handler.ts:15-22 | A rollback under way commits exactly the two compensating events of its order, refund first, unless the order is rolled back already, and then throws |
| OrderPreservation.UndoKeepsLog | moirae/core/lib/classes/aggregate-root.class.ts:160-175 | The two compensating events complete the account side of exactly one order |
| OrderPreservation.AccountPartIsOnStream | moirae/core/lib/classes/aggregate-root.class.ts:160-163 | What a rollback finds of its correlation on the account stream is everything the store holds of the account side of that order |
| OrderDrain.InternalStepsDrain | moirae/core/lib/busses/command.bus.ts:73-90 | Every step except a new request strictly lowers one measure of pending work, rejected deliveries and throwing rollbacks included |
| OrderDrain.DrainingIsBounded | moirae/core/lib/busses/command.bus.ts:73-90 | From any reachable state there are no more steps without new requests than the measure says |
| OrderDrain.StuckIsQuiescent | moirae/core/lib/publishers/memory.publisher.ts:25-49 | No internal step is enabled if and only if nothing is pending: the system cannot stop halfway |
| OrderDrain.QuiescenceIsReached | moirae/core/lib/busses/event.bus.ts:50-74 | From every reachable state a run without requests or rejections leads to quiescence |
| OrderDrain.RollbackDrains | moirae/core/lib/busses/command.bus.ts:80-85 | A failing rollback ends: one that CommandBus published carries no correlation, finds an empty registry and sends nothing; one that EventBus correlated sends at most one more without |
| OrderHistory.StepKeepsHistory | demo/account/src/handlers/create-account.handler.ts:17-33 | Every step keeps the order of events: an account is opened once, an inventory stream begins with its creation, order ids are new, only a created inventory is removed from |
| OrderHistory.ReachableHistory | demo/inventory/src/handlers/create-inventory.handler.ts:22-44 | Invariant and order of events hold in every reachable state |
| OrderOutcomes.RequestStarts | moirae/core/lib/busses/command.bus.ts:62-71 | In every reachable state a public request on an account that is no inventory id starts one run, with a correlation nothing carries yet, that has read the stream it is about, and for an order the row, as they are now; it stores nothing |
| OrderOutcomes.OpeningIsStored | demo/account/src/handlers/create-account.handler.ts:17-33 | In every reachable state the end of a CreateAccount run stores exactly one AccountCreated with its name and balance, and that is the balance |
| OrderOutcomes.DepositIsStored | demo/account/src/handlers/deposit-funds.handler.ts:16-27 | In every reachable state the end of a DepositFunds run stores exactly one FundsDeposited with its funds, on its account, under its correlation; an open balance rises by the funds |
| OrderOutcomes.WithdrawalIsStored | demo/account/src/handlers/withdraw-funds.handler.ts:18-31 | In every reachable state the end of a WithdrawFunds run stores the withdrawal if and only if the balance it read is undefined or covers it, and then the balance falls by it; otherwise it stores the failure |
| OrderOutcomes.InventoryIsStored | demo/inventory/src/handlers/create-inventory.handler.ts:22-44 | In every reachable state the end of a CreateInventory run stores exactly one InventoryCreated with its name, quantity and price on a stream of its own if and only if the name is free, otherwise the failure |
| OrderOutcomes.OrderIsStored | demo/account/src/handlers/create-order.handler.ts:22-53 | In every reachable state the end of a CreateOrder run stores order and payment, at the price in the row times the quantity, if and only if there was a row and the balance read is undefined or covers it; for want of funds it stores the failure, for want of the row nothing |
| OrderOutcomes.RemovalIsStored | demo/inventory/src/handlers/remove-inventory.handler.ts:17-30 | In every reachable state the end of RemoveInventory stores the removal if and only if opening less removals of what it read is enough; otherwise it stores nothing and sends exactly the rollback of its order |
| OrderOutcomes.RollbackIsStored | demo/account/src/handlers/rollback-account.handler.ts:15-22 | In every reachable state the end of RollbackAccount stores refund and withdrawal of its order, in this order, unless they are stored already; then nothing, and only a command that carries the correlation of the order sends the rollback once more |
| OrderOutcomes.PlacementIsIssued | moirae/core/lib/busses/event.bus.ts:50-70 | In every reachable state an accepted delivery of an order issues its RemoveInventory with inventory, id and quantity of the order, under its correlation; a rejected one issues nothing |
| OrderOutcomes.RejectionIsRolledBack | moirae/core/lib/busses/event.bus.ts:57-70 | In every reachable state a rejected delivery of any other event that has a handler sends the rollback of its order, under its correlation, if and only if the order was issued before; the three kinds of event without a handler send nothing |
| OrderSources.EveryEventIsSourced | moirae/core/lib/classes/aggregate-root.class.ts:92-106 | In every reachable state every stored event carries the data of a request of the run, or of a stored order: an inventory the name, quantity and price asked for, an order the account, inventory and quantity asked for and the cost at the price the inventory was created with, payments, removals and compensations what their order says |
| OrderReads.ReachableReads | moirae/core/lib/factories/aggregate.factory.ts:28-38 | In every reachable state every snapshot is a beginning of its stream, and every row, also as an order read it, shows the name and the price its inventory was created with |
| LiveOrders.OrdersAreUndropped | demo/account/src/aggregates/account.aggregate.ts:67-95 | In a history that keeps to the order of events the order list is exactly the orders created and not rolled back, in order of creation |
| LiveOrders.ListedIffNotRolledBack | demo/account/src/aggregates/account.aggregate.ts:67-95 | In reachable states an order is on the list of its account if and only if it was not rolled back, and no other order has its id |
| LiveOrders.PriorOrdersOfHistory | moirae/core/lib/classes/aggregate-root.class.ts:112-127 | On such a history, cut anywhere, the copy of getAggregatePriorTo shows the order list of the cut if and only if the account lists no order now |
| OrderLedger.LedgerConservation | demo/account/src/aggregates/account.aggregate.ts:34-95 | In every reachable state, mid-saga too, and for every account stream: there is a balance if and only if the account was opened; it is the opening balance plus deposits and direct withdrawals less the cost of exactly the orders listed, less what moved before the opening; so the books balance if and only if that sums to nothing |
| OrderLedger.GoodsConservation | demo/inventory/src/handlers/remove-inventory.handler.ts:17-30 | Once nothing is pending and no order is torn: opening quantity less current quantity of an inventory is the summed quantity of the orders of it that accounts list |
| OrderLedger.GoodsConservationWithoutRejections | demo/inventory/src/handlers/remove-inventory.handler.ts:17-30 | The same for every run without rejected deliveries, with no condition on the book |
| Totals.TotalsByCorrelation | moirae/core/lib/classes/aggregate-root.class.ts:160-163 | Two sums over a history are equal as soon as they are equal on every correlation by itself |
| OrderSolvency.SolventIffCovered | moirae/core/lib/busses/command.bus.ts:65-66 | In a run with correctly signed requests no balance and no quantity is ever negative if and only if every commit of a withdrawal, an order or a removal finds what it takes on the stream as it is then, whatever overlaps; rollbacks need nothing |
| OrderSolvency.SerialRunsAreCovered | demo/account/src/handlers/withdraw-funds.handler.ts:18-31 | Where no two commands on a stream overlap the checks of the handlers see to that |
| OrderSolvency.UndisturbedStaysSerial | moirae/core/lib/busses/command.bus.ts:62-71 | A serial run goes on serially with any correctly signed request, and any published command, that runs to its end before anything else happens |
| OrderSolvency.BalanceSolvency | demo/account/src/handlers/withdraw-funds.handler.ts:18-31 | With correctly signed requests and no two overlapping commands on a stream, a balance that an account replays to is at least zero after any commit, those of unchecked rollbacks included |
| OrderSolvency.QuantitySolvency | demo/inventory/src/handlers/remove-inventory.handler.ts:17-30 | Under the same conditions a quantity that an inventory replays to is at least zero |
| OrderSolvency.CostSolvency | demo/account/src/handlers/create-order.handler.ts:25-45 | Under the same conditions no listed order has a negative cost, so giving it back can only raise a balance |
| OrderSolvency.RollbackRunIsFine | demo/account/src/handlers/rollback-account.handler.ts:15-22 | A rollback checks nothing and still keeps a solvent stream solvent |
| OrderExamples.OverlappingWithdrawalsOverdraw | moirae/core/lib/busses/command.bus.ts:65-66 | Two withdrawals of 80 that both read a balance of 100 leave it at -60: local commands are not queued and the store checks no version |
| OrderReadSide.ReadSideConvergence | demo/inventory/src/handlers/inventory-removed.handler.ts:15-21 | Whenever no event of a created inventory is queued or in delivery, and its latest delivery was not rejected, its row shows the name and the price of its creation and the quantity its whole stream leaves |
| OrderReadSide.RowsAgreeWithOrders | demo/inventory/src/handlers/inventory-removed.handler.ts:15-21 | In a run without rejected deliveries, once nothing is pending, a row shows name and price of the creation and the opening quantity less the quantities of the orders that accounts list |
| OrderReadSide.StepConverges | moirae/core/lib/stores/memory.store.ts:24-34 | Every step keeps it that a row is current, or a delivery under way has read everything, or another event is queued, or the last delivery was rejected |
| Aggregates.AggregateRoot.Apply | moirae/core/lib/classes/aggregate-root.class.ts:68-80 | A rejected event leaves the aggregate as it was; an accepted one moves state and history together; only an event from history moves the committed index; the uncommitted view grows by exactly the new event |
| Aggregates.AggregateRoot.SetCommitFunction | moirae/core/lib/classes/aggregate-root.class.ts:177-180 | Only the first commit function is accepted |
| Aggregates.AggregateRoot.StampUncommitted | moirae/core/lib/classes/aggregate-root.class.ts:92-106 | Without a commit function nothing happens; otherwise exactly the uncommitted events, stamped where they had no correlation, are handed over and the index stays where it was |
| Aggregates.AggregateRoot.RollbackCorrelation | moirae/core/lib/classes/aggregate-root.class.ts:160-175 | A missing rollback method leaves the aggregate untouched; otherwise the compensating events of the correlation are applied newest first, and a throw midway leaves exactly those before it applied |
| Aggregates.AggregateRoot.GetAggregatePriorTo | moirae/core/lib/classes/aggregate-root.class.ts:112-127 | Stops after as many iterations as the first index of the event, although the shared history grows while it is scanned; the copy is the replay of that prefix from the current fields; the prefix is appended to the history and to the uncommitted view of the original, and what is pushed onto an array the two share stays there |
| Aggregates.OverwrittenPartIsReplayed | moirae/core/lib/classes/aggregate-root.class.ts:112-127 | Any part of the state that some prefix event overwrites has, in the copy, its value from replaying the prefix, whatever accumulates on it afterwards |
| Aggregates.CompensateShape | moirae/core/lib/classes/aggregate-root.class.ts:160-175 | Compensation fails exactly when some event of the correlation has no rollback method; otherwise there is one compensating event for each, in reverse order, under the same correlation |
| Aggregates.SecondRollbackThrows | moirae/core/lib/classes/aggregate-root.class.ts:160-175 | After a rollback that did something the same rollback throws |
| Aggregates.RollbackIsIdempotent | moirae/core/lib/classes/aggregate-root.class.ts:160-175 | Any positive number of deliveries of one rollback has the effect of the first, for every aggregate whose compensating events have no rollback method |
| Accounts.CompensationIsErasure | moirae/core/lib/classes/aggregate-root.class.ts:160-175 | For every account history, whatever is interleaved: rolling a correlation back succeeds if and only if each of its events is a withdrawal or an order; then the balance is that of the history with the correlation deleted if and only if the account was never opened or the correlation withdrew nothing before a later opening, and the order list if and only if no surviving order reuses one of its ids |
| Accounts.CompensationErasesWellFormed | demo/account/src/aggregates/account.aggregate.ts:34-95 | On histories with one opening at the head and unique order ids compensation equals erasure outright, for balance and order list |
| Accounts.CompensationFolds | demo/account/src/aggregates/account.aggregate.ts:53-95 | A rollback gives back exactly what the correlation withdrew and drops exactly its orders |
| Accounts.ReplayIsFolds | demo/account/src/aggregates/account.aggregate.ts:34-95 | Where an account replays, its balance and order list are two folds of their own over the stream |
| Accounts.RollbackSucceeds | demo/account/src/aggregates/account.aggregate.ts:53-90 | An account rollback succeeds if and only if every event of the correlation is a withdrawal or an order |
| Accounts.OrdersSetOnceOrdered | demo/account/src/aggregates/account.aggregate.ts:67-95 | The order list is defined once an order was created, so rolling an order back never throws |
| Accounts.PriorCopyIsPriorState | moirae/core/lib/classes/aggregate-root.class.ts:112-127 | The copy against the state before the event, for every account and every prefix: same name if and only if the current one is unset or the prefix opens the account; same balance if and only if the current one is undefined or the prefix opens the account; same order list if and only if the prefix rolls back every order listed now |
| Accounts.OriginalIsKept | demo/account/src/aggregates/account.aggregate.ts:67-81 | The replay leaves the original account as it was if and only if it has no order list yet or the prefix places no order before it rolls one back |
| Accounts.AccountAggregate.Handle | demo/account/src/aggregates/account.aggregate.ts:34-101 | The dispatched method updates the fields as the table entry says; a created order is pushed onto the array at hand, a rolled-back one makes a new array, everything else leaves the array alone |
| Accounts.AccountAggregate.Load | moirae/core/lib/factories/aggregate.factory.ts:32-34 | Handling the events of a stream one by one on a new account object gives the replayed state, or the first throw |
| Accounts.AccountAggregate.ReplayOnCopy | moirae/core/lib/classes/aggregate-root.class.ts:115-126 | On objects: the copy starts with the fields and the very order array of the original; the original keeps its fields but for the orders pushed onto that array before a rolled-back order gives the copy one of its own |
| Inventories.InventoryAggregate.Load | moirae/core/lib/factories/aggregate.factory.ts:32-34 | Handling the events of a stream one by one on a new inventory object gives the replayed state, or the first throw |
| Inventories.QuantityOfStream | demo/inventory/src/aggregates/inventory.aggregate.ts:31-43 | A stream that starts with its creation and is not created again replays to the opening quantity less everything removed |
| EventStore.MemoryStore.AppendToStream | moirae/core/lib/stores/memory.store.ts:24-34 | Every event is filed under the stream it names and then published, one after the other |
| EventStore.MemoryStore.ReadFromStream | moirae/core/lib/stores/memory.store.ts:41-43 | The events of the stream, or none |
| EventStore.LoadAfterAppend | moirae/core/lib/stores/memory.store.ts:24-43 | Reading a stream after an append gives what it held followed by exactly the appended events that name it |
| EventStore.AggregateFactory.MergeContext | moirae/core/lib/factories/aggregate.factory.ts:28-38 | The aggregate is the replay of its stream, has nothing uncommitted and may commit; an event that does not apply throws |
| EventStore.AggregateFactory.Commit | moirae/core/lib/factories/aggregate.factory.ts:16-18 | Files and publishes exactly the stamped uncommitted events |
| EventStore.CommitRepeatedly | moirae/core/lib/classes/aggregate-root.class.ts:92-106 | Committing one aggregate under one command after the other hands over everything uncommitted each time, because the committed index never moves |
| EventStore.FirstCorrelationStays | moirae/core/lib/classes/aggregate-root.class.ts:95-98 | An event keeps the first correlation that any of the commands brings; without one it stays without |
| EventStore.ReloadAfterCommits | moirae/core/lib/classes/aggregate-root.class.ts:92-106 | Reloading after commits under a list of commands gives the in-memory history if and only if the list has one command or nothing was uncommitted; other streams are untouched whatever the list is |
| Decisions.RollbacksAreIdempotent | demo/account/src/handlers/rollback-account.handler.ts:15-22 | However often RollbackAccount is delivered for a correlation, under whatever correlations of its own, the stream is what the first run made it |
| Decisions.LaterRollbackThrows | demo/account/src/handlers/rollback-account.handler.ts:15-22 | After a RollbackAccount that committed something every later one for the correlation throws |
| CommandHandlers.CreateAccountHandler.Execute | demo/account/src/handlers/create-account.handler.ts:17-33 | On a stream that replays stores and publishes exactly one opening with name and balance; otherwise throws and changes nothing |
| CommandHandlers.DepositFundsHandler.Execute | demo/account/src/handlers/deposit-funds.handler.ts:16-27 | On a stream that replays stores and publishes exactly one deposit of the funds, whatever the balance; otherwise throws and changes nothing |
| CommandHandlers.WithdrawFundsHandler.Execute | demo/account/src/handlers/withdraw-funds.handler.ts:18-31 | Stores and publishes the withdrawal if and only if the stream replays and its balance is undefined or covers it; an overdraft stores nothing and throws the exception whose filter reports it |
| CommandHandlers.CreateOrderHandler.Execute | demo/account/src/handlers/create-order.handler.ts:22-53 | Stores and publishes order and payment together, or neither; an unknown inventory throws, an overdraft throws the exception whose filter reports it |
| CommandHandlers.CreateOrderHandler.Place | demo/account/src/handlers/create-order.handler.ts:41-52 | The check between the two applications leaves both uncommitted when it throws |
| CommandHandlers.RemoveInventoryHandler.Execute | demo/inventory/src/handlers/remove-inventory.handler.ts:17-30 | Stores and publishes the removal unless it would leave a negative quantity; then throws and changes nothing |
| CommandHandlers.CreateInventoryHandler.Execute | demo/inventory/src/handlers/create-inventory.handler.ts:22-44 | Stores and publishes the creation unless the name is taken; then throws the exception whose filter reports it |
| CommandHandlers.RollbackAccountHandler.Execute | demo/account/src/handlers/rollback-account.handler.ts:15-22 | Stores and publishes all compensating events of the correlation or none |
| CommandHandlers.InventoryProjectionHandler.Execute | demo/inventory/src/handlers/inventory-removed.handler.ts:15-21 | Overwrites the row with name, price and remaining quantity of the stream; rejects where a column would be empty |
| Buses.CommandBus.RunHandler | moirae/core/lib/classes/base.bus.ts:35-52 | Runs the handler of the command; a throw becomes the result and leaves store and publisher as they were |
| Buses.CommandBus.ExecuteLocal | moirae/core/lib/busses/command.bus.ts:73-90 | Carries out the decision of the handler; a throw publishes exactly the registered rollback commands, then what the filter reports |
| Buses.CommandBus.Execute | moirae/core/lib/busses/command.bus.ts:62-71 | Makes up missing ids; a command of a local domain runs at once, any other is published and nothing else changes |
| Buses.CommandBus.CatchError | demo/account/src/filters/invalid-withdrawl-amount.filter.ts:12-20 | Stores and publishes the failure event of the exception, or nothing where no filter is registered |
| Buses.EventBus.ExecuteLocal | moirae/core/lib/busses/event.bus.ts:50-70 | Rows, registry and published commands are those of the settling step: the rollbacks of the correlation if a handler rejected, otherwise the commands of the saga, all correlated with the event |
| Buses.HandlePublished | moirae/core/lib/busses/command.bus.ts:73-90 | A call of executeLocal on a store that holds the log makes of store and publishers what taking the published command and finishing it undisturbed makes of the order system |
| Buses.HandleRequest | moirae/core/lib/busses/command.bus.ts:62-71 | A call of execute without ids makes of store and publishers what a request and its undisturbed end make of the order system, and hands out the ids of that request |
| Buses.HandleEvent | moirae/core/lib/busses/event.bus.ts:50-70 | A call of the event bus makes of rows, registry and publisher what taking the event and settling it undisturbed makes of the order system; what it publishes is the outbox |
| Sagas.RegisteredBeforeHandedOut | moirae/core/lib/classes/saga.class.ts:71-85 | For every saga and event: each command handed out comes from a step whose rollback is registered for the stream of the event under its correlation by then, and nothing registered earlier is lost |
| Sagas.EverythingHandedOut | moirae/core/lib/classes/saga.class.ts:71-85 | For every saga and event the commands handed out are exactly those of the handling steps, in their order |
| Sagas.NothingElseRegistered | moirae/core/lib/classes/saga.class.ts:76-81 | For every saga and event exactly the rollbacks of handling steps that produced commands are registered, under the correlation of the event for its stream |
| Sagas.RegistryRoundTrip | moirae/core/lib/classes/saga-manager.class.ts:47-56 | However often pairs were registered and for whichever correlations, a correlation decodes to each of its own pairs exactly once and to nothing else, given colon-free stream ids |
| Sagas.EntryRoundTrip | moirae/core/lib/classes/saga-manager.class.ts:52-53 | A registry entry decodes to what was registered if and only if the stream id has no colon; otherwise to the part before the first one |
| Sagas.SetKeysDiffer | moirae/core/lib/classes/saga.class.ts:59-62 | Two correlations share a registry set if and only if they print alike, which an absent one does with the text undefined |
| Sagas.ProcessOrderStep | demo/saga/src/sagas/process-order.saga.ts:9-18 | Of all events only OrderCreated makes the saga register RollbackAccount and issue RemoveInventory for the inventory, id and quantity of the order |
| Sagas.Saga.StoreRollbackCommand | moirae/core/lib/classes/saga.class.ts:53-63 | Adds one entry to the set of the correlation |
| Sagas.Saga.ProcessEvent | moirae/core/lib/classes/saga.class.ts:71-85 | Registers and collects step by step what the specification says |
| Sagas.SagaManager.AddSaga | moirae/core/lib/classes/saga-manager.class.ts:26-28 | Appends the saga; all sagas keep sharing one cache |
| Sagas.SagaManager.ApplyEventToSagas | moirae/core/lib/classes/saga-manager.class.ts:30-34 | The commands of all sagas in order, with everything registered |
| Sagas.SagaManager.RollbackSagas | moirae/core/lib/classes/saga-manager.class.ts:47-56 | One rollback command for each entry, without a correlation of its own |
| Reservation.NamesAreUnique | demo/inventory/src/handlers/create-inventory.handler.ts:22-44 | In every interleaving of any number of runs and deliveries, with crashes between any two steps and redelivered events, no name is committed twice |
| Reservation.FreeNameIsCreated | demo/inventory/src/handlers/create-inventory.handler.ts:36-43 | From every reachable state a request for a name that no run ever reserved and no row has, run to its end, commits exactly that name on its stream |
| Reservation.FreeNameIsObtained | moirae/core/lib/classes/aggregate-root.class.ts:145-153 | In every reachable state the run that reserves next obtains the name if and only if it is not reserved, in particular if no run ever obtained it |
| Reservation.RunAlone | demo/inventory/src/handlers/create-inventory.handler.ts:36-43 | A run from start to end with nothing in between commits its name if and only if it is neither reserved nor projected, and then leaves exactly that name reserved in addition; otherwise it is refused and every reservation is as before |
| Reservation.ExecuteAlone | demo/inventory/src/handlers/create-inventory.handler.ts:36-43 | A call of the handler object makes of cache, rows and store what those steps make of the shared state |
| Reservation.DeliveryAlone | demo/inventory/src/handlers/inventory-created.handler.ts:15-22 | A full delivery with nothing in between saves the name of its event as the row of its stream and gives exactly that name back |
| Reservation.OneHolderUntilProjected | moirae/core/lib/classes/aggregate-root.class.ts:145-153 | Until a projection row for the name exists at most one run has ever obtained its reservation, and the name is still reserved |
| Reservation.NoReservationLeaks | demo/inventory/src/handlers/inventory-created.handler.ts:15-22 | Without crashes, once every run has ended and every event was fully delivered, no name is left reserved |
| Reservation.StepKeepsInv | demo/inventory/src/handlers/create-inventory.handler.ts:36-43 | Every step of the protocol keeps the invariant behind the two uniqueness results |
| Reservation.CreateInventoryHandler.Execute | demo/inventory/src/handlers/create-inventory.handler.ts:36-43 | Run alone: commits and keeps the reservation exactly when the name was neither reserved nor projected; gives a reservation it took back when the row exists |
| Reservation.CreateInventoryHandler.Project | demo/inventory/src/handlers/inventory-created.handler.ts:15-22 | Saves the row first and releases the reservation after |
| Reservation.ReserveEffect | moirae/core/lib/classes/aggregate-root.class.ts:145-153 | Reserving succeeds if and only if the value was free, and leaves it reserved either way |
| Reservation.ReleaseEffect | moirae/core/lib/classes/aggregate-root.class.ts:132-140 | Releasing frees exactly the one value |
| Delivery.DeliveryGuarantee | moirae/core/lib/publishers/memory.publisher.ts:25-49 | A bootstrapped publisher delivers single flight, in order, exactly once and without stalling in every run, re-entrant publications included, if and only if it has exactly one worker and nothing was published before that worker subscribed |
| Delivery.RunsKeepOneWorker | moirae/core/lib/classes/base.publisher.ts:138-157 | In every run with one worker what was published is what was acknowledged, then the item in flight, then the queue; at most one is in flight; idle means empty |
| Delivery.EverythingIsDelivered | moirae/core/lib/classes/base.publisher.ts:74-77 | With one worker whose handler settles everything published is acknowledged after as many acknowledgements as there are items |
| Delivery.LateWorkerStarves | moirae/core/lib/publishers/memory.publisher.ts:46-49 | A worker that subscribes after a publication is never served |
| Delivery.PublishAllIsRun | moirae/core/lib/classes/base.publisher.ts:127-131 | Publishing a list keeps the guarantee and appends exactly the list to what was published |
| Delivery.MemoryPublisher.Bootstrap | moirae/core/lib/classes/base.publisher.ts:118-122 | Starts with an empty queue and idle |
| Delivery.Drive | moirae/core/lib/publishers/memory.publisher.ts:25-49 | A publisher object with one worker, which sees only the items its handler is called with, hands it every published item once and in order for every list of acts: what it handled and the item it works on are what was handed out, the rest is queued, and it rests only when nothing is |
| Delivery.MemoryPublisher.AdvanceBus | moirae/core/lib/publishers/memory.publisher.ts:25-36 | Hands out the head of the queue if and only if there is one, there is a subscription and the publisher is idle |
| Delivery.MemoryPublisher.PublishItem | moirae/core/lib/publishers/memory.publisher.ts:46-49 | Enqueues; hands the item out at once if and only if the queue was empty, there is a subscription and the publisher was idle |
| Delivery.MemoryPublisher.AcknowledgeEvent | moirae/core/lib/classes/base.publisher.ts:74-77 | Back to idle; hands out the next item if and only if there is one and a subscription |
| LinkedQueue.Queue.Enqueue | moirae/core/lib/classes/queue.class.ts:45-58 | The chain of keys gains the item at its end |
| LinkedQueue.Queue.Dequeue | moirae/core/lib/classes/queue.class.ts:32-40 | Gives the first item and leaves the rest, or nothing when empty |
| LinkedQueue.Queue.Clear | moirae/core/lib/classes/queue.class.ts:24-27 | Empties the queue; the first key it leaves behind is harmless |
| LinkedQueue.ChainCoversMap | moirae/core/lib/classes/queue.class.ts:12-19 | The chain from first to last key meets every entry of the map exactly once |
| LinkedQueue.Drive | moirae/core/lib/classes/queue.class.ts:12-63 | The linked map driven through any sequence of operations gives out and keeps what the trace says; without clear what came out followed by what is in is what went in |
| LinkedQueue.ClearStartsOver | moirae/core/lib/classes/queue.class.ts:24-27 | After a clear the queue behaves like a new one for every continuation, and what came out stays out |
| AsyncMaps.NoLostResponse | moirae/core/lib/classes/async-map.class.ts:46-87 | In every interleaving a waiter still subscribed has missed nothing, and what a waiter returned did arrive under its key |
| AsyncMaps.AwaitResponseReturns | moirae/core/lib/classes/base.publisher.ts:79-85 | Once a response has arrived and the wait has not timed out, the two remaining steps of awaitResponse return one stored under the key, with the key out of the map and no listener on the emitter but those of waiters that still wait |
| AsyncMaps.RunsKeepListening | moirae/core/lib/classes/async-map.class.ts:69-87 | In every interleaving the listeners on the emitter and the live subscriptions are those of the waiters still subscribed, each once |
| AsyncMaps.AsyncMap.Set | moirae/core/lib/classes/async-map.class.ts:46-50 | Stores, then calls every listener of the distributor; the one that waits for the key unsubscribes and resolves |
| Emitters.SubscriptionAgreement | moirae/core/lib/classes/distributor.class.ts:26-58 | Over every run, with repeated handlers, the listeners of a distributor are as a multiset its live subscriptions plus exactly those dropped by clear |
| Emitters.DistributorsAreIsolated | moirae/core/lib/classes/distributor.class.ts:18-20 | A distributor cannot tell whether others share its emitter |
| Emitters.PerformOn | moirae/core/lib/classes/distributor.class.ts:26-58 | An operation on a distributor object moves the listeners of its channel and its own subscriptions as the step of the run says |
| Emitters.Distributor.Subscribe | moirae/core/lib/classes/distributor.class.ts:36-41 | Adds one listener and one live subscription under a new key |
| Emitters.Distributor.Unsubscribe | moirae/core/lib/classes/distributor.class.ts:53-58 | Removes one listener of the handler and the subscription, or nothing for an unknown key |
| Emitters.Distributor.Clear | moirae/core/lib/classes/distributor.class.ts:29-31 | Forgets the subscriptions and leaves every listener in place |
| Caches.RelationalCacheRefinesMemory | moirae/typeorm/lib/caches/typeorm.cache.ts:27-93 | For every sequence of set and key operations the relational cache gives the same answers as the map of sets, and its tables stay in order |
| Caches.AnswersFollowTrace | moirae/core/lib/caches/memory.cache.ts:16-51 | After any trace both caches answer by the trace alone: an added value is new and a removed one was there if and only if the last operation on it put it there, a set reads as exactly those values, a key as the text last set and not dropped |
| Caches.StepRefines | moirae/typeorm/lib/caches/typeorm.cache.ts:41-93 | One operation: equal answers, and the two caches still hold the same |
| Caches.TableInvariantKept | moirae/typeorm/lib/caches/typeorm.cache.ts:41-87 | Every operation keeps it that no value is stored twice for a set and every value row has its root |
| Caches.TypeORMCache.HandleAddToSet | moirae/typeorm/lib/caches/typeorm.cache.ts:41-59 | Adds the value row, with its root if it is the first, unless the value is there |
| Caches.TypeORMCache.HandleRemoveFromSet | moirae/typeorm/lib/caches/typeorm.cache.ts:76-87 | Removes the one row of the value, if there is one |
| Caches.TypeORMCache.HandleReadFromSet | moirae/typeorm/lib/caches/typeorm.cache.ts:68-74 | Each value of the set once |
| Caches.MemoryCache.HandleAddToSet | moirae/core/lib/caches/memory.cache.ts:26-31 | Adds the value; true if it is new |
| Caches.MemoryCache.HandleRemoveFromSet | moirae/core/lib/caches/memory.cache.ts:41-46 | Removes the value; true if it was there |
| Caches.MemoryCache.HandleReadFromSet | moirae/core/lib/caches/memory.cache.ts:37-39 | The values of the set, none for an unknown key |

## Left out

- Sagas.SagaManager.RollbackSagas: every rollback command is RollbackAccount; the class that the registered name would select from the constructor storage is not modelled, because the demo registers no other.
- CommandHandlers.CreateInventoryHandler.Execute: takes the outcome of the reservation as given; `Reservation` proves the protocol itself, on values, with names in place of their digests.
- Buses.EventBus.ExecuteLocal: whether a projection handler of an account or an order rejects is an input, because their rows and the listeners told afterwards are not modelled; the release of the name is modelled in `Reservation`.
- Aggregates.AggregateRoot.StampUncommitted: `$metadata` is not modelled, so its merge into the events is not either.
- Aggregates.AggregateRoot.RollbackCorrelation: rollback methods read nothing but the event. The demo has no other; one that asks for the prior state, as `moirae/core/testing-classes/test.aggregate.ts:40-48` does, also leaves the replayed prefix in the uncommitted view, by the contract of `GetAggregatePriorTo`, and the commit stores it again.
- EventStore.CommitRepeatedly: stored events are values. In the in-memory store they are the objects of the aggregate, so a later commit that brings the first correlation also stamps the copies stored before.
- Buses.HandleRequest: a request with more than the declared fields is not modelled. The gateway keeps extra fields, and `demo/account/src/handlers/create-order.handler.ts:35-39` spreads them over cost and id.
- Wall-clock fields, logging and floating-point rounding.
- Timeouts: a waiter may give up at any time instead of after five seconds.
- RabbitMQ, Redis and database internals; commands of domains hosted elsewhere, beyond their publication; several workers on one queue.
- A command or query without a handler throws outside the try block and is never acknowledged (`moirae/core/lib/classes/base.bus.ts:39-43`); every modelled command has its handler.
- CreateOrder reads the projection row and the stream in one step of the order system. A row never changes its price and is never deleted, so an earlier read of the row decides alike, or throws as the model's run does that starts earlier.
- A published command that throws reads the registry and publishes its rollbacks in the step that ends it. Settling an event saves the row and registers the rollback in one step; the read comes earlier, each publication later, as steps of their own.
- Account and order rows, which no decision reads; account rows are not refreshed after a rollback because that handler is not registered (`demo/account/src/account.module.ts:25-37`).
- NestJS wiring, decorators, explorer, gateway, WebSockets, class-transformer, state observers and shutdown.
