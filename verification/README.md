# Inventory ledger verification

A Dafny model of the warehouse-management API under `apps/api`, with proofs of the properties that no single function
of it states.

- **Stock ledger** (`Ledger`, `LedgerSteps`, `LedgerService`, and the proof modules up to `LedgerRuns`). Three services
  share the inventory table: stock movements, sales orders with reservations, purchase orders. `LedgerSteps` gives every
  Serializable transaction as one atomic step over the tables, rejections included; `LedgerService.Database` is the same
  services as methods over a mutable database, loop by loop, and each method is proved to have exactly the outcome of its
  step. The laws in `LedgerRuns` hold over every history from an empty ledger in which each call is one step, those that
  run without a transaction included. `SplitCalls` then takes the latter apart into the reads and the write that they
  really are: the item calls, the create calls, setReorderPoint and the warehouse update. `SplitLaws` says which laws late
  writes break and when exactly a history keeps them, and `SplitRuns` holds the runs that lose them.
- **Answers** (`StockAnswers`, `SalesAnswers`, `PurchaseAnswers`, with `RequestLines`; `OutboxAnswers`, `CsvAnswers`,
  `DataJobAnswers`, `ReportAnswers`): for each call, when exactly it succeeds, which error it gives otherwise, and what it
  leaves behind. They say it of rows, cells and columns, not by way of the functions that compute it.
- **Outbox protocol** (`Outbox`, `OutboxSafety`, `OutboxTheorems`, `OutboxDelivery`, `OutboxWorker`). Workers claim rows
  under expiring locks, read recipients, insert notifications, complete, retry or dead-letter, and crash or lose answers
  anywhere. `OutboxWorker` is the worker's own code, with the others running between any two of its statements.
- **Refresh-token families** (`RefreshSessions`, `RefreshSafety`, `AuthService`): the rotation of section 4.14.2 of RFC
  9700, a read step and a commit step with everything else in between.
- **Product import and data jobs** (`ProductCsv`, `ProductImport`, `DataJobs`, `DataJobSafety`,
  `DataJobFinality`, `DataJobWorker`).
- **Reports** (`Reports`) over the same ledger, and the **quantity grammar** (`Quantity`) that makes quantities integers
  in thousandths below 10^18. `Sums` holds the theory of finite sums that all of these use.

`dafny verify dfyconfig.toml` checks everything.

## Assumptions

- A Serializable transaction is one atomic step; an aborted one has no effect. Each statement outside a transaction, and
  each claim statement, is one atomic step, with the exception of the family revocation (see below). A statement takes
  effect before its caller goes on.
- `@@unique` constraints, foreign keys and the column limit are those of the schema; breaking one aborts the transaction.
- Random ids do not repeat. Clocks are parameters and need not agree between servers.
- `maxAttempts`, the lock timeout and the batch size are positive and the same for all workers.
- Request lists are non-empty, as the request validation demands.

## Where the code falls short of the simple law

- removeItem checks for DRAFT and deletes later. A delete that arrives after a reservation strands the reserved stock:
  `SplitRuns.EqualityCanBeLost` is such a run, and `SplitLaws.BalancedIffNothingStranded` says exactly when it happens.
  Bounds, conservation, events and the dead reservation branches survive (`SplitCalls.SplitLaw`).
- The same gap lets a late add or a late delete contradict the status of a sales or purchase order
  (`SplitRuns.StatusCanBeLost`, `SplitRuns.PurchaseStatusCanBeLost`), and lets a deactivation or a new order leave an
  inactive warehouse in use, whose orders are then refused (`SplitRuns.WarehouseLawCanBeLost`). `SplitLaws.LawExactly` and
  `SplitLaws.AllLawsExactly` say that a history keeps the laws throughout exactly without such writes, and
  `SplitLaws.OnlyStaleWritesBreak` that reading again inside the write would have prevented every one of them.
- Reserve accepts orders in RESERVED, where it can only reject (`OrderStatus.ReservedOrderRejects`).
- A family revocation is a single UPDATE, but not inside a Serializable transaction: it works on the rows that existed
  when it began. If a rotation of the family commits meanwhile, the new session survives
  (`RefreshSafety.SurvivingFamily`); `RefreshSafety.RevocationWindow` gives the exact condition. With the statement atomic
  the family is dead for good (`RefreshSafety.ReplayLaw`, `RefreshSafety.DeadForGood`).
- A data job is completed by id alone, so a worker that has lost its lock can still turn FAILED into SUCCEEDED
  (`DataJobFinality.LateSuccess`), and complete a completed import once more, with a new completion time and a second audit
  row (`DataJobFinality.CompletedTwice`). A finished job never reopens, and a completed import keeps everything but its
  completion time (`DataJobSafety.TerminalForGood`). `DataJobFinality.FinalExactly` and `DataJobFinality.EndFinalExactly`
  say exactly when its row and its status are final.
- An outbox row whose last attempt ends in a crash stays PROCESSING for ever (`OutboxTheorems.StuckInProcessing` is such a
  run); `OutboxTheorems.StuckExactly` characterizes the rows that can never move.

## Model

| member | source | states |
|---|---|---|
| LedgerRuns.ReservationLaw | apps/api/src/sales-orders/sales-orders.service.ts:749-797 | After any history from an empty ledger: 0 <= reserved <= quantity < 10^18 on every inventory row, and reserved stock at each warehouse and product equals what all sales order items there hold (a missing row counts as 0) |
| LedgerRuns.ReservationBranchesDead | apps/api/src/sales-orders/sales-orders.service.ts:1021-1032 | In no reachable state does fulfill or cancel end in "reservation is missing" or "is inconsistent", not even in mid-loop |
| LedgerRuns.NeverInconsistent | apps/api/src/sales-orders/sales-orders.service.ts:1273-1281 | The weaker premise those branches need: row bounds, and reserved stock at least what items hold |
| LedgerRuns.StockLaw | apps/api/src/inventory/inventory.service.ts:176-215 | Each row is the sum of its movement deltas; per product, on-hand = purchased + manual receipts + adjustments + manual issues (negative) - sold, transfers cancelling |
| LedgerRuns.OrderLaw | apps/api/src/sales-orders/sales-orders.service.ts:684-723 | Every stored status, sales and purchase, fits the item quantities; reserved + fulfilled <= ordered; fulfilled and received equal the sums of their document lines; received <= ordered |
| LedgerRuns.EventLaw | apps/api/src/sales-orders/sales-orders.service.ts:815-865 | The status of every order is the one in the payload of its latest outbox event, DRAFT if it has none |
| LedgerRuns.WarehouseLaw | apps/api/src/warehouses/warehouses.service.ts:110-185 | An inactive warehouse has no stock and only finished orders; the inactive-warehouse branches of confirm, reserve, fulfill, submit and receive never fire |
| LedgerRuns.RunRank | apps/api/src/sales-orders/sales-orders.service.ts:980-985 | Over any history the status of a sales order never falls back in rank |
| LedgerRuns.BoundedWork | apps/api/src/sales-orders/sales-orders.service.ts:705-723 | From CONFIRMED on, at most 2 x total ordered (thousandths) reserve and fulfill calls on one order can succeed |
| LedgerRuns.RunSpends | apps/api/src/sales-orders/sales-orders.service.ts:770-795 | The work left on an order, 2 x ordered - reserved - 2 x fulfilled summed, stays non-negative and falls with every successful reserve or fulfill, over any history |
| LedgerRuns.StepInv | apps/api/src/sales-orders/sales-orders.service.ts:644-882 | One transaction, committed or rejected, keeps all laws together |
| ReservationProofs.ReserveLinesKeep | apps/api/src/sales-orders/sales-orders.service.ts:749-797 | The reserve loop moves the same amount into stock and items: bounds are kept and unaccounted reserved stock does not change |
| ReservationProofs.ReserveLinesEffect | apps/api/src/sales-orders/sales-orders.service.ts:782-796 | A successful reservation raises each item by exactly its requested quantity and touches nothing but reservations |
| ReservationProofs.ReserveDecidedUpFront | apps/api/src/sales-orders/sales-orders.service.ts:735-768 | With distinct lines and one item per product, the loop with fresh reads succeeds if and only if the rows read once before it suffice; it fails only with insufficient stock |
| ReservationProofs.FulfillLinesKeep | apps/api/src/sales-orders/sales-orders.service.ts:1034-1101 | The fulfill loop keeps bounds and unaccounted reserved stock |
| ReservationProofs.FulfillLinesEffect | apps/api/src/sales-orders/sales-orders.service.ts:1054-1068 | A successful fulfillment moves exactly the requested quantity of each item from reserved to fulfilled |
| ReservationProofs.FulfillNeverInconsistent | apps/api/src/sales-orders/sales-orders.service.ts:1004-1032 | Where no reserved stock is missing, the loop of a validated fulfillment always commits: neither defensive branch fires, in mid-loop either |
| ReservationProofs.CancelNeverInconsistent | apps/api/src/sales-orders/sales-orders.service.ts:1258-1281 | Cancelling an order with a status that allows it always finds the reservations it must give back |
| ReservationProofs.ReleaseAllKeepsLeak | apps/api/src/sales-orders/sales-orders.service.ts:1283-1308 | Cancelling returns to stock exactly what the items gave up, at every key |
| ReservationProofs.ValidLinesBelong | apps/api/src/sales-orders/sales-orders.service.ts:705-733 | Lines that pass the validation of a reservation name existing items of that very order |
| StepSoundness.StepAccounted | apps/api/src/inventory/inventory.service.ts:123-808 | Any transaction keeps the row and item bounds and the schema, and changes unaccounted reserved stock at a key by exactly what a deleted item held there |
| StepSoundness.DeleteSalesItemEffect | apps/api/src/sales-orders/sales-orders.service.ts:480-491 | Deleting an item strands precisely the quantity it held |
| StepSoundness.TransferKeeps | apps/api/src/inventory/inventory.service.ts:603-808 | A transfer keeps every bound at both warehouses and every reservation |
| StepSoundness.MoveStockKeeps | apps/api/src/inventory/inventory.service.ts:325-347 | A movement that leaves quantity >= reserved keeps all bounds and reservations |
| StockConservation.StepConserves | apps/api/src/inventory/inventory.service.ts:176-215 | Every transaction keeps: rows explained by movements, received by receipt lines, fulfilled by fulfillment lines, transfers cancelling |
| StockConservation.HistoriesPartition | apps/api/src/inventory/inventory.service.ts:340-364 | The movements of a product split without remainder into receipts by purchase, manual receipts, adjustments, manual issues, issues by sale and transfers |
| StockConservation.TransferConserves | apps/api/src/inventory/inventory.service.ts:689-763 | A transfer keeps conservation, its two movements cancelling, and leaves the on-hand total of every product alone |
| StockConservation.ReceiveLinesConserve | apps/api/src/purchase-orders/purchase-orders.service.ts:775-849 | The receive loop adds the same quantity to item, stock, receipt line and movement |
| StockConservation.FulfillLinesConserve | apps/api/src/sales-orders/sales-orders.service.ts:1034-1101 | The fulfill loop takes the same quantity from stock as it adds to items, fulfillment lines and issue movements |
| OrderStatus.StepSalesFits | apps/api/src/sales-orders/sales-orders.service.ts:1367-1391 | Every transaction leaves each sales order in the one status its quantities call for |
| OrderStatus.ReserveFits | apps/api/src/sales-orders/sales-orders.service.ts:799-812 | The status written after a reservation is RESERVED or PARTIALLY_RESERVED (or stays PARTIALLY_FULFILLED) as the items say, and other orders keep theirs |
| OrderStatus.FulfillFits | apps/api/src/sales-orders/sales-orders.service.ts:1103-1121 | FULFILLED is written exactly when everything is fulfilled, and then nothing is reserved |
| OrderStatus.CancelFits | apps/api/src/sales-orders/sales-orders.service.ts:1245-1308 | A cancelled order has nothing reserved or fulfilled |
| OrderStatus.StepPurchasesFit | apps/api/src/purchase-orders/purchase-orders.service.ts:851-881 | Every transaction leaves each purchase order in the status its received quantities call for, with receivedAt set exactly when RECEIVED |
| OrderStatus.ReceiveFits | apps/api/src/purchase-orders/purchase-orders.service.ts:863-881 | RECEIVED is written exactly when every item is fully received, otherwise PARTIALLY_RECEIVED with something received |
| OrderStatus.ReceiveLinesEffect | apps/api/src/purchase-orders/purchase-orders.service.ts:775-849 | A successful receipt raises each item by exactly its requested quantity |
| OrderStatus.ReservedOrderRejects | apps/api/src/sales-orders/sales-orders.service.ts:684-723 | Reserve accepts the status RESERVED and yet every request on such an order is rejected |
| OrderLog.SalesTransitionLogs | apps/api/src/sales-orders/sales-orders.service.ts:814-865 | A committed sales transition appends exactly one event, with the status it wrote, and one audit row |
| OrderLog.PurchaseTransitionLogs | apps/api/src/purchase-orders/purchase-orders.service.ts:883-929 | The same for submit, cancel and receive of a purchase order |
| OrderLog.OthersPublishNothing | apps/api/src/sales-orders/sales-orders.service.ts:357-449 | No other transaction publishes an order event or changes an order's status |
| OrderLog.StepEventsMatch | apps/api/src/purchase-orders/purchase-orders.service.ts:504-546 | Every transaction keeps status and latest event in agreement |
| WarehouseActivity.DeactivationGuard | apps/api/src/warehouses/warehouses.service.ts:118-185 | The three guards of deactivation pass if and only if the warehouse is empty and has only finished orders |
| WarehouseActivity.StepInactiveQuiet | apps/api/src/warehouses/warehouses.service.ts:187-222 | No transaction puts stock or an open order into an inactive warehouse, and none deactivates one that has any |
| WarehouseActivity.NeverInactive | apps/api/src/purchase-orders/purchase-orders.service.ts:500-502 | The inactive-warehouse branches are unreachable while inactive warehouses are quiet |
| WarehouseActivity.FulfillMovesOneWarehouse | apps/api/src/sales-orders/sales-orders.service.ts:1034-1101 | A fulfillment changes quantities at the order's own warehouse only |
| WarehouseActivity.ReceiveMovesOneWarehouse | apps/api/src/purchase-orders/purchase-orders.service.ts:775-849 | A receipt changes quantities at the order's own warehouse only |
| OrderProgress.ReserveSpends | apps/api/src/sales-orders/sales-orders.service.ts:770-795 | A successful reservation lowers the order's potential by exactly its total quantity |
| OrderProgress.FulfillSpends | apps/api/src/sales-orders/sales-orders.service.ts:1054-1068 | A successful fulfillment lowers it by exactly its total quantity |
| OrderProgress.InitialPotential | apps/api/src/sales-orders/sales-orders.service.ts:494-617 | An order nothing has been done to starts with twice its ordered total |
| OrderProgress.StepSpends | apps/api/src/sales-orders/sales-orders.service.ts:644-882 | Once an order has left DRAFT, every transaction but its cancellation changes its potential by exactly what it moves for it |
| OrderProgress.StepRank | apps/api/src/sales-orders/sales-orders.service.ts:1115-1121 | No transaction moves a sales order back to a lower status |
| SplitCalls.Uninterrupted | apps/api/src/warehouses/warehouses.service.ts:110-185 | A call whose reads and write have nothing in between is the atomic call: if its reads pass, the write alone does what the atomic call does, otherwise that is refused |
| SplitCalls.AtomicHistory | apps/api/src/sales-orders/sales-orders.service.ts:357-492 | Every history of atomic calls is one of the histories in which reads and writes are steps of their own |
| SplitCalls.SplitLaw | apps/api/src/sales-orders/sales-orders.service.ts:451-492 | With every call without a transaction split into its reads and its write, and anything in between: bounds hold, reserved stock is at least what items hold, conservation holds, statuses agree with the latest events, and the defensive branches stay dead |
| SplitLaws.LateAddAndStatus | apps/api/src/sales-orders/sales-orders.service.ts:380-431 | An addItem that writes after its order has moved on keeps the status law if and only if the order is neither RESERVED nor FULFILLED by then |
| SplitLaws.LateDeleteAndStatus | apps/api/src/sales-orders/sales-orders.service.ts:475-491 | A late delete keeps the status law if and only if the items that remain bear the status out: CONFIRMED and RESERVED need another item, PARTIALLY_RESERVED one with something reserved and one not fully reserved, PARTIALLY_FULFILLED one not fully fulfilled |
| SplitLaws.LatePurchaseAdd | apps/api/src/purchase-orders/purchase-orders.service.ts:322-376 | A late addItem of the purchase service keeps the status law if and only if the order is not RECEIVED by then |
| SplitLaws.LatePurchaseDelete | apps/api/src/purchase-orders/purchase-orders.service.ts:417-431 | A late delete of a purchase item keeps the status law if and only if SUBMITTED still has another item and PARTIALLY_RECEIVED one not fully received |
| SplitLaws.WriteWarehouseQuiet | apps/api/src/warehouses/warehouses.service.ts:187-222 | The write of a warehouse update keeps inactive warehouses quiet if and only if it does not deactivate one that is in use by then |
| SplitLaws.InsertSalesQuiet | apps/api/src/sales-orders/sales-orders.service.ts:264-314 | The write of a create call keeps inactive warehouses quiet if and only if the warehouse of the new order is still active |
| SplitLaws.StepExactly | apps/api/src/sales-orders/sales-orders.service.ts:357-492 | A write keeps the reservation law, the status law or the warehouse law if and only if it is not one of the writes said to break it |
| SplitLaws.OnlyStaleWritesBreak | apps/api/src/sales-orders/sales-orders.service.ts:375-385 | A write breaks a law only if a read its call relies on would fail by then |
| SplitLaws.LawExactly | apps/api/src/sales-orders/sales-orders.service.ts:357-492 | Each law holds after every prefix of a history of split calls if and only if no write of the history breaks it |
| SplitLaws.AllLawsExactly | apps/api/src/purchase-orders/purchase-orders.service.ts:296-431 | All laws of the ledger together hold after every prefix of such a history if and only if no write of it breaks the reservation, the status or the warehouse law |
| SplitLaws.WarehouseBranchesDead | apps/api/src/purchase-orders/purchase-orders.service.ts:500-502 | Unless a write breaks the warehouse law, the inactive-warehouse branches never fire in such a history |
| SplitLaws.BalancedIffNothingStranded | apps/api/src/sales-orders/sales-orders.service.ts:458-487 | The equality of the reservation law holds at the end of such a history if and only if no late delete removed an item that held a reservation |
| SplitLaws.LeakNeverShrinks | apps/api/src/sales-orders/sales-orders.service.ts:480-491 | Stranded stock is never recovered |
| SplitRuns.EqualityCanBeLost | apps/api/src/sales-orders/sales-orders.service.ts:451-492 | A concrete run, from an empty ledger, after which reserved stock exceeds what items hold and a RESERVED order has no items |
| SplitRuns.StatusCanBeLost | apps/api/src/sales-orders/sales-orders.service.ts:364-431 | A concrete run, from an empty ledger, in which an item is added to an order that is RESERVED by then |
| SplitRuns.PurchaseStatusCanBeLost | apps/api/src/purchase-orders/purchase-orders.service.ts:391-432 | A concrete run, from an empty ledger, after which a SUBMITTED purchase order has no items |
| SplitRuns.WarehouseLawCanBeLost | apps/api/src/warehouses/warehouses.service.ts:110-191 | A concrete run, from an empty ledger, that deactivates a warehouse with an open order, whose confirmation is then refused |
| LedgerService.Database.ReceiveStock | apps/api/src/inventory/inventory.service.ts:123-256 | The guards, upsert, movement and audit rows commit exactly the atomic receipt, or leave everything as it was with the same error |
| LedgerService.Database.IssueStock | apps/api/src/inventory/inventory.service.ts:258-405 | Likewise for an issue: never below what is reserved |
| LedgerService.Database.AdjustStock | apps/api/src/inventory/inventory.service.ts:407-601 | Likewise for a signed adjustment, both branches |
| LedgerService.Database.TransferStock | apps/api/src/inventory/inventory.service.ts:603-808 | Likewise for a transfer: both rows, both movements, rollback if the second write overflows |
| LedgerService.Database.ValidateReserve | apps/api/src/sales-orders/sales-orders.service.ts:705-733 | The validation loop returns the error of the first offending line, or none |
| LedgerService.Database.ReserveLines | apps/api/src/sales-orders/sales-orders.service.ts:735-797 | The loop that trusts one read of inventory made before it computes the same outcome as re-reading each row per line |
| LedgerService.Database.ReserveSales | apps/api/src/sales-orders/sales-orders.service.ts:619-882 | Reserve as a whole: request checks, validation, loop, status, event and audit, or rollback |
| LedgerService.Database.ValidateFulfill | apps/api/src/sales-orders/sales-orders.service.ts:971-1002 | The validation loop of fulfill returns the error of the first offending line, or none |
| LedgerService.Database.FulfillLines | apps/api/src/sales-orders/sales-orders.service.ts:1004-1101 | The loop over lines equals the line-by-line transition, with rollback on its errors |
| LedgerService.Database.FulfillSales | apps/api/src/sales-orders/sales-orders.service.ts:884-1204 | Fulfill as a whole, including the FULFILLED / PARTIALLY_FULFILLED choice |
| LedgerService.Database.ReleaseItems | apps/api/src/sales-orders/sales-orders.service.ts:1258-1308 | Releasing the items one by one, in any order, gives back everything the order held and nothing else |
| LedgerService.Database.CancelSales | apps/api/src/sales-orders/sales-orders.service.ts:1206-1365 | Cancel as a whole |
| LedgerService.Database.ReceiveLines | apps/api/src/purchase-orders/purchase-orders.service.ts:775-849 | The receive loop equals the line-by-line transition |
| LedgerService.Database.ReceivePurchase | apps/api/src/purchase-orders/purchase-orders.service.ts:657-952 | Receive as a whole, with receivedAt |
| LedgerService.Database.RunSerializable | apps/api/src/sales-orders/sales-orders.service.ts:1427-1455 | Up to three attempts, others committing in between, aborted attempts leaving no trace: the call takes effect at most once, as one atomic transaction, or ends with the retry error |
| LedgerService.CheckRequest | apps/api/src/sales-orders/sales-orders.service.ts:628-642 | A repeated item id is reported before a non-positive quantity, and only then |
| LedgerService.SetSizeTest | apps/api/src/sales-orders/sales-orders.service.ts:628-636 | The size of the set of ids equals the number of lines if and only if no id repeats |
| LedgerService.CallPublishesOnce | apps/api/src/sales-orders/sales-orders.service.ts:1427-1455 | A whole call through its retries: if it succeeds it has added exactly one event and one audit row to what the others did, if it ends in an error none; and when every attempt conflicts it ends with the retry error |
| StockAnswers.ReceiptAnswer | apps/api/src/inventory/inventory.service.ts:123-256 | A receipt commits exactly for a positive quantity at an active warehouse and product with room in the column; its row gains exactly the quantity, with one receipt movement and one audit row, and no other row changes; otherwise the first failing condition names the error |
| StockAnswers.IssueAnswer | apps/api/src/inventory/inventory.service.ts:258-405 | An issue commits exactly when on hand less reserved covers it, and takes exactly that from the one row |
| StockAnswers.AdjustmentAnswer | apps/api/src/inventory/inventory.service.ts:407-601 | An adjustment commits exactly when it is not zero and leaves the row between what is reserved and the column limit, and moves the row by its signed amount |
| StockAnswers.TransferAnswer | apps/api/src/inventory/inventory.service.ts:616-763 | A transfer commits exactly between two different active warehouses, for a positive quantity of an active product that the source has on hand and not reserved and the target has room for; the first failing condition names the error |
| StockAnswers.TransferEffect | apps/api/src/inventory/inventory.service.ts:689-763 | The source loses and the target gains exactly the quantity, reservations and all other rows stay, and the history gains a TRANSFER_OUT at the source and a TRANSFER_IN at the target |
| StockAnswers.ReorderPointAnswer | apps/api/src/inventory/inventory-settings.service.ts:34-120 | Setting a reorder point changes that column of that row, or creates an empty row with it, at active warehouses and products only |
| SalesAnswers.ReserveCommits | apps/api/src/sales-orders/sales-orders.service.ts:619-768 | A reservation commits exactly when its lines are distinct and positive, the order is in one of four statuses at an active warehouse, each line names an item of the order with reserved + fulfilled + quantity <= ordered, and each row has that much on hand and not reserved, all before the first line |
| SalesAnswers.ReserveRefusal | apps/api/src/sales-orders/sales-orders.service.ts:619-768 | A refused reservation names the first thing wrong: repeated item, quantity, order, status, warehouse, the first line that asks for too much or for a foreign item, stock |
| SalesAnswers.ReserveEffect | apps/api/src/sales-orders/sales-orders.service.ts:770-796 | Each named item and its row gain exactly the line's quantity in reserved; no other item and no other row changes |
| SalesAnswers.ReserveRecorded | apps/api/src/sales-orders/sales-orders.service.ts:799-865 | The order ends PARTIALLY_FULFILLED if something has been shipped, else RESERVED if every item is all reserved, else PARTIALLY_RESERVED, with one event and one audit row; nothing moves |
| SalesAnswers.FulfillCommits | apps/api/src/sales-orders/sales-orders.service.ts:884-1052 | A fulfillment commits exactly when its lines are distinct and positive, the order is in one of three statuses at an active warehouse, each line names an item of the order that has that much reserved, and each row holds that much reserved |
| SalesAnswers.FulfillRefusal | apps/api/src/sales-orders/sales-orders.service.ts:884-1052 | A refused fulfillment names the first thing wrong, line by line |
| SalesAnswers.FulfillEffect | apps/api/src/sales-orders/sales-orders.service.ts:1034-1101 | Each named item moves exactly the line's quantity from reserved to fulfilled, its row loses it on hand and in reserved, with one document line and one issue movement for each line, in order; nothing else changes |
| SalesAnswers.FulfillRecorded | apps/api/src/sales-orders/sales-orders.service.ts:1103-1173 | The order ends FULFILLED, with the time, if and only if every item is all shipped, else PARTIALLY_FULFILLED without one |
| SalesAnswers.CancelAnswer | apps/api/src/sales-orders/sales-orders.service.ts:1206-1281 | Cancelling commits exactly in four statuses and when every reservation can be given back by its row |
| SalesAnswers.CancelEffect | apps/api/src/sales-orders/sales-orders.service.ts:1283-1365 | Each item of the order ends with nothing reserved and its row with exactly that less; no other item or row changes |
| SalesAnswers.ConfirmAnswer | apps/api/src/sales-orders/sales-orders.service.ts:494-617 | Confirm, outcome for outcome: unknown order, status, no items, inactive customer, inactive warehouse, or CONFIRMED |
| SalesAnswers.CreateAnswer | apps/api/src/sales-orders/sales-orders.service.ts:257-355 | A new order is an empty draft for an active customer at an active warehouse |
| SalesAnswers.AddItemAnswer | apps/api/src/sales-orders/sales-orders.service.ts:357-449 | addItem, outcome for outcome, down to the item with nothing reserved or fulfilled |
| SalesAnswers.RemoveItemAnswer | apps/api/src/sales-orders/sales-orders.service.ts:451-492 | removeItem, outcome for outcome |
| PurchaseAnswers.ReceiveCommits | apps/api/src/purchase-orders/purchase-orders.service.ts:657-800 | A receipt commits exactly when its lines are distinct and positive, the order is SUBMITTED or PARTIALLY_RECEIVED at an active warehouse, each line names an item of the order with received + quantity <= ordered, and each row has room |
| PurchaseAnswers.ReceiveRefusal | apps/api/src/purchase-orders/purchase-orders.service.ts:657-773 | A refused receipt names the first thing wrong, line by line |
| PurchaseAnswers.ReceiveEffect | apps/api/src/purchase-orders/purchase-orders.service.ts:775-881 | Each named item and its row gain exactly the line's quantity, with one document line and one movement for each line; RECEIVED, with the time, if and only if every item is all received |
| PurchaseAnswers.SubmitAnswer | apps/api/src/purchase-orders/purchase-orders.service.ts:436-559 | Submit, outcome for outcome |
| PurchaseAnswers.CancelAnswer | apps/api/src/purchase-orders/purchase-orders.service.ts:561-655 | Cancel of a purchase order, outcome for outcome: drafts and submitted orders only |
| PurchaseAnswers.CreateAnswer | apps/api/src/purchase-orders/purchase-orders.service.ts:202-294 | A new purchase order is an empty draft for an active supplier at an active warehouse |
| PurchaseAnswers.AddItemAnswer | apps/api/src/purchase-orders/purchase-orders.service.ts:296-389 | addItem of the purchase service, outcome for outcome |
| PurchaseAnswers.RemoveItemAnswer | apps/api/src/purchase-orders/purchase-orders.service.ts:391-434 | removeItem of the purchase service, outcome for outcome |
| PurchaseAnswers.WarehouseAnswer | apps/api/src/warehouses/warehouses.service.ts:89-222 | A warehouse with stock, with an open purchase order or with an open sales order is not deactivated, and the first of these names the error; anything else sets the flag as asked |
| OutboxAnswers.LookupAnswer | apps/api/src/outbox/outbox-event-processor.service.ts:43-58 | A worker looks up recipients for every type but an unsupported one, and finds exactly the members of the event's own organization whose role the type addresses |
| OutboxAnswers.DueAnswer | apps/api/src/outbox/outbox-worker.service.ts:121-163 | The candidates are exactly the listed unlocked rows that have an attempt left and are pending and due, or locked for longer than the timeout |
| OutboxAnswers.ClaimAnswer | apps/api/src/outbox/outbox-worker.service.ts:165-195 | A claim gives each of its rows PROCESSING, one more attempt and a lock of this worker from now on, and changes nothing else |
| OutboxAnswers.CompleteAnswer | apps/api/src/outbox/outbox-worker.service.ts:203-223 | Completion makes a row still held PROCESSED and unlocked, and does nothing otherwise |
| OutboxAnswers.BackoffAnswer | apps/api/src/outbox/outbox-worker.service.ts:240-244 | The wait is the lesser of one minute and one second times two to the attempts made before: 1, 2, 4, 8, 16, 32, then 60 seconds |
| OutboxAnswers.FailAnswer | apps/api/src/outbox/outbox-worker.service.ts:229-268 | A failure report on a row still held makes it DEAD_LETTER after the last attempt, else PENDING again after the wait, and does nothing otherwise |
| OutboxSafety.RunInv | apps/api/src/outbox/outbox-worker.service.ts:111-197 | In every interleaving of workers, crashes, lock expiry and lost answers: row and lock bounds, the fence, the claim count and the notification facts |
| OutboxSafety.ClaimKeepsRows | apps/api/src/outbox/outbox-worker.service.ts:165-195 | A claim by an idle worker keeps the fence: whoever holds a lock holds it under its latest claim |
| OutboxSafety.HeadMoves | apps/api/src/outbox/outbox-worker.service.ts:203-223 | Giving up a lock, or moving on without touching a row, keeps the fence for every other claim in flight |
| OutboxTheorems.FenceHolds | apps/api/src/outbox/outbox-worker.service.ts:203-268 | Reporting success or failure changes the outbox if and only if the reported claim is the current one, and then only that row |
| OutboxTheorems.TakenOverForGood | apps/api/src/outbox/outbox-worker.service.ts:246-268 | A claim that a later claim has overtaken never changes the row again, in any later state |
| OutboxTheorems.FenceNeedsTheFlag | apps/api/src/outbox/outbox-worker.service.ts:87-109 | Without the one-tick-at-a-time flag a worker could pass for its own later claim |
| OutboxTheorems.AttemptBudget | apps/api/src/outbox/outbox-worker.service.ts:130-180 | Each row is claimed exactly `attempts` <= maxAttempts times; PENDING rows have attempts left, DEAD_LETTER rows have none |
| OutboxTheorems.RunAges | apps/api/src/outbox/outbox-worker.service.ts:203-268 | Rows stay, attempts never drop, PROCESSED and DEAD_LETTER rows never change again |
| OutboxTheorems.StuckExactly | apps/api/src/outbox/outbox-worker.service.ts:238-268 | A row can never change again if and only if it is PROCESSED, DEAD_LETTER, or PROCESSING on its last attempt with an owner that no longer has it in hand; every other row has a run that changes it |
| OutboxTheorems.StuckInProcessing | apps/api/src/outbox/outbox-worker.service.ts:97-109 | A concrete run that leaves a row PROCESSING for ever: one attempt allowed, and its worker crashes |
| OutboxTheorems.NewWorkerClaims | apps/api/src/outbox/outbox-worker.service.ts:130-152 | A row with attempts left can be claimed by a worker that starts now, once due or once its lock has expired |
| OutboxTheorems.OwnerFails | apps/api/src/outbox/outbox-worker.service.ts:97-99 | The owner of a last attempt can work through its batch and report on it |
| OutboxDelivery.DeliveryLaw | apps/api/src/outbox/outbox-event-processor.service.ts:43-204 | In every run: at most one notification per event and user; each goes to someone who belonged to the event's organization when an attempt looked that up, as owner, admin or manager, or as worker for all types but receipts and fulfillments; and a PROCESSED event has notified everyone who did when its completing attempt looked it up |
| OutboxDelivery.RunTraced | apps/api/src/outbox/outbox-event-processor.service.ts:46-58 | Every recipient list in use goes back to a reading step of the same attempt on the same event |
| OutboxDelivery.UnsupportedNeverProcessed | apps/api/src/outbox/outbox-event-processor.service.ts:202-204 | An event of an unsupported type is never PROCESSED |
| OutboxWorker.CreateMany | apps/api/src/outbox/outbox-event-processor.service.ts:64-80 | The insert adds one notification for each recipient not yet notified of the event, and keeps all others |
| OutboxWorker.Due | apps/api/src/outbox/outbox-worker.service.ts:121-163 | The candidates are exactly the listed unlocked rows that are due or expired and have attempts left, each once |
| OutboxWorker.Database.Candidates | apps/api/src/outbox/outbox-worker.service.ts:121-163 | Selecting oldest first up to the batch size gives the first so many candidates |
| OutboxWorker.Database.TryProcess | apps/api/src/outbox/outbox-worker.service.ts:199-223 | Whatever fails on the way and whatever others do meanwhile, the claim ends completed or thrown, the rest of the batch untouched, no lock gained |
| OutboxWorker.Database.ProcessEvent | apps/api/src/outbox/outbox-worker.service.ts:199-281 | After an event is processed or its failure reported, the worker no longer holds its lock; an error in the report ends the tick, and nothing else does; with nobody interfering, the row ends completed, or failed as of the worker's clock |
| OutboxWorker.Database.Tick | apps/api/src/outbox/outbox-worker.service.ts:87-109 | A tick claims the oldest candidates, is a run of the protocol, never overlaps itself, unless cut short by an error ends with none of its events locked, and when nothing goes wrong ends with every event of a supported type PROCESSED |
| RefreshSafety.FamilyLaw | apps/api/src/auth/auth.service.ts:258-302 | In every interleaving of login, refresh (read, then commit), logout, expiry and revocation: at most one unrevoked session per family, no session rotated twice, one user and one expiry per family, rotations only before that expiry |
| RefreshSafety.RotationKeeps | apps/api/src/auth/auth.service.ts:262-302 | On a session still live the compare-and-set revokes it and hands user, family and expiry over to one successor, one rotation recorded; on any other it changes no session; the family laws survive either way |
| RefreshSafety.RunInv | apps/api/src/auth/auth.service.ts:269-297 | Sessions are never deleted, and once revoked stay exactly as they are |
| RefreshSafety.DeadForGood | apps/api/src/auth/auth.service.ts:448-459 | A family without an unrevoked session never has one again, even through refreshes already past their read |
| RefreshSafety.ReplayLaw | apps/api/src/auth/auth.service.ts:219-228 | A revoked token presented again leaves its family dead, and dead for good, if and only if more than ten seconds have passed (or it was dead before) |
| RefreshSafety.RevocationWindow | apps/api/src/auth/auth.service.ts:448-459 | A revocation that works on an older snapshot: if no rotation of the family committed in between, the family is dead afterwards; if one did, the revocation takes no live session away |
| RefreshSafety.SurvivingFamily | apps/api/src/auth/auth.service.ts:223-225 | A concrete run in which a family outlives a late replay because a rotation commits during the revocation |
| AuthService.Service.CreateFreshSession | apps/api/src/auth/auth.service.ts:385-413 | A login adds one unrevoked session in a family of its own |
| AuthService.Service.Refresh | apps/api/src/auth/auth.service.ts:185-328 | An unknown or revoked token is invalid, a live one at or past its expiry is expired and gets revoked, a live one before it is rotated into a successor with the same user, family and expiry unless somebody else got there first; a replay within 10000 ms of the revocation changes no session, a later one revokes the family, unless a rotation slips into its window |
| AuthService.Service.Commit | apps/api/src/auth/auth.service.ts:262-317 | The transaction hits one row and creates the successor, or hits none and changes nothing |
| AuthService.Service.Logout | apps/api/src/auth/auth.service.ts:330-343 | Logout revokes that session and no other |
| ProductCsv.SortRows | apps/api/src/data-jobs/product-csv.ts:145-338 | The row loop, judging each row and keeping a set of seen SKUs, puts each row where a look at the file alone says it belongs |
| ProductCsv.EveryRowOnce | apps/api/src/data-jobs/product-csv.ts:145-338 | Each data row is in exactly one of validRows and errors; it is accepted if and only if it is the first with its SKU among rows that pass every other check |
| ProductCsv.RowNumbers | apps/api/src/data-jobs/product-csv.ts:151-154 | Both lists keep the order of the file, and successful + failed = total |
| ProductCsv.AcceptedSkus | apps/api/src/data-jobs/product-csv.ts:312-337 | Accepted SKUs are distinct, and are all the SKUs of rows that pass the other checks |
| ProductCsv.ParseProductImport | apps/api/src/data-jobs/product-csv.ts:105-143 | Empty file, wrong header, no rows and too many rows are refused, in that order; everything else goes through the row loop |
| ProductCsv.TrimLaw | apps/api/src/data-jobs/product-csv.ts:190-198 | Trimming keeps one stretch of the text: all before and after it is white space, its own ends are not |
| ProductImport.Tables.UpsertCategory | apps/api/src/data-jobs/data-job-processor.service.ts:106-131 | An existing category keeps its id, a new one gets an id of its own |
| ProductImport.Tables.ImportRows | apps/api/src/data-jobs/data-job-processor.service.ts:100-173 | The two loops of upserts leave a catalog that satisfies the order-free description of an import; the category lookup never misses |
| ProductImport.UniqueCategories | apps/api/src/data-jobs/data-job-processor.service.ts:100-102 | Each category used by a row, once |
| ProductImport.AnyOrder | apps/api/src/data-jobs/data-job-processor.service.ts:133-173 | Every order of the same rows has the same possible results |
| ProductImport.OneResult | apps/api/src/data-jobs/data-job-processor.service.ts:133-173 | The result is unique but for the ids of new categories |
| ProductImport.Idempotent | apps/api/src/data-jobs/data-job-processor.service.ts:100-173 | Importing the same rows again changes nothing |
| ProductImport.ImportExists | apps/api/src/data-jobs/data-job-processor.service.ts:100-173 | Rows with distinct SKUs can be imported into any catalog |
| ProductImport.Splits | apps/api/src/data-jobs/data-job-processor.service.ts:133-173 | Importing two parts with no SKU in common one after the other is importing them together |
| CsvAnswers.RowAnswer | apps/api/src/data-jobs/product-csv.ts:190-310 | A row passes exactly with five cells whose trims have 1 to 100, 1 to 200, 1 to 120 and at most 2000 units and whose last says true or false in any case; its SKU, name, category and description are the trims of cells 0, 1, 2 and 3, an empty description being none; otherwise the first failing check names the code |
| CsvAnswers.FileAnswer | apps/api/src/data-jobs/product-csv.ts:105-345 | A file is refused for being empty, for its header, for having no rows or more than 1000, in that order; otherwise a row is valid exactly when it passes and no passing row before it has its SKU, with its line number, and every other row is an error with its own code |
| CsvAnswers.ImportFills | apps/api/src/data-jobs/data-job-processor.service.ts:100-173 | After an import each valid row is the product of its SKU, with its name, description and flag, in the category of its name; all other products and categories stay, and no others appear |
| CsvAnswers.SpaceAnswer | apps/api/src/data-jobs/product-csv.ts:190-198 | The units that trim removes, one by one, as in ECMA-262, sections 12.2 and 12.3 |
| CsvAnswers.HeaderAnswer | apps/api/src/data-jobs/product-csv.ts:105-125 | The header is sku, name, category, description and isactive, in this order and any letter case |
| DataJobAnswers.DueAnswer | apps/api/src/data-jobs/data-jobs-worker.service.ts:118-158 | The candidates are exactly the listed unlocked jobs that have an attempt left and are pending and due, or locked for longer than the timeout |
| DataJobAnswers.ClaimAnswer | apps/api/src/data-jobs/data-jobs-worker.service.ts:160-188 | A claim gives each of its jobs PROCESSING, one more attempt and a lock of this worker from now on, and changes nothing else |
| DataJobAnswers.ImportAnswer | apps/api/src/data-jobs/data-job-processor.service.ts:175-230 | A completed import is FAILED without a valid row, SUCCEEDED with valid rows and no errors, else PARTIALLY_SUCCEEDED, with the counts of its file, its errors in place of earlier ones and its text gone |
| DataJobAnswers.ExportAnswer | apps/api/src/data-jobs/data-job-processor.service.ts:298-348 | A completed export is SUCCEEDED with the number of rows written, at most 10000 |
| DataJobAnswers.BackoffAnswer | apps/api/src/data-jobs/data-jobs-worker.service.ts:221-225 | The wait is 1, 2, 4, 8, 16, 32, then 60 seconds |
| DataJobAnswers.ReportAnswer | apps/api/src/data-jobs/data-jobs-worker.service.ts:208-292 | A failure report on a job still held makes it FAILED for good after a permanent error or the last attempt, else PENDING again after the wait, and does nothing otherwise |
| DataJobSafety.JobLaw | apps/api/src/data-jobs/data-jobs-worker.service.ts:125-196 | In every reachable state: attempts within the limit, counts that add up, finished imports that say what their file says or failed without being completed, a completion time exactly on finished jobs, and locks held under the latest claim |
| DataJobSafety.FailureIsFenced | apps/api/src/data-jobs/data-jobs-worker.service.ts:228-266 | A failure report changes a job if and only if the reporting worker still holds it, and then under that very claim |
| DataJobSafety.TerminalForGood | apps/api/src/data-jobs/data-job-processor.service.ts:175-204 | A finished job never returns to PENDING or PROCESSING although completion ignores the lock; a completed import keeps everything but its completion time |
| DataJobSafety.TerminalStep | apps/api/src/data-jobs/data-job-processor.service.ts:175-204 | A finished job is rewritten only by another completion, which gives a completed import a new completion time and changes nothing else |
| DataJobFinality.FinalExactly | apps/api/src/data-jobs/data-job-processor.service.ts:175-204 | A finished job never changes again, whatever happens, if and only if no worker has it in hand under a claim that can still complete it |
| DataJobFinality.EndFinalExactly | apps/api/src/data-jobs/data-job-processor.service.ts:175-204 | The status of a finished job never changes again if and only if it is no failure, or nobody has the job in hand to complete it, or completing it is a failure too |
| DataJobFinality.LateSuccess | apps/api/src/data-jobs/data-jobs-worker.service.ts:217-265 | A concrete run in which a job fails with a passing error on its last attempt and then becomes SUCCEEDED through a worker that had lost its lock |
| DataJobFinality.CompletedTwice | apps/api/src/data-jobs/data-job-processor.service.ts:175-230 | For any readable file, a concrete run completes its import twice: the row ends with the later completion time and a second audit row |
| DataJobFinality.ReachClaim | apps/api/src/data-jobs/data-jobs-worker.service.ts:90-94 | A worker can work its way through its batch to any claim in it, finished jobs staying as they are |
| DataJobSafety.FinishedImport | apps/api/src/data-jobs/data-job-processor.service.ts:69-74 | The terminal status and the counts written are those of the parsed file |
| DataJobWorker.Database.ProcessImport | apps/api/src/data-jobs/data-job-processor.service.ts:62-240 | Parsing, upserts, row errors, job row and audit are one protocol step, or a permanent error that touches nothing |
| DataJobWorker.Database.RunExport | apps/api/src/data-jobs/data-job-processor.service.ts:242-349 | Above 10000 products an export fails permanently and changes nothing; otherwise, unless it fails before, it completes its job by id with that many rows |
| DataJobWorker.Database.ProcessJob | apps/api/src/data-jobs/data-jobs-worker.service.ts:200-314 | After a job is processed or its failure reported, the worker no longer holds its lock; with nobody interfering, the job is completed with the right counts and time, or its error is reported as permanent or passing, whichever it is |
| DataJobWorker.Database.Tick | apps/api/src/data-jobs/data-jobs-worker.service.ts:82-104 | A tick claims the oldest candidates, never overlaps itself, ends with none of its jobs locked unless cut short by an error, and with all of them finished if nothing goes wrong |
| Reports.WarehousesAddUp | apps/api/src/reports/reports.service.ts:292-397 | On any state, on-hand, reserved, available, positions and low-stock count per warehouse add up to the dashboard's |
| Reports.AvailableIsDifference | apps/api/src/reports/reports.service.ts:80-86 | Available is on-hand less reserved |
| Reports.LowStockAgrees | apps/api/src/inventory/inventory-settings.service.ts:122-238 | The low-stock list, oldest update first and cut at its limit, is as long as the dashboard's (or the warehouse's) low-stock count |
| Reports.CountIsSize | apps/api/src/reports/reports.service.ts:91-102 | COUNT with a filter is the number of rows the filter lets through |
| Reports.MovementReport | apps/api/src/reports/reports.service.ts:417-484 | Daily inbound less outbound adds up to the movement delta of the window, and the daily counts to the number of movements |
| Reports.DashboardHidesNothing | apps/api/src/reports/reports.service.ts:104-131 | Since inactive warehouses are empty, dashboard on-hand is the whole stock of the active products |
| Reports.MovementsExplainStock | apps/api/src/reports/reports.service.ts:428-451 | Over all time the movement report nets to the stock of all rows |
| Reports.ReportLaw | apps/api/src/reports/reports.service.ts:55-132 | Both hold in every reachable state of the ledger |
| ReportAnswers.DashboardAnswer | apps/api/src/reports/reports.service.ts:55-132 | Over the rows of active products in active warehouses: the sums of quantity, of reserved and of quantity less reserved, the number of rows, and the number of those with a positive reorder point that the available quantity does not exceed |
| ReportAnswers.WarehouseAnswer | apps/api/src/reports/reports.service.ts:291-408 | The same five figures for each active warehouse, of its own rows |
| ReportAnswers.LowStockAnswer | apps/api/src/inventory/inventory-settings.service.ts:122-238 | The low-stock list selects exactly those low rows, of one warehouse or of all |
| ReportAnswers.DayAnswer | apps/api/src/reports/reports.service.ts:410-493 | Each day with a movement in the window is listed with the sum of its positive deltas, of its negative ones negated, and its number of movements |
| Quantity.ParsesPattern | apps/api/src/inventory/dto/decimal-patterns.ts:1-2 | The parser accepts exactly the strings of the unsigned pattern |
| Quantity.DigitValue | apps/api/src/inventory/dto/decimal-patterns.ts:1-2 | Whole and fractional parts are read in base ten, digit by digit |
| Quantity.ValueOfWhole | apps/api/src/inventory/dto/decimal-patterns.ts:1-2 | A string without a point stands for that many units of a thousand thousandths |
| Quantity.ReadsOneDecimal | apps/api/src/inventory/dto/decimal-patterns.ts:1-2 | One decimal counts hundreds of thousandths |
| Quantity.ReadsTwoDecimals | apps/api/src/inventory/dto/decimal-patterns.ts:1-2 | Two decimals count tens of thousandths |
| Quantity.ValueOfSigned | apps/api/src/inventory/dto/decimal-patterns.ts:4-5 | A minus sign negates, and nothing else does |
| Quantity.FitsColumn | apps/api/src/inventory/dto/decimal-patterns.ts:1-2 | What the pattern accepts is below 10^18 thousandths |
| Quantity.RoundTrip | apps/api/src/inventory/dto/decimal-patterns.ts:1-2 | Every integer in [0, 10^18) thousandths has a notation in the pattern that reads back as itself |
| Quantity.SignedRange | apps/api/src/inventory/dto/decimal-patterns.ts:4-5 | The signed pattern accepts exactly the magnitudes below 10^18, of either sign |
| Quantity.SignedRoundTrip | apps/api/src/inventory/dto/decimal-patterns.ts:4-5 | Every integer of such a magnitude has a signed notation |
| Sums.BucketsAddUp | apps/api/src/reports/reports.service.ts:390-393 | GROUP BY loses nothing: bucket totals add up to the total of the listed rows |

## Left out

- Several organizations: one is modelled. Every statement filters by organization, and no step mixes two.
- Prisma, PostgreSQL and decimal.js themselves; isolation below the level of the assumptions above; statements that the
  database still runs after their caller has given up on them.
- The order of the reads before a write: in `SplitCalls` a call may make them in any order, and several calls may rely on
  one. The retry of create after an order number has collided.
- The re-read of an inventory row after its own write: inside one transaction it finds the row it has just written.
- The retry loops of the inventory and purchase services: they are the loop modelled once, for the sales service.
- Prices, notes, order numbers, actor ids, confirmedAt, submittedAt, cancelledAt, notification titles and messages,
  processedAt, lastError, startedAt, createdAt, updatedAt.
- LedgerService.Database.CancelSales: does not tell the two defensive errors of cancel apart, because the order in which the
  items are read is not specified; both are proved unreachable.
- LedgerService.Database.RunSerializable: does not model which database errors are retried; an attempt is said to conflict
  or not.
- DataJobSafety.TerminalForGood: does not promise that the completion time of a completed import stays, because a late
  completion rewrites it (`DataJobFinality.CompletedTwice`).
- DataJobSafety.TerminalStep: does not promise it for one step either, for the same reason.
- OutboxWorker.Database.Tick: does not model a crash in the middle of a tick; the protocol itself does (`Outbox.Crash`).
- ProductCsv.ParseProductImport: does not model the CSV tokenizer; it starts from split records. A file the tokenizer
  refuses is an import without input in `DataJobs`.
- The export file and its spreadsheet quoting, output file names, and round trips from export to import.
- Order-status summaries, recent movements and recent audit rows of the dashboard: plain lists and counts.
- The limit of five active jobs, password hashing, access tokens, the rate limiter, catalog, customer and supplier
  maintenance, and the seed data.
- Liveness: nothing says that an event or a job is eventually processed.
