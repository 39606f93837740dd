/** What each transaction of the stock, sales, purchase and warehouse services does to the tables. */
module LedgerSteps {
  import opened Ledger

  // ---------------------------------------------------------------- row updates

  function Audited(db: Db, action: Action, entity: Id): Db {
    db.(audits := db.audits + [Audit(action, entity)])
  }

  /** Increment or decrement the on-hand quantity of one row (creating it on the way up) and record the movement. */
  function MoveStock(db: Db, m: Movement): (r: Outcome)
    requires m.delta < 0 ==> m.key in db.stock
  {
    var row := if m.key in db.stock then db.stock[m.key] else Stock(0, 0, 0);
    if row.quantity + m.delta >= COLUMN_LIMIT then Rejected(ColumnOverflow)
    else
      Committed(db.(stock := db.stock[m.key := row.(quantity := row.quantity + m.delta)],
                    movements := db.movements + [m]))
  }

  predicate HasAvailable(db: Db, k: Key, quantity: int) {
    k in db.stock && db.stock[k].quantity - db.stock[k].reserved >= quantity
  }

  function SetSales(db: Db, o: Id, status: SalesStatus, fulfilledAt: Option<Time>, action: Action): Db
    requires o in db.sales
  {
    db.(sales := db.sales[o := db.sales[o].(status := status, fulfilledAt := fulfilledAt)],
        audits := db.audits + [Audit(action, o)],
        events := db.events + [SalesEvent(action, o, status)])
  }

  function SetPurchase(db: Db, o: Id, status: PurchaseStatus, receivedAt: Option<Time>, action: Action): Db
    requires o in db.purchases
  {
    db.(purchases := db.purchases[o := db.purchases[o].(status := status, receivedAt := receivedAt)],
        audits := db.audits + [Audit(action, o)],
        events := db.events + [PurchaseEvent(action, o, status)])
  }

  // ---------------------------------------------------------------- inventory.service.ts

  function ReceiveStock(db: Db, k: Key, quantity: int, op: Id, at: Time): Outcome {
    if quantity <= 0 then Rejected(NotPositive)
    else if !Active(db.warehouses, k.warehouse) || !Active(db.products, k.product) then Rejected(NotFound)
    else
      match MoveStock(db, Movement(k, Receipt, ByHand, quantity, at))
      case Rejected(e) => Rejected(e)
      case Committed(moved) => Committed(Audited(moved, InventoryReceived, op))
  }

  function IssueStock(db: Db, k: Key, quantity: int, op: Id, at: Time): Outcome {
    if quantity <= 0 then Rejected(NotPositive)
    else if !Active(db.warehouses, k.warehouse) || !Active(db.products, k.product) then Rejected(NotFound)
    else if !HasAvailable(db, k, quantity) then Rejected(InsufficientStock)
    else
      match MoveStock(db, Movement(k, Issue, ByHand, -quantity, at))
      case Rejected(e) => Rejected(e)
      case Committed(moved) => Committed(Audited(moved, InventoryIssued, op))
  }

  function AdjustStock(db: Db, k: Key, delta: int, op: Id, at: Time): Outcome {
    if delta == 0 then Rejected(ZeroDelta)
    else if !Active(db.warehouses, k.warehouse) || !Active(db.products, k.product) then Rejected(NotFound)
    else if delta < 0 && !HasAvailable(db, k, -delta) then Rejected(InsufficientStock)
    else
      match MoveStock(db, Movement(k, Adjustment, ByHand, delta, at))
      case Rejected(e) => Rejected(e)
      case Committed(moved) => Committed(Audited(moved, InventoryAdjusted, op))
  }

  function TransferStock(db: Db, from: Id, to: Id, product: Id, quantity: int, op: Id, at: Time): Outcome {
    if from == to then Rejected(SameWarehouse)
    else if quantity <= 0 then Rejected(NotPositive)
    else if !Active(db.warehouses, from) || !Active(db.warehouses, to) || !Active(db.products, product)
      then Rejected(NotFound)
    else if !HasAvailable(db, Key(from, product), quantity) then Rejected(InsufficientStock)
    else
      match MoveStock(db, Movement(Key(from, product), TransferOut, ByHand, -quantity, at))
      case Rejected(e) => Rejected(e)
      case Committed(sent) =>
        match MoveStock(sent, Movement(Key(to, product), TransferIn, ByHand, quantity, at))
        case Rejected(e) => Rejected(e)
        case Committed(moved) => Committed(Audited(moved, InventoryTransferred, op))
  }

  // ---------------------------------------------------------------- inventory-settings.service.ts

  function SetReorderPoint(db: Db, k: Key, point: nat): Outcome {
    if !Active(db.warehouses, k.warehouse) || !Active(db.products, k.product) then Rejected(NotFound)
    else UpsertReorderPoint(db, k, point)
  }

  /** Everything setReorderPoint does after its checks. */
  function UpsertReorderPoint(db: Db, k: Key, point: nat): Outcome {
    if k.warehouse !in db.warehouses || k.product !in db.products then Rejected(ForeignKey)
    else
      var row := if k in db.stock then db.stock[k] else Stock(0, 0, 0);
      Committed(db.(stock := db.stock[k := row.(reorderPoint := point)]))
  }

  // ---------------------------------------------------------------- sales-orders.service.ts

  function CreateSales(db: Db, o: Id, customer: Id, warehouse: Id): Outcome {
    if !Active(db.customers, customer) || !Active(db.warehouses, warehouse) then Rejected(NotFound)
    else InsertSales(db, o, customer, warehouse)
  }

  /** Everything create does after its checks. */
  function InsertSales(db: Db, o: Id, customer: Id, warehouse: Id): Outcome {
    if customer !in db.customers || warehouse !in db.warehouses then Rejected(ForeignKey)
    else if o in db.sales then Rejected(DuplicateId)
    else Committed(db.(sales := db.sales[o := SalesOrder(warehouse, customer, SoDraft, None)]))
  }

  /** The status check that both item calls start with. */
  function CheckSalesDraft(db: Db, o: Id): Option<Error> {
    if o !in db.sales then Some(NotFound)
    else if !db.sales[o].status.SoDraft? then Some(WrongStatus)
    else None
  }

  /** Everything addItem does after its checks. */
  function InsertSalesItem(db: Db, o: Id, i: Id, product: Id, ordered: int): Outcome {
    if ordered <= 0 then Rejected(NotPositive)
    else if o !in db.sales || product !in db.products then Rejected(ForeignKey)
    else if ordered >= COLUMN_LIMIT then Rejected(ColumnOverflow)
    else if i in db.salesItems then Rejected(DuplicateId)
    else if exists j :: j in db.salesItems && db.salesItems[j].order == o && db.salesItems[j].product == product
      then Rejected(ProductAlreadyOnOrder)
    else Committed(db.(salesItems := db.salesItems[i := SalesItem(o, product, ordered, 0, 0)]))
  }

  /** Everything removeItem does after the status check. */
  function DeleteSalesItem(db: Db, o: Id, i: Id): Outcome {
    if i !in db.salesItems || db.salesItems[i].order != o then Rejected(NotFound)
    else if exists n :: 0 <= n < |db.fulfillmentLines| && db.fulfillmentLines[n].item == i then Rejected(ForeignKey)
    else Committed(db.(salesItems := db.salesItems - {i}))
  }

  function AddSalesItem(db: Db, o: Id, i: Id, product: Id, ordered: int): Outcome {
    match CheckSalesDraft(db, o)
    case Some(e) => Rejected(e)
    case None =>
      if !Active(db.products, product) then Rejected(NotFound) else InsertSalesItem(db, o, i, product, ordered)
  }

  function RemoveSalesItem(db: Db, o: Id, i: Id): Outcome {
    match CheckSalesDraft(db, o)
    case Some(e) => Rejected(e)
    case None => DeleteSalesItem(db, o, i)
  }

  function ConfirmSales(db: Db, o: Id): Outcome {
    if o !in db.sales then Rejected(NotFound)
    else if !db.sales[o].status.SoDraft? then Rejected(WrongStatus)
    else if forall i :: i in db.salesItems ==> db.salesItems[i].order != o then Rejected(NoItems)
    else if !Active(db.customers, db.sales[o].customer) then Rejected(PartnerInactive)
    else if !Active(db.warehouses, db.sales[o].warehouse) then Rejected(WarehouseInactive)
    else Committed(SetSales(db, o, SoConfirmed, db.sales[o].fulfilledAt, SalesConfirmed))
  }

  /** The request checks made before the transaction starts. */
  function CheckRequest(lines: seq<Line>): Option<Error> {
    if !DistinctItems(lines) then Some(DuplicateLine)
    else if !AllPositive(lines) then Some(NotPositive)
    else None
  }

  /** First validation loop of reserve: the first offending line decides the error. */
  function CheckReserve(items: map<Id, SalesItem>, o: Id, lines: seq<Line>): (e: Option<Error>)
    ensures e.Some? ==> e.value in {ForeignItem, ExceedsRemaining}
  {
    if lines == [] then None
    else if lines[0].item !in items || items[lines[0].item].order != o then Some(ForeignItem)
    else
      var item := items[lines[0].item];
      if lines[0].quantity > item.ordered - item.fulfilled - item.reserved then Some(ExceedsRemaining)
      else CheckReserve(items, o, lines[1..])
  }

  function CheckFulfill(items: map<Id, SalesItem>, o: Id, lines: seq<Line>): (e: Option<Error>)
    ensures e.Some? ==> e.value in {ForeignItem, ExceedsReserved}
  {
    if lines == [] then None
    else if lines[0].item !in items || items[lines[0].item].order != o then Some(ForeignItem)
    else if lines[0].quantity > items[lines[0].item].reserved then Some(ExceedsReserved)
    else CheckFulfill(items, o, lines[1..])
  }

  /** One line of reserve, reading the stock row as it is now. */
  function ReserveLine(db: Db, o: Id, line: Line): Outcome
    requires o in db.sales
  {
    if line.item !in db.salesItems || db.salesItems[line.item].order != o then Rejected(ForeignItem)
    else
      var item := db.salesItems[line.item];
      var k := ItemKey(db, item);
      if !HasAvailable(db, k, line.quantity) then Rejected(InsufficientStock)
      else
        Committed(db.(
          stock := db.stock[k := db.stock[k].(reserved := db.stock[k].reserved + line.quantity)],
          salesItems := db.salesItems[line.item := item.(reserved := item.reserved + line.quantity)]))
  }

  function ReserveLines(db: Db, o: Id, lines: seq<Line>): (r: Outcome)
    requires o in db.sales
    ensures r.Rejected? ==> r.error in {ForeignItem, InsufficientStock}
    ensures r.Committed? ==> r.db.sales == db.sales
    decreases |lines|
  {
    if lines == [] then Committed(db)
    else
      match ReserveLine(db, o, lines[0])
      case Rejected(e) => Rejected(e)
      case Committed(next) => ReserveLines(next, o, lines[1..])
  }

  /** determineReservationStatus over the items of `o`. */
  function ReservationStatus(items: map<Id, SalesItem>, o: Id): SalesStatus {
    if exists i :: i in items && items[i].order == o && items[i].fulfilled > 0 then SoPartiallyFulfilled
    else if forall i :: i in items && items[i].order == o ==> items[i].reserved == items[i].ordered then SoReserved
    else SoPartiallyReserved
  }

  predicate FullyFulfilled(items: map<Id, SalesItem>, o: Id) {
    forall i :: i in items && items[i].order == o ==> items[i].fulfilled == items[i].ordered
  }

  function ReserveSales(db: Db, o: Id, lines: seq<Line>): Outcome {
    if CheckRequest(lines).Some? then Rejected(CheckRequest(lines).value)
    else if o !in db.sales then Rejected(NotFound)
    else if !(db.sales[o].status in {SoConfirmed, SoPartiallyReserved, SoReserved, SoPartiallyFulfilled})
      then Rejected(WrongStatus)
    else if !Active(db.warehouses, db.sales[o].warehouse) then Rejected(WarehouseInactive)
    else if CheckReserve(db.salesItems, o, lines).Some? then Rejected(CheckReserve(db.salesItems, o, lines).value)
    else
      match ReserveLines(db, o, lines)
      case Rejected(e) => Rejected(e)
      case Committed(held) =>
        Committed(SetSales(held, o, ReservationStatus(held.salesItems, o), held.sales[o].fulfilledAt, SalesReserved))
  }

  /** One line of fulfill, with its two defensive branches. */
  function FulfillLine(db: Db, o: Id, doc: Id, at: Time, line: Line): Outcome
    requires o in db.sales
  {
    if line.item !in db.salesItems || db.salesItems[line.item].order != o then Rejected(ForeignItem)
    else
      var item := db.salesItems[line.item];
      var k := ItemKey(db, item);
      if k !in db.stock then Rejected(ReservationMissing)
      else if db.stock[k].reserved < line.quantity || db.stock[k].quantity < line.quantity
        then Rejected(ReservationInconsistent)
      else
        var row := db.stock[k];
        Committed(db.(
          stock := db.stock[k :=
            row.(quantity := row.quantity - line.quantity, reserved := row.reserved - line.quantity)],
          salesItems := db.salesItems[line.item :=
            item.(reserved := item.reserved - line.quantity, fulfilled := item.fulfilled + line.quantity)],
          fulfillmentLines := db.fulfillmentLines + [DocumentLine(doc, line.item, line.quantity)],
          movements := db.movements + [Movement(k, Issue, BySale(doc), -line.quantity, at)]))
  }

  function FulfillLines(db: Db, o: Id, doc: Id, at: Time, lines: seq<Line>): (r: Outcome)
    requires o in db.sales
    ensures r.Rejected? ==> r.error in {ForeignItem, ReservationMissing, ReservationInconsistent}
    ensures r.Committed? ==> r.db.sales == db.sales
    decreases |lines|
  {
    if lines == [] then Committed(db)
    else
      match FulfillLine(db, o, doc, at, lines[0])
      case Rejected(e) => Rejected(e)
      case Committed(next) => FulfillLines(next, o, doc, at, lines[1..])
  }

  function FulfillSales(db: Db, o: Id, doc: Id, at: Time, lines: seq<Line>): Outcome {
    if CheckRequest(lines).Some? then Rejected(CheckRequest(lines).value)
    else if o !in db.sales then Rejected(NotFound)
    else if !(db.sales[o].status in {SoPartiallyReserved, SoReserved, SoPartiallyFulfilled}) then Rejected(WrongStatus)
    else if !Active(db.warehouses, db.sales[o].warehouse) then Rejected(WarehouseInactive)
    else if CheckFulfill(db.salesItems, o, lines).Some? then Rejected(CheckFulfill(db.salesItems, o, lines).value)
    else
      match FulfillLines(db, o, doc, at, lines)
      case Rejected(e) => Rejected(e)
      case Committed(shipped) =>
        if FullyFulfilled(shipped.salesItems, o)
          then Committed(SetSales(shipped, o, SoFulfilled, Some(at), SalesFulfilled))
          else Committed(SetSales(shipped, o, SoPartiallyFulfilled, None, SalesFulfilled))
  }

  /** What cancelling `o` gives back at `k`: the reservation of the one item of that product, if there is one. */
  ghost function ReleasedAt(db: Db, o: Id, k: Key): int
    requires o in db.sales
  {
    if k.warehouse == db.sales[o].warehouse
       && exists i :: i in db.salesItems && db.salesItems[i].order == o && db.salesItems[i].product == k.product
    then
      var i :| i in db.salesItems && db.salesItems[i].order == o && db.salesItems[i].product == k.product;
      db.salesItems[i].reserved
    else 0
  }

  /** Every reservation of `o` that is not zero has a stock row able to give it back. */
  predicate CanRelease(db: Db, o: Id)
    requires o in db.sales
  {
    forall i :: i in db.salesItems && db.salesItems[i].order == o && db.salesItems[i].reserved != 0 ==>
      var k := Key(db.sales[o].warehouse, db.salesItems[i].product);
      k in db.stock && db.salesItems[i].reserved <= db.stock[k].reserved
  }

  ghost function ReleasedStock(db: Db, o: Id): map<Key, Stock>
    requires o in db.sales
  {
    map k | k in db.stock :: db.stock[k].(reserved := db.stock[k].reserved - ReleasedAt(db, o, k))
  }

  /** All reservations of `o` given back at once. */
  ghost function ReleaseAll(db: Db, o: Id): Db
    requires o in db.sales
  {
    db.(stock := ReleasedStock(db, o),
        salesItems := map i | i in db.salesItems ::
          if db.salesItems[i].order == o then db.salesItems[i].(reserved := 0) else db.salesItems[i])
  }

  ghost function CancelSales(db: Db, o: Id): Outcome {
    if o !in db.sales then Rejected(NotFound)
    else if !(db.sales[o].status in {SoDraft, SoConfirmed, SoPartiallyReserved, SoReserved}) then Rejected(WrongStatus)
    else if !CanRelease(db, o) then Rejected(ReservationInconsistent)
    else Committed(SetSales(ReleaseAll(db, o), o, SoCancelled, db.sales[o].fulfilledAt, SalesCancelled))
  }

  // ---------------------------------------------------------------- purchase-orders.service.ts

  function CreatePurchase(db: Db, o: Id, supplier: Id, warehouse: Id): Outcome {
    if !Active(db.suppliers, supplier) || !Active(db.warehouses, warehouse) then Rejected(NotFound)
    else InsertPurchase(db, o, supplier, warehouse)
  }

  /** Everything create does after its checks. */
  function InsertPurchase(db: Db, o: Id, supplier: Id, warehouse: Id): Outcome {
    if supplier !in db.suppliers || warehouse !in db.warehouses then Rejected(ForeignKey)
    else if o in db.purchases then Rejected(DuplicateId)
    else Committed(db.(purchases := db.purchases[o := PurchaseOrder(warehouse, supplier, PoDraft, None)]))
  }

  function CheckPurchaseDraft(db: Db, o: Id): Option<Error> {
    if o !in db.purchases then Some(NotFound)
    else if !db.purchases[o].status.PoDraft? then Some(WrongStatus)
    else None
  }

  function AddPurchaseItem(db: Db, o: Id, i: Id, product: Id, ordered: int): Outcome {
    match CheckPurchaseDraft(db, o)
    case Some(e) => Rejected(e)
    case None =>
      if !Active(db.products, product) then Rejected(NotFound) else InsertPurchaseItem(db, o, i, product, ordered)
  }

  /** Everything addItem does after its checks. */
  function InsertPurchaseItem(db: Db, o: Id, i: Id, product: Id, ordered: int): Outcome {
    if ordered <= 0 then Rejected(NotPositive)
    else if o !in db.purchases || product !in db.products then Rejected(ForeignKey)
    else if ordered >= COLUMN_LIMIT then Rejected(ColumnOverflow)
    else if i in db.purchaseItems then Rejected(DuplicateId)
    else if exists j ::
        j in db.purchaseItems && db.purchaseItems[j].order == o && db.purchaseItems[j].product == product
      then Rejected(ProductAlreadyOnOrder)
    else Committed(db.(purchaseItems := db.purchaseItems[i := PurchaseItem(o, product, ordered, 0)]))
  }

  function RemovePurchaseItem(db: Db, o: Id, i: Id): Outcome {
    match CheckPurchaseDraft(db, o)
    case Some(e) => Rejected(e)
    case None => DeletePurchaseItem(db, o, i)
  }

  /** Everything removeItem does after the status check. */
  function DeletePurchaseItem(db: Db, o: Id, i: Id): Outcome {
    if i !in db.purchaseItems || db.purchaseItems[i].order != o then Rejected(NotFound)
    else if exists n :: 0 <= n < |db.receiptLines| && db.receiptLines[n].item == i then Rejected(ForeignKey)
    else Committed(db.(purchaseItems := db.purchaseItems - {i}))
  }

  function SubmitPurchase(db: Db, o: Id): Outcome {
    if o !in db.purchases then Rejected(NotFound)
    else if !db.purchases[o].status.PoDraft? then Rejected(WrongStatus)
    else if forall i :: i in db.purchaseItems ==> db.purchaseItems[i].order != o then Rejected(NoItems)
    else if !Active(db.suppliers, db.purchases[o].supplier) then Rejected(PartnerInactive)
    else if !Active(db.warehouses, db.purchases[o].warehouse) then Rejected(WarehouseInactive)
    else Committed(SetPurchase(db, o, PoSubmitted, db.purchases[o].receivedAt, PurchaseSubmitted))
  }

  function CancelPurchase(db: Db, o: Id): Outcome {
    if o !in db.purchases then Rejected(NotFound)
    else if !(db.purchases[o].status in {PoDraft, PoSubmitted}) then Rejected(WrongStatus)
    else Committed(SetPurchase(db, o, PoCancelled, db.purchases[o].receivedAt, PurchaseCancelled))
  }

  function CheckReceive(items: map<Id, PurchaseItem>, o: Id, lines: seq<Line>): (e: Option<Error>)
    ensures e.Some? ==> e.value in {ForeignItem, ExceedsRemaining}
  {
    if lines == [] then None
    else if lines[0].item !in items || items[lines[0].item].order != o then Some(ForeignItem)
    else if lines[0].quantity > items[lines[0].item].ordered - items[lines[0].item].received then Some(ExceedsRemaining)
    else CheckReceive(items, o, lines[1..])
  }

  /** One line of receive: the item, its receipt line, the stock row and the movement. */
  function ReceiveLine(db: Db, o: Id, doc: Id, at: Time, line: Line): Outcome
    requires o in db.purchases && line.quantity > 0
  {
    if line.item !in db.purchaseItems || db.purchaseItems[line.item].order != o then Rejected(ForeignItem)
    else
      var item := db.purchaseItems[line.item];
      var k := Key(db.purchases[o].warehouse, item.product);
      var recorded := db.(
        purchaseItems := db.purchaseItems[line.item := item.(received := item.received + line.quantity)],
        receiptLines := db.receiptLines + [DocumentLine(doc, line.item, line.quantity)]);
      MoveStock(recorded, Movement(k, Receipt, ByPurchase(doc), line.quantity, at))
  }

  function ReceiveLines(db: Db, o: Id, doc: Id, at: Time, lines: seq<Line>): (r: Outcome)
    requires o in db.purchases && AllPositive(lines)
    ensures r.Rejected? ==> r.error in {ForeignItem, ColumnOverflow}
    ensures r.Committed? ==> r.db.purchases == db.purchases
    decreases |lines|
  {
    if lines == [] then Committed(db)
    else
      match ReceiveLine(db, o, doc, at, lines[0])
      case Rejected(e) => Rejected(e)
      case Committed(next) => ReceiveLines(next, o, doc, at, lines[1..])
  }

  predicate FullyReceived(items: map<Id, PurchaseItem>, o: Id) {
    forall i :: i in items && items[i].order == o ==> items[i].received == items[i].ordered
  }

  function ReceivePurchase(db: Db, o: Id, doc: Id, at: Time, lines: seq<Line>): Outcome {
    if CheckRequest(lines).Some? then Rejected(CheckRequest(lines).value)
    else if o !in db.purchases then Rejected(NotFound)
    else if !(db.purchases[o].status in {PoSubmitted, PoPartiallyReceived}) then Rejected(WrongStatus)
    else if !Active(db.warehouses, db.purchases[o].warehouse) then Rejected(WarehouseInactive)
    else if CheckReceive(db.purchaseItems, o, lines).Some? then Rejected(CheckReceive(db.purchaseItems, o, lines).value)
    else
      match ReceiveLines(db, o, doc, at, lines)
      case Rejected(e) => Rejected(e)
      case Committed(taken) =>
        if FullyReceived(taken.purchaseItems, o)
          then Committed(SetPurchase(taken, o, PoReceived, Some(at), PurchaseReceived))
          else Committed(SetPurchase(taken, o, PoPartiallyReceived, None, PurchaseReceived))
  }

  // ---------------------------------------------------------------- warehouses.service.ts

  function CreateWarehouse(db: Db, w: Id): Outcome {
    if w in db.warehouses then Rejected(DuplicateId)
    else Committed(db.(warehouses := db.warehouses[w := true]))
  }

  predicate OpenPurchase(status: PurchaseStatus) {
    status in {PoDraft, PoSubmitted, PoPartiallyReceived}
  }

  predicate OpenSale(status: SalesStatus) {
    status in {SoDraft, SoConfirmed, SoPartiallyReserved, SoReserved, SoPartiallyFulfilled}
  }

  /** The guard of a deactivation. */
  function CheckDeactivation(db: Db, w: Id): Option<Error> {
    if exists k :: k in db.stock && k.warehouse == w && db.stock[k].quantity > 0 then Some(HasStock)
    else if exists o :: o in db.purchases && db.purchases[o].warehouse == w && OpenPurchase(db.purchases[o].status)
      then Some(HasOpenPurchases)
    else if exists o :: o in db.sales && db.sales[o].warehouse == w && OpenSale(db.sales[o].status)
      then Some(HasOpenSales)
    else None
  }

  /** `isActive` of the request; `None` when the request leaves it alone. */
  function UpdateWarehouse(db: Db, w: Id, isActive: Option<bool>): Outcome {
    if w !in db.warehouses then Rejected(NotFound)
    else if isActive == Some(false) && db.warehouses[w] && CheckDeactivation(db, w).Some?
      then Rejected(CheckDeactivation(db, w).value)
    else WriteWarehouse(db, w, isActive)
  }

  /** Everything update does after its guards. */
  function WriteWarehouse(db: Db, w: Id, isActive: Option<bool>): Outcome {
    if w !in db.warehouses then Rejected(NotFound)
    else
      Committed(db.(warehouses := db.warehouses[w := if isActive.Some? then isActive.value else db.warehouses[w]]))
  }

  // ---------------------------------------------------------------- the transition relation

  datatype Op =
    | OpReceiveStock(key: Key, quantity: int, operation: Id, at: Time)
    | OpIssueStock(key: Key, quantity: int, operation: Id, at: Time)
    | OpAdjustStock(key: Key, delta: int, operation: Id, at: Time)
    | OpTransferStock(from: Id, to: Id, product: Id, quantity: int, operation: Id, at: Time)
    | OpSetReorderPoint(key: Key, point: nat)
    | OpCreateSales(order: Id, customer: Id, warehouse: Id)
    | OpAddSalesItem(order: Id, item: Id, product: Id, ordered: int)
    | OpRemoveSalesItem(order: Id, item: Id)
    | OpConfirmSales(order: Id)
    | OpReserveSales(order: Id, lines: seq<Line>)
    | OpFulfillSales(order: Id, document: Id, at: Time, lines: seq<Line>)
    | OpCancelSales(order: Id)
    | OpCreatePurchase(order: Id, supplier: Id, warehouse: Id)
    | OpAddPurchaseItem(order: Id, item: Id, product: Id, ordered: int)
    | OpRemovePurchaseItem(order: Id, item: Id)
    | OpSubmitPurchase(order: Id)
    | OpCancelPurchase(order: Id)
    | OpReceivePurchase(order: Id, document: Id, at: Time, lines: seq<Line>)
    | OpCreateWarehouse(warehouse: Id)
    | OpUpdateWarehouse(warehouse: Id, isActive: Option<bool>)
    | OpSetProduct(product: Id, active: bool)
    | OpSetCustomer(customer: Id, active: bool)
    | OpSetSupplier(supplier: Id, active: bool)

  predicate StockOp(op: Op) {
    op.OpReceiveStock? || op.OpIssueStock? || op.OpAdjustStock? || op.OpTransferStock? || op.OpSetReorderPoint?
  }

  predicate SalesOp(op: Op) {
    || op.OpCreateSales? || op.OpAddSalesItem? || op.OpRemoveSalesItem? || op.OpConfirmSales?
    || op.OpReserveSales? || op.OpFulfillSales? || op.OpCancelSales?
  }

  predicate PurchaseOp(op: Op) {
    || op.OpCreatePurchase? || op.OpAddPurchaseItem? || op.OpRemovePurchaseItem?
    || op.OpSubmitPurchase? || op.OpCancelPurchase? || op.OpReceivePurchase?
  }

  /** The DTO facts a request has passed before it reaches a service: order requests name at least one line. */
  predicate WellFormed(op: Op) {
    && (op.OpReserveSales? ==> op.lines != [])
    && (op.OpFulfillSales? ==> op.lines != [])
    && (op.OpReceivePurchase? ==> op.lines != [])
  }

  /** One transaction. */
  ghost function Step(db: Db, op: Op): Outcome {
    match op
    case OpReceiveStock(k, q, id, at) => ReceiveStock(db, k, q, id, at)
    case OpIssueStock(k, q, id, at) => IssueStock(db, k, q, id, at)
    case OpAdjustStock(k, d, id, at) => AdjustStock(db, k, d, id, at)
    case OpTransferStock(from, to, p, q, id, at) => TransferStock(db, from, to, p, q, id, at)
    case OpSetReorderPoint(k, point) => SetReorderPoint(db, k, point)
    case OpCreateSales(o, c, w) => CreateSales(db, o, c, w)
    case OpAddSalesItem(o, i, p, q) => AddSalesItem(db, o, i, p, q)
    case OpRemoveSalesItem(o, i) => RemoveSalesItem(db, o, i)
    case OpConfirmSales(o) => ConfirmSales(db, o)
    case OpReserveSales(o, lines) => ReserveSales(db, o, lines)
    case OpFulfillSales(o, doc, at, lines) => FulfillSales(db, o, doc, at, lines)
    case OpCancelSales(o) => CancelSales(db, o)
    case OpCreatePurchase(o, s, w) => CreatePurchase(db, o, s, w)
    case OpAddPurchaseItem(o, i, p, q) => AddPurchaseItem(db, o, i, p, q)
    case OpRemovePurchaseItem(o, i) => RemovePurchaseItem(db, o, i)
    case OpSubmitPurchase(o) => SubmitPurchase(db, o)
    case OpCancelPurchase(o) => CancelPurchase(db, o)
    case OpReceivePurchase(o, doc, at, lines) => ReceivePurchase(db, o, doc, at, lines)
    case OpCreateWarehouse(w) => CreateWarehouse(db, w)
    case OpUpdateWarehouse(w, active) => UpdateWarehouse(db, w, active)
    case OpSetProduct(p, active) => Committed(db.(products := db.products[p := active]))
    case OpSetCustomer(c, active) => Committed(db.(customers := db.customers[c := active]))
    case OpSetSupplier(s, active) => Committed(db.(suppliers := db.suppliers[s := active]))
  }

  /** The state after a history of transactions, committed and rejected ones alike. */
  ghost function Run(db: Db, ops: seq<Op>): Db
    decreases |ops|
  {
    if ops == [] then db
    else
      var before := Run(db, ops[..|ops| - 1]);
      After(before, Step(before, ops[|ops| - 1]))
  }

  predicate AllWellFormed(ops: seq<Op>) {
    forall i :: 0 <= i < |ops| ==> WellFormed(ops[i])
  }
}
