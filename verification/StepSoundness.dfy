/** Every transaction keeps the row bounds, and no transaction but an item deletion changes what is accounted for. */
module StepSoundness {
  import opened Ledger
  import opened LedgerSteps
  import opened ReservationProofs

  /** The postcondition shared by every transaction that deletes no item. */
  ghost predicate Keeps(db: Db, r: Outcome) {
    r.Committed? ==> Sound(r.db) && SameLeak(db, r.db)
  }

  lemma MoveStockKeeps(db: Db, m: Movement)
    requires Sound(db) && m.key.warehouse in db.warehouses
    requires m.delta >= 0 || HasAvailable(db, m.key, -m.delta)
    ensures Keeps(db, MoveStock(db, m))
  {
    var r := MoveStock(db, m);
    if r.Committed? {
      forall k ensures Leak(r.db, k) == Leak(db, k) {
        assert ReservedAt(r.db.stock, k) == ReservedAt(db.stock, k);
      }
    }
  }

  /** Audit and outbox rows play no part in the bounds or in what is accounted for. */
  lemma UnrelatedColumns(db: Db, next: Db)
    requires Sound(db)
    requires next == db.(audits := next.audits, events := next.events)
    ensures Sound(next) && SameLeak(db, next)
  {
  }

  lemma SingleMoveKeeps(db: Db, m: Movement, action: Action, op: Id)
    requires Sound(db) && m.key.warehouse in db.warehouses
    requires m.delta >= 0 || HasAvailable(db, m.key, -m.delta)
    ensures var r := MoveStock(db, m); r.Committed? ==> Keeps(db, Committed(Audited(r.db, action, op)))
  {
    var r := MoveStock(db, m);
    if r.Committed? {
      MoveStockKeeps(db, m);
      UnrelatedColumns(r.db, Audited(r.db, action, op));
    }
  }

  lemma ReceiveKeeps(db: Db, k: Key, quantity: int, op: Id, at: Time)
    requires Sound(db)
    ensures Keeps(db, ReceiveStock(db, k, quantity, op, at))
  {
    if ReceiveStock(db, k, quantity, op, at).Committed? {
      SingleMoveKeeps(db, Movement(k, Receipt, ByHand, quantity, at), InventoryReceived, op);
    }
  }

  lemma IssueKeeps(db: Db, k: Key, quantity: int, op: Id, at: Time)
    requires Sound(db)
    ensures Keeps(db, IssueStock(db, k, quantity, op, at))
  {
    if IssueStock(db, k, quantity, op, at).Committed? {
      SingleMoveKeeps(db, Movement(k, Issue, ByHand, -quantity, at), InventoryIssued, op);
    }
  }

  lemma AdjustKeeps(db: Db, k: Key, delta: int, op: Id, at: Time)
    requires Sound(db)
    ensures Keeps(db, AdjustStock(db, k, delta, op, at))
  {
    if AdjustStock(db, k, delta, op, at).Committed? {
      SingleMoveKeeps(db, Movement(k, Adjustment, ByHand, delta, at), InventoryAdjusted, op);
    }
  }

  lemma TwoMovesKeep(db: Db, out: Movement, into: Movement, action: Action, op: Id)
    requires Sound(db) && out.key.warehouse in db.warehouses && into.key.warehouse in db.warehouses
    requires HasAvailable(db, out.key, -out.delta) && into.delta >= 0
    requires MoveStock(db, out).Committed?
    ensures var r := MoveStock(MoveStock(db, out).db, into);
            r.Committed? ==> Keeps(db, Committed(Audited(r.db, action, op)))
  {
    MoveStockKeeps(db, out);
    SingleMoveKeeps(MoveStock(db, out).db, into, action, op);
  }

  lemma TransferKeeps(db: Db, from: Id, to: Id, product: Id, quantity: int, op: Id, at: Time)
    requires Sound(db)
    ensures Keeps(db, TransferStock(db, from, to, product, quantity, op, at))
  {
    if TransferStock(db, from, to, product, quantity, op, at).Committed? {
      var out := Movement(Key(from, product), TransferOut, ByHand, -quantity, at);
      TwoMovesKeep(db, out, Movement(Key(to, product), TransferIn, ByHand, quantity, at), InventoryTransferred, op);
    }
  }

  lemma UpsertReorderPointKeeps(db: Db, k: Key, point: nat)
    requires Sound(db)
    ensures Keeps(db, UpsertReorderPoint(db, k, point))
  {
    var r := UpsertReorderPoint(db, k, point);
    if r.Committed? {
      forall j ensures Leak(r.db, j) == Leak(db, j) {
        assert ReservedAt(r.db.stock, j) == ReservedAt(db.stock, j);
      }
    }
  }

  lemma SetSalesKeeps(db: Db, o: Id, status: SalesStatus, at: Option<Time>, action: Action)
    requires Sound(db) && o in db.sales
    ensures Sound(SetSales(db, o, status, at, action)) && SameLeak(db, SetSales(db, o, status, at, action))
  {
    var next := SetSales(db, o, status, at, action);
    forall k ensures Leak(next, k) == Leak(db, k) {
      HoldingsIgnoreStatus(db.sales, next.sales, db.salesItems, k);
    }
  }

  lemma InsertSalesKeeps(db: Db, o: Id, customer: Id, warehouse: Id)
    requires Sound(db)
    ensures Keeps(db, InsertSales(db, o, customer, warehouse))
  {
    var r := InsertSales(db, o, customer, warehouse);
    if r.Committed? {
      forall k ensures Leak(r.db, k) == Leak(db, k) {
        HoldingsIgnoreStatus(db.sales, r.db.sales, db.salesItems, k);
      }
    }
  }

  lemma InsertSalesItemKeeps(db: Db, o: Id, i: Id, product: Id, ordered: int)
    requires Sound(db)
    ensures Keeps(db, InsertSalesItem(db, o, i, product, ordered))
  {
    var r := InsertSalesItem(db, o, i, product, ordered);
    if r.Committed? {
      forall k ensures Leak(r.db, k) == Leak(db, k) {
        HoldingInserted(db.sales, db.salesItems, i, r.db.salesItems[i], k);
      }
    }
  }

  /** The reservation lost at `k` when item `i` of `o` is deleted. */
  ghost function LostBy(db: Db, o: Id, i: Id, k: Key): int
    requires Schema(db)
  {
    if DeleteSalesItem(db, o, i).Committed? && ItemKey(db, db.salesItems[i]) == k then db.salesItems[i].reserved else 0
  }

  lemma DeleteSalesItemEffect(db: Db, o: Id, i: Id, k: Key)
    requires Sound(db)
    ensures DeleteSalesItem(db, o, i).Committed? ==>
              && Sound(DeleteSalesItem(db, o, i).db)
              && Leak(DeleteSalesItem(db, o, i).db, k) == Leak(db, k) + LostBy(db, o, i, k)
  {
    if DeleteSalesItem(db, o, i).Committed? {
      HoldingDeleted(db.sales, db.salesItems, i, k);
    }
  }

  lemma ReserveKeeps(db: Db, o: Id, lines: seq<Line>)
    requires Sound(db)
    ensures Keeps(db, ReserveSales(db, o, lines))
  {
    if ReserveSales(db, o, lines).Committed? {
      ReserveLinesKeep(db, o, lines);
      var held := ReserveLines(db, o, lines).db;
      SetSalesKeeps(held, o, ReservationStatus(held.salesItems, o), held.sales[o].fulfilledAt, SalesReserved);
    }
  }

  lemma FulfillKeeps(db: Db, o: Id, doc: Id, at: Time, lines: seq<Line>)
    requires Sound(db)
    ensures Keeps(db, FulfillSales(db, o, doc, at, lines))
  {
    if FulfillSales(db, o, doc, at, lines).Committed? {
      FulfillLinesKeep(db, o, doc, at, lines);
      var shipped := FulfillLines(db, o, doc, at, lines).db;
      SetSalesKeeps(shipped, o, SoFulfilled, Some(at), SalesFulfilled);
      SetSalesKeeps(shipped, o, SoPartiallyFulfilled, None, SalesFulfilled);
    }
  }

  lemma CancelKeeps(db: Db, o: Id)
    requires Sound(db)
    ensures Keeps(db, CancelSales(db, o))
  {
    if CancelSales(db, o).Committed? {
      ReleaseAllSound(db, o);
      var released := ReleaseAll(db, o);
      forall k ensures Leak(released, k) == Leak(db, k) {
        ReleaseAllKeepsLeak(db, o, k);
      }
      SetSalesKeeps(released, o, SoCancelled, released.sales[o].fulfilledAt, SalesCancelled);
    }
  }

  lemma ReceiveLineKeeps(db: Db, o: Id, doc: Id, at: Time, line: Line)
    requires Sound(db) && o in db.purchases && line.quantity > 0
    requires line.item in db.purchaseItems && db.purchaseItems[line.item].order == o
    requires line.quantity <= db.purchaseItems[line.item].ordered - db.purchaseItems[line.item].received
    ensures Keeps(db, ReceiveLine(db, o, doc, at, line))
  {
    var item := db.purchaseItems[line.item];
    var next := item.(received := item.received + line.quantity);
    var recorded := db.(purchaseItems := db.purchaseItems[line.item := next],
                        receiptLines := db.receiptLines + [DocumentLine(doc, line.item, line.quantity)]);
    var m := Movement(Key(db.purchases[o].warehouse, item.product), Receipt, ByPurchase(doc), line.quantity, at);
    assert ReceiveLine(db, o, doc, at, line) == MoveStock(recorded, m);
    assert Sound(recorded) && SameLeak(db, recorded) by {
      PurchaseItemsOnly(db, recorded);
    }
    MoveStockKeeps(recorded, m);
  }

  /** A change to purchase items that keeps their keys, orders and products, within bounds. */
  lemma PurchaseItemsOnly(db: Db, next: Db)
    requires Sound(db) && PurchaseItemsOk(next.purchaseItems)
    requires next == db.(purchaseItems := next.purchaseItems, receiptLines := next.receiptLines)
    requires forall i :: i in next.purchaseItems ==>
               && i in db.purchaseItems
               && next.purchaseItems[i].order == db.purchaseItems[i].order
               && next.purchaseItems[i].product == db.purchaseItems[i].product
    ensures Sound(next) && SameLeak(db, next)
  {
  }

  lemma {:induction false} CheckReceiveFrame(a: map<Id, PurchaseItem>, b: map<Id, PurchaseItem>, o: Id,
      lines: seq<Line>)
    requires forall n :: 0 <= n < |lines| ==>
               (lines[n].item in a <==> lines[n].item in b)
                   && (lines[n].item in a ==> a[lines[n].item] == b[lines[n].item])
    ensures CheckReceive(a, o, lines) == CheckReceive(b, o, lines)
    decreases |lines|
  {
    if lines != [] {
      CheckReceiveFrame(a, b, o, lines[1..]);
    }
  }

  lemma {:induction false} ReceiveLinesKeep(db: Db, o: Id, doc: Id, at: Time, lines: seq<Line>)
    requires Sound(db) && o in db.purchases && DistinctItems(lines) && AllPositive(lines)
    requires CheckReceive(db.purchaseItems, o, lines).None?
    ensures Keeps(db, ReceiveLines(db, o, doc, at, lines))
    decreases |lines|
  {
    if lines != [] && ReceiveLine(db, o, doc, at, lines[0]).Committed? {
      var next := ReceiveLine(db, o, doc, at, lines[0]).db;
      assert CheckReceive(db.purchaseItems, o, [lines[0]]).None?;
      ReceiveLineKeeps(db, o, doc, at, lines[0]);
      RestStillValid(db, o, lines);
      CheckReceiveFrame(db.purchaseItems, next.purchaseItems, o, lines[1..]);
      ReceiveLinesKeep(next, o, doc, at, lines[1..]);
    }
  }

  lemma ReceivePurchaseKeeps(db: Db, o: Id, doc: Id, at: Time, lines: seq<Line>)
    requires Sound(db)
    ensures Keeps(db, ReceivePurchase(db, o, doc, at, lines))
  {
    if ReceivePurchase(db, o, doc, at, lines).Committed? {
      ReceiveLinesKeep(db, o, doc, at, lines);
      var taken := ReceiveLines(db, o, doc, at, lines).db;
      SetPurchaseKeeps(taken, o, PoReceived, Some(at), PurchaseReceived);
      SetPurchaseKeeps(taken, o, PoPartiallyReceived, None, PurchaseReceived);
    }
  }

  lemma SetPurchaseKeeps(db: Db, o: Id, status: PurchaseStatus, at: Option<Time>, action: Action)
    requires Sound(db) && o in db.purchases
    ensures Sound(SetPurchase(db, o, status, at, action)) && SameLeak(db, SetPurchase(db, o, status, at, action))
  {
  }

  lemma InsertPurchaseKeeps(db: Db, o: Id, supplier: Id, warehouse: Id)
    requires Sound(db)
    ensures Keeps(db, InsertPurchase(db, o, supplier, warehouse))
  {
  }

  lemma InsertPurchaseItemKeeps(db: Db, o: Id, i: Id, product: Id, ordered: int)
    requires Sound(db)
    ensures Keeps(db, InsertPurchaseItem(db, o, i, product, ordered))
  {
  }

  /** `next` differs from `db` in flags and in new warehouses only. */
  ghost predicate OnlyFlags(db: Db, next: Db) {
    && next == db.(warehouses := next.warehouses, products := next.products,
                   customers := next.customers, suppliers := next.suppliers)
    && db.warehouses.Keys <= next.warehouses.Keys && db.customers.Keys <= next.customers.Keys
    && db.suppliers.Keys <= next.suppliers.Keys
  }

  /** Flags and new warehouses: nothing but the sets of known ids can matter, and those only grow. */
  lemma FlagsOnly(db: Db, next: Db)
    requires Sound(db) && OnlyFlags(db, next)
    ensures Sound(next) && SameLeak(db, next)
  {
  }

  /** The reservation lost at `k` by one transaction: nothing, unless it deletes an item that holds some. */
  ghost function Lost(db: Db, op: Op, k: Key): int
    requires Schema(db)
  {
    if op.OpRemoveSalesItem? && CheckSalesDraft(db, op.order).None? then LostBy(db, op.order, op.item, k) else 0
  }

  /** What one transaction does to bounds and unaccounted stock. */
  ghost predicate Accounted(db: Db, op: Op, next: Db)
    requires Schema(db)
  {
    Sound(next) && forall k :: Leak(next, k) == Leak(db, k) + Lost(db, op, k)
  }

  lemma StockStepAccounted(db: Db, op: Op)
    requires Sound(db) && StockOp(op)
    ensures Accounted(db, op, After(db, Step(db, op)))
  {
    match op
    case OpReceiveStock(k, q, id, at) => ReceiveKeeps(db, k, q, id, at);
    case OpIssueStock(k, q, id, at) => IssueKeeps(db, k, q, id, at);
    case OpAdjustStock(k, d, id, at) => AdjustKeeps(db, k, d, id, at);
    case OpTransferStock(from, to, p, q, id, at) => TransferKeeps(db, from, to, p, q, id, at);
    case OpSetReorderPoint(k, point) => UpsertReorderPointKeeps(db, k, point);
  }

  lemma SalesStepAccounted(db: Db, op: Op)
    requires Sound(db) && SalesOp(op)
    ensures Accounted(db, op, After(db, Step(db, op)))
  {
    match op
    case OpCreateSales(o, c, w) => InsertSalesKeeps(db, o, c, w);
    case OpAddSalesItem(o, i, p, q) => InsertSalesItemKeeps(db, o, i, p, q);
    case OpRemoveSalesItem(o, i) =>
      forall k ensures Leak(After(db, Step(db, op)), k) == Leak(db, k) + Lost(db, op, k) {
        DeleteSalesItemEffect(db, o, i, k);
      }
      DeleteSalesItemEffect(db, o, i, Key(0, 0));
    case OpConfirmSales(o) =>
      if Step(db, op).Committed? {
        SetSalesKeeps(db, o, SoConfirmed, db.sales[o].fulfilledAt, SalesConfirmed);
      }
    case OpReserveSales(o, lines) => ReserveKeeps(db, o, lines);
    case OpFulfillSales(o, doc, at, lines) => FulfillKeeps(db, o, doc, at, lines);
    case OpCancelSales(o) => CancelKeeps(db, o);
  }

  lemma PurchaseStepAccounted(db: Db, op: Op)
    requires Sound(db) && PurchaseOp(op)
    ensures Accounted(db, op, After(db, Step(db, op)))
  {
    match op
    case OpReceivePurchase(o, doc, at, lines) => ReceivePurchaseKeeps(db, o, doc, at, lines);
    case OpCreatePurchase(o, supplier, w) => InsertPurchaseKeeps(db, o, supplier, w);
    case OpAddPurchaseItem(o, i, p, q) => InsertPurchaseItemKeeps(db, o, i, p, q);
    case OpRemovePurchaseItem(o, i) => DeletePurchaseItemKeeps(db, o, i);
    case OpSubmitPurchase(o) => SubmitPurchaseKeeps(db, o);
    case OpCancelPurchase(o) => CancelPurchaseKeeps(db, o);
  }

  lemma DeletePurchaseItemKeeps(db: Db, o: Id, i: Id)
    requires Sound(db)
    ensures Keeps(db, DeletePurchaseItem(db, o, i))
  {
    if DeletePurchaseItem(db, o, i).Committed? {
      PurchaseItemsOnly(db, DeletePurchaseItem(db, o, i).db);
    }
  }

  lemma SubmitPurchaseKeeps(db: Db, o: Id)
    requires Sound(db)
    ensures Keeps(db, SubmitPurchase(db, o))
  {
    if SubmitPurchase(db, o).Committed? {
      SetPurchaseKeeps(db, o, PoSubmitted, db.purchases[o].receivedAt, PurchaseSubmitted);
    }
  }

  lemma CancelPurchaseKeeps(db: Db, o: Id)
    requires Sound(db)
    ensures Keeps(db, CancelPurchase(db, o))
  {
    if CancelPurchase(db, o).Committed? {
      SetPurchaseKeeps(db, o, PoCancelled, db.purchases[o].receivedAt, PurchaseCancelled);
    }
  }

  lemma AdminStepFlags(db: Db, op: Op)
    requires !StockOp(op) && !SalesOp(op) && !PurchaseOp(op)
    ensures OnlyFlags(db, After(db, Step(db, op)))
  {
    match op
    case OpCreateWarehouse(w) => CreateWarehouseFlags(db, w);
    case OpUpdateWarehouse(w, isActive) => WriteWarehouseFlags(db, w, isActive);
    case _ =>
  }

  lemma CreateWarehouseFlags(db: Db, w: Id)
    ensures OnlyFlags(db, After(db, CreateWarehouse(db, w)))
  {
  }

  lemma WriteWarehouseFlags(db: Db, w: Id, isActive: Option<bool>)
    ensures OnlyFlags(db, After(db, WriteWarehouse(db, w, isActive)))
  {
  }

  lemma AdminStepAccounted(db: Db, op: Op)
    requires Sound(db) && !StockOp(op) && !SalesOp(op) && !PurchaseOp(op)
    ensures Accounted(db, op, After(db, Step(db, op)))
  {
    AdminStepFlags(db, op);
    FlagsOnly(db, After(db, Step(db, op)));
  }

  /** Row bounds survive every transaction, and the unaccounted stock changes by exactly what it loses. */
  lemma StepAccounted(db: Db, op: Op)
    requires Sound(db)
    ensures Sound(After(db, Step(db, op)))
    ensures forall k :: Leak(After(db, Step(db, op)), k) == Leak(db, k) + Lost(db, op, k)
  {
    if StockOp(op) {
      StockStepAccounted(db, op);
    } else if SalesOp(op) {
      SalesStepAccounted(db, op);
    } else if PurchaseOp(op) {
      PurchaseStepAccounted(db, op);
    } else {
      AdminStepAccounted(db, op);
    }
  }
}
