/** Deactivated warehouses: empty, and without open orders. */
module WarehouseActivity {
  import opened Ledger
  import opened LedgerSteps
  import opened ReservationProofs
  import opened OrderStatus
  import opened OrderLog

  ghost predicate Quiet(db: Db, w: Id) {
    && (forall k :: k in db.stock && k.warehouse == w ==> db.stock[k].quantity == 0)
    && (forall o :: o in db.purchases && db.purchases[o].warehouse == w ==> !OpenPurchase(db.purchases[o].status))
    && (forall o :: o in db.sales && db.sales[o].warehouse == w ==> !OpenSale(db.sales[o].status))
  }

  /** An inactive warehouse holds no stock and only finished orders. */
  ghost predicate InactiveQuiet(db: Db) {
    forall w :: w in db.warehouses && !db.warehouses[w] ==> Quiet(db, w)
  }

  /** `next` differs from `db` only where warehouses are active, or by closing orders. */
  ghost predicate StaysQuiet(db: Db, next: Db) {
    && next.warehouses == db.warehouses
    && (forall k :: k in next.stock && !Active(db.warehouses, k.warehouse) ==>
          next.stock[k].quantity == QuantityAt(db.stock, k))
    && (forall o :: o in next.sales && !Active(db.warehouses, next.sales[o].warehouse) ==>
          !OpenSale(next.sales[o].status) || (o in db.sales && next.sales[o] == db.sales[o]))
    && (forall o :: o in next.purchases && !Active(db.warehouses, next.purchases[o].warehouse) ==>
          !OpenPurchase(next.purchases[o].status) || (o in db.purchases && next.purchases[o] == db.purchases[o]))
  }

  lemma QuietnessKept(db: Db, next: Db)
    requires InactiveQuiet(db) && StaysQuiet(db, next)
    ensures InactiveQuiet(next)
  {
    forall w | w in next.warehouses && !next.warehouses[w] ensures Quiet(next, w) {
      assert Quiet(db, w);
    }
  }

  lemma {:induction false} FulfillMovesOneWarehouse(db: Db, o: Id, doc: Id, at: Time, lines: seq<Line>)
    requires o in db.sales
    ensures var r := FulfillLines(db, o, doc, at, lines);
            r.Committed? ==>
              && r.db == db.(stock := r.db.stock, salesItems := r.db.salesItems,
                             fulfillmentLines := r.db.fulfillmentLines, movements := r.db.movements)
              && r.db.stock.Keys == db.stock.Keys
              && (forall k :: k in db.stock && k.warehouse != db.sales[o].warehouse ==> r.db.stock[k] == db.stock[k])
    decreases |lines|
  {
    if lines != [] && FulfillLine(db, o, doc, at, lines[0]).Committed? {
      FulfillMovesOneWarehouse(FulfillLine(db, o, doc, at, lines[0]).db, o, doc, at, lines[1..]);
    }
  }

  lemma {:induction false} ReceiveMovesOneWarehouse(db: Db, o: Id, doc: Id, at: Time, lines: seq<Line>)
    requires o in db.purchases && AllPositive(lines)
    ensures var r := ReceiveLines(db, o, doc, at, lines);
            r.Committed? ==>
              forall k: Key :: k.warehouse != db.purchases[o].warehouse ==>
                (k in r.db.stock <==> k in db.stock) && (k in db.stock ==> r.db.stock[k] == db.stock[k])
    decreases |lines|
  {
    if lines != [] && ReceiveLine(db, o, doc, at, lines[0]).Committed? {
      ReceiveMovesOneWarehouse(ReceiveLine(db, o, doc, at, lines[0]).db, o, doc, at, lines[1..]);
    }
  }

  /** A sales transition at an active warehouse, or one that closes the order, disturbs no inactive warehouse. */
  lemma SalesLoggedStaysQuiet(db: Db, next: Db, o: Id, action: Action)
    requires SalesLogged(db, next, o, action) && next.warehouses == db.warehouses
    requires Active(db.warehouses, db.sales[o].warehouse) || !OpenSale(next.sales[o].status)
    requires forall k :: k in next.stock && !Active(db.warehouses, k.warehouse) ==>
               next.stock[k].quantity == QuantityAt(db.stock, k)
    ensures StaysQuiet(db, next)
  {
  }

  lemma PurchaseLoggedStaysQuiet(db: Db, next: Db, o: Id, action: Action)
    requires PurchaseLogged(db, next, o, action) && next.warehouses == db.warehouses
    requires Active(db.warehouses, db.purchases[o].warehouse) || !OpenPurchase(next.purchases[o].status)
    requires forall k :: k in next.stock && !Active(db.warehouses, k.warehouse) ==>
               next.stock[k].quantity == QuantityAt(db.stock, k)
    ensures StaysQuiet(db, next)
  {
  }

  lemma ReserveStaysQuiet(db: Db, o: Id, lines: seq<Line>)
    requires ReserveSales(db, o, lines).Committed?
    ensures StaysQuiet(db, ReserveSales(db, o, lines).db)
  {
    ReserveLogs(db, o, lines);
    ReserveLinesEffect(db, o, lines);
    SalesLoggedStaysQuiet(db, ReserveSales(db, o, lines).db, o, SalesReserved);
  }

  /** Rows of inactive warehouses are as they were. */
  ghost predicate InactiveRowsStay(db: Db, next: Db) {
    && next.warehouses == db.warehouses
    && forall k :: k in next.stock && !Active(db.warehouses, k.warehouse) ==>
        next.stock[k].quantity == QuantityAt(db.stock, k)
  }

  lemma FulfillLeavesInactive(db: Db, o: Id, doc: Id, at: Time, lines: seq<Line>)
    requires FulfillSales(db, o, doc, at, lines).Committed?
    ensures InactiveRowsStay(db, FulfillSales(db, o, doc, at, lines).db)
  {
    FulfillMovesOneWarehouse(db, o, doc, at, lines);
    var shipped := FulfillLines(db, o, doc, at, lines).db;
    assert InactiveRowsStay(db, shipped);
  }

  lemma ReceiveLeavesInactive(db: Db, o: Id, doc: Id, at: Time, lines: seq<Line>)
    requires ReceivePurchase(db, o, doc, at, lines).Committed?
    ensures InactiveRowsStay(db, ReceivePurchase(db, o, doc, at, lines).db)
  {
    ReceiveLinesFrame(db, o, doc, at, lines);
    ReceiveMovesOneWarehouse(db, o, doc, at, lines);
    var taken := ReceiveLines(db, o, doc, at, lines).db;
    assert InactiveRowsStay(db, taken);
  }

  lemma FulfillStaysQuiet(db: Db, o: Id, doc: Id, at: Time, lines: seq<Line>)
    requires FulfillSales(db, o, doc, at, lines).Committed?
    ensures StaysQuiet(db, FulfillSales(db, o, doc, at, lines).db)
  {
    FulfillLogs(db, o, doc, at, lines);
    FulfillLeavesInactive(db, o, doc, at, lines);
    SalesLoggedStaysQuiet(db, FulfillSales(db, o, doc, at, lines).db, o, SalesFulfilled);
  }

  lemma CancelStaysQuiet(db: Db, o: Id)
    requires CancelSales(db, o).Committed?
    ensures StaysQuiet(db, CancelSales(db, o).db)
  {
    CancelLogs(db, o);
    SalesLoggedStaysQuiet(db, CancelSales(db, o).db, o, SalesCancelled);
  }

  lemma ReceiveStaysQuiet(db: Db, o: Id, doc: Id, at: Time, lines: seq<Line>)
    requires ReceivePurchase(db, o, doc, at, lines).Committed?
    ensures StaysQuiet(db, ReceivePurchase(db, o, doc, at, lines).db)
  {
    ReceiveLogs(db, o, doc, at, lines);
    ReceiveLeavesInactive(db, o, doc, at, lines);
    PurchaseLoggedStaysQuiet(db, ReceivePurchase(db, o, doc, at, lines).db, o, PurchaseReceived);
  }

  lemma ConfirmStaysQuiet(db: Db, o: Id)
    requires ConfirmSales(db, o).Committed?
    ensures StaysQuiet(db, ConfirmSales(db, o).db)
  {
    ConfirmLogs(db, o);
    SalesLoggedStaysQuiet(db, ConfirmSales(db, o).db, o, SalesConfirmed);
  }

  lemma CreateSalesStaysQuiet(db: Db, o: Id, customer: Id, warehouse: Id)
    requires CreateSales(db, o, customer, warehouse).Committed?
    ensures StaysQuiet(db, CreateSales(db, o, customer, warehouse).db)
  {
  }

  /** Order items play no part in what has to be quiet. */
  lemma ItemsStayQuiet(db: Db, next: Db)
    requires next == db.(salesItems := next.salesItems, purchaseItems := next.purchaseItems)
    ensures StaysQuiet(db, next)
  {
  }

  lemma SalesStepStaysQuiet(db: Db, op: Op)
    requires SalesOp(op) && Step(db, op).Committed?
    ensures StaysQuiet(db, Step(db, op).db)
  {
    match op
    case OpReserveSales(o, lines) => ReserveStaysQuiet(db, o, lines);
    case OpFulfillSales(o, doc, at, lines) => FulfillStaysQuiet(db, o, doc, at, lines);
    case OpCancelSales(o) => CancelStaysQuiet(db, o);
    case OpConfirmSales(o) => ConfirmStaysQuiet(db, o);
    case OpCreateSales(o, customer, w) => CreateSalesStaysQuiet(db, o, customer, w);
    case OpAddSalesItem(_, _, _, _) => ItemsStayQuiet(db, Step(db, op).db);
    case OpRemoveSalesItem(_, _) => ItemsStayQuiet(db, Step(db, op).db);
  }

  lemma SubmitStaysQuiet(db: Db, o: Id)
    requires SubmitPurchase(db, o).Committed?
    ensures StaysQuiet(db, SubmitPurchase(db, o).db)
  {
    SubmitLogs(db, o);
    PurchaseLoggedStaysQuiet(db, SubmitPurchase(db, o).db, o, PurchaseSubmitted);
  }

  lemma CancelPurchaseStaysQuiet(db: Db, o: Id)
    requires CancelPurchase(db, o).Committed?
    ensures StaysQuiet(db, CancelPurchase(db, o).db)
  {
    CancelPurchaseLogs(db, o);
    PurchaseLoggedStaysQuiet(db, CancelPurchase(db, o).db, o, PurchaseCancelled);
  }

  lemma CreatePurchaseStaysQuiet(db: Db, o: Id, supplier: Id, warehouse: Id)
    requires CreatePurchase(db, o, supplier, warehouse).Committed?
    ensures StaysQuiet(db, CreatePurchase(db, o, supplier, warehouse).db)
  {
  }

  lemma PurchaseStepStaysQuiet(db: Db, op: Op)
    requires PurchaseOp(op) && Step(db, op).Committed?
    ensures StaysQuiet(db, Step(db, op).db)
  {
    match op
    case OpReceivePurchase(o, doc, at, lines) => ReceiveStaysQuiet(db, o, doc, at, lines);
    case OpCreatePurchase(o, supplier, w) => CreatePurchaseStaysQuiet(db, o, supplier, w);
    case OpAddPurchaseItem(_, _, _, _) => ItemsStayQuiet(db, Step(db, op).db);
    case OpRemovePurchaseItem(_, _) => ItemsStayQuiet(db, Step(db, op).db);
    case OpSubmitPurchase(o) => SubmitStaysQuiet(db, o);
    case OpCancelPurchase(o) => CancelPurchaseStaysQuiet(db, o);
  }

  /** The deactivation guard looks at exactly what has to be quiet. */
  lemma DeactivationGuard(db: Db, w: Id)
    requires RowsOk(db.stock)
    ensures CheckDeactivation(db, w).None? <==> Quiet(db, w)
  {
  }

  lemma WarehouseStepQuiet(db: Db, w: Id, isActive: Option<bool>)
    requires RowsOk(db.stock) && InactiveQuiet(db) && UpdateWarehouse(db, w, isActive).Committed?
    ensures InactiveQuiet(UpdateWarehouse(db, w, isActive).db)
  {
    var next := UpdateWarehouse(db, w, isActive).db;
    DeactivationGuard(db, w);
    forall v | v in next.warehouses && !next.warehouses[v] ensures Quiet(next, v) {
      assert Quiet(db, v);
    }
  }

  /** A brand-new warehouse is active. */
  lemma CreateWarehouseQuiet(db: Db, w: Id)
    requires InactiveQuiet(db) && CreateWarehouse(db, w).Committed?
    ensures InactiveQuiet(CreateWarehouse(db, w).db)
  {
    var next := CreateWarehouse(db, w).db;
    forall v | v in next.warehouses && !next.warehouses[v] ensures Quiet(next, v) {
      assert Quiet(db, v);
    }
  }

  lemma StockStepStaysQuiet(db: Db, op: Op)
    requires StockOp(op) && Step(db, op).Committed?
    ensures StaysQuiet(db, Step(db, op).db)
  {
  }

  lemma FlagStepStaysQuiet(db: Db, op: Op)
    requires op.OpSetProduct? || op.OpSetCustomer? || op.OpSetSupplier?
    ensures Step(db, op).Committed? && StaysQuiet(db, Step(db, op).db)
  {
  }

  lemma StepInactiveQuiet(db: Db, op: Op)
    requires RowsOk(db.stock) && InactiveQuiet(db)
    ensures InactiveQuiet(After(db, Step(db, op)))
  {
    if Step(db, op).Committed? {
      if op.OpUpdateWarehouse? {
        WarehouseStepQuiet(db, op.warehouse, op.isActive);
      } else if op.OpCreateWarehouse? {
        CreateWarehouseQuiet(db, op.warehouse);
      } else {
        if StockOp(op) {
          StockStepStaysQuiet(db, op);
        } else if SalesOp(op) {
          SalesStepStaysQuiet(db, op);
        } else if PurchaseOp(op) {
          PurchaseStepStaysQuiet(db, op);
        } else {
          FlagStepStaysQuiet(db, op);
        }
        QuietnessKept(db, Step(db, op).db);
      }
    }
  }

  /** An order that is still open belongs to an active warehouse. */
  lemma OpenOrdersAtActiveWarehouses(db: Db)
    requires Schema(db) && InactiveQuiet(db)
    ensures forall o :: o in db.sales && OpenSale(db.sales[o].status) ==> Active(db.warehouses, db.sales[o].warehouse)
    ensures forall o :: o in db.purchases && OpenPurchase(db.purchases[o].status) ==>
              Active(db.warehouses, db.purchases[o].warehouse)
  {
    forall o | o in db.sales && OpenSale(db.sales[o].status) ensures Active(db.warehouses, db.sales[o].warehouse) {
      assert !db.warehouses[db.sales[o].warehouse] ==> Quiet(db, db.sales[o].warehouse);
    }
    forall o | o in db.purchases && OpenPurchase(db.purchases[o].status)
      ensures Active(db.warehouses, db.purchases[o].warehouse)
    {
      assert !db.warehouses[db.purchases[o].warehouse] ==> Quiet(db, db.purchases[o].warehouse);
    }
  }

  /** The "warehouse is inactive" branches of confirm, reserve, fulfill, submit and receive never fire. */
  lemma NeverInactive(db: Db, op: Op)
    requires Schema(db) && InactiveQuiet(db)
    requires op.OpConfirmSales? || op.OpReserveSales? || op.OpFulfillSales? || op.OpSubmitPurchase?
             || op.OpReceivePurchase?
    ensures Step(db, op) != Rejected(WarehouseInactive)
  {
    OpenOrdersAtActiveWarehouses(db);
  }
}
