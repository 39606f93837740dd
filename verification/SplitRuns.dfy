/** Concrete histories, each from an empty ledger, in which late writes break the laws. */
module SplitRuns {
  import opened Ledger
  import opened LedgerSteps
  import opened OrderStatus
  import opened WarehouseActivity
  import opened LedgerRuns
  import opened SplitCalls

  const SHELF := Key(1, 1)

  /** One warehouse, two products, one customer, one supplier. */
  const SHOP := EMPTY.(warehouses := map[1 := true], products := map[1 := true, 2 := true],
                       customers := map[1 := true], suppliers := map[1 := true])

  /** A history from an empty ledger, and the state it leads to. */
  ghost predicate LeadsTo(ops: seq<SplitOp>, s: State) {
    RunEnabled(START, ops) && SplitRun(START, ops) == s
  }

  lemma Then(ops: seq<SplitOp>, s: State, op: SplitOp) returns (more: seq<SplitOp>, next: State)
    requires LeadsTo(ops, s) && Enabled(s, op)
    ensures LeadsTo(more, next) && next == SplitStep(s, op)
  {
    more, next := ops + [op], SplitStep(s, op);
    assert SplitRun(next, []) == next;
    RunThen(START, ops, [op]);
  }

  lemma ThenLook(ops: seq<SplitOp>, s: State, checks: set<Check>) returns (more: seq<SplitOp>, next: State)
    requires LeadsTo(ops, s) && AllPass(s.db, checks)
    ensures LeadsTo(more, next) && next == s.(passed := s.passed + checks)
  {
    var looks := LookAll(s, checks);
    more, next := ops + looks, SplitRun(s, looks);
    RunThen(START, ops, looks);
  }

  lemma ThenWarehouse(ops: seq<SplitOp>, s: State, w: Id) returns (more: seq<SplitOp>, next: State)
    requires LeadsTo(ops, s) && w !in s.db.warehouses
    ensures LeadsTo(more, next) && next == s.(db := s.db.(warehouses := s.db.warehouses[w := true]))
  {
    more, next := Then(ops, s, Write(OpCreateWarehouse(w)));
  }

  lemma ThenProduct(ops: seq<SplitOp>, s: State, p: Id) returns (more: seq<SplitOp>, next: State)
    requires LeadsTo(ops, s)
    ensures LeadsTo(more, next) && next == s.(db := s.db.(products := s.db.products[p := true]))
  {
    more, next := Then(ops, s, Write(OpSetProduct(p, true)));
  }

  lemma ThenPartners(ops: seq<SplitOp>, s: State, p: Id) returns (more: seq<SplitOp>, next: State)
    requires LeadsTo(ops, s)
    ensures LeadsTo(more, next)
    ensures next == s.(db := s.db.(customers := s.db.customers[p := true], suppliers := s.db.suppliers[p := true]))
  {
    var o1, s1 := Then(ops, s, Write(OpSetCustomer(p, true)));
    more, next := Then(o1, s1, Write(OpSetSupplier(p, true)));
  }

  lemma Shop() returns (ops: seq<SplitOp>, s: State)
    ensures LeadsTo(ops, s) && s == State(SHOP, {})
  {
    var o1, s1 := ThenWarehouse([], START, 1);
    var o2, s2 := ThenProduct(o1, s1, 1);
    var o3, s3 := ThenProduct(o2, s2, 2);
    ops, s := ThenPartners(o3, s3, 1);
    assert s.db.products == map[1 := true, 2 := true];
  }

  // ---------------------------------------------------------------- one order, and everything still pending

  /** The reads of pending calls: a removal, two additions, and a deactivation made before the order existed. */
  const PENDING := {SaleIsDraft(1), ProductActive(1), ProductActive(2), NoStockAt(1), NoOpenPurchasesAt(1),
                    NoOpenSalesAt(1)}

  const DRAFT := SHOP.(sales := map[1 := SalesOrder(1, 1, SoDraft, None)],
                       salesItems := map[1 := SalesItem(1, 1, 5000, 0, 0)])

  /** What a state has passed so far is never taken back. */
  ghost predicate Follows(ops: seq<SplitOp>, s: State, before: State, db: Db) {
    LeadsTo(ops, s) && s.db == db && before.passed <= s.passed
  }

  lemma ThenGuards(ops: seq<SplitOp>, s: State) returns (more: seq<SplitOp>, next: State)
    requires LeadsTo(ops, s) && s.db == SHOP
    ensures Follows(more, next, s, SHOP) && {NoStockAt(1), NoOpenPurchasesAt(1), NoOpenSalesAt(1)} <= next.passed
  {
    assert AllPass(SHOP, {NoStockAt(1), NoOpenPurchasesAt(1), NoOpenSalesAt(1)});
    more, next := ThenLook(ops, s, {NoStockAt(1), NoOpenPurchasesAt(1), NoOpenSalesAt(1)});
  }

  lemma ThenOrder(ops: seq<SplitOp>, s: State) returns (more: seq<SplitOp>, next: State)
    requires LeadsTo(ops, s) && s.db == SHOP
    ensures Follows(more, next, s, SHOP.(sales := map[1 := SalesOrder(1, 1, SoDraft, None)]))
  {
    assert AllPass(SHOP, {CustomerActive(1), WarehouseActive(1)});
    var o1, s1 := ThenLook(ops, s, {CustomerActive(1), WarehouseActive(1)});
    more, next := Then(o1, s1, Write(OpCreateSales(1, 1, 1)));
  }

  lemma ThenItem(ops: seq<SplitOp>, s: State) returns (more: seq<SplitOp>, next: State)
    requires LeadsTo(ops, s) && s.db == SHOP.(sales := map[1 := SalesOrder(1, 1, SoDraft, None)])
    ensures Follows(more, next, s, DRAFT) && {SaleIsDraft(1), ProductActive(1), ProductActive(2)} <= next.passed
  {
    assert AllPass(s.db, {SaleIsDraft(1)}) && AllPass(s.db, {ProductActive(1), ProductActive(2)});
    var o1, s1 := ThenLook(ops, s, {SaleIsDraft(1)});
    var o2, s2 := ThenLook(o1, s1, {ProductActive(1), ProductActive(2)});
    more, next := Then(o2, s2, Write(OpAddSalesItem(1, 1, 1, 5000)));
  }

  /** A draft of five units of product 1. */
  lemma Draft() returns (ops: seq<SplitOp>, s: State)
    ensures LeadsTo(ops, s) && s.db == DRAFT && PENDING <= s.passed
  {
    var o0, s0 := Shop();
    var o1, s1 := ThenGuards(o0, s0);
    var o2, s2 := ThenOrder(o1, s1);
    ops, s := ThenItem(o2, s2);
  }

  /** The deactivation is written although the warehouse has an open order by then, whose confirmation is refused. */
  lemma WarehouseLawCanBeLost() returns (ops: seq<SplitOp>)
    ensures RunEnabled(START, ops)
    ensures SplitRun(START, ops).db == DRAFT.(warehouses := map[1 := false])
    ensures !InactiveQuiet(SplitRun(START, ops).db)
    ensures Step(SplitRun(START, ops).db, OpConfirmSales(1)) == Rejected(WarehouseInactive)
  {
    var o, d := Draft();
    var s;
    ops, s := Then(o, d, Write(OpUpdateWarehouse(1, Some(false))));
    assert s.db.warehouses == map[1 := false];
    assert !Quiet(s.db, 1);
    assert 1 in s.db.salesItems && s.db.salesItems[1].order == 1;
  }

  // ---------------------------------------------------------------- the order reserved before a pending write

  /** A reservation of the whole of the one item. */
  lemma ReserveOne(db: Db)
    requires db.sales == map[1 := SalesOrder(1, 1, SoConfirmed, None)] && db.warehouses == map[1 := true]
    requires db.salesItems == map[1 := SalesItem(1, 1, 5000, 0, 0)] && db.stock == map[SHELF := Stock(5000, 0, 0)]
    ensures ReserveLines(db, 1, [Line(1, 5000)])
         == Committed(db.(salesItems := map[1 := SalesItem(1, 1, 5000, 5000, 0)],
                          stock := map[SHELF := Stock(5000, 5000, 0)]))
    ensures CheckReserve(db.salesItems, 1, [Line(1, 5000)]).None?
  {
    var lines := [Line(1, 5000)];
    var held := ReserveLine(db, 1, lines[0]).db;
    assert lines[1..] == [];
    assert ReserveLines(held, 1, []) == Committed(held);
  }

  lemma ThenReserve(ops: seq<SplitOp>, s: State) returns (more: seq<SplitOp>, next: State)
    requires LeadsTo(ops, s)
    requires s.db.sales == map[1 := SalesOrder(1, 1, SoConfirmed, None)] && s.db.warehouses == map[1 := true]
    requires s.db.salesItems == map[1 := SalesItem(1, 1, 5000, 0, 0)] && s.db.stock == map[SHELF := Stock(5000, 0, 0)]
    ensures LeadsTo(more, next) && next.passed == s.passed
    ensures next.db.sales == map[1 := SalesOrder(1, 1, SoReserved, None)] && next.db.products == s.db.products
    ensures next.db.salesItems == map[1 := SalesItem(1, 1, 5000, 5000, 0)]
    ensures next.db.stock == map[SHELF := Stock(5000, 5000, 0)] && next.db.fulfillmentLines == s.db.fulfillmentLines
  {
    ReserveOne(s.db);
    assert ReservationStatus(map[1 := SalesItem(1, 1, 5000, 5000, 0)], 1) == SoReserved;
    more, next := Then(ops, s, Write(OpReserveSales(1, [Line(1, 5000)])));
  }

  /** The order after its confirmation and reservation, with the reads of `PENDING` still to be acted on. */
  lemma Reserved() returns (ops: seq<SplitOp>, s: State)
    ensures LeadsTo(ops, s) && PENDING <= s.passed
    ensures s.db.sales == map[1 := SalesOrder(1, 1, SoReserved, None)] && s.db.products == SHOP.products
    ensures s.db.salesItems == map[1 := SalesItem(1, 1, 5000, 5000, 0)] && s.db.fulfillmentLines == []
    ensures s.db.stock == map[SHELF := Stock(5000, 5000, 0)]
  {
    var o0, s0 := Draft();
    var o1, s1 := Then(o0, s0, Write(OpReceiveStock(SHELF, 5000, 1, 0)));
    assert s1.db.stock == map[SHELF := Stock(5000, 0, 0)];
    assert 1 in s1.db.salesItems && s1.db.salesItems[1].order == 1;
    var o2, s2 := Then(o1, s1, Write(OpConfirmSales(1)));
    assert s2.db.sales == map[1 := SalesOrder(1, 1, SoConfirmed, None)];
    ops, s := ThenReserve(o2, s2);
  }

  /** The pending removal is written: five units stay reserved for nobody, and the order is RESERVED without an item. */
  lemma EqualityCanBeLost() returns (ops: seq<SplitOp>)
    ensures RunEnabled(START, ops)
    ensures ReservedAt(SplitRun(START, ops).db.stock, SHELF) == 5000
    ensures SplitRun(START, ops).db.salesItems == map[]
    ensures !ReservationsBalanced(SplitRun(START, ops).db)
    ensures !SalesFits(SplitRun(START, ops).db)
  {
    var o, r := Reserved();
    var s;
    ops, s := Then(o, r, Write(OpRemoveSalesItem(1, 1)));
    NobodyHolds(s.db);
    assert 1 in s.db.sales && !SalesFit(s.db.salesItems, 1, s.db.sales[1].status);
  }

  lemma NobodyHolds(db: Db)
    requires db.salesItems == map[] && db.stock == map[SHELF := Stock(5000, 5000, 0)]
    ensures !ReservationsBalanced(db)
  {
    assert Holds(db.sales, db.salesItems, SHELF) == map[];
    assert Leak(db, SHELF) == 5000;
  }

  /** A pending addition is written: the order says RESERVED, the new item holds nothing. */
  lemma StatusCanBeLost() returns (ops: seq<SplitOp>)
    ensures RunEnabled(START, ops)
    ensures SplitRun(START, ops).db.sales == map[1 := SalesOrder(1, 1, SoReserved, None)]
    ensures SplitRun(START, ops).db.salesItems
            == map[1 := SalesItem(1, 1, 5000, 5000, 0), 2 := SalesItem(1, 2, 1000, 0, 0)]
    ensures !SalesFits(SplitRun(START, ops).db)
  {
    var o, r := Reserved();
    var s;
    ops, s := Then(o, r, Write(OpAddSalesItem(1, 2, 2, 1000)));
    assert s.db.salesItems[2] == SalesItem(1, 2, 1000, 0, 0);
    assert !SalesFit(s.db.salesItems, 1, SoReserved);
  }

  // ---------------------------------------------------------------- a purchase order submitted too early

  lemma ThenPurchase(ops: seq<SplitOp>, s: State) returns (more: seq<SplitOp>, next: State)
    requires LeadsTo(ops, s) && s.db == SHOP
    ensures Follows(more, next, s, SHOP.(purchases := map[1 := PurchaseOrder(1, 1, PoDraft, None)]))
  {
    assert AllPass(SHOP, {SupplierActive(1), WarehouseActive(1)});
    var o1, s1 := ThenLook(ops, s, {SupplierActive(1), WarehouseActive(1)});
    more, next := Then(o1, s1, Write(OpCreatePurchase(1, 1, 1)));
  }

  lemma ThenPurchaseItem(ops: seq<SplitOp>, s: State) returns (more: seq<SplitOp>, next: State)
    requires LeadsTo(ops, s) && s.db == SHOP.(purchases := map[1 := PurchaseOrder(1, 1, PoDraft, None)])
    ensures Follows(more, next, s, s.db.(purchaseItems := map[1 := PurchaseItem(1, 1, 5000, 0)]))
    ensures PurchaseIsDraft(1) in next.passed
  {
    assert AllPass(s.db, {PurchaseIsDraft(1)}) && AllPass(s.db, {ProductActive(1)});
    var o1, s1 := ThenLook(ops, s, {PurchaseIsDraft(1)});
    var o2, s2 := ThenLook(o1, s1, {ProductActive(1)});
    more, next := Then(o2, s2, Write(OpAddPurchaseItem(1, 1, 1, 5000)));
  }

  lemma ThenSubmit(ops: seq<SplitOp>, s: State) returns (more: seq<SplitOp>, next: State)
    requires LeadsTo(ops, s)
    requires s.db == SHOP.(purchases := map[1 := PurchaseOrder(1, 1, PoDraft, None)],
                           purchaseItems := map[1 := PurchaseItem(1, 1, 5000, 0)])
    ensures LeadsTo(more, next) && next.passed == s.passed && next.db.receiptLines == []
    ensures next.db.purchases == map[1 := PurchaseOrder(1, 1, PoSubmitted, None)]
    ensures next.db.purchaseItems == map[1 := PurchaseItem(1, 1, 5000, 0)]
  {
    assert 1 in s.db.purchaseItems && s.db.purchaseItems[1].order == 1;
    more, next := Then(ops, s, Write(OpSubmitPurchase(1)));
  }

  /** The pending removal of the only item is written after the submission: a SUBMITTED order without items. */
  lemma PurchaseStatusCanBeLost() returns (ops: seq<SplitOp>)
    ensures RunEnabled(START, ops)
    ensures SplitRun(START, ops).db.purchases == map[1 := PurchaseOrder(1, 1, PoSubmitted, None)]
    ensures SplitRun(START, ops).db.purchaseItems == map[]
    ensures !PurchasesFit(SplitRun(START, ops).db)
  {
    var o0, s0 := Shop();
    var o1, s1 := ThenPurchase(o0, s0);
    var o2, s2 := ThenPurchaseItem(o1, s1);
    var o3, s3 := ThenSubmit(o2, s2);
    var s;
    ops, s := Then(o3, s3, Write(OpRemovePurchaseItem(1, 1)));
    assert s.db.purchaseItems == map[];
    assert !PurchaseFit(s.db.purchaseItems, 1, PoSubmitted);
  }
}
