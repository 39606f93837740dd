/**
  Calls that run without a transaction, statement by statement: their reads and their write are steps of their own,
  and anything may happen in between.
 */
module SplitCalls {
  import opened Ledger
  import opened LedgerSteps
  import opened ReservationProofs
  import opened StepSoundness
  import opened StockConservation
  import opened OrderStatus
  import opened OrderLog
  import opened LedgerRuns

  /** The reads such calls make before they write. */
  datatype Check =
    | SaleIsDraft(order: Id)
    | PurchaseIsDraft(order: Id)
    | ProductActive(product: Id)
    | CustomerActive(customer: Id)
    | SupplierActive(supplier: Id)
    | WarehouseActive(warehouse: Id)
    | WarehouseIdle(warehouse: Id)
    | NoStockAt(warehouse: Id)
    | NoOpenPurchasesAt(warehouse: Id)
    | NoOpenSalesAt(warehouse: Id)

  ghost predicate Passes(db: Db, check: Check) {
    match check
    case SaleIsDraft(o) => CheckSalesDraft(db, o).None?
    case PurchaseIsDraft(o) => CheckPurchaseDraft(db, o).None?
    case ProductActive(p) => Active(db.products, p)
    case CustomerActive(c) => Active(db.customers, c)
    case SupplierActive(p) => Active(db.suppliers, p)
    case WarehouseActive(w) => Active(db.warehouses, w)
    case WarehouseIdle(w) => w in db.warehouses && !db.warehouses[w]
    case NoStockAt(w) => forall k :: k in db.stock && k.warehouse == w ==> db.stock[k].quantity <= 0
    case NoOpenPurchasesAt(w) =>
      forall o :: o in db.purchases && db.purchases[o].warehouse == w ==> !OpenPurchase(db.purchases[o].status)
    case NoOpenSalesAt(w) => forall o :: o in db.sales && db.sales[o].warehouse == w ==> !OpenSale(db.sales[o].status)
  }

  /** What a call must have read before it writes. A transaction reads inside itself. */
  function Needs(op: Op): set<Check> {
    match op
    case OpSetReorderPoint(k, _) => {WarehouseActive(k.warehouse), ProductActive(k.product)}
    case OpCreateSales(_, c, w) => {CustomerActive(c), WarehouseActive(w)}
    case OpAddSalesItem(o, _, p, _) => {SaleIsDraft(o), ProductActive(p)}
    case OpRemoveSalesItem(o, _) => {SaleIsDraft(o)}
    case OpCreatePurchase(_, supplier, w) => {SupplierActive(supplier), WarehouseActive(w)}
    case OpAddPurchaseItem(o, _, p, _) => {PurchaseIsDraft(o), ProductActive(p)}
    case OpRemovePurchaseItem(o, _) => {PurchaseIsDraft(o)}
    case OpUpdateWarehouse(w, isActive) =>
      if isActive == Some(false) then {NoStockAt(w), NoOpenPurchasesAt(w), NoOpenSalesAt(w)} else {}
    case _ => {}
  }

  /** A deactivation that finds the warehouse inactive skips its guards. */
  function Instead(op: Op): set<Check> {
    if op.OpUpdateWarehouse? && op.isActive == Some(false) then {WarehouseIdle(op.warehouse)} else Needs(op)
  }

  /** The part of a call that changes tables: its last statement, or the whole transaction. */
  ghost function Statement(db: Db, op: Op): Outcome {
    match op
    case OpSetReorderPoint(k, point) => UpsertReorderPoint(db, k, point)
    case OpCreateSales(o, c, w) => InsertSales(db, o, c, w)
    case OpAddSalesItem(o, i, p, q) => InsertSalesItem(db, o, i, p, q)
    case OpRemoveSalesItem(o, i) => DeleteSalesItem(db, o, i)
    case OpCreatePurchase(o, supplier, w) => InsertPurchase(db, o, supplier, w)
    case OpAddPurchaseItem(o, i, p, q) => InsertPurchaseItem(db, o, i, p, q)
    case OpRemovePurchaseItem(o, i) => DeletePurchaseItem(db, o, i)
    case OpUpdateWarehouse(w, isActive) => WriteWarehouse(db, w, isActive)
    case _ => Step(db, op)
  }

  predicate Split(op: Op) {
    || op.OpSetReorderPoint? || op.OpCreateSales? || op.OpAddSalesItem? || op.OpRemoveSalesItem?
    || op.OpCreatePurchase? || op.OpAddPurchaseItem? || op.OpRemovePurchaseItem? || op.OpUpdateWarehouse?
  }

  /** The tables, and the reads that some caller has passed and may still act on. */
  datatype State = State(db: Db, passed: set<Check>)

  datatype SplitOp = Look(check: Check) | Write(op: Op)

  ghost predicate Enabled(s: State, op: SplitOp) {
    match op
    case Look(_) => true
    case Write(w) => WellFormed(w) && (Needs(w) <= s.passed || Instead(w) <= s.passed)
  }

  ghost function SplitStep(s: State, op: SplitOp): State {
    match op
    case Look(check) => if Passes(s.db, check) then s.(passed := s.passed + {check}) else s
    case Write(w) => s.(db := After(s.db, Statement(s.db, w)))
  }

  ghost function SplitRun(s: State, ops: seq<SplitOp>): State
    decreases |ops|
  {
    if ops == [] then s else SplitRun(SplitStep(s, ops[0]), ops[1..])
  }

  ghost predicate RunEnabled(s: State, ops: seq<SplitOp>)
    decreases |ops|
  {
    ops == [] || (Enabled(s, ops[0]) && RunEnabled(SplitStep(s, ops[0]), ops[1..]))
  }

  const START := State(EMPTY, {})

  // ---------------------------------------------------------------- atomic histories are split histories

  ghost predicate AllPass(db: Db, checks: set<Check>) {
    forall check :: check in checks ==> Passes(db, check)
  }

  /** Everything `op` reads would pass now. */
  ghost predicate Ready(db: Db, op: Op) {
    AllPass(db, Needs(op)) || AllPass(db, Instead(op))
  }

  /** With nothing in between, reads and write make up the atomic call. */
  lemma Uninterrupted(db: Db, op: Op)
    ensures Ready(db, op) ==> Statement(db, op) == Step(db, op)
    ensures !Ready(db, op) ==> Step(db, op).Rejected?
  {
    if Split(op) {
      if SalesOp(op) {
        UninterruptedSales(db, op);
      } else if PurchaseOp(op) {
        UninterruptedPurchase(db, op);
      } else if op.OpSetReorderPoint? {
        TwoChecks(db, WarehouseActive(op.key.warehouse), ProductActive(op.key.product));
      } else {
        UninterruptedUpdate(db, op.warehouse, op.isActive);
      }
    }
  }

  lemma UninterruptedSales(db: Db, op: Op)
    requires Split(op) && SalesOp(op)
    ensures Ready(db, op) ==> Statement(db, op) == Step(db, op)
    ensures !Ready(db, op) ==> Step(db, op).Rejected?
  {
    match op
    case OpCreateSales(_, c, w) => TwoChecks(db, CustomerActive(c), WarehouseActive(w));
    case OpAddSalesItem(o, _, p, _) => TwoChecks(db, SaleIsDraft(o), ProductActive(p));
    case OpRemoveSalesItem(o, _) => TwoChecks(db, SaleIsDraft(o), SaleIsDraft(o));
  }

  lemma UninterruptedPurchase(db: Db, op: Op)
    requires Split(op) && PurchaseOp(op)
    ensures Ready(db, op) ==> Statement(db, op) == Step(db, op)
    ensures !Ready(db, op) ==> Step(db, op).Rejected?
  {
    match op
    case OpCreatePurchase(_, supplier, w) => TwoChecks(db, SupplierActive(supplier), WarehouseActive(w));
    case OpAddPurchaseItem(o, _, p, _) => TwoChecks(db, PurchaseIsDraft(o), ProductActive(p));
    case OpRemovePurchaseItem(o, _) => TwoChecks(db, PurchaseIsDraft(o), PurchaseIsDraft(o));
  }

  lemma TwoChecks(db: Db, a: Check, b: Check)
    ensures AllPass(db, {a, b}) <==> Passes(db, a) && Passes(db, b)
  {
    assert a in {a, b} && b in {a, b};
  }

  lemma UninterruptedUpdate(db: Db, w: Id, isActive: Option<bool>)
    ensures var op := OpUpdateWarehouse(w, isActive);
            && (Ready(db, op) ==> Statement(db, op) == Step(db, op))
            && (!Ready(db, op) ==> Step(db, op).Rejected?)
  {
    var op := OpUpdateWarehouse(w, isActive);
    if isActive == Some(false) {
      assert NoStockAt(w) in Needs(op) && NoOpenPurchasesAt(w) in Needs(op) && NoOpenSalesAt(w) in Needs(op);
      assert WarehouseIdle(w) in Instead(op);
      assert AllPass(db, Needs(op)) <==> CheckDeactivation(db, w).None?;
      assert AllPass(db, Instead(op)) <==> Passes(db, WarehouseIdle(w));
    }
  }

  lemma {:induction false} RunThen(s: State, ops: seq<SplitOp>, more: seq<SplitOp>)
    requires RunEnabled(s, ops) && RunEnabled(SplitRun(s, ops), more)
    ensures RunEnabled(s, ops + more) && SplitRun(s, ops + more) == SplitRun(SplitRun(s, ops), more)
    decreases |ops|
  {
    if ops == [] {
      assert ops + more == more;
    } else {
      assert (ops + more)[1..] == ops[1..] + more;
      RunThen(SplitStep(s, ops[0]), ops[1..], more);
    }
  }

  lemma {:induction false} LookAll(s: State, checks: set<Check>) returns (looks: seq<SplitOp>)
    requires AllPass(s.db, checks)
    ensures RunEnabled(s, looks) && SplitRun(s, looks) == s.(passed := s.passed + checks)
    decreases |checks|
  {
    if checks == {} {
      looks := [];
      assert s.passed + checks == s.passed;
    } else {
      var check :| check in checks;
      var next := SplitStep(s, Look(check));
      var rest := LookAll(next, checks - {check});
      looks := [Look(check)] + rest;
      assert looks[1..] == rest;
      assert next.passed + (checks - {check}) == s.passed + checks;
    }
  }

  /** One atomic call as a split run: all its reads and then its write, or nothing when it is refused. */
  lemma AtomicCall(s: State, op: Op) returns (ops: seq<SplitOp>)
    requires WellFormed(op)
    ensures RunEnabled(s, ops) && SplitRun(s, ops).db == After(s.db, Step(s.db, op))
  {
    Uninterrupted(s.db, op);
    if Ready(s.db, op) {
      var looks := LookAll(s, if AllPass(s.db, Needs(op)) then Needs(op) else Instead(op));
      var ready := SplitRun(s, looks);
      assert SplitRun(SplitStep(ready, Write(op)), []) == SplitStep(ready, Write(op));
      RunThen(s, looks, [Write(op)]);
      ops := looks + [Write(op)];
    } else {
      ops := [];
    }
  }

  /** Every history of atomic transactions is one of the split histories. */
  lemma {:induction false} AtomicHistory(calls: seq<Op>) returns (ops: seq<SplitOp>)
    requires AllWellFormed(calls)
    ensures RunEnabled(START, ops) && SplitRun(START, ops).db == Run(EMPTY, calls)
    decreases |calls|
  {
    if calls == [] {
      ops := [];
    } else {
      var first := AtomicHistory(calls[..|calls| - 1]);
      var last := AtomicCall(SplitRun(START, first), calls[|calls| - 1]);
      RunThen(START, first, last);
      ops := first + last;
    }
  }

  // ---------------------------------------------------------------- the laws that remain

  ghost predicate DraftsUntouched(db: Db) {
    forall o :: o in db.sales && db.sales[o].status.SoDraft? ==> Untouched(db.salesItems, o)
  }

  /** What is left of the laws of the ledger when reads and writes come apart. */
  ghost predicate WeakInv(db: Db) {
    && Sound(db)
    && (forall k :: Leak(db, k) >= 0)
    && Conserved(db)
    && DraftsUntouched(db)
  }

  /** What one write strands at `k`. */
  ghost function Stranded(db: Db, op: Op, k: Key): int
    requires Schema(db)
  {
    if op.OpRemoveSalesItem? then LostBy(db, op.order, op.item, k) else 0
  }

  ghost predicate WriteAccounted(db: Db, op: Op, next: Db)
    requires Schema(db)
  {
    Sound(next) && forall k :: Leak(next, k) == Leak(db, k) + Stranded(db, op, k)
  }

  lemma DeleteAccounted(db: Db, o: Id, i: Id)
    requires Sound(db)
    ensures WriteAccounted(db, OpRemoveSalesItem(o, i), After(db, DeleteSalesItem(db, o, i)))
  {
    DeleteSalesItemEffect(db, o, i, Key(0, 0));
    forall k ensures Leak(After(db, DeleteSalesItem(db, o, i)), k) == Leak(db, k) + LostBy(db, o, i, k) {
      DeleteSalesItemEffect(db, o, i, k);
    }
  }

  lemma KeptIsAccounted(db: Db, op: Op, r: Outcome)
    requires Sound(db) && Keeps(db, r) && !op.OpRemoveSalesItem?
    ensures WriteAccounted(db, op, After(db, r))
  {
  }

  lemma StatementKeeps(db: Db, op: Op)
    requires Sound(db) && Split(op) && !op.OpRemoveSalesItem?
    ensures Keeps(db, Statement(db, op))
  {
    match op
    case OpSetReorderPoint(k, point) => UpsertReorderPointKeeps(db, k, point);
    case OpCreateSales(o, c, w) => InsertSalesKeeps(db, o, c, w);
    case OpAddSalesItem(o, i, p, q) => InsertSalesItemKeeps(db, o, i, p, q);
    case OpCreatePurchase(o, supplier, w) => InsertPurchaseKeeps(db, o, supplier, w);
    case OpAddPurchaseItem(o, i, p, q) => InsertPurchaseItemKeeps(db, o, i, p, q);
    case OpRemovePurchaseItem(o, i) => DeletePurchaseItemKeeps(db, o, i);
    case OpUpdateWarehouse(w, isActive) =>
      WriteWarehouseFlags(db, w, isActive);
      FlagsOnly(db, After(db, WriteWarehouse(db, w, isActive)));
  }

  lemma StatementAccounted(db: Db, op: Op)
    requires Sound(db)
    ensures WriteAccounted(db, op, After(db, Statement(db, op)))
  {
    if op.OpRemoveSalesItem? {
      DeleteAccounted(db, op.order, op.item);
    } else if Split(op) {
      StatementKeeps(db, op);
      KeptIsAccounted(db, op, Statement(db, op));
    } else {
      StepAccounted(db, op);
    }
  }

  lemma StatementConserves(db: Db, op: Op)
    requires Conserved(db)
    ensures Conserved(After(db, Statement(db, op)))
  {
    if !Split(op) {
      StepConserves(db, op);
    } else if SalesOp(op) {
      SalesStatementConserves(db, op);
    } else {
      OtherStatementConserves(db, op);
    }
  }

  lemma SalesStatementConserves(db: Db, op: Op)
    requires Conserved(db) && Split(op) && SalesOp(op)
    ensures ConservedAfter(Statement(db, op))
  {
    match op
    case OpCreateSales(o, c, w) => InsertSalesConserves(db, o, c, w);
    case OpAddSalesItem(o, i, p, q) => InsertSalesItemConserves(db, o, i, p, q);
    case OpRemoveSalesItem(o, i) => DeleteSalesItemConserves(db, o, i);
  }

  lemma OtherStatementConserves(db: Db, op: Op)
    requires Conserved(db) && Split(op) && !SalesOp(op)
    ensures ConservedAfter(Statement(db, op))
  {
    match op
    case OpSetReorderPoint(k, point) => UpsertReorderPointConserves(db, k, point);
    case OpCreatePurchase(o, supplier, w) => InsertPurchaseConserves(db, o, supplier, w);
    case OpAddPurchaseItem(o, i, p, q) => InsertPurchaseItemConserves(db, o, i, p, q);
    case OpRemovePurchaseItem(o, i) => DeletePurchaseItemConserves(db, o, i);
    case OpUpdateWarehouse(w, isActive) => WriteWarehouseFlags(db, w, isActive);
  }

  // ---------------------------------------------------------------- drafts stay untouched

  lemma ReserveKeepsDrafts(db: Db, o: Id, lines: seq<Line>)
    requires DraftsUntouched(db) && ReserveSales(db, o, lines).Committed?
    ensures DraftsUntouched(ReserveSales(db, o, lines).db)
  {
    var next := ReserveSales(db, o, lines).db;
    ReserveLogs(db, o, lines);
    forall p | p in next.sales && next.sales[p].status.SoDraft? ensures Untouched(next.salesItems, p) {
      ReserveLeavesOthers(db, o, lines, p);
    }
  }

  lemma FulfillKeepsDrafts(db: Db, o: Id, doc: Id, at: Time, lines: seq<Line>)
    requires DraftsUntouched(db) && FulfillSales(db, o, doc, at, lines).Committed?
    ensures DraftsUntouched(FulfillSales(db, o, doc, at, lines).db)
  {
    var next := FulfillSales(db, o, doc, at, lines).db;
    FulfillLogs(db, o, doc, at, lines);
    forall p | p in next.sales && next.sales[p].status.SoDraft? ensures Untouched(next.salesItems, p) {
      FulfillLeavesOthers(db, o, doc, at, lines, p);
    }
  }

  lemma InsertKeepsDrafts(db: Db, o: Id, customer: Id, warehouse: Id)
    requires Schema(db) && DraftsUntouched(db) && InsertSales(db, o, customer, warehouse).Committed?
    ensures DraftsUntouched(InsertSales(db, o, customer, warehouse).db)
  {
  }

  lemma ConfirmKeepsDrafts(db: Db, o: Id)
    requires DraftsUntouched(db) && ConfirmSales(db, o).Committed?
    ensures DraftsUntouched(ConfirmSales(db, o).db)
  {
  }

  lemma CancelKeepsDrafts(db: Db, o: Id)
    requires DraftsUntouched(db) && CancelSales(db, o).Committed?
    ensures DraftsUntouched(CancelSales(db, o).db)
  {
  }

  lemma TransitionKeepsDrafts(db: Db, op: Op)
    requires DraftsUntouched(db) && SalesOp(op) && !Split(op) && Step(db, op).Committed?
    ensures DraftsUntouched(Step(db, op).db)
  {
    match op
    case OpReserveSales(o, lines) => ReserveKeepsDrafts(db, o, lines);
    case OpFulfillSales(o, doc, at, lines) => FulfillKeepsDrafts(db, o, doc, at, lines);
    case OpConfirmSales(o) => ConfirmKeepsDrafts(db, o);
    case OpCancelSales(o) => CancelKeepsDrafts(db, o);
  }

  lemma EditKeepsDrafts(db: Db, op: Op)
    requires Schema(db) && DraftsUntouched(db) && SalesOp(op) && Split(op) && Statement(db, op).Committed?
    ensures DraftsUntouched(Statement(db, op).db)
  {
    if op.OpCreateSales? {
      InsertKeepsDrafts(db, op.order, op.customer, op.warehouse);
    }
  }

  /** Writes of other calls never touch sales orders. */
  lemma StatementKeepsSales(db: Db, op: Op)
    requires !SalesOp(op)
    ensures SameSales(db, Statement(db, op))
  {
    if !Split(op) {
      NotSalesOp(db, op);
    }
  }

  lemma StatementKeepsDrafts(db: Db, op: Op)
    requires Schema(db) && DraftsUntouched(db)
    ensures DraftsUntouched(After(db, Statement(db, op)))
  {
    if !SalesOp(op) {
      StatementKeepsSales(db, op);
    } else if Statement(db, op).Committed? {
      if Split(op) {
        EditKeepsDrafts(db, op);
      } else {
        TransitionKeepsDrafts(db, op);
      }
    }
  }

  lemma LeaksStayNonNegative(db: Db, op: Op, next: Db)
    requires Sound(db) && (forall k :: Leak(db, k) >= 0) && WriteAccounted(db, op, next)
    ensures forall k :: Leak(next, k) >= 0
  {
    forall k ensures Stranded(db, op, k) >= 0 {
    }
  }

  lemma StepWeakInv(s: State, op: SplitOp)
    requires WeakInv(s.db)
    ensures WeakInv(SplitStep(s, op).db)
  {
    if op.Write? {
      StatementAccounted(s.db, op.op);
      LeaksStayNonNegative(s.db, op.op, SplitStep(s, op).db);
      StatementConserves(s.db, op.op);
      StatementKeepsDrafts(s.db, op.op);
    }
  }

  lemma {:induction false} RunWeakInv(s: State, ops: seq<SplitOp>)
    requires WeakInv(s.db) && RunEnabled(s, ops)
    ensures WeakInv(SplitRun(s, ops).db)
    decreases |ops|
  {
    if ops != [] {
      StepWeakInv(s, ops[0]);
      RunWeakInv(SplitStep(s, ops[0]), ops[1..]);
    }
  }

  lemma StartWeakInv()
    ensures WeakInv(START.db) && forall k :: Leak(START.db, k) == 0
  {
    EmptyInv();
  }

  // ---------------------------------------------------------------- events

  /** The item calls write order items and nothing else. */
  predicate ItemEdit(op: Op) {
    op.OpAddSalesItem? || op.OpRemoveSalesItem? || op.OpAddPurchaseItem? || op.OpRemovePurchaseItem?
  }

  lemma ItemEditsOnly(db: Db, op: Op)
    requires ItemEdit(op)
    ensures var next := After(db, Statement(db, op));
            next == db.(salesItems := next.salesItems, purchaseItems := next.purchaseItems)
  {
  }

  lemma StatementUnpublished(db: Db, op: Op)
    requires Split(op)
    ensures Unpublished(db, After(db, Statement(db, op)))
  {
    if ItemEdit(op) {
      ItemEditsOnly(db, op);
      ItemsPublishNothing(db, After(db, Statement(db, op)));
    }
  }

  lemma StepEvents(s: State, op: SplitOp)
    requires EventsMatch(s.db)
    ensures EventsMatch(SplitStep(s, op).db)
  {
    if op.Write? {
      if Split(op.op) {
        StatementUnpublished(s.db, op.op);
        UnpublishedMatches(s.db, SplitStep(s, op).db);
      } else {
        StepEventsMatch(s.db, op.op);
      }
    }
  }

  /** Statuses and latest events agree over every interleaving. */
  lemma {:induction false} RunEvents(s: State, ops: seq<SplitOp>)
    requires EventsMatch(s.db)
    ensures EventsMatch(SplitRun(s, ops).db)
    decreases |ops|
  {
    if ops != [] {
      StepEvents(s, ops[0]);
      RunEvents(SplitStep(s, ops[0]), ops[1..]);
    }
  }

  /** Over every interleaving: row bounds, reserved stock at least what items hold, conservation, statuses as in the
      latest events, and no defensive branch. */
  lemma SplitLaw(ops: seq<SplitOp>, op: Op)
    requires RunEnabled(START, ops)
    requires op.OpFulfillSales? || op.OpCancelSales?
    ensures var db := SplitRun(START, ops).db;
            && (forall k :: k in db.stock ==> 0 <= db.stock[k].reserved <= db.stock[k].quantity)
            && (forall k :: ReservedAt(db.stock, k) >= ItemsReserved(db.sales, db.salesItems, k))
            && Conserved(db) && EventsMatch(db)
            && Step(db, op) !in {Rejected(ReservationMissing), Rejected(ReservationInconsistent)}
  {
    StartWeakInv();
    EmptyInv();
    RunWeakInv(START, ops);
    RunEvents(START, ops);
    var db := SplitRun(START, ops).db;
    forall k ensures ReservedAt(db.stock, k) >= ItemsReserved(db.sales, db.salesItems, k) {
      assert Leak(db, k) >= 0;
    }
    NeverInconsistent(db, op);
  }
}
