/** Which laws of the ledger late writes break, and when exactly a whole history keeps them. */
module SplitLaws {
  import opened Ledger
  import opened LedgerSteps
  import opened ReservationProofs
  import opened StepSoundness
  import opened StockConservation
  import opened OrderStatus
  import opened OrderLog
  import opened WarehouseActivity
  import opened LedgerRuns
  import opened SplitCalls

  /** The laws that split calls can break. */
  datatype Law = Reservations | Statuses | Warehouses

  ghost predicate Holds(law: Law, db: Db) {
    match law
    case Reservations => ReservationsBalanced(db)
    case Statuses => SalesFits(db) && PurchasesFit(db)
    case Warehouses => InactiveQuiet(db)
  }

  // ---------------------------------------------------------------- the writes that break one

  /** A delete that takes reserved stock with it. */
  ghost predicate Strands(db: Db, op: Op) {
    op.OpRemoveSalesItem? && DeleteSalesItem(db, op.order, op.item).Committed? && db.salesItems[op.item].reserved > 0
  }

  /** What must remain of sales order `o` when item `i` goes, for its status to stay true. */
  ghost predicate Spares(items: map<Id, SalesItem>, o: Id, i: Id, status: SalesStatus) {
    match status
    case SoConfirmed => exists j :: j in items && j != i && items[j].order == o
    case SoReserved => exists j :: j in items && j != i && items[j].order == o
    case SoPartiallyReserved =>
      && (exists j :: j in items && j != i && items[j].order == o && items[j].reserved > 0)
      && (exists j :: j in items && j != i && items[j].order == o && items[j].reserved < items[j].ordered)
    case SoPartiallyFulfilled =>
      exists j :: j in items && j != i && items[j].order == o && items[j].fulfilled < items[j].ordered
    case _ => true
  }

  /** The same for a purchase order. */
  ghost predicate PurchaseSpares(items: map<Id, PurchaseItem>, o: Id, i: Id, status: PurchaseStatus) {
    match status
    case PoSubmitted => exists j :: j in items && j != i && items[j].order == o
    case PoPartiallyReceived =>
      exists j :: j in items && j != i && items[j].order == o && items[j].received < items[j].ordered
    case _ => true
  }

  /** An item write that contradicts the status of its order. */
  ghost predicate Misfits(db: Db, op: Op) {
    Statement(db, op).Committed?
    && match op
       case OpAddSalesItem(o, _, _, _) => o in db.sales && db.sales[o].status in {SoReserved, SoFulfilled}
       case OpRemoveSalesItem(o, i) => o in db.sales && !Spares(db.salesItems, o, i, db.sales[o].status)
       case OpAddPurchaseItem(o, _, _, _) => o in db.purchases && db.purchases[o].status.PoReceived?
       case OpRemovePurchaseItem(o, i) =>
         o in db.purchases && !PurchaseSpares(db.purchaseItems, o, i, db.purchases[o].status)
       case _ => false
  }

  /** An order created at an inactive warehouse, or a deactivation of a warehouse in use. */
  ghost predicate Disturbs(db: Db, op: Op) {
    Statement(db, op).Committed?
    && match op
       case OpCreateSales(_, _, w) => !Active(db.warehouses, w)
       case OpCreatePurchase(_, _, w) => !Active(db.warehouses, w)
       case OpUpdateWarehouse(w, isActive) => isActive == Some(false) && !Quiet(db, w)
       case _ => false
  }

  ghost predicate Breaks(law: Law, db: Db, op: Op) {
    match law
    case Reservations => Strands(db, op)
    case Statuses => Misfits(db, op)
    case Warehouses => Disturbs(db, op)
  }

  // ---------------------------------------------------------------- reservations, one write

  lemma AccountedBalance(db: Db, op: Op, next: Db)
    requires Sound(db) && ReservationsBalanced(db) && WriteAccounted(db, op, next)
    ensures ReservationsBalanced(next) <==> !Strands(db, op)
  {
    if Strands(db, op) {
      assert Leak(next, ItemKey(db, db.salesItems[op.item])) > 0;
    } else {
      forall k ensures Leak(next, k) == 0 {
        assert Leak(db, k) == 0;
      }
    }
  }

  lemma ReservationsStep(db: Db, op: Op)
    requires WeakInv(db) && ReservationsBalanced(db)
    ensures ReservationsBalanced(After(db, Statement(db, op))) <==> !Strands(db, op)
  {
    StatementAccounted(db, op);
    AccountedBalance(db, op, After(db, Statement(db, op)));
  }

  // ---------------------------------------------------------------- statuses, one write

  /** A late add is harmless to the status of its order unless that status claims something of every item: it keeps the
      status law exactly when the order is neither RESERVED nor FULFILLED by then. */
  lemma LateAddAndStatus(db: Db, o: Id, i: Id, product: Id, ordered: int)
    requires SalesFits(db) && InsertSalesItem(db, o, i, product, ordered).Committed?
    ensures SalesFits(InsertSalesItem(db, o, i, product, ordered).db)
       <==> !db.sales[o].status.SoReserved? && !db.sales[o].status.SoFulfilled?
  {
    var next := InsertSalesItem(db, o, i, product, ordered).db;
    assert next.salesItems[i].order == o && next.salesItems[i].reserved == 0 && next.salesItems[i].fulfilled == 0;
    forall p | p in db.sales && p != o ensures SalesFit(next.salesItems, p, db.sales[p].status) {
      SalesFitFrame(db.salesItems, next.salesItems, p, db.sales[p].status);
    }
    LateAddFits(db.salesItems, next.salesItems, o, i, db.sales[o].status);
    assert SalesFits(next) ==> SalesFit(next.salesItems, o, next.sales[o].status);
  }

  lemma LateAddFits(items: map<Id, SalesItem>, next: map<Id, SalesItem>, o: Id, i: Id, status: SalesStatus)
    requires SalesFit(items, o, status) && i !in items && i in next && next == items[i := next[i]]
    requires next[i].order == o && next[i].reserved == next[i].fulfilled == 0 < next[i].ordered
    ensures SalesFit(next, o, status) <==> !status.SoReserved? && !status.SoFulfilled?
  {
    assert forall j :: j in items ==> j in next && next[j] == items[j];
  }

  lemma LateDeleteFits(items: map<Id, SalesItem>, o: Id, i: Id, status: SalesStatus)
    requires SalesFit(items, o, status) && i in items && items[i].order == o
    requires items[i].fulfilled == 0 < items[i].ordered
    ensures SalesFit(items - {i}, o, status) <==> Spares(items, o, i, status)
  {
    var next := items - {i};
    assert forall j :: j in next <==> j in items && j != i;
    assert forall j :: j in next ==> next[j] == items[j];
  }

  /** A late delete keeps the status law exactly when the items that remain still bear the status out. An item with
      something shipped cannot be deleted at all. */
  lemma LateDeleteAndStatus(db: Db, o: Id, i: Id)
    requires Sound(db) && Conserved(db) && SalesFits(db) && DeleteSalesItem(db, o, i).Committed?
    ensures SalesFits(DeleteSalesItem(db, o, i).db) <==> Spares(db.salesItems, o, i, db.sales[o].status)
  {
    var next := DeleteSalesItem(db, o, i).db;
    NoLinesNoSum(db.fulfillmentLines, i);
    forall p | p in db.sales && p != o ensures SalesFit(next.salesItems, p, db.sales[p].status) {
      SalesFitFrame(db.salesItems, next.salesItems, p, db.sales[p].status);
    }
    LateDeleteFits(db.salesItems, o, i, db.sales[o].status);
    assert SalesFits(next) ==> SalesFit(next.salesItems, o, next.sales[o].status);
  }

  /** The one status of a purchase order that a late add contradicts is RECEIVED. */
  lemma LatePurchaseAdd(db: Db, o: Id, i: Id, product: Id, ordered: int)
    requires PurchasesFit(db) && InsertPurchaseItem(db, o, i, product, ordered).Committed?
    ensures PurchasesFit(InsertPurchaseItem(db, o, i, product, ordered).db) <==> !db.purchases[o].status.PoReceived?
  {
    var next := InsertPurchaseItem(db, o, i, product, ordered).db;
    assert next.purchaseItems[i].order == o && next.purchaseItems[i].received == 0;
    forall p | p in db.purchases && p != o ensures PurchaseFit(next.purchaseItems, p, db.purchases[p].status) {
      PurchaseFitFrame(db.purchaseItems, next.purchaseItems, p, db.purchases[p].status);
    }
    LatePurchaseAddFits(db.purchaseItems, next.purchaseItems, o, i, db.purchases[o].status);
    assert PurchasesFit(next) ==> PurchaseFit(next.purchaseItems, o, next.purchases[o].status);
  }

  lemma LatePurchaseAddFits(items: map<Id, PurchaseItem>, next: map<Id, PurchaseItem>, o: Id, i: Id,
                            status: PurchaseStatus)
    requires PurchaseFit(items, o, status) && i !in items && i in next && next == items[i := next[i]]
    requires next[i].order == o && next[i].received == 0 < next[i].ordered
    ensures PurchaseFit(next, o, status) <==> !status.PoReceived?
  {
    assert forall j :: j in items ==> j in next && next[j] == items[j];
  }

  lemma LatePurchaseDeleteFits(items: map<Id, PurchaseItem>, o: Id, i: Id, status: PurchaseStatus)
    requires PurchaseFit(items, o, status) && i in items && items[i].order == o
    requires items[i].received == 0 < items[i].ordered
    ensures PurchaseFit(items - {i}, o, status) <==> PurchaseSpares(items, o, i, status)
  {
    var next := items - {i};
    assert forall j :: j in next <==> j in items && j != i;
    assert forall j :: j in next ==> next[j] == items[j];
  }

  /** A late delete leaves SUBMITTED true if another item remains, and PARTIALLY_RECEIVED if one not fully received
      does. An item with something received cannot be deleted at all. */
  lemma LatePurchaseDelete(db: Db, o: Id, i: Id)
    requires Sound(db) && Conserved(db) && PurchasesFit(db) && DeletePurchaseItem(db, o, i).Committed?
    ensures PurchasesFit(DeletePurchaseItem(db, o, i).db)
       <==> PurchaseSpares(db.purchaseItems, o, i, db.purchases[o].status)
  {
    var next := DeletePurchaseItem(db, o, i).db;
    NoLinesNoSum(db.receiptLines, i);
    forall p | p in db.purchases && p != o ensures PurchaseFit(next.purchaseItems, p, db.purchases[p].status) {
      PurchaseFitFrame(db.purchaseItems, next.purchaseItems, p, db.purchases[p].status);
    }
    LatePurchaseDeleteFits(db.purchaseItems, o, i, db.purchases[o].status);
    assert PurchasesFit(next) ==> PurchaseFit(next.purchaseItems, o, next.purchases[o].status);
  }

  lemma StatusesStep(db: Db, op: Op)
    requires WeakInv(db) && Holds(Statuses, db) && WellFormed(op)
    ensures Holds(Statuses, After(db, Statement(db, op))) <==> !Misfits(db, op)
  {
    if !Split(op) {
      StepSalesFits(db, op);
      StepPurchasesFit(db, op);
    } else if Statement(db, op).Committed? {
      SplitStatusesStep(db, op);
    }
  }

  /** Rows and items of one kind of order do not matter to the other. */
  lemma UntouchedOrders(db: Db, next: Db)
    ensures next.sales == db.sales && next.salesItems == db.salesItems && SalesFits(db) ==> SalesFits(next)
    ensures next.purchases == db.purchases && next.purchaseItems == db.purchaseItems && PurchasesFit(db) ==>
              PurchasesFit(next)
  {
  }

  lemma SalesEditStatuses(db: Db, op: Op)
    requires WeakInv(db) && SalesFits(db) && Split(op) && SalesOp(op) && Statement(db, op).Committed?
    ensures SalesFits(Statement(db, op).db) <==> !Misfits(db, op)
  {
    match op
    case OpAddSalesItem(o, i, p, q) => LateAddAndStatus(db, o, i, p, q);
    case OpRemoveSalesItem(o, i) => LateDeleteAndStatus(db, o, i);
    case OpCreateSales(o, c, w) => InsertSalesFits(db, o, c, w);
  }

  lemma PurchaseEditStatuses(db: Db, op: Op)
    requires WeakInv(db) && PurchasesFit(db) && Split(op) && PurchaseOp(op) && Statement(db, op).Committed?
    ensures PurchasesFit(Statement(db, op).db) <==> !Misfits(db, op)
  {
    match op
    case OpAddPurchaseItem(o, i, p, q) => LatePurchaseAdd(db, o, i, p, q);
    case OpRemovePurchaseItem(o, i) => LatePurchaseDelete(db, o, i);
    case OpCreatePurchase(o, supplier, w) => InsertPurchaseFits(db, o, supplier, w);
  }

  lemma SalesEditKeepsPurchases(db: Db, op: Op)
    requires Split(op) && SalesOp(op)
    ensures SamePurchases(db, Statement(db, op))
  {
  }

  lemma OtherEditKeepsPurchases(db: Db, op: Op)
    requires Split(op) && !SalesOp(op) && !PurchaseOp(op)
    ensures SamePurchases(db, Statement(db, op)) && !Misfits(db, op)
  {
  }

  lemma SplitStatusesStep(db: Db, op: Op)
    requires WeakInv(db) && Holds(Statuses, db) && Split(op) && Statement(db, op).Committed?
    ensures Holds(Statuses, Statement(db, op).db) <==> !Misfits(db, op)
  {
    UntouchedOrders(db, Statement(db, op).db);
    if SalesOp(op) {
      SalesEditKeepsPurchases(db, op);
      SalesEditStatuses(db, op);
    } else {
      StatementKeepsSales(db, op);
      if PurchaseOp(op) {
        PurchaseEditStatuses(db, op);
      } else {
        OtherEditKeepsPurchases(db, op);
      }
    }
  }

  // ---------------------------------------------------------------- warehouses, one write

  lemma InsertSalesQuiet(db: Db, o: Id, customer: Id, w: Id)
    requires InactiveQuiet(db) && InsertSales(db, o, customer, w).Committed?
    ensures InactiveQuiet(InsertSales(db, o, customer, w).db) <==> Active(db.warehouses, w)
  {
    var next := InsertSales(db, o, customer, w).db;
    if Active(db.warehouses, w) {
      QuietnessKept(db, next);
    } else {
      assert next.sales[o].warehouse == w && OpenSale(next.sales[o].status);
      assert !Quiet(next, w);
    }
  }

  lemma InsertPurchaseQuiet(db: Db, o: Id, supplier: Id, w: Id)
    requires InactiveQuiet(db) && InsertPurchase(db, o, supplier, w).Committed?
    ensures InactiveQuiet(InsertPurchase(db, o, supplier, w).db) <==> Active(db.warehouses, w)
  {
    var next := InsertPurchase(db, o, supplier, w).db;
    if Active(db.warehouses, w) {
      QuietnessKept(db, next);
    } else {
      assert next.purchases[o].warehouse == w && OpenPurchase(next.purchases[o].status);
      assert !Quiet(next, w);
    }
  }

  lemma WriteWarehouseQuiet(db: Db, w: Id, isActive: Option<bool>)
    requires InactiveQuiet(db) && WriteWarehouse(db, w, isActive).Committed?
    ensures InactiveQuiet(WriteWarehouse(db, w, isActive).db) <==> isActive != Some(false) || Quiet(db, w)
  {
    var next := WriteWarehouse(db, w, isActive).db;
    assert forall v :: Quiet(next, v) <==> Quiet(db, v);
    if isActive == Some(false) && !Quiet(db, w) {
      assert !next.warehouses[w] && !Quiet(next, w);
    } else {
      forall v | v in next.warehouses && !next.warehouses[v] ensures Quiet(next, v) {
        assert !db.warehouses[v] || v == w;
      }
    }
  }

  lemma SplitWarehousesStep(db: Db, op: Op)
    requires InactiveQuiet(db) && Split(op) && !ItemEdit(op) && Statement(db, op).Committed?
    ensures InactiveQuiet(Statement(db, op).db) <==> !Disturbs(db, op)
  {
    match op
    case OpCreateSales(o, c, w) => InsertSalesQuiet(db, o, c, w);
    case OpCreatePurchase(o, supplier, w) => InsertPurchaseQuiet(db, o, supplier, w);
    case OpUpdateWarehouse(w, isActive) => WriteWarehouseQuiet(db, w, isActive);
    case OpSetReorderPoint(k, point) => QuietnessKept(db, UpsertReorderPoint(db, k, point).db);
  }

  lemma WarehousesStep(db: Db, op: Op)
    requires RowsOk(db.stock) && InactiveQuiet(db)
    ensures InactiveQuiet(After(db, Statement(db, op))) <==> !Disturbs(db, op)
  {
    if !Split(op) {
      StepInactiveQuiet(db, op);
    } else if ItemEdit(op) {
      ItemEditsOnly(db, op);
      QuietnessKept(db, After(db, Statement(db, op)));
    } else if Statement(db, op).Committed? {
      SplitWarehousesStep(db, op);
    }
  }

  // ---------------------------------------------------------------- whole histories

  /** A write keeps a law exactly when it is none of those that break it. */
  lemma StepExactly(law: Law, db: Db, op: Op)
    requires WeakInv(db) && Holds(law, db) && WellFormed(op)
    ensures Holds(law, After(db, Statement(db, op))) <==> !Breaks(law, db, op)
  {
    match law
    case Reservations => ReservationsStep(db, op);
    case Statuses => StatusesStep(db, op);
    case Warehouses => WarehousesStep(db, op);
  }

  /** Checking again at the moment of the write would have sufficed: only a call whose checks fail by then breaks a
      law. */
  lemma OnlyStaleWritesBreak(law: Law, db: Db, op: Op)
    requires WeakInv(db) && Holds(law, db) && WellFormed(op) && Breaks(law, db, op)
    ensures !Ready(db, op)
  {
    if Ready(db, op) {
      Uninterrupted(db, op);
      StepExactly(law, db, op);
      AtomicKeeps(law, db, op);
    }
  }

  /** Drafts hold nothing, so an atomic delete loses nothing. */
  lemma AtomicBalanced(db: Db, op: Op)
    requires Sound(db) && DraftsUntouched(db) && ReservationsBalanced(db)
    ensures ReservationsBalanced(After(db, Step(db, op)))
  {
    StepAccounted(db, op);
    forall k ensures Leak(After(db, Step(db, op)), k) == 0 {
      assert Leak(db, k) == 0 && Lost(db, op, k) == 0;
    }
  }

  lemma AtomicKeeps(law: Law, db: Db, op: Op)
    requires WeakInv(db) && Holds(law, db) && WellFormed(op)
    ensures Holds(law, After(db, Step(db, op)))
  {
    match law
    case Reservations => AtomicBalanced(db, op);
    case Statuses =>
      StepSalesFits(db, op);
      StepPurchasesFit(db, op);
    case Warehouses => StepInactiveQuiet(db, op);
  }

  /** Some write of the history breaks the law. */
  ghost predicate RunBreaks(law: Law, s: State, ops: seq<SplitOp>)
    decreases |ops|
  {
    && ops != []
    && ((ops[0].Write? && Breaks(law, s.db, ops[0].op)) || RunBreaks(law, SplitStep(s, ops[0]), ops[1..]))
  }

  /** The law holds now and after every prefix of the history. */
  ghost predicate Always(law: Law, s: State, ops: seq<SplitOp>) {
    forall n :: 0 <= n <= |ops| ==> Holds(law, SplitRun(s, ops[..n]).db)
  }

  lemma AlwaysStep(law: Law, s: State, ops: seq<SplitOp>)
    requires ops != []
    ensures Always(law, s, ops) <==> Holds(law, s.db) && Always(law, SplitStep(s, ops[0]), ops[1..])
  {
    var next, rest := SplitStep(s, ops[0]), ops[1..];
    forall n | 0 < n <= |ops| ensures SplitRun(s, ops[..n]) == SplitRun(next, rest[..n - 1]) {
      assert ops[..n][1..] == rest[..n - 1];
    }
    assert SplitRun(s, ops[..0]) == s;
    if Always(law, s, ops) {
      forall m | 0 <= m <= |rest| ensures Holds(law, SplitRun(next, rest[..m]).db) {
        assert Holds(law, SplitRun(s, ops[..m + 1]).db);
      }
    }
  }

  lemma {:induction false} AlwaysExactly(law: Law, s: State, ops: seq<SplitOp>)
    requires WeakInv(s.db) && Holds(law, s.db) && RunEnabled(s, ops)
    ensures Always(law, s, ops) <==> !RunBreaks(law, s, ops)
    decreases |ops|
  {
    if ops != [] {
      var next := SplitStep(s, ops[0]);
      AlwaysStep(law, s, ops);
      if ops[0].Write? {
        StepExactly(law, s.db, ops[0].op);
      }
      if Holds(law, next.db) {
        StepWeakInv(s, ops[0]);
        AlwaysExactly(law, next, ops[1..]);
      } else {
        assert SplitRun(next, ops[1..][..0]) == next;
      }
    } else {
      assert SplitRun(s, ops[..0]) == s;
    }
  }

  /** With every call taken apart, each law holds throughout a history exactly when no write of it breaks that law. */
  lemma LawExactly(law: Law, ops: seq<SplitOp>)
    requires RunEnabled(START, ops)
    ensures Always(law, START, ops) <==> !RunBreaks(law, START, ops)
  {
    StartWeakInv();
    EmptyInv();
    AlwaysExactly(law, START, ops);
  }

  lemma {:induction false} PrefixEnabled(s: State, ops: seq<SplitOp>, n: nat)
    requires RunEnabled(s, ops) && n <= |ops|
    ensures RunEnabled(s, ops[..n])
    decreases n
  {
    if n > 0 {
      assert ops[..n][1..] == ops[1..][..n - 1];
      PrefixEnabled(SplitStep(s, ops[0]), ops[1..], n - 1);
    }
  }

  /** The three laws are all that split calls can break of the ledger's invariant. */
  lemma InvParts(db: Db)
    requires WeakInv(db) && EventsMatch(db)
    ensures Inv(db) <==> Holds(Reservations, db) && Holds(Statuses, db) && Holds(Warehouses, db)
  {
  }

  lemma PrefixParts(ops: seq<SplitOp>, n: nat)
    requires RunEnabled(START, ops) && n <= |ops|
    ensures var db := SplitRun(START, ops[..n]).db;
            Inv(db) <==> Holds(Reservations, db) && Holds(Statuses, db) && Holds(Warehouses, db)
  {
    StartWeakInv();
    EmptyInv();
    PrefixEnabled(START, ops, n);
    RunWeakInv(START, ops[..n]);
    RunEvents(START, ops[..n]);
    InvParts(SplitRun(START, ops[..n]).db);
  }

  /** All laws of the ledger hold throughout a history of split calls exactly when none of its writes breaks one. */
  lemma AllLawsExactly(ops: seq<SplitOp>)
    requires RunEnabled(START, ops)
    ensures (forall n :: 0 <= n <= |ops| ==> Inv(SplitRun(START, ops[..n]).db))
       <==> !RunBreaks(Reservations, START, ops) && !RunBreaks(Statuses, START, ops)
            && !RunBreaks(Warehouses, START, ops)
  {
    forall n | 0 <= n <= |ops|
      ensures var db := SplitRun(START, ops[..n]).db;
              Inv(db) <==> Holds(Reservations, db) && Holds(Statuses, db) && Holds(Warehouses, db)
    {
      PrefixParts(ops, n);
    }
    LawExactly(Reservations, ops);
    LawExactly(Statuses, ops);
    LawExactly(Warehouses, ops);
  }

  /** Without a write that breaks the warehouse law, the inactive-warehouse branches never fire. */
  lemma WarehouseBranchesDead(ops: seq<SplitOp>, op: Op)
    requires RunEnabled(START, ops) && !RunBreaks(Warehouses, START, ops)
    requires op.OpConfirmSales? || op.OpReserveSales? || op.OpFulfillSales? || op.OpSubmitPurchase?
             || op.OpReceivePurchase?
    ensures Step(SplitRun(START, ops).db, op) != Rejected(WarehouseInactive)
  {
    LawExactly(Warehouses, ops);
    assert ops[..|ops|] == ops;
    assert Holds(Warehouses, SplitRun(START, ops[..|ops|]).db);
    StartWeakInv();
    RunWeakInv(START, ops);
    NeverInactive(SplitRun(START, ops).db, op);
  }

  // ---------------------------------------------------------------- stranded stock stays stranded

  lemma StepLeakGrows(s: State, op: SplitOp, k: Key)
    requires Sound(s.db)
    ensures Leak(SplitStep(s, op).db, k) >= Leak(s.db, k)
  {
    if op.Write? {
      StatementAccounted(s.db, op.op);
      assert Stranded(s.db, op.op, k) >= 0;
    }
  }

  /** Nothing ever lowers the unaccounted quantity. */
  lemma {:induction false} LeakNeverShrinks(s: State, ops: seq<SplitOp>, k: Key)
    requires WeakInv(s.db) && RunEnabled(s, ops)
    ensures Leak(SplitRun(s, ops).db, k) >= Leak(s.db, k)
    decreases |ops|
  {
    if ops != [] {
      StepWeakInv(s, ops[0]);
      LeakNeverShrinks(SplitStep(s, ops[0]), ops[1..], k);
      StepLeakGrows(s, ops[0], k);
    }
  }

  lemma {:induction false} BalancedExactly(s: State, ops: seq<SplitOp>)
    requires WeakInv(s.db) && RunEnabled(s, ops) && ReservationsBalanced(s.db)
    ensures ReservationsBalanced(SplitRun(s, ops).db) <==> !RunBreaks(Reservations, s, ops)
    decreases |ops|
  {
    if ops != [] {
      var next := SplitStep(s, ops[0]);
      StepWeakInv(s, ops[0]);
      if ops[0].Write? {
        ReservationsStep(s.db, ops[0].op);
      }
      if ReservationsBalanced(next.db) {
        BalancedExactly(next, ops[1..]);
      } else {
        var k :| Leak(next.db, k) != 0;
        LeakNeverShrinks(next, ops[1..], k);
      }
    }
  }

  /** The reservation law holds at the end of a history exactly when no late delete took a reserving item with it. */
  lemma BalancedIffNothingStranded(ops: seq<SplitOp>)
    requires RunEnabled(START, ops)
    ensures ReservationsBalanced(SplitRun(START, ops).db) <==> !RunBreaks(Reservations, START, ops)
  {
    StartWeakInv();
    BalancedExactly(START, ops);
  }
}
