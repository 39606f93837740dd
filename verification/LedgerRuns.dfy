/** The laws of the ledger over every history of transactions that starts from an empty database. */
module LedgerRuns {
  import opened Sums
  import opened Ledger
  import opened LedgerSteps
  import opened ReservationProofs
  import opened StepSoundness
  import opened StockConservation
  import opened OrderStatus
  import opened OrderLog
  import opened OrderProgress
  import opened WarehouseActivity

  /** Reserved stock is exactly what order items hold, at every warehouse and product. */
  ghost predicate ReservationsBalanced(db: Db) {
    forall k :: Leak(db, k) == 0
  }

  ghost predicate Inv(db: Db) {
    && Sound(db)
    && ReservationsBalanced(db)
    && Conserved(db)
    && SalesFits(db)
    && PurchasesFit(db)
    && EventsMatch(db)
    && InactiveQuiet(db)
  }

  /** Only drafts lose items, and drafts hold nothing. */
  lemma NothingLost(db: Db, op: Op, k: Key)
    requires Sound(db) && SalesFits(db)
    ensures Lost(db, op, k) == 0
  {
    if op.OpRemoveSalesItem? && CheckSalesDraft(db, op.order).None? {
      assert SalesFit(db.salesItems, op.order, SoDraft);
    }
  }

  lemma StepBalanced(db: Db, op: Op)
    requires Sound(db) && SalesFits(db) && ReservationsBalanced(db)
    ensures Sound(After(db, Step(db, op))) && ReservationsBalanced(After(db, Step(db, op)))
  {
    StepAccounted(db, op);
    forall k ensures Leak(After(db, Step(db, op)), k) == 0 {
      NothingLost(db, op, k);
    }
  }

  /** Every law survives every transaction, committed or rejected. */
  lemma StepInv(db: Db, op: Op)
    requires Inv(db) && WellFormed(op)
    ensures Inv(After(db, Step(db, op)))
  {
    StepBalanced(db, op);
    StepConserves(db, op);
    StepSalesFits(db, op);
    StepPurchasesFit(db, op);
    StepEventsMatch(db, op);
    StepInactiveQuiet(db, op);
  }

  lemma EmptyInv()
    ensures Inv(EMPTY)
  {
    forall k ensures Leak(EMPTY, k) == 0 {
      assert Holds(EMPTY.sales, EMPTY.salesItems, k) == map[];
    }
    forall p ensures OnHand(EMPTY.stock, p) == 0 && Purchased(EMPTY.purchaseItems, p) == 0
        && Sold(EMPTY.salesItems, p) == 0 {
      assert OnHandRows(EMPTY.stock, p) == map[];
      assert PurchasedRows(EMPTY.purchaseItems, p) == map[];
      assert SoldRows(EMPTY.salesItems, p) == map[];
    }
  }

  lemma {:induction false} RunInv(db: Db, ops: seq<Op>)
    requires Inv(db) && AllWellFormed(ops)
    ensures Inv(Run(db, ops))
    decreases |ops|
  {
    if ops != [] {
      RunInv(db, ops[..|ops| - 1]);
      StepInv(Run(db, ops[..|ops| - 1]), ops[|ops| - 1]);
    }
  }

  // ---------------------------------------------------------------- the laws, over every run

  /** Reservation law: bounds of every row, and equality with what items hold. */
  lemma ReservationLaw(ops: seq<Op>)
    requires AllWellFormed(ops)
    ensures var db := Run(EMPTY, ops);
            && (forall k :: k in db.stock ==> 0 <= db.stock[k].reserved <= db.stock[k].quantity < COLUMN_LIMIT)
            && (forall k :: ReservedAt(db.stock, k) == ItemsReserved(db.sales, db.salesItems, k))
  {
    EmptyInv();
    RunInv(EMPTY, ops);
    InvReservations(Run(EMPTY, ops));
  }

  lemma InvReservations(db: Db)
    requires Inv(db)
    ensures forall k :: k in db.stock ==> 0 <= db.stock[k].reserved <= db.stock[k].quantity < COLUMN_LIMIT
    ensures forall k :: ReservedAt(db.stock, k) == ItemsReserved(db.sales, db.salesItems, k)
  {
    forall k ensures ReservedAt(db.stock, k) == ItemsReserved(db.sales, db.salesItems, k) {
      assert Leak(db, k) == 0;
    }
  }

  /** No reachable state lets a transaction take one of the three "reservation missing / inconsistent" branches. */
  lemma ReservationBranchesDead(ops: seq<Op>, op: Op)
    requires AllWellFormed(ops)
    requires op.OpFulfillSales? || op.OpCancelSales?
    ensures Step(Run(EMPTY, ops), op) !in {Rejected(ReservationMissing), Rejected(ReservationInconsistent)}
  {
    EmptyInv();
    RunInv(EMPTY, ops);
    NeverInconsistent(Run(EMPTY, ops), op);
  }

  /** It takes no more than row bounds and non-negative unaccounted stock. */
  lemma NeverInconsistent(db: Db, op: Op)
    requires Sound(db) && forall k :: Leak(db, k) >= 0
    requires op.OpFulfillSales? || op.OpCancelSales?
    ensures Step(db, op) !in {Rejected(ReservationMissing), Rejected(ReservationInconsistent)}
  {
    match op
    case OpFulfillSales(o, doc, at, lines) =>
      if o in db.sales && CheckRequest(lines).None? && CheckFulfill(db.salesItems, o, lines).None? {
        FulfillNeverInconsistent(db, o, doc, at, lines);
      }
    case OpCancelSales(o) =>
      if o in db.sales {
        CancelNeverInconsistent(db, o);
      }
  }

  /** Stock law: each row is the sum of its movements, and each product's stock splits by cause; transfers cancel. */
  lemma StockLaw(ops: seq<Op>, p: Id)
    requires AllWellFormed(ops)
    ensures var db := Run(EMPTY, ops);
            && (forall k :: QuantityAt(db.stock, k) == MovementSum(db.movements, AtKey(k)))
            && OnHand(db.stock, p)
                == Purchased(db.purchaseItems, p) + MovementSum(db.movements, ManualReceipts(p))
                 + MovementSum(db.movements, Adjustments(p)) + MovementSum(db.movements, ManualIssues(p))
                 - Sold(db.salesItems, p)
  {
    EmptyInv();
    RunInv(EMPTY, ops);
    HistoriesPartition(Run(EMPTY, ops).movements, p);
  }

  /** Order law: statuses and times match quantities; document lines add up; nothing exceeds what was ordered. */
  lemma OrderLaw(ops: seq<Op>)
    requires AllWellFormed(ops)
    ensures var db := Run(EMPTY, ops);
            && SalesFits(db) && PurchasesFit(db)
            && (forall i :: i in db.salesItems ==>
                  && 0 <= db.salesItems[i].reserved
                  && db.salesItems[i].fulfilled == LineSum(db.fulfillmentLines, i)
                  && db.salesItems[i].reserved + db.salesItems[i].fulfilled <= db.salesItems[i].ordered)
            && (forall i :: i in db.purchaseItems ==>
                  0 <= db.purchaseItems[i].received == LineSum(db.receiptLines, i) <= db.purchaseItems[i].ordered)
  {
    EmptyInv();
    RunInv(EMPTY, ops);
  }

  /** Event law: the latest outbox event of an order carries its status. */
  lemma EventLaw(ops: seq<Op>)
    requires AllWellFormed(ops)
    ensures var db := Run(EMPTY, ops);
            && (forall o :: o in db.sales ==> db.sales[o].status == SalesStatusFromEvents(db.events, o))
            && (forall o :: o in db.purchases ==> db.purchases[o].status == PurchaseStatusFromEvents(db.events, o))
  {
    EmptyInv();
    RunInv(EMPTY, ops);
    var db := Run(EMPTY, ops);
    assert forall o :: o in db.sales ==> (if o in db.sales then db.sales[o].status else SoDraft) == db.sales[o].status;
    assert forall o :: o in db.purchases ==>
        (if o in db.purchases then db.purchases[o].status else PoDraft) == db.purchases[o].status;
  }

  /** Warehouse law: inactive means empty and finished, and the inactive-warehouse branches never fire. */
  lemma WarehouseLaw(ops: seq<Op>, op: Op)
    requires AllWellFormed(ops)
    requires op.OpConfirmSales? || op.OpReserveSales? || op.OpFulfillSales? || op.OpSubmitPurchase?
             || op.OpReceivePurchase?
    ensures InactiveQuiet(Run(EMPTY, ops))
    ensures Step(Run(EMPTY, ops), op) != Rejected(WarehouseInactive)
  {
    EmptyInv();
    RunInv(EMPTY, ops);
    NeverInactive(Run(EMPTY, ops), op);
  }

  // ---------------------------------------------------------------- progress of one order

  /** How many requests of a history moved stock for `o`. */
  ghost function WorkSteps(db: Db, ops: seq<Op>, o: Id): nat
    decreases |ops|
  {
    if ops == [] then 0
    else
      var before := Run(db, ops[..|ops| - 1]);
      var last := ops[|ops| - 1];
      WorkSteps(db, ops[..|ops| - 1], o) + if Works(last, o) && Step(before, last).Committed? then 1 else 0
  }

  /** A status rank never falls, over any history. */
  lemma {:induction false} RunRank(db: Db, ops: seq<Op>, o: Id)
    requires Inv(db) && AllWellFormed(ops) && o in db.sales
    ensures RankKept(db, Run(db, ops), o)
    decreases |ops|
  {
    if ops != [] {
      var init := ops[..|ops| - 1];
      RunInv(db, init);
      RunRank(db, init, o);
      StepRank(Run(db, init), ops[|ops| - 1], o);
    }
  }

  lemma SpentCovers(db: Db, op: Op, o: Id)
    requires WellFormed(op)
    ensures Spent(db, op, o) >= if Works(op, o) && Step(db, op).Committed? then 1 else 0
  {
    if Works(op, o) && Step(db, op).Committed? {
      RequestTotalPositive(op.lines);
    }
  }

  lemma {:induction false} RunSpends(db: Db, ops: seq<Op>, o: Id)
    requires Inv(db) && AllWellFormed(ops)
    requires o in db.sales && !db.sales[o].status.SoDraft?
    ensures Spends(db, Run(db, ops), o, WorkSteps(db, ops, o))
    decreases |ops|
  {
    if ops != [] {
      var init := ops[..|ops| - 1];
      RunSpends(db, init, o);
      assert Inv(Run(db, init)) by {
        RunInv(db, init);
      }
      LastSpends(Run(db, init), ops[|ops| - 1], o);
    } else {
      PotentialNonNegative(db.salesItems, o);
    }
  }

  lemma LastSpends(db: Db, op: Op, o: Id)
    requires Inv(db) && WellFormed(op) && o in db.sales && !db.sales[o].status.SoDraft?
    ensures Spends(db, After(db, Step(db, op)), o, if Works(op, o) && Step(db, op).Committed? then 1 else 0)
  {
    StepInv(db, op);
    StepRemaining(db, op, o);
    SpentCovers(db, op, o);
  }

  /** From its confirmation on, an order admits at most twice its ordered total (in thousandths) of reserve and fulfill
      calls. */
  lemma BoundedWork(db: Db, ops: seq<Op>, o: Id)
    requires Inv(db) && AllWellFormed(ops)
    requires o in db.sales && db.sales[o].status.SoConfirmed?
    ensures WorkSteps(db, ops, o) <= 2 * Total(OrderedRows(db.salesItems, o))
  {
    RunSpends(db, ops, o);
    InitialPotential(db.salesItems, o);
  }
}
