/** How far a sales order can still go: a potential that every reserve and fulfill spends, and a status rank. */
module OrderProgress {
  import opened Sums
  import opened Ledger
  import opened LedgerSteps
  import opened ReservationProofs
  import opened OrderStatus
  import opened OrderLog

  /** Per item of `o`: twice what is ordered, less what is reserved, less twice what is fulfilled. */
  ghost function Work(items: map<Id, SalesItem>, o: Id): map<Id, int> {
    map i | i in items && items[i].order == o :: 2 * items[i].ordered - items[i].reserved - 2 * items[i].fulfilled
  }

  /** The work an order still admits, in thousandths. */
  ghost function Potential(items: map<Id, SalesItem>, o: Id): int {
    Total(Work(items, o))
  }

  ghost function OrderedRows(items: map<Id, SalesItem>, o: Id): map<Id, int> {
    map i | i in items && items[i].order == o :: items[i].ordered
  }

  lemma PotentialNonNegative(items: map<Id, SalesItem>, o: Id)
    requires ItemsOk(items)
    ensures Potential(items, o) >= 0
  {
    TotalNonNegative(Work(items, o));
  }

  /** An untouched order admits twice its ordered total. */
  lemma InitialPotential(items: map<Id, SalesItem>, o: Id)
    requires Untouched(items, o)
    ensures Potential(items, o) == 2 * Total(OrderedRows(items, o))
  {
    TotalSplit(Work(items, o), OrderedRows(items, o), OrderedRows(items, o));
  }

  lemma WorkUpdated(items: map<Id, SalesItem>, i: Id, next: SalesItem, o: Id)
    requires i in items && items[i].order == o && next.order == o
    ensures Potential(items[i := next], o) == Potential(items, o)
      + (2 * next.ordered - next.reserved - 2 * next.fulfilled)
      - (2 * items[i].ordered - items[i].reserved - 2 * items[i].fulfilled)
  {
    var v := 2 * next.ordered - next.reserved - 2 * next.fulfilled;
    assert Work(items[i := next], o) == Work(items, o)[i := v];
    TotalUpdate(Work(items, o), i, v);
  }

  /** A reservation spends exactly its total quantity. */
  lemma {:induction false} ReserveSpends(db: Db, o: Id, lines: seq<Line>)
    requires o in db.sales
    ensures ReserveLines(db, o, lines).Committed? ==>
              Potential(ReserveLines(db, o, lines).db.salesItems, o)
                  == Potential(db.salesItems, o) - RequestTotal(lines)
    decreases |lines|
  {
    if lines != [] && ReserveLine(db, o, lines[0]).Committed? {
      var next := ReserveLine(db, o, lines[0]).db;
      WorkUpdated(db.salesItems, lines[0].item, next.salesItems[lines[0].item], o);
      ReserveSpends(next, o, lines[1..]);
    }
  }

  /** A fulfillment spends exactly its total quantity. */
  lemma {:induction false} FulfillSpends(db: Db, o: Id, doc: Id, at: Time, lines: seq<Line>)
    requires o in db.sales
    ensures FulfillLines(db, o, doc, at, lines).Committed? ==>
              Potential(FulfillLines(db, o, doc, at, lines).db.salesItems, o)
                  == Potential(db.salesItems, o) - RequestTotal(lines)
    decreases |lines|
  {
    if lines != [] && FulfillLine(db, o, doc, at, lines[0]).Committed? {
      var next := FulfillLine(db, o, doc, at, lines[0]).db;
      WorkUpdated(db.salesItems, lines[0].item, next.salesItems[lines[0].item], o);
      FulfillSpends(next, o, doc, at, lines[1..]);
    }
  }

  lemma {:induction false} RequestTotalPositive(lines: seq<Line>)
    requires AllPositive(lines)
    ensures RequestTotal(lines) >= |lines|
    decreases |lines|
  {
    if lines != [] {
      RequestTotalPositive(lines[1..]);
    }
  }

  /** Requests aimed at `o` that move stock. */
  predicate Works(op: Op, o: Id) {
    (op.OpReserveSales? || op.OpFulfillSales?) && op.order == o
  }

  /** What one transaction spends of the potential of `o`. */
  ghost function Spent(db: Db, op: Op, o: Id): int {
    if Works(op, o) && Step(db, op).Committed? then RequestTotal(op.lines) else 0
  }

  lemma SameItemsSamePotential(a: map<Id, SalesItem>, b: map<Id, SalesItem>, o: Id)
    requires SameItems(a, b, o)
    ensures Potential(a, o) == Potential(b, o)
  {
    assert Work(a, o) == Work(b, o);
  }

  /** Work on another order does not touch the items of `o`. */
  lemma OtherWorkKeepsItems(db: Db, op: Op, o: Id)
    requires o in db.sales && (op.OpReserveSales? || op.OpFulfillSales?) && op.order != o && Step(db, op).Committed?
    ensures SameItems(db.salesItems, Step(db, op).db.salesItems, o)
  {
    if op.OpReserveSales? {
      ReserveLeavesOthers(db, op.order, op.lines, o);
    } else {
      FulfillLeavesOthers(db, op.order, op.document, op.at, op.lines, o);
    }
  }

  /** The remaining operations leave the items of a confirmed order alone, unless they cancel it. */
  lemma OtherOpsKeepItems(db: Db, op: Op, o: Id)
    requires Schema(db) && o in db.sales && !db.sales[o].status.SoDraft?
    requires !op.OpReserveSales? && !op.OpFulfillSales? && !(op.OpCancelSales? && op.order == o)
    ensures SameItems(db.salesItems, After(db, Step(db, op)).salesItems, o)
  {
    if SalesOp(op) {
      SalesEditsKeepItems(db, op, o);
    } else {
      NotSalesOp(db, op);
    }
  }

  lemma SalesEditsKeepItems(db: Db, op: Op, o: Id)
    requires SalesOp(op) && o in db.sales && !db.sales[o].status.SoDraft?
    requires !op.OpReserveSales? && !op.OpFulfillSales? && !(op.OpCancelSales? && op.order == o)
    ensures SameItems(db.salesItems, After(db, Step(db, op)).salesItems, o)
  {
    match op
    case OpAddSalesItem(p, i, product, q) => AddElsewhere(db, p, i, product, q, o);
    case OpRemoveSalesItem(p, i) => RemoveElsewhere(db, p, i, o);
    case OpCancelSales(p) => CancelElsewhere(db, p, o);
    case OpConfirmSales(p) => ConfirmElsewhere(db, p, o);
    case OpCreateSales(p, c, w) => CreateElsewhere(db, p, c, w, o);
  }

  lemma AddElsewhere(db: Db, p: Id, i: Id, product: Id, ordered: int, o: Id)
    requires o in db.sales && !db.sales[o].status.SoDraft?
    ensures SameItems(db.salesItems, After(db, AddSalesItem(db, p, i, product, ordered)).salesItems, o)
  {
  }

  lemma RemoveElsewhere(db: Db, p: Id, i: Id, o: Id)
    requires o in db.sales && !db.sales[o].status.SoDraft?
    ensures SameItems(db.salesItems, After(db, RemoveSalesItem(db, p, i)).salesItems, o)
  {
    if RemoveSalesItem(db, p, i).Committed? {
      DeletedElsewhere(db.salesItems, i, o);
    }
  }

  lemma DeletedElsewhere(items: map<Id, SalesItem>, i: Id, o: Id)
    requires i in items && items[i].order != o
    ensures SameItems(items, items - {i}, o)
  {
  }

  lemma CancelElsewhere(db: Db, p: Id, o: Id)
    requires p != o
    ensures SameItems(db.salesItems, After(db, CancelSales(db, p)).salesItems, o)
  {
  }

  lemma ConfirmElsewhere(db: Db, p: Id, o: Id)
    ensures SameItems(db.salesItems, After(db, ConfirmSales(db, p)).salesItems, o)
  {
  }

  lemma CreateElsewhere(db: Db, p: Id, customer: Id, warehouse: Id, o: Id)
    ensures SameItems(db.salesItems, After(db, CreateSales(db, p, customer, warehouse)).salesItems, o)
  {
  }

  lemma WorkSpends(db: Db, op: Op, o: Id)
    requires Works(op, o) && Step(db, op).Committed?
    ensures Potential(Step(db, op).db.salesItems, o) == Potential(db.salesItems, o) - RequestTotal(op.lines)
  {
    if op.OpReserveSales? {
      ReserveSpends(db, o, op.lines);
    } else {
      FulfillSpends(db, o, op.document, op.at, op.lines);
    }
  }

  /** Once an order has left DRAFT, every transaction other than its cancellation spends exactly what it moves. */
  lemma StepSpends(db: Db, op: Op, o: Id)
    requires Sound(db) && o in db.sales && !db.sales[o].status.SoDraft?
    requires !(op.OpCancelSales? && op.order == o)
    ensures Potential(After(db, Step(db, op)).salesItems, o) == Potential(db.salesItems, o) - Spent(db, op, o)
  {
    var r := Step(db, op);
    if op.OpReserveSales? || op.OpFulfillSales? {
      if r.Committed? {
        if op.order != o {
          OtherWorkKeepsItems(db, op, o);
          SameItemsSamePotential(db.salesItems, r.db.salesItems, o);
        } else {
          WorkSpends(db, op, o);
        }
      }
    } else {
      OtherOpsKeepItems(db, op, o);
      SameItemsSamePotential(db.salesItems, After(db, r).salesItems, o);
    }
  }

  // ---------------------------------------------------------------- rank

  function Rank(status: SalesStatus): nat {
    match status
    case SoDraft => 0
    case SoConfirmed => 1
    case SoPartiallyReserved => 2
    case SoReserved => 3
    case SoPartiallyFulfilled => 4
    case SoFulfilled => 5
    case SoCancelled => 6
  }

  ghost predicate RankKept(db: Db, next: Db, o: Id) {
    o in db.sales && o in next.sales && Rank(next.sales[o].status) >= Rank(db.sales[o].status)
  }

  /** The order does not fall back, if the transaction commits. */
  ghost predicate RankGrows(db: Db, r: Outcome, o: Id) {
    r.Committed? ==> RankKept(db, r.db, o)
  }

  /** An order that has shipped something is never again classified by its reservations alone. */
  lemma ReserveRank(db: Db, o: Id, lines: seq<Line>)
    requires Sound(db) && SalesFits(db) && lines != []
    ensures RankGrows(db, ReserveSales(db, o, lines), o)
  {
    if o in db.sales && ReserveSales(db, o, lines).Committed? {
      if db.sales[o].status.SoReserved? {
        ReservedOrderRejects(db, o, lines);
      } else if db.sales[o].status.SoPartiallyFulfilled? {
        StillPartiallyFulfilled(db, o, lines);
      }
    }
  }

  lemma StillPartiallyFulfilled(db: Db, o: Id, lines: seq<Line>)
    requires o in db.sales && ReserveLines(db, o, lines).Committed? && SalesFit(db.salesItems, o, SoPartiallyFulfilled)
    ensures ReservationStatus(ReserveLines(db, o, lines).db.salesItems, o) == SoPartiallyFulfilled
  {
    ReserveLinesEffect(db, o, lines);
    var i :| i in db.salesItems && db.salesItems[i].order == o && db.salesItems[i].fulfilled > 0;
    assert ReserveLines(db, o, lines).db.salesItems[i].fulfilled > 0;
  }

  lemma FulfillRank(db: Db, o: Id, doc: Id, at: Time, lines: seq<Line>)
    ensures RankGrows(db, FulfillSales(db, o, doc, at, lines), o)
  {
  }

  lemma ConfirmRank(db: Db, o: Id)
    ensures RankGrows(db, ConfirmSales(db, o), o)
  {
  }

  lemma CancelRank(db: Db, o: Id)
    ensures RankGrows(db, CancelSales(db, o), o)
  {
  }

  lemma TransitionRank(db: Db, op: Op)
    requires Sound(db) && SalesFits(db) && WellFormed(op) && SalesTransition(op)
    ensures RankGrows(db, Step(db, op), op.order)
  {
    match op
    case OpReserveSales(o, lines) => ReserveRank(db, o, lines);
    case OpFulfillSales(o, doc, at, lines) => FulfillRank(db, o, doc, at, lines);
    case OpConfirmSales(o) => ConfirmRank(db, o);
    case OpCancelSales(o) => CancelRank(db, o);
  }

  /** No transaction moves a sales order back to a lower status. */
  lemma StepRank(db: Db, op: Op, o: Id)
    requires Sound(db) && SalesFits(db) && WellFormed(op) && o in db.sales
    ensures RankKept(db, After(db, Step(db, op)), o)
  {
    if SalesTransition(op) {
      if Step(db, op).Committed? {
        SalesTransitionLogs(db, op);
        TransitionRank(db, op);
      }
    } else if PurchaseTransition(op) {
      if Step(db, op).Committed? {
        PurchaseTransitionLogs(db, op);
      }
    } else {
      OthersPublishNothing(db, op);
    }
  }

  /** In particular nothing becomes a draft again, and cancelled is final. */
  lemma RankEnds(db: Db, next: Db, o: Id)
    requires RankKept(db, next, o)
    ensures !db.sales[o].status.SoDraft? ==> !next.sales[o].status.SoDraft?
    ensures db.sales[o].status.SoCancelled? ==> next.sales[o].status.SoCancelled?
  {
  }

  // ---------------------------------------------------------------- what is left

  /** The work an order still admits: none once it is cancelled. */
  ghost function Remaining(db: Db, o: Id): int
    requires o in db.sales
  {
    if db.sales[o].status.SoCancelled? then 0 else Potential(db.salesItems, o)
  }

  ghost predicate Spends(db: Db, next: Db, o: Id, spent: int) {
    && o in db.sales && o in next.sales
    && !next.sales[o].status.SoDraft?
    && 0 <= Remaining(next, o) <= Remaining(db, o) - spent
  }

  lemma CancelledRejectsWork(db: Db, op: Op, o: Id)
    requires o in db.sales && db.sales[o].status.SoCancelled? && Works(op, o)
    ensures Step(db, op).Rejected?
  {
  }

  /** What rank and potential say together about the remaining work. */
  lemma RemainingFalls(db: Db, next: Db, o: Id, spent: int)
    requires RankKept(db, next, o) && !db.sales[o].status.SoDraft?
    requires ItemsOk(db.salesItems) && ItemsOk(next.salesItems)
    requires db.sales[o].status.SoCancelled? ==> spent == 0
    requires !db.sales[o].status.SoCancelled? ==>
               || (next.sales[o].status.SoCancelled? && spent == 0)
               || Potential(next.salesItems, o) == Potential(db.salesItems, o) - spent
    ensures Spends(db, next, o, spent)
  {
    RankEnds(db, next, o);
    PotentialNonNegative(db.salesItems, o);
    PotentialNonNegative(next.salesItems, o);
  }

  lemma NothingSpentAfterCancel(db: Db, op: Op, o: Id)
    requires o in db.sales && db.sales[o].status.SoCancelled?
    ensures Spent(db, op, o) == 0
  {
    if Works(op, o) {
      CancelledRejectsWork(db, op, o);
    }
  }

  /** Cancelling an open order ends its work, unless the transaction is rejected. */
  lemma CancelStepSpends(db: Db, o: Id)
    requires o in db.sales
    ensures var r := CancelSales(db, o);
            || (r.Committed? && o in r.db.sales && r.db.sales[o].status.SoCancelled?)
            || (r.Rejected? && After(db, r) == db)
  {
  }

  /** Every transaction takes at least what it moves from the remaining work. */
  lemma StepRemaining(db: Db, op: Op, o: Id)
    requires Sound(db) && ItemsOk(After(db, Step(db, op)).salesItems) && SalesFits(db) && WellFormed(op)
    requires o in db.sales && !db.sales[o].status.SoDraft?
    ensures Spends(db, After(db, Step(db, op)), o, Spent(db, op, o))
  {
    StepRank(db, op, o);
    if db.sales[o].status.SoCancelled? {
      NothingSpentAfterCancel(db, op, o);
    } else if op == OpCancelSales(o) {
      CancelStepSpends(db, o);
    } else {
      StepSpends(db, op, o);
    }
    RemainingFalls(db, After(db, Step(db, op)), o, Spent(db, op, o));
  }
}
