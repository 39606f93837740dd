/** Outbox events and audit rows against order statuses. */
module OrderLog {
  import opened Ledger
  import opened LedgerSteps
  import opened ReservationProofs
  import opened OrderStatus

  /** The status in the payload of the latest event of a sales order; DRAFT if it has none. */
  ghost function SalesStatusFromEvents(events: seq<OrderEvent>, o: Id): SalesStatus {
    if events == [] then SoDraft
    else
      var last := events[|events| - 1];
      if last.SalesEvent? && last.order == o then last.soStatus else SalesStatusFromEvents(events[..|events| - 1], o)
  }

  /** The status in the payload of the latest event of a purchase order; DRAFT if it has none. */
  ghost function PurchaseStatusFromEvents(events: seq<OrderEvent>, o: Id): PurchaseStatus {
    if events == [] then PoDraft
    else
      var last := events[|events| - 1];
      if last.PurchaseEvent? && last.order == o then last.poStatus
      else PurchaseStatusFromEvents(events[..|events| - 1], o)
  }

  /** Whoever replays the outbox arrives at the stored status of every order; unknown orders have no history. */
  ghost predicate EventsMatch(db: Db) {
    && (forall o :: (if o in db.sales then db.sales[o].status else SoDraft) == SalesStatusFromEvents(db.events, o))
    && (forall o ::
          (if o in db.purchases then db.purchases[o].status else PoDraft) == PurchaseStatusFromEvents(db.events, o))
  }

  /** One sales order took a step: its row, one audit row, one event carrying the status now stored, nothing of other
      orders. */
  ghost predicate SalesLogged(db: Db, next: Db, o: Id, action: Action) {
    && o in db.sales && o in next.sales
    && next.sales == db.sales[o := next.sales[o]]
    && next.sales[o].warehouse == db.sales[o].warehouse
    && next.purchases == db.purchases
    && next.events == db.events + [SalesEvent(action, o, next.sales[o].status)]
    && next.audits == db.audits + [Audit(action, o)]
  }

  /** The same for one purchase order. */
  ghost predicate PurchaseLogged(db: Db, next: Db, o: Id, action: Action) {
    && o in db.purchases && o in next.purchases
    && next.purchases == db.purchases[o := next.purchases[o]]
    && next.purchases[o].warehouse == db.purchases[o].warehouse
    && next.sales == db.sales
    && next.events == db.events + [PurchaseEvent(action, o, next.purchases[o].status)]
    && next.audits == db.audits + [Audit(action, o)]
  }

  /** Orders, audits and events are as they were; the loops of a transition leave them so. */
  ghost predicate SameLog(db: Db, changed: Db) {
    && changed.sales == db.sales && changed.purchases == db.purchases
    && changed.audits == db.audits && changed.events == db.events
  }

  lemma SetSalesLogs(db: Db, changed: Db, o: Id, status: SalesStatus, at: Option<Time>, action: Action)
    requires SameLog(db, changed) && o in db.sales
    ensures SalesLogged(db, SetSales(changed, o, status, at, action), o, action)
  {
  }

  lemma SetPurchaseLogs(db: Db, changed: Db, o: Id, status: PurchaseStatus, at: Option<Time>, action: Action)
    requires SameLog(db, changed) && o in db.purchases
    ensures PurchaseLogged(db, SetPurchase(changed, o, status, at, action), o, action)
  {
  }

  lemma ConfirmLogs(db: Db, o: Id)
    requires ConfirmSales(db, o).Committed?
    ensures SalesLogged(db, ConfirmSales(db, o).db, o, SalesConfirmed)
  {
  }

  lemma ReserveLogs(db: Db, o: Id, lines: seq<Line>)
    requires ReserveSales(db, o, lines).Committed?
    ensures SalesLogged(db, ReserveSales(db, o, lines).db, o, SalesReserved)
  {
    ReserveLinesEffect(db, o, lines);
    var held := ReserveLines(db, o, lines).db;
    SetSalesLogs(db, held, o, ReservationStatus(held.salesItems, o), held.sales[o].fulfilledAt, SalesReserved);
  }

  lemma FulfillLogs(db: Db, o: Id, doc: Id, at: Time, lines: seq<Line>)
    requires FulfillSales(db, o, doc, at, lines).Committed?
    ensures SalesLogged(db, FulfillSales(db, o, doc, at, lines).db, o, SalesFulfilled)
  {
    FulfillLinesEffect(db, o, doc, at, lines);
    var shipped := FulfillLines(db, o, doc, at, lines).db;
    SetSalesLogs(db, shipped, o, SoFulfilled, Some(at), SalesFulfilled);
    SetSalesLogs(db, shipped, o, SoPartiallyFulfilled, None, SalesFulfilled);
  }

  lemma CancelLogs(db: Db, o: Id)
    requires CancelSales(db, o).Committed?
    ensures SalesLogged(db, CancelSales(db, o).db, o, SalesCancelled)
  {
  }

  lemma SubmitLogs(db: Db, o: Id)
    requires SubmitPurchase(db, o).Committed?
    ensures PurchaseLogged(db, SubmitPurchase(db, o).db, o, PurchaseSubmitted)
  {
  }

  lemma CancelPurchaseLogs(db: Db, o: Id)
    requires CancelPurchase(db, o).Committed?
    ensures PurchaseLogged(db, CancelPurchase(db, o).db, o, PurchaseCancelled)
  {
  }

  lemma ReceiveLogs(db: Db, o: Id, doc: Id, at: Time, lines: seq<Line>)
    requires ReceivePurchase(db, o, doc, at, lines).Committed?
    ensures PurchaseLogged(db, ReceivePurchase(db, o, doc, at, lines).db, o, PurchaseReceived)
  {
    ReceiveLinesFrame(db, o, doc, at, lines);
    var taken := ReceiveLines(db, o, doc, at, lines).db;
    SetPurchaseLogs(db, taken, o, PoReceived, Some(at), PurchaseReceived);
    SetPurchaseLogs(db, taken, o, PoPartiallyReceived, None, PurchaseReceived);
  }

  /** The operations that move an order to another status. */
  predicate Transition(op: Op) {
    SalesTransition(op) || PurchaseTransition(op)
  }

  predicate SalesTransition(op: Op) {
    op.OpConfirmSales? || op.OpReserveSales? || op.OpFulfillSales? || op.OpCancelSales?
  }

  predicate PurchaseTransition(op: Op) {
    op.OpSubmitPurchase? || op.OpCancelPurchase? || op.OpReceivePurchase?
  }

  function ActionOf(op: Op): Action
    requires Transition(op)
  {
    match op
    case OpConfirmSales(_) => SalesConfirmed
    case OpReserveSales(_, _) => SalesReserved
    case OpFulfillSales(_, _, _, _) => SalesFulfilled
    case OpCancelSales(_) => SalesCancelled
    case OpSubmitPurchase(_) => PurchaseSubmitted
    case OpCancelPurchase(_) => PurchaseCancelled
    case OpReceivePurchase(_, _, _, _) => PurchaseReceived
  }

  /** Each committed sales transition adds exactly one event, carrying the new status, and one audit row. */
  lemma SalesTransitionLogs(db: Db, op: Op)
    requires SalesTransition(op) && Step(db, op).Committed?
    ensures SalesLogged(db, Step(db, op).db, op.order, ActionOf(op))
  {
    match op
    case OpConfirmSales(o) => ConfirmLogs(db, o);
    case OpReserveSales(o, lines) => ReserveLogs(db, o, lines);
    case OpFulfillSales(o, doc, at, lines) => FulfillLogs(db, o, doc, at, lines);
    case OpCancelSales(o) => CancelLogs(db, o);
  }

  /** Each committed purchase transition does the same. */
  lemma PurchaseTransitionLogs(db: Db, op: Op)
    requires PurchaseTransition(op) && Step(db, op).Committed?
    ensures PurchaseLogged(db, Step(db, op).db, op.order, ActionOf(op))
  {
    match op
    case OpSubmitPurchase(o) => SubmitLogs(db, o);
    case OpCancelPurchase(o) => CancelPurchaseLogs(db, o);
    case OpReceivePurchase(o, doc, at, lines) => ReceiveLogs(db, o, doc, at, lines);
  }

  /** Every other operation leaves the outbox and the statuses of existing orders alone; new orders are drafts. */
  ghost predicate Unpublished(db: Db, next: Db) {
    && next.events == db.events
    && (forall o :: o in db.sales ==> o in next.sales && next.sales[o] == db.sales[o])
    && (forall o :: o in db.purchases ==> o in next.purchases && next.purchases[o] == db.purchases[o])
    && (forall o :: o in next.sales && o !in db.sales ==> next.sales[o].status.SoDraft?)
    && (forall o :: o in next.purchases && o !in db.purchases ==> next.purchases[o].status.PoDraft?)
  }

  lemma ReceiptPublishesNothing(db: Db, k: Key, quantity: int, op: Id, at: Time)
    ensures Unpublished(db, After(db, ReceiveStock(db, k, quantity, op, at)))
  {
  }

  lemma IssuePublishesNothing(db: Db, k: Key, quantity: int, op: Id, at: Time)
    ensures Unpublished(db, After(db, IssueStock(db, k, quantity, op, at)))
  {
  }

  lemma AdjustmentPublishesNothing(db: Db, k: Key, delta: int, op: Id, at: Time)
    ensures Unpublished(db, After(db, AdjustStock(db, k, delta, op, at)))
  {
  }

  lemma TransferPublishesNothing(db: Db, from: Id, to: Id, product: Id, quantity: int, op: Id, at: Time)
    ensures Unpublished(db, After(db, TransferStock(db, from, to, product, quantity, op, at)))
  {
  }

  lemma StockPublishesNothing(db: Db, op: Op)
    requires StockOp(op)
    ensures Unpublished(db, After(db, Step(db, op)))
  {
    match op
    case OpReceiveStock(k, q, id, at) => ReceiptPublishesNothing(db, k, q, id, at);
    case OpIssueStock(k, q, id, at) => IssuePublishesNothing(db, k, q, id, at);
    case OpAdjustStock(k, d, id, at) => AdjustmentPublishesNothing(db, k, d, id, at);
    case OpTransferStock(from, to, p, q, id, at) => TransferPublishesNothing(db, from, to, p, q, id, at);
    case OpSetReorderPoint(_, _) =>
  }

  lemma CreatePublishesNothing(db: Db, o: Id, customer: Id, warehouse: Id)
    ensures Unpublished(db, After(db, CreateSales(db, o, customer, warehouse)))
  {
  }

  lemma ItemsPublishNothing(db: Db, next: Db)
    requires next == db.(salesItems := next.salesItems, purchaseItems := next.purchaseItems)
    ensures Unpublished(db, next)
  {
  }

  lemma SalesEditPublishesNothing(db: Db, op: Op)
    requires SalesOp(op) && !Transition(op)
    ensures Unpublished(db, After(db, Step(db, op)))
  {
    match op
    case OpCreateSales(o, customer, w) => CreatePublishesNothing(db, o, customer, w);
    case OpAddSalesItem(_, _, _, _) => ItemsPublishNothing(db, After(db, Step(db, op)));
    case OpRemoveSalesItem(_, _) => ItemsPublishNothing(db, After(db, Step(db, op)));
  }

  lemma PurchaseEditPublishesNothing(db: Db, op: Op)
    requires PurchaseOp(op) && !Transition(op)
    ensures Unpublished(db, After(db, Step(db, op)))
  {
  }

  lemma AdminPublishesNothing(db: Db, op: Op)
    requires !StockOp(op) && !SalesOp(op) && !PurchaseOp(op)
    ensures Unpublished(db, After(db, Step(db, op)))
  {
  }

  lemma OthersPublishNothing(db: Db, op: Op)
    requires !Transition(op)
    ensures Unpublished(db, After(db, Step(db, op)))
  {
    if StockOp(op) {
      StockPublishesNothing(db, op);
    } else if SalesOp(op) {
      SalesEditPublishesNothing(db, op);
    } else if PurchaseOp(op) {
      PurchaseEditPublishesNothing(db, op);
    } else {
      AdminPublishesNothing(db, op);
    }
  }

  lemma EventAppended(events: seq<OrderEvent>, e: OrderEvent, o: Id)
    ensures SalesStatusFromEvents(events + [e], o)
         == if e.SalesEvent? && e.order == o then e.soStatus else SalesStatusFromEvents(events, o)
    ensures PurchaseStatusFromEvents(events + [e], o)
         == if e.PurchaseEvent? && e.order == o then e.poStatus else PurchaseStatusFromEvents(events, o)
  {
    assert (events + [e])[..|events|] == events;
  }

  lemma SalesEventMatches(db: Db, next: Db, o: Id, action: Action)
    requires EventsMatch(db) && SalesLogged(db, next, o, action)
    ensures EventsMatch(next)
  {
    forall p
      ensures (if p in next.sales then next.sales[p].status else SoDraft) == SalesStatusFromEvents(next.events, p)
      ensures (if p in next.purchases then next.purchases[p].status else PoDraft)
              == PurchaseStatusFromEvents(next.events, p)
    {
      EventAppended(db.events, SalesEvent(action, o, next.sales[o].status), p);
    }
  }

  lemma PurchaseEventMatches(db: Db, next: Db, o: Id, action: Action)
    requires EventsMatch(db) && PurchaseLogged(db, next, o, action)
    ensures EventsMatch(next)
  {
    forall p
      ensures (if p in next.sales then next.sales[p].status else SoDraft) == SalesStatusFromEvents(next.events, p)
      ensures (if p in next.purchases then next.purchases[p].status else PoDraft)
              == PurchaseStatusFromEvents(next.events, p)
    {
      EventAppended(db.events, PurchaseEvent(action, o, next.purchases[o].status), p);
    }
  }

  lemma UnpublishedMatches(db: Db, next: Db)
    requires EventsMatch(db) && Unpublished(db, next)
    ensures EventsMatch(next)
  {
  }

  lemma StepEventsMatch(db: Db, op: Op)
    requires EventsMatch(db)
    ensures EventsMatch(After(db, Step(db, op)))
  {
    var r := Step(db, op);
    if !Transition(op) {
      OthersPublishNothing(db, op);
      UnpublishedMatches(db, After(db, r));
    } else if r.Committed? {
      if SalesTransition(op) {
        SalesTransitionLogs(db, op);
        SalesEventMatches(db, r.db, op.order, ActionOf(op));
      } else {
        PurchaseTransitionLogs(db, op);
        PurchaseEventMatches(db, r.db, op.order, ActionOf(op));
      }
    }
  }
}
