/** The stored status of an order against the quantities of its items. */
module OrderStatus {
  import opened Ledger
  import opened LedgerSteps
  import opened ReservationProofs
  import opened StepSoundness

  ghost predicate HasItem(items: map<Id, SalesItem>, o: Id) {
    exists i :: i in items && items[i].order == o
  }

  /** What each sales status promises about the items of `o`. */
  ghost predicate SalesFit(items: map<Id, SalesItem>, o: Id, status: SalesStatus) {
    match status
    case SoDraft => Untouched(items, o)
    case SoConfirmed => HasItem(items, o) && Untouched(items, o)
    case SoPartiallyReserved =>
      && NothingFulfilled(items, o)
      && (exists i :: i in items && items[i].order == o && items[i].reserved > 0)
      && (exists i :: i in items && items[i].order == o && items[i].reserved < items[i].ordered)
    case SoReserved =>
      && HasItem(items, o)
      && NothingFulfilled(items, o)
      && (forall i :: i in items && items[i].order == o ==> items[i].reserved == items[i].ordered)
    case SoPartiallyFulfilled =>
      && (exists i :: i in items && items[i].order == o && items[i].fulfilled > 0)
      && (exists i :: i in items && items[i].order == o && items[i].fulfilled < items[i].ordered)
    case SoFulfilled =>
      && HasItem(items, o)
      && (forall i :: i in items && items[i].order == o ==>
          items[i].fulfilled == items[i].ordered && items[i].reserved == 0)
    case SoCancelled => Untouched(items, o)
  }

  ghost predicate Untouched(items: map<Id, SalesItem>, o: Id) {
    forall i :: i in items && items[i].order == o ==> items[i].reserved == 0 && items[i].fulfilled == 0
  }

  ghost predicate NothingFulfilled(items: map<Id, SalesItem>, o: Id) {
    forall i :: i in items && items[i].order == o ==> items[i].fulfilled == 0
  }

  /** Every sales order's status and fulfillment time match its quantities. */
  ghost predicate SalesFits(db: Db) {
    forall o :: o in db.sales ==>
      && SalesFit(db.salesItems, o, db.sales[o].status)
      && (db.sales[o].fulfilledAt.Some? <==> db.sales[o].status.SoFulfilled?)
  }

  /** What each purchase status promises about the items of `o`. */
  ghost predicate PurchaseFit(items: map<Id, PurchaseItem>, o: Id, status: PurchaseStatus) {
    match status
    case PoPartiallyReceived =>
      && (exists i :: i in items && items[i].order == o && items[i].received > 0)
      && (exists i :: i in items && items[i].order == o && items[i].received < items[i].ordered)
    case PoReceived =>
      && (exists i :: i in items && items[i].order == o)
      && (forall i :: i in items && items[i].order == o ==> items[i].received == items[i].ordered)
    case PoSubmitted =>
      && (exists i :: i in items && items[i].order == o)
      && (forall i :: i in items && items[i].order == o ==> items[i].received == 0)
    case PoDraft => forall i :: i in items && items[i].order == o ==> items[i].received == 0
    case PoCancelled => forall i :: i in items && items[i].order == o ==> items[i].received == 0
  }

  /** Every purchase order's status and receipt time match its quantities. */
  ghost predicate PurchasesFit(db: Db) {
    forall o :: o in db.purchases ==>
      && PurchaseFit(db.purchaseItems, o, db.purchases[o].status)
      && (db.purchases[o].receivedAt.Some? <==> db.purchases[o].status.PoReceived?)
  }

  // ---------------------------------------------------------------- frames

  ghost predicate SameItems(a: map<Id, SalesItem>, b: map<Id, SalesItem>, o: Id) {
    && (forall i :: i in a && a[i].order == o ==> i in b && b[i] == a[i])
    && (forall i :: i in b && b[i].order == o ==> i in a && a[i] == b[i])
  }

  /** The items of other orders do not matter. */
  lemma SalesFitFrame(a: map<Id, SalesItem>, b: map<Id, SalesItem>, o: Id, status: SalesStatus)
    requires SameItems(a, b, o) && SalesFit(a, o, status)
    ensures SalesFit(b, o, status)
  {
    forall i | i in a && a[i].order == o ensures i in b && b[i] == a[i] {
    }
    match status
    case SoPartiallyReserved =>
      var i :| i in a && a[i].order == o && a[i].reserved > 0;
      var j :| j in a && a[j].order == o && a[j].reserved < a[j].ordered;
      assert b[i] == a[i] && b[j] == a[j];
    case SoPartiallyFulfilled =>
      var i :| i in a && a[i].order == o && a[i].fulfilled > 0;
      var j :| j in a && a[j].order == o && a[j].fulfilled < a[j].ordered;
      assert b[i] == a[i] && b[j] == a[j];
    case _ =>
      if HasItem(a, o) {
        var i :| i in a && a[i].order == o;
        assert b[i] == a[i];
      }
  }

  /** One order and its items may change; the others stay as they were. */
  lemma SalesFitsElsewhere(a: Db, b: Db, o: Id)
    requires SalesFits(a) && o in b.sales
    requires forall p :: p in b.sales && p != o ==>
               p in a.sales && b.sales[p] == a.sales[p] && SameItems(a.salesItems, b.salesItems, p)
    requires SalesFit(b.salesItems, o, b.sales[o].status)
    requires b.sales[o].fulfilledAt.Some? <==> b.sales[o].status.SoFulfilled?
    ensures SalesFits(b)
  {
    forall p | p in b.sales
      ensures SalesFit(b.salesItems, p, b.sales[p].status)
      ensures b.sales[p].fulfilledAt.Some? <==> b.sales[p].status.SoFulfilled?
    {
      if p != o {
        SalesFitFrame(a.salesItems, b.salesItems, p, a.sales[p].status);
      }
    }
  }

  // ---------------------------------------------------------------- request quantities

  lemma {:induction false} UnnamedItem(lines: seq<Line>, i: Id)
    requires forall n :: 0 <= n < |lines| ==> lines[n].item != i
    ensures LineQuantity(lines, i) == 0
    decreases |lines|
  {
    if lines != [] {
      UnnamedItem(lines[1..], i);
    }
  }

  lemma {:induction false} LineQuantityNonNegative(lines: seq<Line>, i: Id)
    requires AllPositive(lines)
    ensures LineQuantity(lines, i) >= 0
    decreases |lines|
  {
    if lines != [] {
      LineQuantityNonNegative(lines[1..], i);
    }
  }

  lemma FirstItemGains(lines: seq<Line>)
    requires AllPositive(lines) && lines != []
    ensures LineQuantity(lines, lines[0].item) > 0
  {
    LineQuantityNonNegative(lines[1..], lines[0].item);
  }

  /** A validated request leaves the items of other orders alone. */
  lemma OtherOrdersUnnamed(db: Db, o: Id, lines: seq<Line>, i: Id)
    requires o in db.sales && i in db.salesItems && db.salesItems[i].order != o
    requires CheckReserve(db.salesItems, o, lines).None? || CheckFulfill(db.salesItems, o, lines).None?
    ensures LineQuantity(lines, i) == 0
  {
    ValidLinesBelong(db, o, lines);
    UnnamedItem(lines, i);
  }

  // ---------------------------------------------------------------- sales transitions

  /** determineReservationStatus names a status that fits, once something is reserved. */
  lemma ReservationStatusFits(items: map<Id, SalesItem>, o: Id, first: Id)
    requires ItemsOk(items) && first in items && items[first].order == o && items[first].reserved > 0
    ensures SalesFit(items, o, ReservationStatus(items, o))
  {
  }

  /** So do the two statuses that fulfill chooses between, once something is fulfilled. */
  lemma FulfillmentStatusFits(items: map<Id, SalesItem>, o: Id, first: Id)
    requires ItemsOk(items) && first in items && items[first].order == o && items[first].fulfilled > 0
    ensures SalesFit(items, o, if FullyFulfilled(items, o) then SoFulfilled else SoPartiallyFulfilled)
  {
  }

  lemma OthersKeepItems(db: Db, b: map<Id, SalesItem>, o: Id, lines: seq<Line>, p: Id)
    requires o in db.sales && p != o
    requires CheckReserve(db.salesItems, o, lines).None? || CheckFulfill(db.salesItems, o, lines).None?
    requires b.Keys == db.salesItems.Keys
    requires forall i :: i in b ==> b[i].order == db.salesItems[i].order
    requires forall i :: i in b && LineQuantity(lines, i) == 0 ==> b[i] == db.salesItems[i]
    ensures SameItems(db.salesItems, b, p)
  {
    forall i | i in db.salesItems && db.salesItems[i].order == p ensures b[i] == db.salesItems[i] {
      OtherOrdersUnnamed(db, o, lines, i);
    }
  }

  /** The status write that ends a transaction which changed items of `o` only. */
  lemma StatusWriteFits(db: Db, changed: Db, o: Id, status: SalesStatus, at: Option<Time>, action: Action)
    requires SalesFits(db) && o in db.sales && changed.sales == db.sales
    requires forall p :: p in db.sales && p != o ==> SameItems(db.salesItems, changed.salesItems, p)
    requires SalesFit(changed.salesItems, o, status)
    requires at.Some? <==> status.SoFulfilled?
    ensures SalesFits(SetSales(changed, o, status, at, action))
  {
    SalesFitsElsewhere(db, SetSales(changed, o, status, at, action), o);
  }

  lemma ReservedOrderFits(db: Db, o: Id, lines: seq<Line>)
    requires Sound(db) && o in db.sales && lines != [] && DistinctItems(lines) && AllPositive(lines)
    requires CheckReserve(db.salesItems, o, lines).None? && ReserveLines(db, o, lines).Committed?
    ensures var held := ReserveLines(db, o, lines).db.salesItems; SalesFit(held, o, ReservationStatus(held, o))
  {
    var held := ReserveLines(db, o, lines).db.salesItems;
    ReserveLinesEffect(db, o, lines);
    assert ItemsOk(held) by {
      ReserveLinesKeep(db, o, lines);
    }
    FirstItemGains(lines);
    assert lines[0].item in held && held[lines[0].item].order == o && held[lines[0].item].reserved > 0;
    ReservationStatusFits(held, o, lines[0].item);
  }

  lemma ReserveLeavesOthers(db: Db, o: Id, lines: seq<Line>, p: Id)
    requires o in db.sales && p != o
    requires CheckReserve(db.salesItems, o, lines).None? && ReserveLines(db, o, lines).Committed?
    ensures SameItems(db.salesItems, ReserveLines(db, o, lines).db.salesItems, p)
  {
    ReserveLinesEffect(db, o, lines);
    OthersKeepItems(db, ReserveLines(db, o, lines).db.salesItems, o, lines, p);
  }

  lemma ReserveFits(db: Db, o: Id, lines: seq<Line>)
    requires Sound(db) && SalesFits(db) && lines != [] && ReserveSales(db, o, lines).Committed?
    ensures SalesFits(ReserveSales(db, o, lines).db)
  {
    var held := ReserveLines(db, o, lines).db;
    ReservedOrderFits(db, o, lines);
    forall p | p in db.sales && p != o ensures SameItems(db.salesItems, held.salesItems, p) {
      ReserveLeavesOthers(db, o, lines, p);
    }
    StatusWriteFits(db, held, o, ReservationStatus(held.salesItems, o), None, SalesReserved);
  }

  lemma FulfilledOrderFits(db: Db, o: Id, doc: Id, at: Time, lines: seq<Line>)
    requires Sound(db) && o in db.sales && lines != [] && DistinctItems(lines) && AllPositive(lines)
    requires CheckFulfill(db.salesItems, o, lines).None? && FulfillLines(db, o, doc, at, lines).Committed?
    ensures var shipped := FulfillLines(db, o, doc, at, lines).db.salesItems;
            SalesFit(shipped, o, if FullyFulfilled(shipped, o) then SoFulfilled else SoPartiallyFulfilled)
  {
    var shipped := FulfillLines(db, o, doc, at, lines).db.salesItems;
    FulfillLinesEffect(db, o, doc, at, lines);
    assert ItemsOk(shipped) by {
      FulfillLinesKeep(db, o, doc, at, lines);
    }
    FirstItemGains(lines);
    assert lines[0].item in shipped && shipped[lines[0].item].order == o && shipped[lines[0].item].fulfilled > 0;
    FulfillmentStatusFits(shipped, o, lines[0].item);
  }

  lemma FulfillLeavesOthers(db: Db, o: Id, doc: Id, at: Time, lines: seq<Line>, p: Id)
    requires o in db.sales && p != o
    requires CheckFulfill(db.salesItems, o, lines).None? && FulfillLines(db, o, doc, at, lines).Committed?
    ensures SameItems(db.salesItems, FulfillLines(db, o, doc, at, lines).db.salesItems, p)
  {
    FulfillLinesEffect(db, o, doc, at, lines);
    OthersKeepItems(db, FulfillLines(db, o, doc, at, lines).db.salesItems, o, lines, p);
  }

  lemma FulfillFits(db: Db, o: Id, doc: Id, at: Time, lines: seq<Line>)
    requires Sound(db) && SalesFits(db) && lines != [] && FulfillSales(db, o, doc, at, lines).Committed?
    ensures SalesFits(FulfillSales(db, o, doc, at, lines).db)
  {
    var shipped := FulfillLines(db, o, doc, at, lines).db;
    FulfilledOrderFits(db, o, doc, at, lines);
    forall p | p in db.sales && p != o ensures SameItems(db.salesItems, shipped.salesItems, p) {
      FulfillLeavesOthers(db, o, doc, at, lines, p);
    }
    if FullyFulfilled(shipped.salesItems, o) {
      StatusWriteFits(db, shipped, o, SoFulfilled, Some(at), SalesFulfilled);
    } else {
      StatusWriteFits(db, shipped, o, SoPartiallyFulfilled, None, SalesFulfilled);
    }
  }

  lemma CancelFits(db: Db, o: Id)
    requires SalesFits(db) && CancelSales(db, o).Committed?
    ensures SalesFits(CancelSales(db, o).db)
  {
    var next := CancelSales(db, o).db;
    assert NothingFulfilled(db.salesItems, o);
    SalesFitsElsewhere(db, next, o);
  }

  lemma InsertSalesFits(db: Db, o: Id, customer: Id, warehouse: Id)
    requires Schema(db) && SalesFits(db) && InsertSales(db, o, customer, warehouse).Committed?
    ensures SalesFits(InsertSales(db, o, customer, warehouse).db)
  {
    SalesFitsElsewhere(db, InsertSales(db, o, customer, warehouse).db, o);
  }

  lemma AddItemFits(db: Db, o: Id, i: Id, product: Id, ordered: int)
    requires SalesFits(db) && AddSalesItem(db, o, i, product, ordered).Committed?
    ensures SalesFits(AddSalesItem(db, o, i, product, ordered).db)
  {
    SalesFitsElsewhere(db, AddSalesItem(db, o, i, product, ordered).db, o);
  }

  lemma RemoveItemFits(db: Db, o: Id, i: Id)
    requires SalesFits(db) && RemoveSalesItem(db, o, i).Committed?
    ensures SalesFits(RemoveSalesItem(db, o, i).db)
  {
    SalesFitsElsewhere(db, RemoveSalesItem(db, o, i).db, o);
  }

  lemma ConfirmFits(db: Db, o: Id)
    requires SalesFits(db) && ConfirmSales(db, o).Committed?
    ensures SalesFits(ConfirmSales(db, o).db)
  {
    SalesFitsElsewhere(db, ConfirmSales(db, o).db, o);
  }

  lemma StepSalesFits(db: Db, op: Op)
    requires Sound(db) && SalesFits(db) && WellFormed(op)
    ensures SalesFits(After(db, Step(db, op)))
  {
    if Step(db, op).Committed? && SalesOp(op) {
      match op
      case OpReserveSales(o, lines) => ReserveFits(db, o, lines);
      case OpFulfillSales(o, doc, at, lines) => FulfillFits(db, o, doc, at, lines);
      case OpCancelSales(o) => CancelFits(db, o);
      case OpCreateSales(o, c, w) => InsertSalesFits(db, o, c, w);
      case OpAddSalesItem(o, i, p, q) => AddItemFits(db, o, i, p, q);
      case OpRemoveSalesItem(o, i) => RemoveItemFits(db, o, i);
      case OpConfirmSales(o) => ConfirmFits(db, o);
    } else {
      NotSalesOp(db, op);
    }
  }

  ghost predicate SameSales(db: Db, r: Outcome) {
    After(db, r).sales == db.sales && After(db, r).salesItems == db.salesItems
  }

  lemma StockKeepsSales(db: Db, op: Op)
    requires StockOp(op)
    ensures SameSales(db, Step(db, op))
  {
  }

  lemma ReceiveKeepsSales(db: Db, o: Id, doc: Id, at: Time, lines: seq<Line>)
    ensures SameSales(db, ReceivePurchase(db, o, doc, at, lines))
  {
    if ReceivePurchase(db, o, doc, at, lines).Committed? {
      ReceiveLinesFrame(db, o, doc, at, lines);
    }
  }

  lemma PurchaseKeepsSales(db: Db, op: Op)
    requires PurchaseOp(op)
    ensures SameSales(db, Step(db, op))
  {
    if op.OpReceivePurchase? {
      ReceiveKeepsSales(db, op.order, op.document, op.at, op.lines);
    }
  }

  lemma AdminKeepsSales(db: Db, op: Op)
    requires !StockOp(op) && !SalesOp(op) && !PurchaseOp(op)
    ensures SameSales(db, Step(db, op))
  {
  }

  /** Stock and purchase operations never touch sales orders. */
  lemma NotSalesOp(db: Db, op: Op)
    requires Step(db, op).Committed? ==> !SalesOp(op)
    ensures SameSales(db, Step(db, op))
  {
    if StockOp(op) {
      StockKeepsSales(db, op);
    } else if PurchaseOp(op) {
      PurchaseKeepsSales(db, op);
    } else if !SalesOp(op) {
      AdminKeepsSales(db, op);
    }
  }

  lemma {:induction false} ReceiveLinesFrame(db: Db, o: Id, doc: Id, at: Time, lines: seq<Line>)
    requires o in db.purchases && AllPositive(lines)
    ensures var r := ReceiveLines(db, o, doc, at, lines);
            r.Committed? ==>
              r.db == db.(stock := r.db.stock, purchaseItems := r.db.purchaseItems,
                          receiptLines := r.db.receiptLines, movements := r.db.movements)
    decreases |lines|
  {
    if lines != [] && ReceiveLine(db, o, doc, at, lines[0]).Committed? {
      ReceiveLinesFrame(ReceiveLine(db, o, doc, at, lines[0]).db, o, doc, at, lines[1..]);
    }
  }

  // ---------------------------------------------------------------- purchase transitions

  /** What a receipt does to the items: each gains exactly its line. */
  lemma {:induction false} ReceiveLinesEffect(db: Db, o: Id, doc: Id, at: Time, lines: seq<Line>)
    requires o in db.purchases && AllPositive(lines)
    ensures var r := ReceiveLines(db, o, doc, at, lines);
            r.Committed? ==>
              && r.db.purchaseItems.Keys == db.purchaseItems.Keys
              && (forall i :: i in db.purchaseItems ==>
                    r.db.purchaseItems[i]
                        == db.purchaseItems[i].(received := db.purchaseItems[i].received + LineQuantity(lines, i)))
    decreases |lines|
  {
    if lines != [] && ReceiveLine(db, o, doc, at, lines[0]).Committed? {
      ReceiveLinesEffect(ReceiveLine(db, o, doc, at, lines[0]).db, o, doc, at, lines[1..]);
    }
  }

  lemma {:induction false} ReceiptLinesBelong(db: Db, o: Id, lines: seq<Line>)
    requires CheckReceive(db.purchaseItems, o, lines).None?
    ensures forall n :: 0 <= n < |lines| ==>
              lines[n].item in db.purchaseItems && db.purchaseItems[lines[n].item].order == o
    decreases |lines|
  {
    if lines != [] {
      ReceiptLinesBelong(db, o, lines[1..]);
      forall n | 0 <= n < |lines|
        ensures lines[n].item in db.purchaseItems && db.purchaseItems[lines[n].item].order == o
      {
        if n > 0 {
          assert lines[n] == lines[1..][n - 1];
        }
      }
    }
  }

  ghost predicate SamePurchaseItems(a: map<Id, PurchaseItem>, b: map<Id, PurchaseItem>, o: Id) {
    && (forall i :: i in a && a[i].order == o ==> i in b && b[i] == a[i])
    && (forall i :: i in b && b[i].order == o ==> i in a && a[i] == b[i])
  }

  lemma PurchasesFitElsewhere(a: Db, b: Db, o: Id)
    requires PurchasesFit(a) && o in b.purchases
    requires forall p :: p in b.purchases && p != o ==>
               p in a.purchases && b.purchases[p] == a.purchases[p]
                   && SamePurchaseItems(a.purchaseItems, b.purchaseItems, p)
    requires PurchaseFit(b.purchaseItems, o, b.purchases[o].status)
    requires b.purchases[o].receivedAt.Some? <==> b.purchases[o].status.PoReceived?
    ensures PurchasesFit(b)
  {
    forall p | p in b.purchases
      ensures PurchaseFit(b.purchaseItems, p, b.purchases[p].status)
      ensures b.purchases[p].receivedAt.Some? <==> b.purchases[p].status.PoReceived?
    {
      if p != o {
        PurchaseFitFrame(a.purchaseItems, b.purchaseItems, p, a.purchases[p].status);
      }
    }
  }

  lemma PurchaseFitFrame(a: map<Id, PurchaseItem>, b: map<Id, PurchaseItem>, o: Id, status: PurchaseStatus)
    requires SamePurchaseItems(a, b, o) && PurchaseFit(a, o, status)
    ensures PurchaseFit(b, o, status)
  {
    match status
    case PoPartiallyReceived =>
      var i :| i in a && a[i].order == o && a[i].received > 0;
      var j :| j in a && a[j].order == o && a[j].received < a[j].ordered;
      assert b[i] == a[i] && b[j] == a[j];
    case PoReceived =>
      var i :| i in a && a[i].order == o;
      assert b[i] == a[i];
    case PoSubmitted =>
      var i :| i in a && a[i].order == o;
      assert b[i] == a[i];
    case _ =>
  }

  /** The two statuses that receive chooses between fit, once something is received. */
  lemma ReceiptStatusFits(items: map<Id, PurchaseItem>, o: Id, first: Id)
    requires PurchaseItemsOk(items) && first in items && items[first].order == o && items[first].received > 0
    ensures PurchaseFit(items, o, if FullyReceived(items, o) then PoReceived else PoPartiallyReceived)
  {
  }

  lemma ReceivedOrderFits(db: Db, o: Id, doc: Id, at: Time, lines: seq<Line>)
    requires Sound(db) && o in db.purchases && lines != [] && DistinctItems(lines) && AllPositive(lines)
    requires CheckReceive(db.purchaseItems, o, lines).None? && ReceiveLines(db, o, doc, at, lines).Committed?
    ensures var taken := ReceiveLines(db, o, doc, at, lines).db.purchaseItems;
            PurchaseFit(taken, o, if FullyReceived(taken, o) then PoReceived else PoPartiallyReceived)
  {
    var taken := ReceiveLines(db, o, doc, at, lines).db.purchaseItems;
    ReceiveLinesEffect(db, o, doc, at, lines);
    assert PurchaseItemsOk(taken) by {
      ReceiveLinesKeep(db, o, doc, at, lines);
    }
    FirstItemGains(lines);
    assert lines[0].item in taken && taken[lines[0].item].order == o && taken[lines[0].item].received > 0;
    ReceiptStatusFits(taken, o, lines[0].item);
  }

  lemma ReceiveLeavesOthers(db: Db, o: Id, doc: Id, at: Time, lines: seq<Line>, p: Id)
    requires o in db.purchases && p != o && AllPositive(lines)
    requires CheckReceive(db.purchaseItems, o, lines).None? && ReceiveLines(db, o, doc, at, lines).Committed?
    ensures SamePurchaseItems(db.purchaseItems, ReceiveLines(db, o, doc, at, lines).db.purchaseItems, p)
  {
    var taken := ReceiveLines(db, o, doc, at, lines).db.purchaseItems;
    ReceiveLinesEffect(db, o, doc, at, lines);
    ReceiptLinesBelong(db, o, lines);
    forall i | i in db.purchaseItems && db.purchaseItems[i].order == p ensures taken[i] == db.purchaseItems[i] {
      UnnamedItem(lines, i);
    }
  }

  lemma ReceiveFits(db: Db, o: Id, doc: Id, at: Time, lines: seq<Line>)
    requires Sound(db) && PurchasesFit(db) && lines != [] && ReceivePurchase(db, o, doc, at, lines).Committed?
    ensures PurchasesFit(ReceivePurchase(db, o, doc, at, lines).db)
  {
    ReceivedOrderFits(db, o, doc, at, lines);
    forall p | p in db.purchases && p != o
      ensures SamePurchaseItems(db.purchaseItems, ReceiveLines(db, o, doc, at, lines).db.purchaseItems, p)
    {
      ReceiveLeavesOthers(db, o, doc, at, lines, p);
    }
    PurchasesFitElsewhere(db, ReceivePurchase(db, o, doc, at, lines).db, o);
  }

  lemma InsertPurchaseFits(db: Db, o: Id, supplier: Id, warehouse: Id)
    requires Schema(db) && PurchasesFit(db) && InsertPurchase(db, o, supplier, warehouse).Committed?
    ensures PurchasesFit(InsertPurchase(db, o, supplier, warehouse).db)
  {
    PurchasesFitElsewhere(db, InsertPurchase(db, o, supplier, warehouse).db, o);
  }

  lemma AddPurchaseItemFits(db: Db, o: Id, i: Id, product: Id, ordered: int)
    requires PurchasesFit(db) && AddPurchaseItem(db, o, i, product, ordered).Committed?
    ensures PurchasesFit(AddPurchaseItem(db, o, i, product, ordered).db)
  {
    PurchasesFitElsewhere(db, AddPurchaseItem(db, o, i, product, ordered).db, o);
  }

  lemma RemovePurchaseItemFits(db: Db, o: Id, i: Id)
    requires PurchasesFit(db) && RemovePurchaseItem(db, o, i).Committed?
    ensures PurchasesFit(RemovePurchaseItem(db, o, i).db)
  {
    PurchasesFitElsewhere(db, RemovePurchaseItem(db, o, i).db, o);
  }

  lemma SubmitFits(db: Db, o: Id)
    requires PurchasesFit(db) && SubmitPurchase(db, o).Committed?
    ensures PurchasesFit(SubmitPurchase(db, o).db)
  {
    PurchasesFitElsewhere(db, SubmitPurchase(db, o).db, o);
  }

  lemma CancelPurchaseFits(db: Db, o: Id)
    requires PurchasesFit(db) && CancelPurchase(db, o).Committed?
    ensures PurchasesFit(CancelPurchase(db, o).db)
  {
    PurchasesFitElsewhere(db, CancelPurchase(db, o).db, o);
  }

  lemma StepPurchasesFit(db: Db, op: Op)
    requires Sound(db) && PurchasesFit(db) && WellFormed(op)
    ensures PurchasesFit(After(db, Step(db, op)))
  {
    if Step(db, op).Committed? && PurchaseOp(op) {
      match op
      case OpCreatePurchase(o, supplier, w) => InsertPurchaseFits(db, o, supplier, w);
      case OpAddPurchaseItem(o, i, p, q) => AddPurchaseItemFits(db, o, i, p, q);
      case OpRemovePurchaseItem(o, i) => RemovePurchaseItemFits(db, o, i);
      case OpSubmitPurchase(o) => SubmitFits(db, o);
      case OpCancelPurchase(o) => CancelPurchaseFits(db, o);
      case OpReceivePurchase(o, doc, at, lines) => ReceiveFits(db, o, doc, at, lines);
    } else {
      NotPurchaseOp(db, op);
    }
  }

  /** Stock and sales operations never touch purchase orders. */
  lemma NotPurchaseOp(db: Db, op: Op)
    requires Step(db, op).Committed? ==> !PurchaseOp(op)
    ensures After(db, Step(db, op)).purchases == db.purchases
    ensures After(db, Step(db, op)).purchaseItems == db.purchaseItems
  {
    if Step(db, op).Committed? && SalesOp(op) {
      SalesKeepsPurchases(db, op);
    }
  }

  ghost predicate SamePurchases(db: Db, r: Outcome) {
    r.Committed? ==> r.db.purchases == db.purchases && r.db.purchaseItems == db.purchaseItems
  }

  lemma ReserveKeepsPurchases(db: Db, o: Id, lines: seq<Line>)
    ensures SamePurchases(db, ReserveSales(db, o, lines))
  {
    if ReserveSales(db, o, lines).Committed? {
      ReserveLinesEffect(db, o, lines);
    }
  }

  lemma FulfillKeepsPurchases(db: Db, o: Id, doc: Id, at: Time, lines: seq<Line>)
    ensures SamePurchases(db, FulfillSales(db, o, doc, at, lines))
  {
    if FulfillSales(db, o, doc, at, lines).Committed? {
      FulfillLinesEffect(db, o, doc, at, lines);
    }
  }

  lemma CancelKeepsPurchases(db: Db, o: Id)
    ensures SamePurchases(db, CancelSales(db, o))
  {
  }

  lemma SalesKeepsPurchases(db: Db, op: Op)
    requires SalesOp(op)
    ensures SamePurchases(db, Step(db, op))
  {
    match op
    case OpReserveSales(o, lines) => ReserveKeepsPurchases(db, o, lines);
    case OpFulfillSales(o, doc, at, lines) => FulfillKeepsPurchases(db, o, doc, at, lines);
    case OpCancelSales(o) => CancelKeepsPurchases(db, o);
    case OpConfirmSales(_) =>
    case OpCreateSales(_, _, _) =>
    case OpAddSalesItem(_, _, _, _) =>
    case OpRemoveSalesItem(_, _) =>
  }

  // ---------------------------------------------------------------- consequences

  /** RESERVED is accepted by reserve's status check, yet no reservation of such an order can succeed. */
  lemma ReservedOrderRejects(db: Db, o: Id, lines: seq<Line>)
    requires Sound(db) && SalesFits(db) && lines != []
    requires o in db.sales && db.sales[o].status.SoReserved?
    ensures ReserveSales(db, o, lines).Rejected?
  {
    if CheckRequest(lines).None? {
      assert lines[0].quantity > 0;
      assert CheckReserve(db.salesItems, o, lines).Some?;
    }
  }
}
