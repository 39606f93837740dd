/** Every unit on hand is explained by the movement history, and every document line by an item. */
module StockConservation {
  import opened Sums
  import opened Ledger
  import opened LedgerSteps
  import opened ReservationProofs

  ghost function OnHandRows(stock: map<Key, Stock>, p: Id): map<Key, int> {
    map k | k in stock && k.product == p :: stock[k].quantity
  }

  /** On-hand stock of a product over all warehouses. */
  ghost function OnHand(stock: map<Key, Stock>, p: Id): int {
    Total(OnHandRows(stock, p))
  }

  ghost function PurchasedRows(items: map<Id, PurchaseItem>, p: Id): map<Id, int> {
    map i | i in items && items[i].product == p :: items[i].received
  }

  /** What purchase orders have received of a product. */
  ghost function Purchased(items: map<Id, PurchaseItem>, p: Id): int {
    Total(PurchasedRows(items, p))
  }

  ghost function SoldRows(items: map<Id, SalesItem>, p: Id): map<Id, int> {
    map i | i in items && items[i].product == p :: items[i].fulfilled
  }

  /** What sales orders have shipped of a product. */
  ghost function Sold(items: map<Id, SalesItem>, p: Id): int {
    Total(SoldRows(items, p))
  }

  /** The movement types that the services write for each cause, with the sign of their delta. */
  predicate Classified(m: Movement) {
    && (m.kind.Receipt? ==> m.delta > 0 && !m.cause.BySale?)
    && (m.kind.Issue? ==> m.delta < 0 && !m.cause.ByPurchase?)
    && (m.kind.Adjustment? ==> m.delta != 0)
    && (m.kind.TransferIn? ==> m.delta > 0)
    && (m.kind.TransferOut? ==> m.delta < 0)
  }

  /** Stock rows against movements. */
  ghost predicate StockExplained(stock: map<Key, Stock>, movements: seq<Movement>) {
    && (forall k :: QuantityAt(stock, k) == MovementSum(movements, AtKey(k)))
    && (forall p :: OnHand(stock, p) == MovementSum(movements, AnyMovement(p)))
    && (forall n :: 0 <= n < |movements| ==> Classified(movements[n]))
  }

  /** Purchase items against receipt lines and receipt movements. */
  ghost predicate PurchasesExplained(items: map<Id, PurchaseItem>, lines: seq<DocumentLine>, movements: seq<Movement>) {
    && (forall n :: 0 <= n < |lines| ==> lines[n].item in items)
    && (forall i :: i in items ==> items[i].received == LineSum(lines, i))
    && (forall p :: Purchased(items, p) == MovementSum(movements, PurchaseReceipts(p)))
  }

  /** Sales items against fulfillment lines and issue movements. */
  ghost predicate SalesExplained(items: map<Id, SalesItem>, lines: seq<DocumentLine>, movements: seq<Movement>) {
    && (forall n :: 0 <= n < |lines| ==> lines[n].item in items)
    && (forall i :: i in items ==> items[i].fulfilled == LineSum(lines, i))
    && (forall p :: Sold(items, p) == -MovementSum(movements, SaleIssues(p)))
  }

  ghost predicate TransfersCancel(movements: seq<Movement>) {
    forall p :: MovementSum(movements, Transfers(p)) == 0
  }

  ghost predicate Conserved(db: Db) {
    && StockExplained(db.stock, db.movements)
    && PurchasesExplained(db.purchaseItems, db.receiptLines, db.movements)
    && SalesExplained(db.salesItems, db.fulfillmentLines, db.movements)
    && TransfersCancel(db.movements)
  }

  // ---------------------------------------------------------------- sums over histories

  lemma MovementAppended(movements: seq<Movement>, m: Movement, h: History)
    ensures MovementSum(movements + [m], h) == MovementSum(movements, h) + if BelongsTo(m, h) then m.delta else 0
  {
    assert (movements + [m])[..|movements|] == movements;
  }

  lemma LineAppended(lines: seq<DocumentLine>, line: DocumentLine, i: Id)
    ensures LineSum(lines + [line], i) == LineSum(lines, i) + if line.item == i then line.quantity else 0
  {
    assert (lines + [line])[..|lines|] == lines;
  }

  lemma {:induction false} NoLinesNoSum(lines: seq<DocumentLine>, i: Id)
    requires forall n :: 0 <= n < |lines| ==> lines[n].item != i
    ensures LineSum(lines, i) == 0
    decreases |lines|
  {
    if lines != [] {
      NoLinesNoSum(lines[..|lines| - 1], i);
    }
  }

  /** The six kinds of history partition a product's movements. */
  lemma {:induction false} HistoriesPartition(movements: seq<Movement>, p: Id)
    requires forall n :: 0 <= n < |movements| ==> Classified(movements[n])
    ensures MovementSum(movements, AnyMovement(p))
         == MovementSum(movements, PurchaseReceipts(p)) + MovementSum(movements, ManualReceipts(p))
          + MovementSum(movements, Adjustments(p)) + MovementSum(movements, ManualIssues(p))
          + MovementSum(movements, SaleIssues(p)) + MovementSum(movements, Transfers(p))
    decreases |movements|
  {
    if movements != [] {
      HistoriesPartition(movements[..|movements| - 1], p);
    }
  }

  // ---------------------------------------------------------------- sums over rows

  lemma OnHandUpdated(stock: map<Key, Stock>, k: Key, row: Stock, p: Id)
    ensures OnHand(stock[k := row], p) == OnHand(stock, p) + if k.product == p then row.quantity - QuantityAt(stock, k)
            else 0
  {
    var before := OnHandRows(stock, p);
    if k.product == p {
      assert OnHandRows(stock[k := row], p) == before[k := row.quantity];
      TotalUpdate(before, k, row.quantity);
    } else {
      assert OnHandRows(stock[k := row], p) == before;
    }
  }

  lemma PurchasedUpdated(items: map<Id, PurchaseItem>, i: Id, next: PurchaseItem, p: Id)
    requires i in items ==> next.product == items[i].product
    ensures Purchased(items[i := next], p)
         == Purchased(items, p) + if next.product == p
             then next.received - (if i in items then items[i].received else 0) else 0
  {
    var before := PurchasedRows(items, p);
    if next.product == p {
      assert PurchasedRows(items[i := next], p) == before[i := next.received];
      TotalUpdate(before, i, next.received);
    } else {
      assert PurchasedRows(items[i := next], p) == before;
    }
  }

  lemma PurchasedRemoved(items: map<Id, PurchaseItem>, i: Id, p: Id)
    requires i in items && items[i].received == 0
    ensures Purchased(items - {i}, p) == Purchased(items, p)
  {
    var before := PurchasedRows(items, p);
    assert PurchasedRows(items - {i}, p) == before - {i};
    if i in before {
      TotalRemove(before, i);
    } else {
      assert before - {i} == before;
    }
  }

  lemma SoldUpdated(items: map<Id, SalesItem>, i: Id, next: SalesItem, p: Id)
    requires i in items ==> next.product == items[i].product
    ensures Sold(items[i := next], p)
         == Sold(items, p) + if next.product == p then next.fulfilled - (if i in items then items[i].fulfilled else 0)
             else 0
  {
    var before := SoldRows(items, p);
    if next.product == p {
      assert SoldRows(items[i := next], p) == before[i := next.fulfilled];
      TotalUpdate(before, i, next.fulfilled);
    } else {
      assert SoldRows(items[i := next], p) == before;
    }
  }

  lemma SoldRemoved(items: map<Id, SalesItem>, i: Id, p: Id)
    requires i in items && items[i].fulfilled == 0
    ensures Sold(items - {i}, p) == Sold(items, p)
  {
    var before := SoldRows(items, p);
    assert SoldRows(items - {i}, p) == before - {i};
    if i in before {
      TotalRemove(before, i);
    } else {
      assert before - {i} == before;
    }
  }

  // ---------------------------------------------------------------- single changes

  /** A movement and the matching change of one row. */
  lemma MovementExplained(stock: map<Key, Stock>, movements: seq<Movement>, m: Movement, row: Stock)
    requires StockExplained(stock, movements) && Classified(m)
    requires row.quantity == QuantityAt(stock, m.key) + m.delta
    ensures StockExplained(stock[m.key := row], movements + [m])
  {
    var next := stock[m.key := row];
    var log := movements + [m];
    forall k ensures QuantityAt(next, k) == MovementSum(log, AtKey(k)) {
      MovementAppended(movements, m, AtKey(k));
    }
    forall p ensures OnHand(next, p) == MovementSum(log, AnyMovement(p)) {
      MovementAppended(movements, m, AnyMovement(p));
      OnHandUpdated(stock, m.key, row, p);
    }
  }

  /** Rows may change in any way that leaves the quantities alone. */
  lemma QuantitiesUnchanged(a: map<Key, Stock>, b: map<Key, Stock>, movements: seq<Movement>)
    requires StockExplained(a, movements)
    requires forall k :: k in a ==> k in b && a[k].quantity == b[k].quantity
    requires forall k :: k in b && k !in a ==> b[k].quantity == 0
    ensures StockExplained(b, movements)
  {
    forall p ensures OnHand(b, p) == OnHand(a, p) {
      var grown := OnHandRows(a, p) + map k | k in b && k !in a && k.product == p :: 0;
      assert OnHandRows(b, p) == grown;
      TotalOfUnion(grown, OnHandRows(a, p), map k | k in b && k !in a && k.product == p :: 0);
      TotalAllZero(map k | k in b && k !in a && k.product == p :: 0);
    }
    forall k ensures QuantityAt(b, k) == QuantityAt(a, k) {
    }
  }

  /** Movements of other causes leave the purchase side alone. */
  lemma PurchasesIgnore(items: map<Id, PurchaseItem>, lines: seq<DocumentLine>, movements: seq<Movement>, m: Movement)
    requires PurchasesExplained(items, lines, movements) && !(m.kind.Receipt? && m.cause.ByPurchase?)
    ensures PurchasesExplained(items, lines, movements + [m])
  {
    forall p ensures Purchased(items, p) == MovementSum(movements + [m], PurchaseReceipts(p)) {
      MovementAppended(movements, m, PurchaseReceipts(p));
    }
  }

  /** Movements of other causes leave the sales side alone. */
  lemma SalesIgnore(items: map<Id, SalesItem>, lines: seq<DocumentLine>, movements: seq<Movement>, m: Movement)
    requires SalesExplained(items, lines, movements) && !(m.kind.Issue? && m.cause.BySale?)
    ensures SalesExplained(items, lines, movements + [m])
  {
    forall p ensures Sold(items, p) == -MovementSum(movements + [m], SaleIssues(p)) {
      MovementAppended(movements, m, SaleIssues(p));
    }
  }

  lemma TransfersIgnore(movements: seq<Movement>, m: Movement)
    requires TransfersCancel(movements) && !m.kind.TransferIn? && !m.kind.TransferOut?
    ensures TransfersCancel(movements + [m])
  {
    forall p ensures MovementSum(movements + [m], Transfers(p)) == 0 {
      MovementAppended(movements, m, Transfers(p));
    }
  }

  /** A manual movement that is not half of a transfer. */
  lemma ManualMoveConserves(db: Db, m: Movement)
    requires Conserved(db) && m.cause.ByHand? && Classified(m) && !m.kind.TransferIn? && !m.kind.TransferOut?
    requires m.delta < 0 ==> m.key in db.stock
    ensures MoveStock(db, m).Committed? ==> Conserved(MoveStock(db, m).db)
  {
    if MoveStock(db, m).Committed? {
      MovementExplained(db.stock, db.movements, m, MoveStock(db, m).db.stock[m.key]);
      PurchasesIgnore(db.purchaseItems, db.receiptLines, db.movements, m);
      SalesIgnore(db.salesItems, db.fulfillmentLines, db.movements, m);
      TransfersIgnore(db.movements, m);
    }
  }

  lemma TransferCancels(movements: seq<Movement>, out: Movement, into: Movement)
    requires out.kind.TransferOut? && into.kind.TransferIn? && out.key.product == into.key.product
    requires into.delta == -out.delta
    ensures forall p :: MovementSum(movements + [out] + [into], Transfers(p)) == MovementSum(movements, Transfers(p))
    ensures forall p ::
              MovementSum(movements + [out] + [into], AnyMovement(p)) == MovementSum(movements, AnyMovement(p))
  {
    forall p
      ensures MovementSum(movements + [out] + [into], Transfers(p)) == MovementSum(movements, Transfers(p))
      ensures MovementSum(movements + [out] + [into], AnyMovement(p)) == MovementSum(movements, AnyMovement(p))
    {
      MovementAppended(movements, out, Transfers(p));
      MovementAppended(movements + [out], into, Transfers(p));
      MovementAppended(movements, out, AnyMovement(p));
      MovementAppended(movements + [out], into, AnyMovement(p));
    }
  }

  /** The two halves of a transfer cancel, and no product's on-hand total moves. */
  lemma TransferConserves(db: Db, from: Id, to: Id, product: Id, quantity: int, op: Id, at: Time)
    requires Conserved(db)
    ensures var r := TransferStock(db, from, to, product, quantity, op, at);
            r.Committed? ==> Conserved(r.db) && forall p :: OnHand(r.db.stock, p) == OnHand(db.stock, p)
  {
    if TransferStock(db, from, to, product, quantity, op, at).Committed? {
      var out := Movement(Key(from, product), TransferOut, ByHand, -quantity, at);
      var into := Movement(Key(to, product), TransferIn, ByHand, quantity, at);
      var sent := MoveStock(db, out).db;
      var moved := MoveStock(sent, into).db;
      MovementExplained(db.stock, db.movements, out, sent.stock[out.key]);
      MovementExplained(sent.stock, sent.movements, into, moved.stock[into.key]);
      PurchasesIgnore(db.purchaseItems, db.receiptLines, db.movements, out);
      PurchasesIgnore(db.purchaseItems, db.receiptLines, sent.movements, into);
      SalesIgnore(db.salesItems, db.fulfillmentLines, db.movements, out);
      SalesIgnore(db.salesItems, db.fulfillmentLines, sent.movements, into);
      TransferCancels(db.movements, out, into);
    }
  }

  /** One received line: item, receipt line, row and movement move together. */
  lemma ReceiveLineConserves(db: Db, o: Id, doc: Id, at: Time, line: Line)
    requires Conserved(db) && o in db.purchases && line.quantity > 0
    ensures var r := ReceiveLine(db, o, doc, at, line); r.Committed? ==> Conserved(r.db)
  {
    var r := ReceiveLine(db, o, doc, at, line);
    if r.Committed? {
      var item := db.purchaseItems[line.item];
      var m := r.db.movements[|db.movements|];
      MovementExplained(db.stock, db.movements, m, r.db.stock[m.key]);
      forall i | i in r.db.purchaseItems ensures r.db.purchaseItems[i].received == LineSum(r.db.receiptLines, i) {
        LineAppended(db.receiptLines, DocumentLine(doc, line.item, line.quantity), i);
      }
      forall p ensures Purchased(r.db.purchaseItems, p) == MovementSum(r.db.movements, PurchaseReceipts(p)) {
        PurchasedUpdated(db.purchaseItems, line.item, r.db.purchaseItems[line.item], p);
        MovementAppended(db.movements, m, PurchaseReceipts(p));
      }
      SalesIgnore(db.salesItems, db.fulfillmentLines, db.movements, m);
      TransfersIgnore(db.movements, m);
    }
  }

  lemma {:induction false} ReceiveLinesConserve(db: Db, o: Id, doc: Id, at: Time, lines: seq<Line>)
    requires Conserved(db) && o in db.purchases && AllPositive(lines)
    ensures var r := ReceiveLines(db, o, doc, at, lines); r.Committed? ==> Conserved(r.db)
    decreases |lines|
  {
    if lines != [] && ReceiveLine(db, o, doc, at, lines[0]).Committed? {
      ReceiveLineConserves(db, o, doc, at, lines[0]);
      ReceiveLinesConserve(ReceiveLine(db, o, doc, at, lines[0]).db, o, doc, at, lines[1..]);
    }
  }

  /** A shipped quantity appears at once on the item, on a fulfillment line and in the history. */
  lemma ShipmentExplained(items: map<Id, SalesItem>, lines: seq<DocumentLine>, movements: seq<Movement>,
                          next: SalesItem, line: DocumentLine, m: Movement)
    requires SalesExplained(items, lines, movements) && line.item in items
    requires next.product == items[line.item].product == m.key.product
    requires next.fulfilled == items[line.item].fulfilled + line.quantity
    requires m.kind.Issue? && m.cause.BySale? && m.delta == -line.quantity
    ensures SalesExplained(items[line.item := next], lines + [line], movements + [m])
  {
    var grown := items[line.item := next];
    forall i | i in grown ensures grown[i].fulfilled == LineSum(lines + [line], i) {
      LineAppended(lines, line, i);
    }
    forall p ensures Sold(grown, p) == -MovementSum(movements + [m], SaleIssues(p)) {
      SoldUpdated(items, line.item, next, p);
      MovementAppended(movements, m, SaleIssues(p));
    }
  }

  /** One shipped line: item, fulfillment line, row and movement move together. */
  lemma FulfillLineConserves(db: Db, o: Id, doc: Id, at: Time, line: Line)
    requires Conserved(db) && o in db.sales && line.quantity > 0
    ensures var r := FulfillLine(db, o, doc, at, line); r.Committed? ==> Conserved(r.db)
  {
    var r := FulfillLine(db, o, doc, at, line);
    if r.Committed? {
      var k := ItemKey(db, db.salesItems[line.item]);
      var m := Movement(k, Issue, BySale(doc), -line.quantity, at);
      ShipmentConserves(db, r.db, m, r.db.stock[k], r.db.salesItems[line.item],
          DocumentLine(doc, line.item, line.quantity));
    }
  }

  lemma ShipmentConserves(db: Db, next: Db, m: Movement, row: Stock, item: SalesItem, line: DocumentLine)
    requires Conserved(db) && line.item in db.salesItems && line.quantity > 0
    requires m.kind.Issue? && m.cause.BySale? && m.delta == -line.quantity
    requires row.quantity == QuantityAt(db.stock, m.key) + m.delta
    requires item.product == db.salesItems[line.item].product == m.key.product
    requires item.fulfilled == db.salesItems[line.item].fulfilled + line.quantity
    requires next == db.(stock := db.stock[m.key := row], salesItems := db.salesItems[line.item := item],
                         fulfillmentLines := db.fulfillmentLines + [line], movements := db.movements + [m])
    ensures Conserved(next)
  {
    MovementExplained(db.stock, db.movements, m, row);
    ShipmentExplained(db.salesItems, db.fulfillmentLines, db.movements, item, line, m);
    PurchasesIgnore(db.purchaseItems, db.receiptLines, db.movements, m);
    TransfersIgnore(db.movements, m);
  }

  lemma {:induction false} FulfillLinesConserve(db: Db, o: Id, doc: Id, at: Time, lines: seq<Line>)
    requires Conserved(db) && o in db.sales && AllPositive(lines)
    ensures var r := FulfillLines(db, o, doc, at, lines); r.Committed? ==> Conserved(r.db)
    decreases |lines|
  {
    if lines != [] && FulfillLine(db, o, doc, at, lines[0]).Committed? {
      FulfillLineConserves(db, o, doc, at, lines[0]);
      FulfillLinesConserve(FulfillLine(db, o, doc, at, lines[0]).db, o, doc, at, lines[1..]);
    }
  }

  /** Holding or releasing reservations changes neither quantities nor what has been shipped. */
  lemma ReservationsConserve(a: Db, b: Db)
    requires Conserved(a)
    requires b.movements == a.movements && b.purchaseItems == a.purchaseItems
    requires b.receiptLines == a.receiptLines && b.fulfillmentLines == a.fulfillmentLines
    requires a.stock.Keys == b.stock.Keys && forall k :: k in a.stock ==> a.stock[k].quantity == b.stock[k].quantity
    requires a.salesItems.Keys == b.salesItems.Keys
    requires forall i :: i in a.salesItems ==>
               a.salesItems[i].product == b.salesItems[i].product
                   && a.salesItems[i].fulfilled == b.salesItems[i].fulfilled
    ensures Conserved(b)
  {
    QuantitiesUnchanged(a.stock, b.stock, a.movements);
    forall p ensures Sold(b.salesItems, p) == Sold(a.salesItems, p) {
      assert SoldRows(b.salesItems, p) == SoldRows(a.salesItems, p);
    }
  }

  lemma InsertSalesItemConserves(db: Db, o: Id, i: Id, product: Id, ordered: int)
    requires Conserved(db)
    ensures var r := InsertSalesItem(db, o, i, product, ordered); r.Committed? ==> Conserved(r.db)
  {
    var r := InsertSalesItem(db, o, i, product, ordered);
    if r.Committed? {
      NoLinesNoSum(db.fulfillmentLines, i);
      forall p ensures Sold(r.db.salesItems, p) == Sold(db.salesItems, p) {
        SoldUpdated(db.salesItems, i, r.db.salesItems[i], p);
      }
    }
  }

  /** The foreign key of fulfillment lines is what makes deletions harmless here. */
  lemma DeleteSalesItemConserves(db: Db, o: Id, i: Id)
    requires Conserved(db)
    ensures var r := DeleteSalesItem(db, o, i); r.Committed? ==> Conserved(r.db)
  {
    var r := DeleteSalesItem(db, o, i);
    if r.Committed? {
      NoLinesNoSum(db.fulfillmentLines, i);
      forall p ensures Sold(r.db.salesItems, p) == Sold(db.salesItems, p) {
        SoldRemoved(db.salesItems, i, p);
      }
    }
  }

  lemma InsertPurchaseItemConserves(db: Db, o: Id, i: Id, product: Id, ordered: int)
    requires Conserved(db)
    ensures var r := InsertPurchaseItem(db, o, i, product, ordered); r.Committed? ==> Conserved(r.db)
  {
    var r := InsertPurchaseItem(db, o, i, product, ordered);
    if r.Committed? {
      NoLinesNoSum(db.receiptLines, i);
      forall p ensures Purchased(r.db.purchaseItems, p) == Purchased(db.purchaseItems, p) {
        PurchasedUpdated(db.purchaseItems, i, r.db.purchaseItems[i], p);
      }
    }
  }

  lemma DeletePurchaseItemConserves(db: Db, o: Id, i: Id)
    requires Conserved(db)
    ensures var r := DeletePurchaseItem(db, o, i); r.Committed? ==> Conserved(r.db)
  {
    var r := DeletePurchaseItem(db, o, i);
    if r.Committed? {
      NoLinesNoSum(db.receiptLines, i);
      forall p ensures Purchased(r.db.purchaseItems, p) == Purchased(db.purchaseItems, p) {
        PurchasedRemoved(db.purchaseItems, i, p);
      }
    }
  }

  lemma UpsertReorderPointConserves(db: Db, k: Key, point: nat)
    requires Conserved(db)
    ensures var r := UpsertReorderPoint(db, k, point); r.Committed? ==> Conserved(r.db)
  {
    var r := UpsertReorderPoint(db, k, point);
    if r.Committed? {
      QuantitiesUnchanged(db.stock, r.db.stock, db.movements);
    }
  }

  // ---------------------------------------------------------------- whole transactions

  lemma StockStepConserves(db: Db, op: Op)
    requires Conserved(db) && StockOp(op)
    ensures Conserved(After(db, Step(db, op)))
  {
    if Step(db, op).Committed? {
      match op
      case OpReceiveStock(k, q, id, at) => ManualMoveConserves(db, Movement(k, Receipt, ByHand, q, at));
      case OpIssueStock(k, q, id, at) => ManualMoveConserves(db, Movement(k, Issue, ByHand, -q, at));
      case OpAdjustStock(k, d, id, at) => ManualMoveConserves(db, Movement(k, Adjustment, ByHand, d, at));
      case OpTransferStock(from, to, p, q, id, at) => TransferConserves(db, from, to, p, q, id, at);
      case OpSetReorderPoint(k, point) => UpsertReorderPointConserves(db, k, point);
    }
  }

  /** Order rows, audits and events play no part in conservation. */
  lemma StatusConserves(db: Db, next: Db)
    requires Conserved(db)
    requires next == db.(sales := next.sales, purchases := next.purchases, audits := next.audits, events := next.events)
    ensures Conserved(next)
  {
  }

  ghost predicate ConservedAfter(r: Outcome) {
    r.Committed? ==> Conserved(r.db)
  }

  lemma ReserveSalesConserves(db: Db, o: Id, lines: seq<Line>)
    requires Conserved(db)
    ensures ConservedAfter(ReserveSales(db, o, lines))
  {
    if ReserveSales(db, o, lines).Committed? {
      var held := ReserveLines(db, o, lines).db;
      ReserveLinesEffect(db, o, lines);
      ReservationsConserve(db, held);
      StatusConserves(held, ReserveSales(db, o, lines).db);
    }
  }

  lemma FulfillSalesConserves(db: Db, o: Id, doc: Id, at: Time, lines: seq<Line>)
    requires Conserved(db)
    ensures ConservedAfter(FulfillSales(db, o, doc, at, lines))
  {
    if FulfillSales(db, o, doc, at, lines).Committed? {
      FulfillLinesConserve(db, o, doc, at, lines);
      StatusConserves(FulfillLines(db, o, doc, at, lines).db, FulfillSales(db, o, doc, at, lines).db);
    }
  }

  lemma CancelSalesConserves(db: Db, o: Id)
    requires Conserved(db)
    ensures ConservedAfter(CancelSales(db, o))
  {
    if CancelSales(db, o).Committed? {
      ReservationsConserve(db, ReleaseAll(db, o));
      StatusConserves(ReleaseAll(db, o), CancelSales(db, o).db);
    }
  }

  lemma ConfirmSalesConserves(db: Db, o: Id)
    requires Conserved(db)
    ensures ConservedAfter(ConfirmSales(db, o))
  {
    if ConfirmSales(db, o).Committed? {
      StatusConserves(db, ConfirmSales(db, o).db);
    }
  }

  lemma InsertSalesConserves(db: Db, o: Id, customer: Id, warehouse: Id)
    requires Conserved(db)
    ensures ConservedAfter(InsertSales(db, o, customer, warehouse))
  {
    if InsertSales(db, o, customer, warehouse).Committed? {
      StatusConserves(db, InsertSales(db, o, customer, warehouse).db);
    }
  }

  lemma SalesStepConserves(db: Db, op: Op)
    requires Conserved(db) && SalesOp(op)
    ensures ConservedAfter(Step(db, op))
  {
    match op
    case OpAddSalesItem(o, i, p, q) => InsertSalesItemConserves(db, o, i, p, q);
    case OpRemoveSalesItem(o, i) => DeleteSalesItemConserves(db, o, i);
    case OpReserveSales(o, lines) => ReserveSalesConserves(db, o, lines);
    case OpFulfillSales(o, doc, at, lines) => FulfillSalesConserves(db, o, doc, at, lines);
    case OpCancelSales(o) => CancelSalesConserves(db, o);
    case OpCreateSales(o, customer, w) => InsertSalesConserves(db, o, customer, w);
    case OpConfirmSales(o) => ConfirmSalesConserves(db, o);
  }

  lemma ReceivePurchaseConserves(db: Db, o: Id, doc: Id, at: Time, lines: seq<Line>)
    requires Conserved(db)
    ensures ConservedAfter(ReceivePurchase(db, o, doc, at, lines))
  {
    if ReceivePurchase(db, o, doc, at, lines).Committed? {
      ReceiveLinesConserve(db, o, doc, at, lines);
      StatusConserves(ReceiveLines(db, o, doc, at, lines).db, ReceivePurchase(db, o, doc, at, lines).db);
    }
  }

  lemma SubmitPurchaseConserves(db: Db, o: Id)
    requires Conserved(db)
    ensures ConservedAfter(SubmitPurchase(db, o))
  {
    if SubmitPurchase(db, o).Committed? {
      StatusConserves(db, SubmitPurchase(db, o).db);
    }
  }

  lemma CancelPurchaseConserves(db: Db, o: Id)
    requires Conserved(db)
    ensures ConservedAfter(CancelPurchase(db, o))
  {
    if CancelPurchase(db, o).Committed? {
      StatusConserves(db, CancelPurchase(db, o).db);
    }
  }

  lemma InsertPurchaseConserves(db: Db, o: Id, supplier: Id, warehouse: Id)
    requires Conserved(db)
    ensures ConservedAfter(InsertPurchase(db, o, supplier, warehouse))
  {
    if InsertPurchase(db, o, supplier, warehouse).Committed? {
      StatusConserves(db, InsertPurchase(db, o, supplier, warehouse).db);
    }
  }

  lemma AddPurchaseItemConserves(db: Db, o: Id, i: Id, product: Id, ordered: int)
    requires Conserved(db)
    ensures ConservedAfter(AddPurchaseItem(db, o, i, product, ordered))
  {
    InsertPurchaseItemConserves(db, o, i, product, ordered);
  }

  lemma RemovePurchaseItemConserves(db: Db, o: Id, i: Id)
    requires Conserved(db)
    ensures ConservedAfter(RemovePurchaseItem(db, o, i))
  {
    DeletePurchaseItemConserves(db, o, i);
  }

  lemma PurchaseEditConserves(db: Db, op: Op)
    requires Conserved(db) && (op.OpCreatePurchase? || op.OpAddPurchaseItem? || op.OpRemovePurchaseItem?)
    ensures ConservedAfter(Step(db, op))
  {
    match op
    case OpAddPurchaseItem(o, i, p, q) => AddPurchaseItemConserves(db, o, i, p, q);
    case OpRemovePurchaseItem(o, i) => RemovePurchaseItemConserves(db, o, i);
    case OpCreatePurchase(o, supplier, w) => InsertPurchaseConserves(db, o, supplier, w);
  }

  lemma PurchaseStepConserves(db: Db, op: Op)
    requires Conserved(db) && PurchaseOp(op)
    ensures ConservedAfter(Step(db, op))
  {
    if op.OpReceivePurchase? {
      ReceivePurchaseConserves(db, op.order, op.document, op.at, op.lines);
    } else if op.OpSubmitPurchase? {
      SubmitPurchaseConserves(db, op.order);
    } else if op.OpCancelPurchase? {
      CancelPurchaseConserves(db, op.order);
    } else {
      PurchaseEditConserves(db, op);
    }
  }

  /** Conservation survives every transaction. */
  lemma StepConserves(db: Db, op: Op)
    requires Conserved(db)
    ensures Conserved(After(db, Step(db, op)))
  {
    if StockOp(op) {
      StockStepConserves(db, op);
    } else if SalesOp(op) {
      SalesStepConserves(db, op);
    } else if PurchaseOp(op) {
      PurchaseStepConserves(db, op);
    }
  }
}
