/** What the purchase calls and the calls on master data answer and do, said of orders, items and rows alone. */
module PurchaseAnswers {
  import opened Ledger
  import opened LedgerSteps
  import opened ReservationProofs
  import opened StepSoundness
  import opened OrderStatus
  import opened RequestLines
  import opened StockAnswers

  ghost predicate AtOpenWarehouse(db: Db, o: Id)
    requires o in db.purchases
  {
    db.purchases[o].warehouse in db.warehouses && db.warehouses[db.purchases[o].warehouse]
  }

  ghost predicate OnOrder(db: Db, o: Id, i: Id) {
    i in db.purchaseItems && db.purchaseItems[i].order == o
  }

  ghost predicate AllOnOrder(db: Db, o: Id, lines: seq<Line>) {
    forall n :: 0 <= n < |lines| ==> OnOrder(db, o, lines[n].item)
  }

  /** Where item `i` of `o` is received. */
  ghost function Home(db: Db, o: Id, i: Id): Key
    requires o in db.purchases && i in db.purchaseItems
  {
    Key(db.purchases[o].warehouse, db.purchaseItems[i].product)
  }

  ghost predicate Touches(db: Db, o: Id, lines: seq<Line>, k: Key) {
    exists n ::
      0 <= n < |lines| && o in db.purchases && lines[n].item in db.purchaseItems && Home(db, o, lines[n].item) == k
  }

  // ---------------------------------------------------------------- receive

  /** The line takes in no more of an item of `o` than is still to come. */
  ghost predicate ToCome(db: Db, o: Id, line: Line) {
    && OnOrder(db, o, line.item)
    && db.purchaseItems[line.item].received + line.quantity <= db.purchaseItems[line.item].ordered
  }

  /** Its row has room for it. */
  ghost predicate HasRoom(db: Db, o: Id, line: Line)
    requires o in db.purchases && line.item in db.purchaseItems
  {
    RowOf(db, Home(db, o, line.item)).quantity + line.quantity < 1_000_000_000_000_000_000
  }

  ghost predicate AllHaveRoom(db: Db, o: Id, lines: seq<Line>) {
    forall n :: 0 <= n < |lines| ==> o in db.purchases && lines[n].item in db.purchaseItems && HasRoom(db, o, lines[n])
  }

  ghost predicate Receivable(db: Db, o: Id, lines: seq<Line>) {
    && NoRepeats(lines) && EachPositive(lines)
    && o in db.purchases
    && (db.purchases[o].status == PoSubmitted || db.purchases[o].status == PoPartiallyReceived)
    && AtOpenWarehouse(db, o)
    && (forall n :: 0 <= n < |lines| ==> ToCome(db, o, lines[n]))
    && AllHaveRoom(db, o, lines)
  }

  lemma {:induction false} CheckReceiveExactly(db: Db, o: Id, lines: seq<Line>)
    ensures CheckReceive(db.purchaseItems, o, lines).None? <==> forall n :: 0 <= n < |lines| ==> ToCome(db, o, lines[n])
    decreases |lines|
  {
    if lines != [] {
      var rest := lines[1..];
      CheckReceiveExactly(db, o, rest);
      assert forall n :: 0 < n < |lines| ==> lines[n] == rest[n - 1];
      assert forall n :: 0 <= n < |rest| ==> rest[n] == lines[n + 1];
    }
  }

  /** The first line's item, its row, one document line and one movement, and nothing else. */
  ghost predicate FirstTaken(db: Db, next: Db, o: Id, doc: Id, at: Time, line: Line) {
    && o in db.purchases && OnOrder(db, o, line.item)
    && var item, k := db.purchaseItems[line.item], Home(db, o, line.item);
       next == db.(
         purchaseItems := db.purchaseItems[line.item :=
           PurchaseItem(item.order, item.product, item.ordered, item.received + line.quantity)],
         stock := db.stock[k :=
           Stock(RowOf(db, k).quantity + line.quantity, RowOf(db, k).reserved, RowOf(db, k).reorderPoint)],
         receiptLines := db.receiptLines + [DocumentLine(doc, line.item, line.quantity)],
         movements := db.movements + [Movement(k, Receipt, ByPurchase(doc), line.quantity, at)])
  }

  lemma ReceiveLineAnswer(db: Db, o: Id, doc: Id, at: Time, line: Line)
    requires o in db.purchases && OnOrder(db, o, line.item) && line.quantity > 0
    ensures var r := ReceiveLine(db, o, doc, at, line);
            if HasRoom(db, o, line) then r.Committed? && FirstTaken(db, r.db, o, doc, at, line)
            else r == Rejected(ColumnOverflow)
  {
  }

  lemma ReceiveFirst(db: Db, o: Id, doc: Id, at: Time, lines: seq<Line>)
    requires Sound(db) && o in db.purchases && lines != [] && NoRepeats(lines) && EachPositive(lines)
    requires CheckReceive(db.purchaseItems, o, lines).None?
    ensures AllOnOrder(db, o, lines)
    ensures var r := ReceiveLine(db, o, doc, at, lines[0]);
            if HasRoom(db, o, lines[0]) then
              && r.Committed? && FirstTaken(db, r.db, o, doc, at, lines[0])
              && Sound(r.db) && o in r.db.purchases && CheckReceive(r.db.purchaseItems, o, lines[1..]).None?
            else r == Rejected(ColumnOverflow)
  {
    CheckReceiveExactly(db, o, lines);
    ReceiveLineAnswer(db, o, doc, at, lines[0]);
    var r := ReceiveLine(db, o, doc, at, lines[0]);
    if HasRoom(db, o, lines[0]) {
      ReceiveLineKeeps(db, o, doc, at, lines[0]);
      RestStillValid(db, o, lines);
      CheckReceiveFrame(db.purchaseItems, r.db.purchaseItems, o, lines[1..]);
    }
  }

  /** After its first line, a receipt sees the items and rows of the others as before. */
  lemma RestAsBefore(db: Db, next: Db, o: Id, doc: Id, at: Time, lines: seq<Line>)
    requires Schema(db) && lines != [] && NoRepeats(lines) && AllOnOrder(db, o, lines)
    requires FirstTaken(db, next, o, doc, at, lines[0])
    ensures AllOnOrder(next, o, lines[1..])
    ensures forall n :: 0 < n < |lines| ==>
              && next.purchaseItems[lines[n].item] == db.purchaseItems[lines[n].item]
              && Home(next, o, lines[n].item) == Home(db, o, lines[n].item) != Home(db, o, lines[0].item)
    ensures forall i :: OnOrder(db, o, i) ==> OnOrder(next, o, i) && Home(next, o, i) == Home(db, o, i)
    ensures forall k :: Touches(db, o, lines, k) <==>
              k == Home(db, o, lines[0].item) || Touches(next, o, lines[1..], k)
    ensures forall i :: Names(lines, i) <==> i == lines[0].item || Names(lines[1..], i)
  {
    var rest := lines[1..];
    assert forall n :: 0 < n < |lines| ==> lines[n] == rest[n - 1];
    assert forall n :: 0 <= n < |rest| ==> rest[n] == lines[n + 1] && OnOrder(db, o, lines[n + 1].item);
    forall n | 0 < n < |lines| ensures Home(db, o, lines[n].item) != Home(db, o, lines[0].item) {
      assert lines[n].item != lines[0].item && OnOrder(db, o, lines[n].item);
    }
  }

  lemma RoomLater(db: Db, next: Db, o: Id, doc: Id, at: Time, lines: seq<Line>)
    requires Schema(db) && lines != [] && NoRepeats(lines) && AllOnOrder(db, o, lines)
    requires FirstTaken(db, next, o, doc, at, lines[0]) && HasRoom(db, o, lines[0])
    ensures AllHaveRoom(db, o, lines) <==> AllHaveRoom(next, o, lines[1..])
  {
    var rest := lines[1..];
    RestAsBefore(db, next, o, doc, at, lines);
    assert forall n :: 0 < n < |lines| ==> lines[n] == rest[n - 1];
    assert forall n :: 0 <= n < |rest| ==> rest[n] == lines[n + 1];
  }

  lemma {:induction false} RoomDecidedUpFront(db: Db, o: Id, doc: Id, at: Time, lines: seq<Line>)
    requires Sound(db) && o in db.purchases && NoRepeats(lines) && EachPositive(lines)
    requires CheckReceive(db.purchaseItems, o, lines).None?
    ensures ReceiveLines(db, o, doc, at, lines).Committed? <==> AllHaveRoom(db, o, lines)
    ensures ReceiveLines(db, o, doc, at, lines).Rejected? ==>
              ReceiveLines(db, o, doc, at, lines).error == ColumnOverflow
    decreases |lines|
  {
    if lines != [] {
      ReceiveFirst(db, o, doc, at, lines);
      var r := ReceiveLine(db, o, doc, at, lines[0]);
      if r.Committed? {
        RoomDecidedUpFront(r.db, o, doc, at, lines[1..]);
        RoomLater(db, r.db, o, doc, at, lines);
      }
    }
  }

  /** A receipt commits exactly when all of that holds before its first line. */
  lemma ReceiveCommits(db: Db, o: Id, doc: Id, at: Time, lines: seq<Line>)
    requires Sound(db)
    ensures Step(db, OpReceivePurchase(o, doc, at, lines)).Committed? <==> Receivable(db, o, lines)
  {
    RequestChecks(lines);
    CheckReceiveExactly(db, o, lines);
    if CheckRequest(lines).None? && o in db.purchases && CheckReceive(db.purchaseItems, o, lines).None? {
      RoomDecidedUpFront(db, o, doc, at, lines);
    }
  }

  /** Line `n` is the first that takes in too much, or an item that is not on the order. */
  ghost predicate FirstOver(db: Db, o: Id, lines: seq<Line>, n: int) {
    0 <= n < |lines| && !ToCome(db, o, lines[n]) && forall m :: 0 <= m < n ==> ToCome(db, o, lines[m])
  }

  lemma {:induction false} FirstOffence(db: Db, o: Id, lines: seq<Line>)
    requires CheckReceive(db.purchaseItems, o, lines).Some?
    ensures exists n :: FirstOver(db, o, lines, n) && CheckReceive(db.purchaseItems, o, lines).value
                          == if OnOrder(db, o, lines[n].item) then ExceedsRemaining else ForeignItem
    decreases |lines|
  {
    if ToCome(db, o, lines[0]) {
      FirstOffence(db, o, lines[1..]);
      var n :| FirstOver(db, o, lines[1..], n) && CheckReceive(db.purchaseItems, o, lines[1..]).value
                 == if OnOrder(db, o, lines[1..][n].item) then ExceedsRemaining else ForeignItem;
      assert forall m :: 0 < m < |lines| ==> lines[m] == lines[1..][m - 1];
      assert FirstOver(db, o, lines, n + 1);
    } else {
      assert FirstOver(db, o, lines, 0);
    }
  }

  /** A refusal names the first thing that is wrong. */
  lemma ReceiveRefusal(db: Db, o: Id, doc: Id, at: Time, lines: seq<Line>)
    requires Sound(db) && Step(db, OpReceivePurchase(o, doc, at, lines)).Rejected?
    ensures var e := Step(db, OpReceivePurchase(o, doc, at, lines)).error;
            if !NoRepeats(lines) then e == DuplicateLine
            else if !EachPositive(lines) then e == NotPositive
            else if o !in db.purchases then e == NotFound
            else if db.purchases[o].status == PoDraft || db.purchases[o].status == PoReceived
                    || db.purchases[o].status == PoCancelled then e == WrongStatus
            else if !AtOpenWarehouse(db, o) then e == WarehouseInactive
            else if forall n :: 0 <= n < |lines| ==> ToCome(db, o, lines[n]) then e == ColumnOverflow
            else exists n :: FirstOver(db, o, lines, n)
                               && e == if OnOrder(db, o, lines[n].item) then ExceedsRemaining else ForeignItem
  {
    RequestChecks(lines);
    if NoRepeats(lines) && EachPositive(lines) && o in db.purchases {
      CheckReceiveExactly(db, o, lines);
      if CheckReceive(db.purchaseItems, o, lines).Some? {
        FirstOffence(db, o, lines);
      } else {
        RoomDecidedUpFront(db, o, doc, at, lines);
      }
    }
  }

  /** Each named item and its row hold the line's quantity more; everything else is as it was. */
  ghost predicate TakenForLines(db: Db, next: Db, o: Id, lines: seq<Line>) {
    && o in db.purchases && next.purchaseItems.Keys == db.purchaseItems.Keys
    && (forall n :: 0 <= n < |lines| ==> TakenForLine(db, next, o, lines[n]))
    && (forall i :: i in db.purchaseItems && !Names(lines, i) ==> next.purchaseItems[i] == db.purchaseItems[i])
    && (forall k :: !Touches(db, o, lines, k) ==>
          (k in next.stock <==> k in db.stock) && (k in db.stock ==> next.stock[k] == db.stock[k]))
  }

  ghost predicate TakenForLine(db: Db, next: Db, o: Id, line: Line)
    requires o in db.purchases && next.purchaseItems.Keys == db.purchaseItems.Keys
  {
    && line.item in db.purchaseItems && Home(db, o, line.item) in next.stock
    && var item, row := db.purchaseItems[line.item], RowOf(db, Home(db, o, line.item));
       && next.purchaseItems[line.item]
          == PurchaseItem(item.order, item.product, item.ordered, item.received + line.quantity)
       && next.stock[Home(db, o, line.item)] == Stock(row.quantity + line.quantity, row.reserved, row.reorderPoint)
  }

  lemma UntouchedRows(db: Db, next: Db, last: Db, o: Id, doc: Id, at: Time, lines: seq<Line>)
    requires lines != [] && FirstTaken(db, next, o, doc, at, lines[0]) && TakenForLines(next, last, o, lines[1..])
    requires forall k :: Touches(db, o, lines, k) <==>
               k == Home(db, o, lines[0].item) || Touches(next, o, lines[1..], k)
    ensures forall k :: !Touches(db, o, lines, k) ==>
              (k in last.stock <==> k in db.stock) && (k in db.stock ==> last.stock[k] == db.stock[k])
  {
  }

  lemma FirstLineTaken(db: Db, next: Db, last: Db, o: Id, doc: Id, at: Time, lines: seq<Line>)
    requires lines != [] && FirstTaken(db, next, o, doc, at, lines[0]) && TakenForLines(next, last, o, lines[1..])
    requires !Names(lines[1..], lines[0].item) && !Touches(next, o, lines[1..], Home(db, o, lines[0].item))
    ensures last.purchaseItems.Keys == db.purchaseItems.Keys && TakenForLine(db, last, o, lines[0])
    ensures forall i :: i in db.purchaseItems && i != lines[0].item && !Names(lines[1..], i) ==>
              last.purchaseItems[i] == db.purchaseItems[i]
  {
  }

  lemma LaterLineTaken(db: Db, next: Db, last: Db, o: Id, doc: Id, at: Time, first: Line, line: Line)
    requires FirstTaken(db, next, o, doc, at, first) && line.item != first.item && line.item in db.purchaseItems
    requires Home(db, o, line.item) != Home(db, o, first.item)
    requires last.purchaseItems.Keys == next.purchaseItems.Keys && TakenForLine(next, last, o, line)
    ensures TakenForLine(db, last, o, line)
  {
  }

  lemma TakenOneMore(db: Db, next: Db, last: Db, o: Id, doc: Id, at: Time, lines: seq<Line>)
    requires Schema(db) && lines != [] && NoRepeats(lines) && AllOnOrder(db, o, lines)
    requires FirstTaken(db, next, o, doc, at, lines[0]) && TakenForLines(next, last, o, lines[1..])
    ensures TakenForLines(db, last, o, lines)
  {
    RestAsBefore(db, next, o, doc, at, lines);
    UntouchedRows(db, next, last, o, doc, at, lines);
    assert !Names(lines[1..], lines[0].item);
    assert !Touches(next, o, lines[1..], Home(db, o, lines[0].item));
    FirstLineTaken(db, next, last, o, doc, at, lines);
    forall n | 0 <= n < |lines| ensures TakenForLine(db, last, o, lines[n]) {
      if n > 0 {
        assert lines[n] == lines[1..][n - 1];
        LaterLineTaken(db, next, last, o, doc, at, lines[0], lines[n]);
      }
    }
  }

  lemma {:induction false} ReceiveLinesDone(db: Db, o: Id, doc: Id, at: Time, lines: seq<Line>)
    requires Sound(db) && o in db.purchases && NoRepeats(lines) && EachPositive(lines)
    requires CheckReceive(db.purchaseItems, o, lines).None? && ReceiveLines(db, o, doc, at, lines).Committed?
    ensures TakenForLines(db, ReceiveLines(db, o, doc, at, lines).db, o, lines)
    decreases |lines|
  {
    if lines != [] {
      ReceiveFirst(db, o, doc, at, lines);
      var next := ReceiveLine(db, o, doc, at, lines[0]).db;
      ReceiveLinesDone(next, o, doc, at, lines[1..]);
      TakenOneMore(db, next, ReceiveLines(db, o, doc, at, lines).db, o, doc, at, lines);
    }
  }

  /** The movements a receipt adds, one for each line, in their order. */
  ghost function NewReceipts(db: Db, o: Id, doc: Id, at: Time, lines: seq<Line>): seq<Movement>
    requires o in db.purchases && AllOnOrder(db, o, lines)
  {
    seq(|lines|, n requires 0 <= n < |lines| =>
      Movement(Home(db, o, lines[n].item), Receipt, ByPurchase(doc), lines[n].quantity, at))
  }

  lemma NewReceiptsSplit(db: Db, next: Db, o: Id, doc: Id, at: Time, lines: seq<Line>)
    requires o in db.purchases && o in next.purchases && lines != []
    requires AllOnOrder(db, o, lines) && AllOnOrder(next, o, lines[1..])
    requires forall i :: OnOrder(db, o, i) ==> i in next.purchaseItems && Home(next, o, i) == Home(db, o, i)
    ensures NewReceipts(db, o, doc, at, lines)
         == [Movement(Home(db, o, lines[0].item), Receipt, ByPurchase(doc), lines[0].quantity, at)]
            + NewReceipts(next, o, doc, at, lines[1..])
  {
    assert forall n :: 0 < n < |lines| ==> lines[n] == lines[1..][n - 1] && OnOrder(db, o, lines[n].item);
  }

  lemma LoggedOneMore(db: Db, next: Db, last: Db, o: Id, doc: Id, at: Time, lines: seq<Line>)
    requires Schema(db) && lines != [] && NoRepeats(lines) && AllOnOrder(db, o, lines)
    requires FirstTaken(db, next, o, doc, at, lines[0]) && AllOnOrder(next, o, lines[1..])
    requires last.receiptLines == next.receiptLines + NewLines(doc, lines[1..])
    requires last.movements == next.movements + NewReceipts(next, o, doc, at, lines[1..])
    ensures last.receiptLines == db.receiptLines + NewLines(doc, lines)
    ensures last.movements == db.movements + NewReceipts(db, o, doc, at, lines)
  {
    RestAsBefore(db, next, o, doc, at, lines);
    NewLinesSplit(doc, lines);
    NewReceiptsSplit(db, next, o, doc, at, lines);
  }

  lemma {:induction false} ReceiveLinesLog(db: Db, o: Id, doc: Id, at: Time, lines: seq<Line>)
    requires Sound(db) && o in db.purchases && NoRepeats(lines) && EachPositive(lines)
    requires CheckReceive(db.purchaseItems, o, lines).None? && ReceiveLines(db, o, doc, at, lines).Committed?
    ensures AllOnOrder(db, o, lines)
    ensures var last := ReceiveLines(db, o, doc, at, lines).db;
            && last.receiptLines == db.receiptLines + NewLines(doc, lines)
            && last.movements == db.movements + NewReceipts(db, o, doc, at, lines)
    decreases |lines|
  {
    if lines != [] {
      ReceiveFirst(db, o, doc, at, lines);
      var next := ReceiveLine(db, o, doc, at, lines[0]).db;
      ReceiveLinesLog(next, o, doc, at, lines[1..]);
      LoggedOneMore(db, next, ReceiveLines(db, o, doc, at, lines).db, o, doc, at, lines);
    }
  }

  /** The order is at `status`, with one audit row and one event that say so; otherwise only these tables differ. */
  ghost predicate Recorded(db: Db, next: Db, o: Id, status: PurchaseStatus, receivedAt: Option<Time>, action: Action) {
    && o in db.purchases
    && next == db.(stock := next.stock, purchaseItems := next.purchaseItems, movements := next.movements,
                   receiptLines := next.receiptLines, purchases := next.purchases, audits := next.audits,
                   events := next.events)
    && next.purchases
       == db.purchases[o := PurchaseOrder(db.purchases[o].warehouse, db.purchases[o].supplier, status, receivedAt)]
    && next.audits == db.audits + [Audit(action, o)]
    && next.events == db.events + [PurchaseEvent(action, o, status)]
  }

  lemma SetRecorded(db: Db, last: Db, o: Id, status: PurchaseStatus, at: Option<Time>, action: Action)
    requires o in db.purchases
    requires last == db.(stock := last.stock, purchaseItems := last.purchaseItems, movements := last.movements,
                         receiptLines := last.receiptLines)
    ensures Recorded(db, SetPurchase(last, o, status, at, action), o, status, at, action)
  {
  }

  lemma ReceivedSays(db: Db, o: Id)
    ensures FullyReceived(db.purchaseItems, o)
       <==> forall i :: OnOrder(db, o, i) ==> db.purchaseItems[i].received == db.purchaseItems[i].ordered
  {
  }

  /** What a committed receipt leaves behind: RECEIVED, with the time, exactly when every item is all received. */
  lemma ReceiveEffect(db: Db, o: Id, doc: Id, at: Time, lines: seq<Line>)
    requires Sound(db) && Step(db, OpReceivePurchase(o, doc, at, lines)).Committed?
    ensures o in db.purchases && AllOnOrder(db, o, lines)
    ensures var next := Step(db, OpReceivePurchase(o, doc, at, lines)).db;
            var done := forall i :: OnOrder(next, o, i) ==>
                          next.purchaseItems[i].received == next.purchaseItems[i].ordered;
            && TakenForLines(db, next, o, lines)
            && next.receiptLines == db.receiptLines + NewLines(doc, lines)
            && next.movements == db.movements + NewReceipts(db, o, doc, at, lines)
            && Recorded(db, next, o, if done then PoReceived else PoPartiallyReceived, if done then Some(at) else None,
                        PurchaseReceived)
  {
    ReceiveLinesFrame(db, o, doc, at, lines);
    ReceiveLinesDone(db, o, doc, at, lines);
    ReceiveLinesLog(db, o, doc, at, lines);
    var last := ReceiveLines(db, o, doc, at, lines).db;
    SetRecorded(db, last, o, PoReceived, Some(at), PurchaseReceived);
    SetRecorded(db, last, o, PoPartiallyReceived, None, PurchaseReceived);
    ReceivedSays(last, o);
  }

  // ---------------------------------------------------------------- submit, cancel, and the draft

  /** `db` with order `o` at `status`, one audit row and one event. */
  ghost function Moved(db: Db, o: Id, status: PurchaseStatus, action: Action): Db
    requires o in db.purchases
  {
    var order := db.purchases[o];
    db.(purchases := db.purchases[o := PurchaseOrder(order.warehouse, order.supplier, status, order.receivedAt)],
        audits := db.audits + [Audit(action, o)], events := db.events + [PurchaseEvent(action, o, status)])
  }

  lemma SubmitAnswer(db: Db, o: Id)
    ensures Step(db, OpSubmitPurchase(o))
         == if o !in db.purchases then Rejected(NotFound)
            else if db.purchases[o].status != PoDraft then Rejected(WrongStatus)
            else if !exists i :: OnOrder(db, o, i) then Rejected(NoItems)
            else if !(db.purchases[o].supplier in db.suppliers && db.suppliers[db.purchases[o].supplier])
              then Rejected(PartnerInactive)
            else if !AtOpenWarehouse(db, o) then Rejected(WarehouseInactive)
            else Committed(Moved(db, o, PoSubmitted, PurchaseSubmitted))
  {
    assert (exists i :: OnOrder(db, o, i))
      <==> !(forall i :: i in db.purchaseItems ==> db.purchaseItems[i].order != o) by {
      if j :| j in db.purchaseItems && db.purchaseItems[j].order == o {
        assert OnOrder(db, o, j);
      }
    }
  }

  lemma CancelAnswer(db: Db, o: Id)
    ensures Step(db, OpCancelPurchase(o))
         == if o !in db.purchases then Rejected(NotFound)
            else if db.purchases[o].status != PoDraft && db.purchases[o].status != PoSubmitted
              then Rejected(WrongStatus)
            else Committed(Moved(db, o, PoCancelled, PurchaseCancelled))
  {
  }

  lemma CreateAnswer(db: Db, o: Id, supplier: Id, warehouse: Id)
    ensures Step(db, OpCreatePurchase(o, supplier, warehouse))
         == if !(supplier in db.suppliers && db.suppliers[supplier])
               || !(warehouse in db.warehouses && db.warehouses[warehouse]) then Rejected(NotFound)
            else if o in db.purchases then Rejected(DuplicateId)
            else Committed(db.(purchases := db.purchases[o := PurchaseOrder(warehouse, supplier, PoDraft, None)]))
  {
  }

  lemma AddItemAnswer(db: Db, o: Id, i: Id, product: Id, ordered: int)
    ensures Step(db, OpAddPurchaseItem(o, i, product, ordered))
         == if o !in db.purchases then Rejected(NotFound)
            else if db.purchases[o].status != PoDraft then Rejected(WrongStatus)
            else if !(product in db.products && db.products[product]) then Rejected(NotFound)
            else if ordered <= 0 then Rejected(NotPositive)
            else if ordered >= 1_000_000_000_000_000_000 then Rejected(ColumnOverflow)
            else if i in db.purchaseItems then Rejected(DuplicateId)
            else if exists j :: OnOrder(db, o, j) && db.purchaseItems[j].product == product
              then Rejected(ProductAlreadyOnOrder)
            else Committed(db.(purchaseItems := db.purchaseItems[i := PurchaseItem(o, product, ordered, 0)]))
  {
  }

  lemma RemoveItemAnswer(db: Db, o: Id, i: Id)
    ensures Step(db, OpRemovePurchaseItem(o, i))
         == if o !in db.purchases then Rejected(NotFound)
            else if db.purchases[o].status != PoDraft then Rejected(WrongStatus)
            else if !OnOrder(db, o, i) then Rejected(NotFound)
            else if exists n :: 0 <= n < |db.receiptLines| && db.receiptLines[n].item == i then Rejected(ForeignKey)
            else Committed(db.(purchaseItems := map j | j in db.purchaseItems && j != i :: db.purchaseItems[j]))
  {
    assert db.purchaseItems - {i} == map j | j in db.purchaseItems && j != i :: db.purchaseItems[j];
  }

  // ---------------------------------------------------------------- warehouses and flags

  /** A warehouse with stock, an open purchase order or an open sales order stays active, and the first of these says
      why. */
  lemma WarehouseAnswer(db: Db, w: Id, isActive: Option<bool>)
    ensures var r := Step(db, OpUpdateWarehouse(w, isActive));
            var stocked := exists k :: k in db.stock && k.warehouse == w && db.stock[k].quantity > 0;
            var buying := exists o :: o in db.purchases && db.purchases[o].warehouse == w
                                        && db.purchases[o].status != PoReceived
                                        && db.purchases[o].status != PoCancelled;
            var selling := exists o :: o in db.sales && db.sales[o].warehouse == w
                                         && db.sales[o].status != SoFulfilled && db.sales[o].status != SoCancelled;
            r == if w !in db.warehouses then Rejected(NotFound)
                 else if isActive == Some(false) && db.warehouses[w] && stocked then Rejected(HasStock)
                 else if isActive == Some(false) && db.warehouses[w] && buying then Rejected(HasOpenPurchases)
                 else if isActive == Some(false) && db.warehouses[w] && selling then Rejected(HasOpenSales)
                 else if isActive.Some? then Committed(db.(warehouses := db.warehouses[w := isActive.value]))
                 else Committed(db)
  {
    if isActive.None? && w in db.warehouses {
      assert db.warehouses[w := db.warehouses[w]] == db.warehouses;
    }
  }

  /** New warehouses are active; the other flags are set as asked. */
  lemma MasterDataAnswer(db: Db, id: Id, active: bool)
    ensures Step(db, OpCreateWarehouse(id))
         == if id in db.warehouses then Rejected(DuplicateId)
            else Committed(db.(warehouses := db.warehouses[id := true]))
    ensures Step(db, OpSetProduct(id, active)) == Committed(db.(products := db.products[id := active]))
    ensures Step(db, OpSetCustomer(id, active)) == Committed(db.(customers := db.customers[id := active]))
    ensures Step(db, OpSetSupplier(id, active)) == Committed(db.(suppliers := db.suppliers[id := active]))
  {
  }
}
