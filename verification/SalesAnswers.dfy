/** What the sales calls answer and do, said of orders, items and rows alone. */
module SalesAnswers {
  import opened Ledger
  import opened LedgerSteps
  import opened ReservationProofs
  import opened RequestLines

  ghost predicate AtOpenWarehouse(db: Db, o: Id)
    requires o in db.sales
  {
    db.sales[o].warehouse in db.warehouses && db.warehouses[db.sales[o].warehouse]
  }

  ghost predicate OnOrder(db: Db, o: Id, i: Id) {
    i in db.salesItems && db.salesItems[i].order == o
  }

  /** Where the stock of item `i` of `o` is. */
  ghost function Home(db: Db, o: Id, i: Id): Key
    requires o in db.sales && i in db.salesItems
  {
    Key(db.sales[o].warehouse, db.salesItems[i].product)
  }

  ghost predicate AllOnOrder(db: Db, o: Id, lines: seq<Line>) {
    forall n :: 0 <= n < |lines| ==> OnOrder(db, o, lines[n].item)
  }

  /** Some line of the request takes from the row at `k`. */
  ghost predicate Touches(db: Db, o: Id, lines: seq<Line>, k: Key) {
    exists n :: 0 <= n < |lines| && o in db.sales && lines[n].item in db.salesItems && Home(db, o, lines[n].item) == k
  }

  // ---------------------------------------------------------------- reserve

  /** The line asks for no more of an item of `o` than is neither reserved nor shipped yet. */
  ghost predicate Remains(db: Db, o: Id, line: Line) {
    && OnOrder(db, o, line.item)
    && var item := db.salesItems[line.item]; item.reserved + item.fulfilled + line.quantity <= item.ordered
  }

  ghost predicate InStock(db: Db, o: Id, line: Line)
    requires o in db.sales && line.item in db.salesItems
  {
    var k := Home(db, o, line.item);
    k in db.stock && db.stock[k].quantity - db.stock[k].reserved >= line.quantity
  }

  /** The four statuses, the warehouse, what remains of each item, and what is available of each row. */
  ghost predicate Reservable(db: Db, o: Id, lines: seq<Line>) {
    && NoRepeats(lines) && EachPositive(lines)
    && o in db.sales
    && (db.sales[o].status == SoConfirmed || db.sales[o].status == SoPartiallyReserved
        || db.sales[o].status == SoReserved || db.sales[o].status == SoPartiallyFulfilled)
    && AtOpenWarehouse(db, o)
    && forall n :: 0 <= n < |lines| ==> Remains(db, o, lines[n]) && InStock(db, o, lines[n])
  }

  lemma {:induction false} CheckReserveExactly(db: Db, o: Id, lines: seq<Line>)
    ensures CheckReserve(db.salesItems, o, lines).None? <==> forall n :: 0 <= n < |lines| ==> Remains(db, o, lines[n])
    decreases |lines|
  {
    if lines != [] {
      var rest := lines[1..];
      CheckReserveExactly(db, o, rest);
      assert forall n :: 0 < n < |lines| ==> lines[n] == rest[n - 1];
      assert forall n :: 0 <= n < |rest| ==> rest[n] == lines[n + 1];
    }
  }

  /** A reservation commits exactly when all of that holds before its first line. */
  lemma ReserveCommits(db: Db, o: Id, lines: seq<Line>)
    requires Sound(db)
    ensures Step(db, OpReserveSales(o, lines)).Committed? <==> Reservable(db, o, lines)
  {
    RequestChecks(lines);
    CheckReserveExactly(db, o, lines);
    if CheckRequest(lines).None? && o in db.sales && CheckReserve(db.salesItems, o, lines).None? {
      ReserveDecidedUpFront(db, o, lines);
      assert forall n :: 0 <= n < |lines| ==>
          (InStock(db, o, lines[n]) <==>
           HasAvailable(db, ItemKey(db, db.salesItems[lines[n].item]), lines[n].quantity));
    }
  }

  /** Line `n` is the first that asks for too much, or for an item that is not on the order. */
  ghost predicate FirstOver(db: Db, o: Id, lines: seq<Line>, n: int) {
    0 <= n < |lines| && !Remains(db, o, lines[n]) && forall m :: 0 <= m < n ==> Remains(db, o, lines[m])
  }

  lemma {:induction false} FirstOffence(db: Db, o: Id, lines: seq<Line>)
    requires CheckReserve(db.salesItems, o, lines).Some?
    ensures exists n :: FirstOver(db, o, lines, n) && CheckReserve(db.salesItems, o, lines).value
                          == if OnOrder(db, o, lines[n].item) then ExceedsRemaining else ForeignItem
    decreases |lines|
  {
    if Remains(db, o, lines[0]) {
      FirstOffence(db, o, lines[1..]);
      var n :| FirstOver(db, o, lines[1..], n) && CheckReserve(db.salesItems, o, lines[1..]).value
                 == if OnOrder(db, o, lines[1..][n].item) then ExceedsRemaining else ForeignItem;
      assert forall m :: 0 < m < |lines| ==> lines[m] == lines[1..][m - 1];
      assert FirstOver(db, o, lines, n + 1);
    } else {
      assert FirstOver(db, o, lines, 0);
    }
  }

  /** A refusal names the first thing that is wrong, in this order. */
  lemma ReserveRefusal(db: Db, o: Id, lines: seq<Line>)
    requires Sound(db) && Step(db, OpReserveSales(o, lines)).Rejected?
    ensures var e := Step(db, OpReserveSales(o, lines)).error;
            if !NoRepeats(lines) then e == DuplicateLine
            else if !EachPositive(lines) then e == NotPositive
            else if o !in db.sales then e == NotFound
            else if db.sales[o].status == SoDraft || db.sales[o].status == SoFulfilled
                    || db.sales[o].status == SoCancelled then e == WrongStatus
            else if !AtOpenWarehouse(db, o) then e == WarehouseInactive
            else if forall n :: 0 <= n < |lines| ==> Remains(db, o, lines[n]) then e == InsufficientStock
            else exists n :: FirstOver(db, o, lines, n)
                               && e == if OnOrder(db, o, lines[n].item) then ExceedsRemaining else ForeignItem
  {
    RequestChecks(lines);
    CheckReserveExactly(db, o, lines);
    if CheckReserve(db.salesItems, o, lines).Some? {
      FirstOffence(db, o, lines);
    } else if o in db.sales && CheckRequest(lines).None? {
      ReserveDecidedUpFront(db, o, lines);
    }
  }

  /** The status that the reservations of the items call for, with what has been shipped. */
  ghost predicate ReservationSays(db: Db, o: Id, status: SalesStatus) {
    if exists i :: OnOrder(db, o, i) && db.salesItems[i].fulfilled > 0 then status == SoPartiallyFulfilled
    else if forall i :: OnOrder(db, o, i) ==> db.salesItems[i].reserved == db.salesItems[i].ordered
      then status == SoReserved
    else status == SoPartiallyReserved
  }

  /** Nothing but these columns and tables of the database has changed, and the order is at `status`, with one audit row
      and one event that say so. */
  ghost predicate Recorded(db: Db, next: Db, o: Id, status: SalesStatus, fulfilledAt: Option<Time>, action: Action) {
    && o in db.sales
    && next == db.(stock := next.stock, salesItems := next.salesItems, movements := next.movements,
                   fulfillmentLines := next.fulfillmentLines, sales := next.sales, audits := next.audits,
                   events := next.events)
    && next.sales == db.sales[o := SalesOrder(db.sales[o].warehouse, db.sales[o].customer, status, fulfilledAt)]
    && next.audits == db.audits + [Audit(action, o)]
    && next.events == db.events + [SalesEvent(action, o, status)]
  }

  /** The two calls that work through lines. */
  datatype Work = Reserving | Shipping

  /** What `quantity` does to an item. */
  function ItemAfter(work: Work, item: SalesItem, quantity: int): SalesItem {
    match work
    case Reserving => SalesItem(item.order, item.product, item.ordered, item.reserved + quantity, item.fulfilled)
    case Shipping =>
      SalesItem(item.order, item.product, item.ordered, item.reserved - quantity, item.fulfilled + quantity)
  }

  /** What it does to the row the item takes from. */
  function RowAfter(work: Work, row: Stock, quantity: int): Stock {
    match work
    case Reserving => Stock(row.quantity, row.reserved + quantity, row.reorderPoint)
    case Shipping => Stock(row.quantity - quantity, row.reserved - quantity, row.reorderPoint)
  }

  /** Each named item and its row have seen their line; everything else is as it was. */
  ghost predicate DoneForLines(work: Work, db: Db, next: Db, o: Id, lines: seq<Line>) {
    && o in db.sales && next.stock.Keys == db.stock.Keys && next.salesItems.Keys == db.salesItems.Keys
    && (forall n :: 0 <= n < |lines| ==> DoneForLine(work, db, next, o, lines[n]))
    && (forall i :: i in db.salesItems && !Names(lines, i) ==> next.salesItems[i] == db.salesItems[i])
    && (forall k :: k in db.stock && !Touches(db, o, lines, k) ==> next.stock[k] == db.stock[k])
  }

  ghost predicate DoneForLine(work: Work, db: Db, next: Db, o: Id, line: Line)
    requires o in db.sales && next.stock.Keys == db.stock.Keys && next.salesItems.Keys == db.salesItems.Keys
  {
    && line.item in db.salesItems && Home(db, o, line.item) in db.stock
    && next.salesItems[line.item] == ItemAfter(work, db.salesItems[line.item], line.quantity)
    && next.stock[Home(db, o, line.item)] == RowAfter(work, db.stock[Home(db, o, line.item)], line.quantity)
  }

  /** After its first line, a request sees the items and rows of the others as before. */
  lemma RestAsBefore(db: Db, next: Db, o: Id, lines: seq<Line>)
    requires Schema(db) && o in db.sales && next.sales == db.sales && lines != [] && NoRepeats(lines)
    requires OnOrder(db, o, lines[0].item) && AllOnOrder(db, o, lines)
    requires next.salesItems.Keys == db.salesItems.Keys
    requires forall i :: i in db.salesItems && i != lines[0].item ==> next.salesItems[i] == db.salesItems[i]
    requires next.salesItems[lines[0].item].order == o
             && next.salesItems[lines[0].item].product == db.salesItems[lines[0].item].product
    ensures forall n :: 0 < n < |lines| ==>
              && OnOrder(next, o, lines[n].item) && next.salesItems[lines[n].item] == db.salesItems[lines[n].item]
              && Home(next, o, lines[n].item) == Home(db, o, lines[n].item) != Home(db, o, lines[0].item)
    ensures forall i :: i in db.salesItems && db.salesItems[i].order == o ==> Home(next, o, i) == Home(db, o, i)
    ensures forall k :: Touches(db, o, lines, k) <==>
              k == Home(db, o, lines[0].item) || Touches(next, o, lines[1..], k)
    ensures forall i :: Names(lines, i) <==> i == lines[0].item || Names(lines[1..], i)
  {
    var rest := lines[1..];
    assert forall n :: 0 < n < |lines| ==> lines[n] == rest[n - 1];
    assert forall n :: 0 <= n < |rest| ==> rest[n] == lines[n + 1];
    forall n | 0 < n < |lines| ensures Home(db, o, lines[n].item) != Home(db, o, lines[0].item) {
      assert lines[n].item != lines[0].item;
    }
  }

  /** The first line's item and row have changed, and nothing else has. */
  ghost predicate FirstDone(work: Work, db: Db, next: Db, o: Id, line: Line) {
    && o in db.sales && OnOrder(db, o, line.item) && Home(db, o, line.item) in db.stock
    && next.sales == db.sales
    && next.salesItems
       == db.salesItems[line.item := ItemAfter(work, db.salesItems[line.item], line.quantity)]
    && next.stock
       == db.stock[Home(db, o, line.item) := RowAfter(work, db.stock[Home(db, o, line.item)], line.quantity)]
  }

  lemma FirstLineDone(work: Work, db: Db, next: Db, last: Db, o: Id, lines: seq<Line>)
    requires lines != [] && FirstDone(work, db, next, o, lines[0]) && DoneForLines(work, next, last, o, lines[1..])
    requires !Names(lines[1..], lines[0].item) && !Touches(next, o, lines[1..], Home(db, o, lines[0].item))
    ensures last.stock.Keys == db.stock.Keys && last.salesItems.Keys == db.salesItems.Keys
    ensures DoneForLine(work, db, last, o, lines[0])
    ensures forall i :: i in db.salesItems && i != lines[0].item && !Names(lines[1..], i) ==>
              last.salesItems[i] == db.salesItems[i]
    ensures forall k :: k in db.stock && k != Home(db, o, lines[0].item) && !Touches(next, o, lines[1..], k) ==>
              last.stock[k] == db.stock[k]
  {
  }

  lemma LaterLineDone(work: Work, db: Db, next: Db, last: Db, o: Id, first: Line, line: Line)
    requires FirstDone(work, db, next, o, first) && line.item != first.item && line.item in db.salesItems
    requires Home(db, o, line.item) != Home(db, o, first.item)
    requires last.stock.Keys == next.stock.Keys && last.salesItems.Keys == next.salesItems.Keys
    requires DoneForLine(work, next, last, o, line)
    ensures DoneForLine(work, db, last, o, line)
  {
  }

  lemma DoneOneMore(work: Work, db: Db, next: Db, last: Db, o: Id, lines: seq<Line>)
    requires Schema(db) && lines != [] && NoRepeats(lines) && FirstDone(work, db, next, o, lines[0])
    requires AllOnOrder(db, o, lines) && DoneForLines(work, next, last, o, lines[1..])
    ensures DoneForLines(work, db, last, o, lines)
  {
    RestAsBefore(db, next, o, lines);
    assert !Names(lines[1..], lines[0].item);
    assert !Touches(next, o, lines[1..], Home(db, o, lines[0].item));
    FirstLineDone(work, db, next, last, o, lines);
    forall n | 0 <= n < |lines| ensures DoneForLine(work, db, last, o, lines[n]) {
      if n > 0 {
        assert lines[n] == lines[1..][n - 1];
        LaterLineDone(work, db, next, last, o, lines[0], lines[n]);
      }
    }
  }

  lemma ReserveLineAnswer(db: Db, o: Id, line: Line)
    requires o in db.sales && OnOrder(db, o, line.item) && line.quantity > 0
    ensures var r := ReserveLine(db, o, line);
            && (r.Committed? <==> InStock(db, o, line))
            && (r.Committed? ==> FirstDone(Reserving, db, r.db, o, line))
  {
  }

  /** One line of a validated reservation, and what holds for the rest afterwards. */
  lemma HoldFirst(db: Db, o: Id, lines: seq<Line>)
    requires Sound(db) && o in db.sales && lines != [] && NoRepeats(lines) && EachPositive(lines)
    requires CheckReserve(db.salesItems, o, lines).None?
    ensures AllOnOrder(db, o, lines)
    ensures var r := ReserveLine(db, o, lines[0]);
            r.Committed? ==>
              && Sound(r.db) && o in r.db.sales && CheckReserve(r.db.salesItems, o, lines[1..]).None?
              && FirstDone(Reserving, db, r.db, o, lines[0])
  {
    CheckReserveExactly(db, o, lines);
    assert CheckReserve(db.salesItems, o, [lines[0]]).None?;
    ReserveLineAnswer(db, o, lines[0]);
    var r := ReserveLine(db, o, lines[0]);
    if r.Committed? {
      ReserveLineKeeps(db, o, lines[0]);
      RestStillValid(db, o, lines);
      CheckReserveFrame(db.salesItems, r.db.salesItems, o, lines[1..]);
    }
  }

  lemma {:induction false} ReserveLinesDone(db: Db, o: Id, lines: seq<Line>)
    requires Sound(db) && o in db.sales && NoRepeats(lines) && EachPositive(lines)
    requires CheckReserve(db.salesItems, o, lines).None? && ReserveLines(db, o, lines).Committed?
    ensures DoneForLines(Reserving, db, ReserveLines(db, o, lines).db, o, lines)
    decreases |lines|
  {
    if lines != [] {
      HoldFirst(db, o, lines);
      var next := ReserveLine(db, o, lines[0]).db;
      ReserveLinesDone(next, o, lines[1..]);
      DoneOneMore(Reserving, db, next, ReserveLines(db, o, lines).db, o, lines);
    }
  }

  /** What a committed reservation does to items and rows. */
  lemma ReserveEffect(db: Db, o: Id, lines: seq<Line>)
    requires Sound(db) && Step(db, OpReserveSales(o, lines)).Committed?
    ensures DoneForLines(Reserving, db, Step(db, OpReserveSales(o, lines)).db, o, lines)
  {
    ReserveLinesDone(db, o, lines);
  }

  /** It ends in the status its items call for, and neither ships nor records any movement. */
  lemma ReserveRecorded(db: Db, o: Id, lines: seq<Line>)
    requires Step(db, OpReserveSales(o, lines)).Committed?
    ensures var next := Step(db, OpReserveSales(o, lines)).db;
            && o in next.sales && ReservationSays(next, o, next.sales[o].status)
            && next.movements == db.movements && next.fulfillmentLines == db.fulfillmentLines
            && Recorded(db, next, o, next.sales[o].status, db.sales[o].fulfilledAt, SalesReserved)
  {
    ReserveLinesEffect(db, o, lines);
    var last := ReserveLines(db, o, lines).db;
    SetRecorded(db, last, o, ReservationStatus(last.salesItems, o), db.sales[o].fulfilledAt, SalesReserved);
    ReservedSays(last, o);
  }

  lemma ReservedSays(db: Db, o: Id)
    ensures ReservationSays(db, o, ReservationStatus(db.salesItems, o))
  {
    if i :| i in db.salesItems && db.salesItems[i].order == o && db.salesItems[i].fulfilled > 0 {
      assert OnOrder(db, o, i);
    } else {
      assert forall i :: OnOrder(db, o, i) ==> db.salesItems[i].fulfilled <= 0;
    }
  }

  // ---------------------------------------------------------------- fulfill

  /** The line ships no more of an item of `o` than is reserved for it. */
  ghost predicate IsHeld(db: Db, o: Id, line: Line) {
    OnOrder(db, o, line.item) && line.quantity <= db.salesItems[line.item].reserved
  }

  /** Its row can give that much back. */
  ghost predicate RowHolds(db: Db, o: Id, line: Line)
    requires o in db.sales && line.item in db.salesItems
  {
    Home(db, o, line.item) in db.stock && db.stock[Home(db, o, line.item)].reserved >= line.quantity
  }

  ghost predicate Shippable(db: Db, o: Id, lines: seq<Line>) {
    && NoRepeats(lines) && EachPositive(lines)
    && o in db.sales
    && (db.sales[o].status == SoPartiallyReserved || db.sales[o].status == SoReserved
        || db.sales[o].status == SoPartiallyFulfilled)
    && AtOpenWarehouse(db, o)
    && forall n :: 0 <= n < |lines| ==> IsHeld(db, o, lines[n]) && RowHolds(db, o, lines[n])
  }

  lemma {:induction false} CheckFulfillExactly(db: Db, o: Id, lines: seq<Line>)
    ensures CheckFulfill(db.salesItems, o, lines).None? <==> forall n :: 0 <= n < |lines| ==> IsHeld(db, o, lines[n])
    decreases |lines|
  {
    if lines != [] {
      var rest := lines[1..];
      CheckFulfillExactly(db, o, rest);
      assert forall n :: 0 < n < |lines| ==> lines[n] == rest[n - 1];
      assert forall n :: 0 <= n < |rest| ==> rest[n] == lines[n + 1];
    }
  }

  ghost predicate RowsHold(db: Db, o: Id, lines: seq<Line>) {
    forall n :: 0 <= n < |lines| ==> o in db.sales && lines[n].item in db.salesItems && RowHolds(db, o, lines[n])
  }

  /** A line leaves the rows of the others as they were. */
  lemma RowsHoldLater(db: Db, next: Db, o: Id, lines: seq<Line>)
    requires Schema(db) && lines != [] && NoRepeats(lines) && FirstDone(Shipping, db, next, o, lines[0])
    requires AllOnOrder(db, o, lines) && RowHolds(db, o, lines[0])
    ensures RowsHold(db, o, lines) <==> RowsHold(next, o, lines[1..])
  {
    var rest := lines[1..];
    RestAsBefore(db, next, o, lines);
    assert forall n :: 0 < n < |lines| ==> lines[n] == rest[n - 1];
    assert forall n :: 0 <= n < |rest| ==> rest[n] == lines[n + 1];
  }

  lemma FulfillLineAnswer(db: Db, o: Id, doc: Id, at: Time, line: Line)
    requires RowsOk(db.stock) && o in db.sales && OnOrder(db, o, line.item)
    ensures var r := FulfillLine(db, o, doc, at, line);
            && (r.Committed? <==> RowHolds(db, o, line))
            && (r.Committed? ==> FirstDone(Shipping, db, r.db, o, line))
  {
  }

  /** One line of a validated fulfillment, and what holds for the rest afterwards. */
  lemma ShipFirst(db: Db, o: Id, doc: Id, at: Time, lines: seq<Line>)
    requires Sound(db) && o in db.sales && lines != [] && NoRepeats(lines) && EachPositive(lines)
    requires CheckFulfill(db.salesItems, o, lines).None?
    ensures AllOnOrder(db, o, lines)
    ensures FulfillLine(db, o, doc, at, lines[0]).Committed? <==> RowHolds(db, o, lines[0])
    ensures var r := FulfillLine(db, o, doc, at, lines[0]);
            r.Committed? ==>
              && Sound(r.db) && o in r.db.sales && CheckFulfill(r.db.salesItems, o, lines[1..]).None?
              && FirstDone(Shipping, db, r.db, o, lines[0])
  {
    CheckFulfillExactly(db, o, lines);
    assert CheckFulfill(db.salesItems, o, [lines[0]]).None?;
    FulfillLineAnswer(db, o, doc, at, lines[0]);
    var r := FulfillLine(db, o, doc, at, lines[0]);
    if RowHolds(db, o, lines[0]) {
      FulfillLineKeeps(db, o, doc, at, lines[0]);
      RestStillValid(db, o, lines);
      CheckReserveFrame(db.salesItems, r.db.salesItems, o, lines[1..]);
    }
  }

  lemma {:induction false} ShipDecidedUpFront(db: Db, o: Id, doc: Id, at: Time, lines: seq<Line>)
    requires Sound(db) && o in db.sales && NoRepeats(lines) && EachPositive(lines)
    requires CheckFulfill(db.salesItems, o, lines).None?
    ensures FulfillLines(db, o, doc, at, lines).Committed? <==> RowsHold(db, o, lines)
    decreases |lines|
  {
    if lines != [] {
      ShipFirst(db, o, doc, at, lines);
      var r := FulfillLine(db, o, doc, at, lines[0]);
      if r.Committed? {
        ShipDecidedUpFront(r.db, o, doc, at, lines[1..]);
        RowsHoldLater(db, r.db, o, lines);
      }
    }
  }

  lemma {:induction false} ShipLinesDone(db: Db, o: Id, doc: Id, at: Time, lines: seq<Line>)
    requires Sound(db) && o in db.sales && NoRepeats(lines) && EachPositive(lines)
    requires CheckFulfill(db.salesItems, o, lines).None? && FulfillLines(db, o, doc, at, lines).Committed?
    ensures DoneForLines(Shipping, db, FulfillLines(db, o, doc, at, lines).db, o, lines)
    decreases |lines|
  {
    if lines != [] {
      ShipFirst(db, o, doc, at, lines);
      var next := FulfillLine(db, o, doc, at, lines[0]).db;
      ShipLinesDone(next, o, doc, at, lines[1..]);
      DoneOneMore(Shipping, db, next, FulfillLines(db, o, doc, at, lines).db, o, lines);
    }
  }

  /** A fulfillment commits exactly when all of that holds before its first line. */
  lemma FulfillCommits(db: Db, o: Id, doc: Id, at: Time, lines: seq<Line>)
    requires Sound(db)
    ensures Step(db, OpFulfillSales(o, doc, at, lines)).Committed? <==> Shippable(db, o, lines)
  {
    RequestChecks(lines);
    CheckFulfillExactly(db, o, lines);
    if CheckRequest(lines).None? && o in db.sales && CheckFulfill(db.salesItems, o, lines).None? {
      ShipDecidedUpFront(db, o, doc, at, lines);
    }
  }

  /** Line `n` is the first that ships more than is held, or of an item that is not on the order. */
  ghost predicate FirstUnheld(db: Db, o: Id, lines: seq<Line>, n: int) {
    0 <= n < |lines| && !IsHeld(db, o, lines[n]) && forall m :: 0 <= m < n ==> IsHeld(db, o, lines[m])
  }

  lemma {:induction false} FirstUnheldOffends(db: Db, o: Id, lines: seq<Line>)
    requires CheckFulfill(db.salesItems, o, lines).Some?
    ensures exists n :: FirstUnheld(db, o, lines, n) && CheckFulfill(db.salesItems, o, lines).value
                          == if OnOrder(db, o, lines[n].item) then ExceedsReserved else ForeignItem
    decreases |lines|
  {
    if IsHeld(db, o, lines[0]) {
      FirstUnheldOffends(db, o, lines[1..]);
      var n :| FirstUnheld(db, o, lines[1..], n) && CheckFulfill(db.salesItems, o, lines[1..]).value
                 == if OnOrder(db, o, lines[1..][n].item) then ExceedsReserved else ForeignItem;
      assert forall m :: 0 < m < |lines| ==> lines[m] == lines[1..][m - 1];
      assert FirstUnheld(db, o, lines, n + 1);
    } else {
      assert FirstUnheld(db, o, lines, 0);
    }
  }

  /** A refusal names the first thing that is wrong. The last case never comes up (ReservationBranchesDead). */
  lemma FulfillRefusal(db: Db, o: Id, doc: Id, at: Time, lines: seq<Line>)
    requires Sound(db) && Step(db, OpFulfillSales(o, doc, at, lines)).Rejected?
    ensures var e := Step(db, OpFulfillSales(o, doc, at, lines)).error;
            if !NoRepeats(lines) then e == DuplicateLine
            else if !EachPositive(lines) then e == NotPositive
            else if o !in db.sales then e == NotFound
            else if db.sales[o].status == SoDraft || db.sales[o].status == SoConfirmed
                    || db.sales[o].status == SoFulfilled || db.sales[o].status == SoCancelled then e == WrongStatus
            else if !AtOpenWarehouse(db, o) then e == WarehouseInactive
            else if forall n :: 0 <= n < |lines| ==> IsHeld(db, o, lines[n])
              then e == ReservationMissing || e == ReservationInconsistent
            else exists n :: FirstUnheld(db, o, lines, n)
                               && e == if OnOrder(db, o, lines[n].item) then ExceedsReserved else ForeignItem
  {
    RequestChecks(lines);
    CheckFulfillExactly(db, o, lines);
    if CheckFulfill(db.salesItems, o, lines).Some? {
      FirstUnheldOffends(db, o, lines);
    } else if o in db.sales && CheckRequest(lines).None? && FulfillLines(db, o, doc, at, lines).Rejected? {
      FulfillLinesEndings(db, o, doc, at, lines);
    }
  }

  /** Validated lines all name items of the order, so the loop can only fail on a row. */
  lemma {:induction false} FulfillLinesEndings(db: Db, o: Id, doc: Id, at: Time, lines: seq<Line>)
    requires Sound(db) && o in db.sales && NoRepeats(lines) && EachPositive(lines)
    requires CheckFulfill(db.salesItems, o, lines).None? && FulfillLines(db, o, doc, at, lines).Rejected?
    ensures FulfillLines(db, o, doc, at, lines).error in {ReservationMissing, ReservationInconsistent}
    decreases |lines|
  {
    if lines != [] {
      ShipFirst(db, o, doc, at, lines);
      if FulfillLine(db, o, doc, at, lines[0]).Committed? {
        FulfillLinesEndings(FulfillLine(db, o, doc, at, lines[0]).db, o, doc, at, lines[1..]);
      }
    }
  }

  /** The movements a fulfillment adds, one for each line, in their order. */
  ghost function NewIssues(db: Db, o: Id, doc: Id, at: Time, lines: seq<Line>): seq<Movement>
    requires o in db.sales && AllOnOrder(db, o, lines)
  {
    seq(|lines|, n requires 0 <= n < |lines| =>
      Movement(Home(db, o, lines[n].item), Issue, BySale(doc), -lines[n].quantity, at))
  }

  lemma NewIssuesSplit(db: Db, next: Db, o: Id, doc: Id, at: Time, lines: seq<Line>)
    requires o in db.sales && o in next.sales && lines != []
    requires AllOnOrder(db, o, lines) && AllOnOrder(next, o, lines[1..])
    requires forall i :: OnOrder(db, o, i) ==> i in next.salesItems && Home(next, o, i) == Home(db, o, i)
    ensures NewIssues(db, o, doc, at, lines)
         == [Movement(Home(db, o, lines[0].item), Issue, BySale(doc), -lines[0].quantity, at)]
            + NewIssues(next, o, doc, at, lines[1..])
  {
    assert forall n :: 0 < n < |lines| ==> lines[n] == lines[1..][n - 1] && OnOrder(db, o, lines[n].item);
  }

  lemma {:induction false} ShipLinesLog(db: Db, o: Id, doc: Id, at: Time, lines: seq<Line>)
    requires Sound(db) && o in db.sales && NoRepeats(lines) && EachPositive(lines)
    requires CheckFulfill(db.salesItems, o, lines).None? && FulfillLines(db, o, doc, at, lines).Committed?
    ensures AllOnOrder(db, o, lines)
    ensures var last := FulfillLines(db, o, doc, at, lines).db;
            && last.fulfillmentLines == db.fulfillmentLines + NewLines(doc, lines)
            && last.movements == db.movements + NewIssues(db, o, doc, at, lines)
    decreases |lines|
  {
    if lines != [] {
      ShipFirst(db, o, doc, at, lines);
      var next := FulfillLine(db, o, doc, at, lines[0]).db;
      var rest := lines[1..];
      ShipLinesLog(next, o, doc, at, rest);
      RestAsBefore(db, next, o, lines);
      NewLinesSplit(doc, lines);
      NewIssuesSplit(db, next, o, doc, at, lines);
    }
  }

  /** What a committed fulfillment does to items, rows, documents and movements. */
  lemma FulfillEffect(db: Db, o: Id, doc: Id, at: Time, lines: seq<Line>)
    requires Sound(db) && Step(db, OpFulfillSales(o, doc, at, lines)).Committed?
    ensures o in db.sales && AllOnOrder(db, o, lines)
    ensures var next := Step(db, OpFulfillSales(o, doc, at, lines)).db;
            && DoneForLines(Shipping, db, next, o, lines)
            && next.fulfillmentLines == db.fulfillmentLines + NewLines(doc, lines)
            && next.movements == db.movements + NewIssues(db, o, doc, at, lines)
  {
    ShipLinesDone(db, o, doc, at, lines);
    ShipLinesLog(db, o, doc, at, lines);
  }

  /** It ends FULFILLED, with the time, exactly when every item is all shipped, and PARTIALLY_FULFILLED otherwise. */
  lemma FulfillRecorded(db: Db, o: Id, doc: Id, at: Time, lines: seq<Line>)
    requires Step(db, OpFulfillSales(o, doc, at, lines)).Committed?
    ensures var next := Step(db, OpFulfillSales(o, doc, at, lines)).db;
            var done := forall i :: OnOrder(next, o, i) ==> next.salesItems[i].fulfilled == next.salesItems[i].ordered;
            Recorded(db, next, o, if done then SoFulfilled else SoPartiallyFulfilled, if done then Some(at) else None,
                     SalesFulfilled)
  {
    FulfillLinesEffect(db, o, doc, at, lines);
    var last := FulfillLines(db, o, doc, at, lines).db;
    SetRecorded(db, last, o, SoFulfilled, Some(at), SalesFulfilled);
    SetRecorded(db, last, o, SoPartiallyFulfilled, None, SalesFulfilled);
    FulfilledSays(last, o);
  }

  lemma FulfilledSays(db: Db, o: Id)
    ensures FullyFulfilled(db.salesItems, o)
       <==> forall i :: OnOrder(db, o, i) ==> db.salesItems[i].fulfilled == db.salesItems[i].ordered
  {
  }

  /** The write that ends a sales call records it. */
  lemma SetRecorded(db: Db, last: Db, o: Id, status: SalesStatus, at: Option<Time>, action: Action)
    requires o in db.sales
    requires last == db.(stock := last.stock, salesItems := last.salesItems, movements := last.movements,
                         fulfillmentLines := last.fulfillmentLines)
    ensures Recorded(db, SetSales(last, o, status, at, action), o, status, at, action)
  {
  }

  // ---------------------------------------------------------------- cancel

  /** Item `i` holds nothing, or its row can give back what it holds. */
  ghost predicate CanGiveBack(db: Db, o: Id, i: Id)
    requires o in db.sales && i in db.salesItems
  {
    || db.salesItems[i].reserved == 0
    || (Home(db, o, i) in db.stock && db.stock[Home(db, o, i)].reserved >= db.salesItems[i].reserved)
  }

  lemma CancelAnswer(db: Db, o: Id)
    ensures var r := Step(db, OpCancelSales(o));
            && (r.Committed? <==>
                && o in db.sales
                && (db.sales[o].status == SoDraft || db.sales[o].status == SoConfirmed
                    || db.sales[o].status == SoPartiallyReserved || db.sales[o].status == SoReserved)
                && forall i :: OnOrder(db, o, i) ==> CanGiveBack(db, o, i))
            && (r.Rejected? ==>
                if o !in db.sales then r.error == NotFound
                else if db.sales[o].status == SoPartiallyFulfilled || db.sales[o].status == SoFulfilled
                        || db.sales[o].status == SoCancelled then r.error == WrongStatus
                else r.error == ReservationInconsistent)
  {
    if o in db.sales {
      CanReleaseExactly(db, o);
    }
  }

  lemma CanReleaseExactly(db: Db, o: Id)
    requires o in db.sales
    ensures CanRelease(db, o) <==> forall i :: OnOrder(db, o, i) ==> CanGiveBack(db, o, i)
  {
    if CanRelease(db, o) {
      forall i | OnOrder(db, o, i) ensures CanGiveBack(db, o, i) {
      }
    } else {
      var i :| i in db.salesItems && db.salesItems[i].order == o && db.salesItems[i].reserved != 0
               && !(Key(db.sales[o].warehouse, db.salesItems[i].product) in db.stock
                    && db.salesItems[i].reserved
                       <= db.stock[Key(db.sales[o].warehouse, db.salesItems[i].product)].reserved);
      assert OnOrder(db, o, i) && !CanGiveBack(db, o, i);
    }
  }

  /** The item holds nothing any more, and its row holds as much less. */
  ghost predicate GivenBack(db: Db, next: Db, o: Id, i: Id)
    requires o in db.sales && i in db.salesItems
  {
    && i in next.salesItems
    && next.salesItems[i] == SalesItem(o, db.salesItems[i].product, db.salesItems[i].ordered, 0,
                                       db.salesItems[i].fulfilled)
    && (Home(db, o, i) in db.stock ==>
        && Home(db, o, i) in next.stock
        && var row := db.stock[Home(db, o, i)];
           next.stock[Home(db, o, i)]
           == Stock(row.quantity, row.reserved - db.salesItems[i].reserved, row.reorderPoint))
  }

  /** A cancelled order has given back all it held, and nothing of other orders or places has moved. */
  lemma CancelEffect(db: Db, o: Id)
    requires Schema(db) && Step(db, OpCancelSales(o)).Committed?
    ensures var next := Step(db, OpCancelSales(o)).db;
            && Recorded(db, next, o, SoCancelled, db.sales[o].fulfilledAt, SalesCancelled)
            && next.movements == db.movements && next.fulfillmentLines == db.fulfillmentLines
            && next.salesItems.Keys == db.salesItems.Keys && next.stock.Keys == db.stock.Keys
            && (forall i :: OnOrder(db, o, i) ==> GivenBack(db, next, o, i))
            && (forall i :: i in db.salesItems && db.salesItems[i].order != o ==>
                  next.salesItems[i] == db.salesItems[i])
            && (forall k :: k in db.stock && (forall i :: OnOrder(db, o, i) ==> Home(db, o, i) != k) ==>
                  next.stock[k] == db.stock[k])
  {
    var next := Step(db, OpCancelSales(o)).db;
    SetRecorded(db, ReleaseAll(db, o), o, SoCancelled, db.sales[o].fulfilledAt, SalesCancelled);
    forall i | OnOrder(db, o, i) ensures GivenBack(db, next, o, i) {
      ReleasedIsTheItem(db, o, i);
    }
    forall k | k in db.stock && (forall i :: OnOrder(db, o, i) ==> Home(db, o, i) != k)
      ensures next.stock[k] == db.stock[k]
    {
      NothingReleasedAt(db, o, k);
    }
  }

  lemma NothingReleasedAt(db: Db, o: Id, k: Key)
    requires o in db.sales && k in db.stock && forall i :: OnOrder(db, o, i) ==> Home(db, o, i) != k
    ensures ReleasedStock(db, o)[k] == db.stock[k]
  {
    forall i | i in db.salesItems && db.salesItems[i].order == o && k.warehouse == db.sales[o].warehouse
      ensures db.salesItems[i].product != k.product
    {
      assert OnOrder(db, o, i);
    }
    assert ReleasedAt(db, o, k) == 0;
  }

  // ---------------------------------------------------------------- confirm, and the draft

  lemma ConfirmAnswer(db: Db, o: Id)
    ensures Step(db, OpConfirmSales(o))
         == if o !in db.sales then Rejected(NotFound)
            else if db.sales[o].status != SoDraft then Rejected(WrongStatus)
            else if !exists i :: OnOrder(db, o, i) then Rejected(NoItems)
            else if !(db.sales[o].customer in db.customers && db.customers[db.sales[o].customer])
              then Rejected(PartnerInactive)
            else if !AtOpenWarehouse(db, o) then Rejected(WarehouseInactive)
            else
              Committed(db.(
                sales := db.sales[o := SalesOrder(db.sales[o].warehouse, db.sales[o].customer, SoConfirmed,
                                                  db.sales[o].fulfilledAt)],
                audits := db.audits + [Audit(SalesConfirmed, o)],
                events := db.events + [SalesEvent(SalesConfirmed, o, SoConfirmed)]))
  {
    assert (exists i :: OnOrder(db, o, i))
      <==> !(forall i :: i in db.salesItems ==> db.salesItems[i].order != o) by {
      if j :| j in db.salesItems && db.salesItems[j].order == o {
        assert OnOrder(db, o, j);
      }
    }
  }

  lemma CreateAnswer(db: Db, o: Id, customer: Id, warehouse: Id)
    ensures Step(db, OpCreateSales(o, customer, warehouse))
         == if !(customer in db.customers && db.customers[customer])
               || !(warehouse in db.warehouses && db.warehouses[warehouse]) then Rejected(NotFound)
            else if o in db.sales then Rejected(DuplicateId)
            else Committed(db.(sales := db.sales[o := SalesOrder(warehouse, customer, SoDraft, None)]))
  {
  }

  lemma AddItemAnswer(db: Db, o: Id, i: Id, product: Id, ordered: int)
    ensures Step(db, OpAddSalesItem(o, i, product, ordered))
         == if o !in db.sales then Rejected(NotFound)
            else if db.sales[o].status != SoDraft then Rejected(WrongStatus)
            else if !(product in db.products && db.products[product]) then Rejected(NotFound)
            else if ordered <= 0 then Rejected(NotPositive)
            else if ordered >= 1_000_000_000_000_000_000 then Rejected(ColumnOverflow)
            else if i in db.salesItems then Rejected(DuplicateId)
            else if exists j :: OnOrder(db, o, j) && db.salesItems[j].product == product
              then Rejected(ProductAlreadyOnOrder)
            else Committed(db.(salesItems := db.salesItems[i := SalesItem(o, product, ordered, 0, 0)]))
  {
  }

  lemma RemoveItemAnswer(db: Db, o: Id, i: Id)
    ensures Step(db, OpRemoveSalesItem(o, i))
         == if o !in db.sales then Rejected(NotFound)
            else if db.sales[o].status != SoDraft then Rejected(WrongStatus)
            else if !OnOrder(db, o, i) then Rejected(NotFound)
            else if exists n :: 0 <= n < |db.fulfillmentLines| && db.fulfillmentLines[n].item == i
              then Rejected(ForeignKey)
            else Committed(db.(salesItems := map j | j in db.salesItems && j != i :: db.salesItems[j]))
  {
    assert db.salesItems - {i} == map j | j in db.salesItems && j != i :: db.salesItems[j];
  }
}
