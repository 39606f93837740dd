/** Reserved stock: bounds on every row, and what order items account for. */
module ReservationProofs {
  import opened Sums
  import opened Ledger
  import opened LedgerSteps

  /** Bounds of every stock row. */
  ghost predicate RowsOk(stock: map<Key, Stock>) {
    forall k :: k in stock ==> 0 <= stock[k].reserved <= stock[k].quantity < COLUMN_LIMIT
  }

  /** Bounds of every sales order item. */
  ghost predicate ItemsOk(items: map<Id, SalesItem>) {
    forall i :: i in items ==>
      && 0 < items[i].ordered < COLUMN_LIMIT
      && 0 <= items[i].reserved
      && 0 <= items[i].fulfilled
      && items[i].reserved + items[i].fulfilled <= items[i].ordered
  }

  /** Bounds of every purchase order item. */
  ghost predicate PurchaseItemsOk(items: map<Id, PurchaseItem>) {
    forall i :: i in items ==> 0 < items[i].ordered < COLUMN_LIMIT && 0 <= items[i].received <= items[i].ordered
  }

  /** Everything true of single rows. */
  ghost predicate Sound(db: Db) {
    Schema(db) && RowsOk(db.stock) && ItemsOk(db.salesItems) && PurchaseItemsOk(db.purchaseItems)
  }

  ghost predicate SameLeak(a: Db, b: Db) {
    forall k :: Leak(a, k) == Leak(b, k)
  }

  // ---------------------------------------------------------------- sums over items

  lemma HoldingUpdated(sales: map<Id, SalesOrder>, items: map<Id, SalesItem>, i: Id, next: SalesItem, k: Key)
    requires i in items && next.order in sales
    requires next.order == items[i].order && next.product == items[i].product
    ensures ItemsReserved(sales, items[i := next], k) == ItemsReserved(sales, items, k)
      + if k == Key(sales[next.order].warehouse, next.product) then next.reserved - items[i].reserved else 0
  {
    var before := Holds(sales, items, k);
    var after := Holds(sales, items[i := next], k);
    if k == Key(sales[next.order].warehouse, next.product) {
      assert after == before[i := next.reserved];
      TotalUpdate(before, i, next.reserved);
    } else {
      assert after == before;
    }
  }

  lemma HoldingInserted(sales: map<Id, SalesOrder>, items: map<Id, SalesItem>, i: Id, next: SalesItem, k: Key)
    requires i !in items && next.reserved == 0
    ensures ItemsReserved(sales, items[i := next], k) == ItemsReserved(sales, items, k)
  {
    var before := Holds(sales, items, k);
    var after := Holds(sales, items[i := next], k);
    if i in after {
      assert after == before[i := 0];
      TotalUpdate(before, i, 0);
    } else {
      assert after == before;
    }
  }

  lemma HoldingDeleted(sales: map<Id, SalesOrder>, items: map<Id, SalesItem>, i: Id, k: Key)
    requires i in items && items[i].order in sales
    ensures ItemsReserved(sales, items - {i}, k) == ItemsReserved(sales, items, k)
      - if k == Key(sales[items[i].order].warehouse, items[i].product) then items[i].reserved else 0
  {
    var before := Holds(sales, items, k);
    var after := Holds(sales, items - {i}, k);
    if i in before {
      assert after == before - {i};
      TotalRemove(before, i);
    } else {
      assert after == before;
    }
  }

  /** Only the warehouse of an order matters to the sums, and it never changes. */
  lemma HoldingsIgnoreStatus(a: map<Id, SalesOrder>, b: map<Id, SalesOrder>, items: map<Id, SalesItem>, k: Key)
    requires forall i :: i in items ==> items[i].order in a
    requires forall o :: o in a ==> o in b && a[o].warehouse == b[o].warehouse
    ensures ItemsReserved(a, items, k) == ItemsReserved(b, items, k)
  {
    assert Holds(a, items, k) == Holds(b, items, k);
  }

  lemma HoldAtMostTotal(db: Db, i: Id)
    requires Sound(db) && i in db.salesItems
    ensures db.salesItems[i].reserved <= ItemsReserved(db.sales, db.salesItems, ItemKey(db, db.salesItems[i]))
  {
    EntryAtMostTotal(Holds(db.sales, db.salesItems, ItemKey(db, db.salesItems[i])), i);
  }

  // ---------------------------------------------------------------- reserve

  /** A line's validation does not see changes to the items of other lines. */
  lemma {:induction false} CheckReserveFrame(a: map<Id, SalesItem>, b: map<Id, SalesItem>, o: Id, lines: seq<Line>)
    requires forall n :: 0 <= n < |lines| ==>
               (lines[n].item in a <==> lines[n].item in b)
                   && (lines[n].item in a ==> a[lines[n].item] == b[lines[n].item])
    ensures CheckReserve(a, o, lines) == CheckReserve(b, o, lines)
    ensures CheckFulfill(a, o, lines) == CheckFulfill(b, o, lines)
    decreases |lines|
  {
    if lines != [] {
      CheckReserveFrame(a, b, o, lines[1..]);
    }
  }

  lemma ReserveLineKeeps(db: Db, o: Id, line: Line)
    requires Sound(db) && o in db.sales && line.quantity > 0
    requires CheckReserve(db.salesItems, o, [line]).None?
    ensures ReserveLine(db, o, line).Committed? ==>
              Sound(ReserveLine(db, o, line).db) && SameLeak(db, ReserveLine(db, o, line).db)
  {
    var r := ReserveLine(db, o, line);
    if r.Committed? {
      var item := db.salesItems[line.item];
      forall k ensures Leak(db, k) == Leak(r.db, k) {
        HoldingUpdated(db.sales, db.salesItems, line.item, r.db.salesItems[line.item], k);
      }
    }
  }

  /** A request's lines are all still valid after the first one has been applied. */
  lemma RestStillValid(db: Db, o: Id, lines: seq<Line>)
    requires lines != [] && DistinctItems(lines) && AllPositive(lines)
    ensures DistinctItems(lines[1..]) && AllPositive(lines[1..])
    ensures forall n :: 0 <= n < |lines[1..]| ==> lines[1..][n].item != lines[0].item
  {
  }

  lemma {:induction false} ReserveLinesKeep(db: Db, o: Id, lines: seq<Line>)
    requires Sound(db) && o in db.sales && DistinctItems(lines) && AllPositive(lines)
    requires CheckReserve(db.salesItems, o, lines).None?
    ensures var r := ReserveLines(db, o, lines);
            r.Committed? ==> Sound(r.db) && SameLeak(db, r.db)
    decreases |lines|
  {
    if lines != [] && ReserveLine(db, o, lines[0]).Committed? {
      var next := ReserveLine(db, o, lines[0]).db;
      assert CheckReserve(db.salesItems, o, [lines[0]]).None?;
      ReserveLineKeeps(db, o, lines[0]);
      RestStillValid(db, o, lines);
      CheckReserveFrame(db.salesItems, next.salesItems, o, lines[1..]);
      ReserveLinesKeep(next, o, lines[1..]);
    }
  }

  /** `b` is `a` after every item gained exactly its requested quantity; nothing but reservations differs. */
  ghost predicate Reserved(a: Db, b: Db, lines: seq<Line>) {
    && b == a.(stock := b.stock, salesItems := b.salesItems)
    && b.salesItems.Keys == a.salesItems.Keys
    && b.stock.Keys == a.stock.Keys
    && (forall i :: i in a.salesItems ==>
          b.salesItems[i] == a.salesItems[i].(reserved := a.salesItems[i].reserved + LineQuantity(lines, i)))
    && (forall k :: k in a.stock ==> b.stock[k] == a.stock[k].(reserved := b.stock[k].reserved))
  }

  /** What a reservation does to the items. */
  lemma {:induction false} ReserveLinesEffect(db: Db, o: Id, lines: seq<Line>)
    requires o in db.sales
    ensures ReserveLines(db, o, lines).Committed? ==> Reserved(db, ReserveLines(db, o, lines).db, lines)
    decreases |lines|
  {
    if lines != [] && ReserveLine(db, o, lines[0]).Committed? {
      ReserveLinesEffect(ReserveLine(db, o, lines[0]).db, o, lines[1..]);
    }
  }

  /** Whether a validated reservation succeeds is decided by the rows as they were before its first line:
      the fresh reads of `ReserveLines` and one read up front agree, because no two lines share a row. */
  lemma {:induction false} ReserveDecidedUpFront(db: Db, o: Id, lines: seq<Line>)
    requires Sound(db) && o in db.sales && DistinctItems(lines) && AllPositive(lines)
    requires CheckReserve(db.salesItems, o, lines).None?
    ensures LinesBelong(db, o, lines)
    ensures ReserveLines(db, o, lines).Committed? <==>
              forall n :: 0 <= n < |lines| ==>
                  HasAvailable(db, ItemKey(db, db.salesItems[lines[n].item]), lines[n].quantity)
    ensures ReserveLines(db, o, lines).Rejected? ==> ReserveLines(db, o, lines).error == InsufficientStock
    decreases |lines|
  {
    if lines != [] {
      assert CheckReserve(db.salesItems, o, [lines[0]]).None?;
      ValidLinesBelong(db, o, lines);
      var r := ReserveLine(db, o, lines[0]);
      if r.Committed? {
        ReserveLineKeeps(db, o, lines[0]);
        RestStillValid(db, o, lines);
        CheckReserveFrame(db.salesItems, r.db.salesItems, o, lines[1..]);
        ReserveDecidedUpFront(r.db, o, lines[1..]);
        forall n | 0 < n < |lines|
          ensures HasAvailable(db, ItemKey(db, db.salesItems[lines[n].item]), lines[n].quantity)
             <==> HasAvailable(r.db, ItemKey(r.db, r.db.salesItems[lines[1..][n - 1].item]), lines[1..][n - 1].quantity)
        {
          assert lines[1..][n - 1] == lines[n];
          assert db.salesItems[lines[n].item].product != db.salesItems[lines[0].item].product;
        }
      }
    }
  }

  ghost predicate LinesBelong(db: Db, o: Id, lines: seq<Line>) {
    forall n :: 0 <= n < |lines| ==>
        lines[n].item in db.salesItems && db.salesItems[lines[n].item].order == o && o in db.sales
  }

  lemma {:induction false} ValidLinesBelong(db: Db, o: Id, lines: seq<Line>)
    requires o in db.sales
    requires CheckReserve(db.salesItems, o, lines).None? || CheckFulfill(db.salesItems, o, lines).None?
    ensures LinesBelong(db, o, lines)
    decreases |lines|
  {
    if lines != [] {
      ValidLinesBelong(db, o, lines[1..]);
      forall n | 0 <= n < |lines|
        ensures lines[n].item in db.salesItems && db.salesItems[lines[n].item].order == o
      {
        if n > 0 {
          assert lines[n] == lines[1..][n - 1];
        }
      }
    }
  }

  // ---------------------------------------------------------------- fulfill

  lemma FulfillLineKeeps(db: Db, o: Id, doc: Id, at: Time, line: Line)
    requires Sound(db) && o in db.sales && line.quantity > 0
    requires CheckFulfill(db.salesItems, o, [line]).None?
    ensures FulfillLine(db, o, doc, at, line).Committed? ==>
              Sound(FulfillLine(db, o, doc, at, line).db) && SameLeak(db, FulfillLine(db, o, doc, at, line).db)
  {
    var r := FulfillLine(db, o, doc, at, line);
    if r.Committed? {
      forall k ensures Leak(db, k) == Leak(r.db, k) {
        HoldingUpdated(db.sales, db.salesItems, line.item, r.db.salesItems[line.item], k);
      }
    }
  }

  lemma {:induction false} FulfillLinesKeep(db: Db, o: Id, doc: Id, at: Time, lines: seq<Line>)
    requires Sound(db) && o in db.sales && DistinctItems(lines) && AllPositive(lines)
    requires CheckFulfill(db.salesItems, o, lines).None?
    ensures var r := FulfillLines(db, o, doc, at, lines);
            r.Committed? ==> Sound(r.db) && SameLeak(db, r.db)
    decreases |lines|
  {
    if lines != [] && FulfillLine(db, o, doc, at, lines[0]).Committed? {
      var next := FulfillLine(db, o, doc, at, lines[0]).db;
      assert CheckFulfill(db.salesItems, o, [lines[0]]).None?;
      FulfillLineKeeps(db, o, doc, at, lines[0]);
      RestStillValid(db, o, lines);
      CheckReserveFrame(db.salesItems, next.salesItems, o, lines[1..]);
      FulfillLinesKeep(next, o, doc, at, lines[1..]);
    }
  }

  /** `b` is `a` after exactly the requested quantities moved from reserved to fulfilled. */
  ghost predicate Shipped(a: Db, b: Db, lines: seq<Line>) {
    && b == a.(stock := b.stock, salesItems := b.salesItems, fulfillmentLines := b.fulfillmentLines,
        movements := b.movements)
    && b.salesItems.Keys == a.salesItems.Keys
    && b.stock.Keys == a.stock.Keys
    && (forall i :: i in a.salesItems ==>
          b.salesItems[i] == a.salesItems[i].(
            reserved := a.salesItems[i].reserved - LineQuantity(lines, i),
            fulfilled := a.salesItems[i].fulfilled + LineQuantity(lines, i)))
  }

  /** What a fulfillment does to the items. */
  lemma {:induction false} FulfillLinesEffect(db: Db, o: Id, doc: Id, at: Time, lines: seq<Line>)
    requires o in db.sales
    ensures FulfillLines(db, o, doc, at, lines).Committed? ==>
              Shipped(db, FulfillLines(db, o, doc, at, lines).db, lines)
    decreases |lines|
  {
    if lines != [] && FulfillLine(db, o, doc, at, lines[0]).Committed? {
      FulfillLinesEffect(FulfillLine(db, o, doc, at, lines[0]).db, o, doc, at, lines[1..]);
    }
  }

  /** The two "reservation is missing / inconsistent" branches are dead, also in the middle of the loop. */
  lemma {:induction false} FulfillNeverInconsistent(db: Db, o: Id, doc: Id, at: Time, lines: seq<Line>)
    requires Sound(db) && o in db.sales && DistinctItems(lines) && AllPositive(lines)
    requires CheckFulfill(db.salesItems, o, lines).None?
    requires forall k :: Leak(db, k) >= 0
    ensures FulfillLines(db, o, doc, at, lines).Committed?
    decreases |lines|
  {
    if lines != [] {
      var line := lines[0];
      assert CheckFulfill(db.salesItems, o, [line]).None?;
      var k := ItemKey(db, db.salesItems[line.item]);
      HoldAtMostTotal(db, line.item);
      assert Leak(db, k) >= 0;
      var r := FulfillLine(db, o, doc, at, line);
      FulfillLineKeeps(db, o, doc, at, line);
      RestStillValid(db, o, lines);
      CheckReserveFrame(db.salesItems, r.db.salesItems, o, lines[1..]);
      FulfillNeverInconsistent(r.db, o, doc, at, lines[1..]);
    }
  }

  // ---------------------------------------------------------------- cancel

  /** The guards of cancel cannot fail either. */
  lemma CancelNeverInconsistent(db: Db, o: Id)
    requires Sound(db) && o in db.sales
    requires forall k :: Leak(db, k) >= 0
    ensures CanRelease(db, o)
  {
    forall i | i in db.salesItems && db.salesItems[i].order == o && db.salesItems[i].reserved != 0
      ensures var k := Key(db.sales[o].warehouse, db.salesItems[i].product);
              k in db.stock && db.salesItems[i].reserved <= db.stock[k].reserved
    {
      HoldAtMostTotal(db, i);
      assert Leak(db, ItemKey(db, db.salesItems[i])) >= 0;
    }
  }

  lemma ReleasedIsTheItem(db: Db, o: Id, i: Id)
    requires Schema(db) && i in db.salesItems && db.salesItems[i].order == o
    ensures ReleasedAt(db, o, Key(db.sales[o].warehouse, db.salesItems[i].product)) == db.salesItems[i].reserved
  {
  }

  /** One item at most holds stock of `o` at `k`; releasing zeroes exactly that entry of the sum. */
  lemma ReleasedEntry(db: Db, o: Id, k: Key, i: Id)
    requires Schema(db) && i in db.salesItems && db.salesItems[i].order == o
    requires k == ItemKey(db, db.salesItems[i])
    ensures Holds(db.sales, ReleaseAll(db, o).salesItems, k) == Holds(db.sales, db.salesItems, k)[i := 0]
  {
  }

  lemma ReleasedHoldings(db: Db, o: Id, k: Key)
    requires Schema(db) && o in db.sales
    ensures ItemsReserved(db.sales, ReleaseAll(db, o).salesItems, k)
         == ItemsReserved(db.sales, db.salesItems, k) - ReleasedAt(db, o, k)
  {
    var before := Holds(db.sales, db.salesItems, k);
    if i :| i in db.salesItems && db.salesItems[i].order == o && k == ItemKey(db, db.salesItems[i]) {
      ReleasedIsTheItem(db, o, i);
      ReleasedEntry(db, o, k, i);
      assert before[i] == db.salesItems[i].reserved;
      TotalUpdate(before, i, 0);
    } else {
      assert ReleasedAt(db, o, k) == 0;
      assert Holds(db.sales, ReleaseAll(db, o).salesItems, k) == before;
    }
  }

  /** Each row gives back no more than it holds. */
  lemma ReleasedInBounds(db: Db, o: Id, k: Key)
    requires Sound(db) && o in db.sales && CanRelease(db, o)
    ensures 0 <= ReleasedAt(db, o, k) <= ReservedAt(db.stock, k)
  {
    if i :| i in db.salesItems && db.salesItems[i].order == o && k == ItemKey(db, db.salesItems[i]) {
      ReleasedIsTheItem(db, o, i);
    } else {
      assert ReleasedAt(db, o, k) == 0;
    }
  }

  lemma ReleaseAllSound(db: Db, o: Id)
    requires Sound(db) && o in db.sales && CanRelease(db, o)
    ensures Sound(ReleaseAll(db, o))
  {
    var next := ReleaseAll(db, o);
    forall k | k in next.stock ensures 0 <= next.stock[k].reserved <= next.stock[k].quantity < COLUMN_LIMIT {
      ReleasedInBounds(db, o, k);
    }
  }

  lemma ReleaseAllKeepsLeak(db: Db, o: Id, k: Key)
    requires Sound(db) && o in db.sales && CanRelease(db, o)
    ensures Leak(ReleaseAll(db, o), k) == Leak(db, k)
  {
    ReleasedInBounds(db, o, k);
    ReleasedHoldings(db, o, k);
  }
}
