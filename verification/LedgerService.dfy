/** The services over a mutable database: statement by statement, loop by loop, with rollback. */
module LedgerService {
  import opened Ledger
  import opened ReservationProofs
  import opened StepSoundness
  import opened OrderStatus
  import opened OrderLog
  import Steps = LedgerSteps

  /** The caller sees the outcome that the transition function prescribes, and so does everybody else. */
  predicate Answers(before: Db, r: Outcome, after: Db, error: Option<Error>) {
    after == After(before, r) && error == if r.Rejected? then Some(r.error) else None
  }

  ghost function ItemSet(lines: seq<Line>): set<Id> {
    set n | 0 <= n < |lines| :: lines[n].item
  }

  /** A set of ids is as large as the list it was made from exactly when nothing repeats. */
  lemma {:induction false} SetSizeTest(lines: seq<Line>)
    ensures |ItemSet(lines)| <= |lines|
    ensures |ItemSet(lines)| == |lines| <==> DistinctItems(lines)
    decreases |lines|
  {
    if lines != [] {
      var init, last := lines[..|lines| - 1], lines[|lines| - 1];
      SetSizeTest(init);
      OneMoreItem(lines);
      if last.item in ItemSet(init) {
        assert ItemSet(lines) == ItemSet(init);
      }
    }
  }

  lemma OneMoreItem(lines: seq<Line>)
    requires lines != []
    ensures var init, last := lines[..|lines| - 1], lines[|lines| - 1];
            && ItemSet(lines) == ItemSet(init) + {last.item}
            && (DistinctItems(lines) <==> DistinctItems(init) && last.item !in ItemSet(init))
  {
    var init, last := lines[..|lines| - 1], lines[|lines| - 1];
    assert forall n :: 0 <= n < |init| ==> lines[n] == init[n];
    if last.item in ItemSet(init) {
      var n :| 0 <= n < |init| && init[n].item == last.item;
      assert lines[n].item == lines[|lines| - 1].item;
    } else {
      assert forall n :: 0 <= n < |init| ==> init[n].item in ItemSet(init);
    }
  }

  /** The Set-size test and the positive-quantity parse that precede reserve, fulfill and receive. */
  method CheckRequest(lines: seq<Line>) returns (error: Option<Error>)
    ensures error == Steps.CheckRequest(lines)
  {
    var ids: set<Id> := {};
    for n := 0 to |lines|
      invariant ids == ItemSet(lines[..n])
    {
      assert lines[..n + 1] == lines[..n] + [lines[n]];
      ids := ids + {lines[n].item};
    }
    assert lines[..|lines|] == lines;
    SetSizeTest(lines);
    if |ids| != |lines| {
      return Some(DuplicateLine);
    }
    for n := 0 to |lines|
      invariant forall j :: 0 <= j < n ==> lines[j].quantity > 0
    {
      if lines[n].quantity <= 0 {
        return Some(NotPositive);
      }
    }
    return None;
  }

  /** Item `i` and its stock row are as they were when the loop read them. */
  ghost predicate Unread(before: Db, now: Db, o: Id, i: Id)
    requires o in before.sales
  {
    && i in before.salesItems && i in now.salesItems && now.salesItems[i] == before.salesItems[i]
    && var k := Key(before.sales[o].warehouse, before.salesItems[i].product);
       (k in now.stock <==> k in before.stock) && (k in before.stock ==> now.stock[k] == before.stock[k])
  }

  /** Lines name distinct items, and an order lists a product once: one line leaves what the others read alone. */
  lemma OtherLinesUnread(before: Db, now: Db, next: Db, o: Id, lines: seq<Line>, n: nat)
    requires Schema(before) && LinesBelong(before, o, lines) && DistinctItems(lines) && n < |lines|
    requires now.sales == before.sales && o in before.sales
    requires forall m :: n <= m < |lines| ==> Unread(before, now, o, lines[m].item)
    requires Steps.ReserveLine(now, o, lines[n]) == Committed(next)
    ensures forall m :: n < m < |lines| ==> Unread(before, next, o, lines[m].item)
  {
    forall m | n < m < |lines| ensures Unread(before, next, o, lines[m].item) {
      assert Unread(before, now, o, lines[m].item) && Unread(before, now, o, lines[n].item);
      assert before.salesItems[lines[m].item].product != before.salesItems[lines[n].item].product;
    }
  }

  /** `next` is `now` after item `i` of `o` has given its reservation back. */
  ghost predicate ReleasedOne(now: Db, next: Db, o: Id, i: Id) {
    && Schema(now) && i in now.salesItems && now.salesItems[i].order == o
    && var k := ItemKey(now, now.salesItems[i]);
       && k in now.stock && now.salesItems[i].reserved <= now.stock[k].reserved
       && next == now.(
            stock := now.stock[k := now.stock[k].(reserved := now.stock[k].reserved - now.salesItems[i].reserved)],
            salesItems := now.salesItems[i := now.salesItems[i].(reserved := 0)])
  }

  lemma ReleaseOneAmount(now: Db, next: Db, o: Id, i: Id, k: Key)
    requires ReleasedOne(now, next, o, i) && Schema(next)
    ensures Steps.ReleasedAt(next, o, k)
         == if k == ItemKey(now, now.salesItems[i]) then 0 else Steps.ReleasedAt(now, o, k)
  {
    if j :| j in now.salesItems && now.salesItems[j].order == o && ItemKey(now, now.salesItems[j]) == k {
      ReleasedIsTheItem(now, o, j);
      ReleasedIsTheItem(next, o, j);
      assert (j == i) <==> k == ItemKey(now, now.salesItems[i]);
    } else {
      assert Steps.ReleasedAt(now, o, k) == 0;
    }
  }

  lemma ReleaseOneStock(now: Db, next: Db, o: Id, i: Id)
    requires ReleasedOne(now, next, o, i) && Schema(next)
    ensures Steps.ReleasedStock(next, o) == Steps.ReleasedStock(now, o)
  {
    var a, b := Steps.ReleasedStock(next, o), Steps.ReleasedStock(now, o);
    assert a.Keys == next.stock.Keys == now.stock.Keys == b.Keys;
    forall k | k in a ensures a[k] == b[k] {
      ReleaseOneAt(now, next, o, i, k);
    }
  }

  lemma ReleaseOneAt(now: Db, next: Db, o: Id, i: Id, k: Key)
    requires ReleasedOne(now, next, o, i) && Schema(next) && k in now.stock
    ensures k in next.stock && Steps.ReleasedStock(next, o)[k] == Steps.ReleasedStock(now, o)[k]
  {
    ReleaseOneAmount(now, next, o, i, k);
    ReleasedIsTheItem(now, o, i);
  }

  lemma ReleaseOneSchema(now: Db, next: Db, o: Id, i: Id)
    requires ReleasedOne(now, next, o, i)
    ensures Schema(next)
  {
  }

  /** Releasing one item first changes neither whether nor what the whole release gives. */
  lemma ReleaseOne(now: Db, next: Db, o: Id, i: Id)
    requires ReleasedOne(now, next, o, i)
    ensures Schema(next)
    ensures Steps.CanRelease(next, o) <==> Steps.CanRelease(now, o)
    ensures Steps.ReleaseAll(next, o) == Steps.ReleaseAll(now, o)
  {
    ReleaseOneSchema(now, next, o, i);
    ReleaseOneStillPossible(now, next, o, i);
    ReleaseOneStock(now, next, o, i);
    assert Steps.ReleaseAll(next, o).salesItems == Steps.ReleaseAll(now, o).salesItems;
  }

  lemma ReleaseOneStillPossible(now: Db, next: Db, o: Id, i: Id)
    requires ReleasedOne(now, next, o, i)
    ensures Steps.CanRelease(next, o) <==> Steps.CanRelease(now, o)
  {
    var k := ItemKey(now, now.salesItems[i]);
    forall j | j in now.salesItems && now.salesItems[j].order == o && j != i
      ensures ItemKey(now, now.salesItems[j]) != k && next.salesItems[j] == now.salesItems[j]
    {
    }
  }

  /** Where the release loop stands: `pending` is untouched, the rest of the order is released. */
  ghost predicate Releasing(before: Db, now: Db, o: Id, pending: set<Id>) {
    && o in before.sales && now.sales == before.sales && Schema(now)
    && now.salesItems.Keys == before.salesItems.Keys
    && (forall i :: i in pending ==>
          i in before.salesItems && before.salesItems[i].order == o && now.salesItems[i] == before.salesItems[i])
    && (forall i :: i in now.salesItems && now.salesItems[i].order == o && i !in pending ==>
        now.salesItems[i].reserved == 0)
    && (Steps.CanRelease(now, o) <==> Steps.CanRelease(before, o))
    && Steps.ReleaseAll(now, o) == Steps.ReleaseAll(before, o)
  }

  lemma ReleasingOn(before: Db, now: Db, next: Db, o: Id, pending: set<Id>, i: Id)
    requires Releasing(before, now, o, pending) && i in pending
    requires (next == now && now.salesItems[i].reserved == 0) || ReleasedOne(now, next, o, i)
    ensures Releasing(before, next, o, pending - {i})
  {
    if ReleasedOne(now, next, o, i) {
      ReleaseOne(now, next, o, i);
    }
  }

  lemma NothingToRelease(db: Db, o: Id)
    requires o in db.sales && forall i :: i in db.salesItems && db.salesItems[i].order == o ==>
               db.salesItems[i].reserved == 0
    ensures Steps.CanRelease(db, o) && Steps.ReleaseAll(db, o) == db
  {
  }

  /** The connection every service holds; `tables` is what its statements read and write. */
  class Database {
    var tables: Db

    constructor ()
      ensures tables == EMPTY
    {
      tables := EMPTY;
    }

    /** A manual stock operation ends with its movement and its audit row. */
    method LogMove(m: Movement, action: Action, entity: Id)
      modifies this
      ensures tables == old(tables).(
                movements := old(tables).movements + [m], audits := old(tables).audits + [Audit(action, entity)])
    {
      WriteMovement(m);
      WriteAudit(action, entity);
    }

    /** Appends one audit row. */
    method WriteAudit(action: Action, entity: Id)
      modifies this
      ensures tables == old(tables).(audits := old(tables).audits + [Audit(action, entity)])
    {
      tables := tables.(audits := tables.audits + [Audit(action, entity)]);
    }

    /** Appends one outbox row. */
    method WriteEvent(e: OrderEvent)
      modifies this
      ensures tables == old(tables).(events := old(tables).events + [e])
    {
      tables := tables.(events := tables.events + [e]);
    }

    /** The three writes that end every sales transition: the order row, an audit row and an outbox row. */
    method FinishSales(o: Id, status: SalesStatus, fulfilledAt: Option<Time>, action: Action)
      requires o in tables.sales
      modifies this
      ensures tables == Steps.SetSales(old(tables), o, status, fulfilledAt, action)
    {
      tables := tables.(sales := tables.sales[o := tables.sales[o].(status := status, fulfilledAt := fulfilledAt)]);
      WriteAudit(action, o);
      WriteEvent(SalesEvent(action, o, status));
    }

    /** The same for a purchase transition. */
    method FinishPurchase(o: Id, status: PurchaseStatus, receivedAt: Option<Time>, action: Action)
      requires o in tables.purchases
      modifies this
      ensures tables == Steps.SetPurchase(old(tables), o, status, receivedAt, action)
    {
      var row := tables.purchases[o].(status := status, receivedAt := receivedAt);
      tables := tables.(purchases := tables.purchases[o := row]);
      WriteAudit(action, o);
      WriteEvent(PurchaseEvent(action, o, status));
    }

    /** Moves the reserved and fulfilled quantities of one item. */
    method UpdateSalesItem(i: Id, reserved: int, fulfilled: int)
      requires i in tables.salesItems
      modifies this
      ensures var item := old(tables).salesItems[i];
              tables == old(tables).(salesItems := old(tables).salesItems[i :=
                item.(reserved := item.reserved + reserved, fulfilled := item.fulfilled + fulfilled)])
    {
      var item := tables.salesItems[i];
      tables := tables.(salesItems := tables.salesItems[i :=
        item.(reserved := item.reserved + reserved, fulfilled := item.fulfilled + fulfilled)]);
    }

    /** Appends one stock movement. */
    method WriteMovement(m: Movement)
      modifies this
      ensures tables == old(tables).(movements := old(tables).movements + [m])
    {
      tables := tables.(movements := tables.movements + [m]);
    }

    /** update with a decrement or increment of the two quantities of an existing row. */
    method UpdateStock(k: Key, quantity: int, reserved: int)
      requires k in tables.stock
      modifies this
      ensures var row := old(tables).stock[k];
              tables == old(tables).(stock := old(tables).stock[k :=
                row.(quantity := row.quantity + quantity, reserved := row.reserved + reserved)])
    {
      var row := tables.stock[k];
      tables := tables.(stock := tables.stock[k :=
        row.(quantity := row.quantity + quantity, reserved := row.reserved + reserved)]);
    }

    /** upsert with an increment: creates the row, adds to it, or fails on overflow. */
    method UpsertStock(k: Key, amount: int) returns (overflow: bool)
      modifies this
      ensures overflow <==> QuantityAt(old(tables).stock, k) + amount >= COLUMN_LIMIT
      ensures overflow ==> tables == old(tables)
      ensures !overflow ==>
                var row := if k in old(tables).stock then old(tables).stock[k] else Stock(0, 0, 0);
                tables == old(tables).(stock := old(tables).stock[k := row.(quantity := row.quantity + amount)])
    {
      if k in tables.stock {
        if tables.stock[k].quantity + amount >= COLUMN_LIMIT {
          return true;
        }
        UpdateStock(k, amount, 0);
      } else {
        if amount >= COLUMN_LIMIT {
          return true;
        }
        tables := tables.(stock := tables.stock[k := Stock(amount, 0, 0)]);
      }
      return false;
    }

    // -------------------------------------------------------------- inventory.service.ts

    method ReceiveStock(k: Key, quantity: int, op: Id, at: Time) returns (error: Option<Error>)
      modifies this
      ensures Answers(old(tables), Steps.ReceiveStock(old(tables), k, quantity, op, at), tables, error)
    {
      if quantity <= 0 {
        return Some(NotPositive);
      }
      if !Active(tables.warehouses, k.warehouse) || !Active(tables.products, k.product) {
        return Some(NotFound);
      }
      var overflow := UpsertStock(k, quantity);
      if overflow {
        return Some(ColumnOverflow);
      }
      LogMove(Movement(k, Receipt, ByHand, quantity, at), InventoryReceived, op);
      return None;
    }

    /** Takes `amount` off a row, unless that would touch what is reserved. */
    method TakeAvailable(k: Key, amount: int) returns (short: bool)
      requires amount >= 0
      modifies this
      ensures short <==> !Steps.HasAvailable(old(tables), k, amount)
      ensures short ==> tables == old(tables)
      ensures !short ==>
                var row := old(tables).stock[k];
                tables == old(tables).(stock := old(tables).stock[k := row.(quantity := row.quantity - amount)])
    {
      if k !in tables.stock {
        return true;
      }
      var available := tables.stock[k].quantity - tables.stock[k].reserved;
      if available < amount {
        return true;
      }
      UpdateStock(k, -amount, 0);
      return false;
    }

    method IssueStock(k: Key, quantity: int, op: Id, at: Time) returns (error: Option<Error>)
      requires RowsOk(tables.stock)
      modifies this
      ensures Answers(old(tables), Steps.IssueStock(old(tables), k, quantity, op, at), tables, error)
    {
      if quantity <= 0 {
        return Some(NotPositive);
      }
      if !Active(tables.warehouses, k.warehouse) || !Active(tables.products, k.product) {
        return Some(NotFound);
      }
      var short := TakeAvailable(k, quantity);
      if short {
        return Some(InsufficientStock);
      }
      LogMove(Movement(k, Issue, ByHand, -quantity, at), InventoryIssued, op);
      return None;
    }

    method AdjustStock(k: Key, delta: int, op: Id, at: Time) returns (error: Option<Error>)
      requires RowsOk(tables.stock)
      modifies this
      ensures Answers(old(tables), Steps.AdjustStock(old(tables), k, delta, op, at), tables, error)
    {
      if delta == 0 {
        return Some(ZeroDelta);
      }
      if !Active(tables.warehouses, k.warehouse) || !Active(tables.products, k.product) {
        return Some(NotFound);
      }
      if delta > 0 {
        var overflow := UpsertStock(k, delta);
        if overflow {
          return Some(ColumnOverflow);
        }
      } else {
        var short := TakeAvailable(k, -delta);
        if short {
          return Some(InsufficientStock);
        }
      }
      LogMove(Movement(k, Adjustment, ByHand, delta, at), InventoryAdjusted, op);
      return None;
    }

    /** An overflow at the destination undoes the decrement at the source. */
    method TransferStock(from: Id, to: Id, product: Id, quantity: int, op: Id, at: Time) returns (error: Option<Error>)
      requires RowsOk(tables.stock)
      modifies this
      ensures Answers(old(tables), Steps.TransferStock(old(tables), from, to, product, quantity, op, at), tables, error)
    {
      if from == to {
        return Some(SameWarehouse);
      }
      if quantity <= 0 {
        return Some(NotPositive);
      }
      var before := tables;
      if !Active(tables.warehouses, from) || !Active(tables.warehouses, to) || !Active(tables.products, product) {
        return Some(NotFound);
      }
      var source := Key(from, product);
      var short := TakeAvailable(source, quantity);
      if short {
        return Some(InsufficientStock);
      }
      var overflow := UpsertStock(Key(to, product), quantity);
      if overflow {
        tables := before;
        return Some(ColumnOverflow);
      }
      WriteMovement(Movement(source, TransferOut, ByHand, -quantity, at));
      WriteMovement(Movement(Key(to, product), TransferIn, ByHand, quantity, at));
      WriteAudit(InventoryTransferred, op);
      return None;
    }

    // -------------------------------------------------------------- sales-orders.service.ts

    method AddSalesItem(o: Id, i: Id, product: Id, ordered: int) returns (error: Option<Error>)
      modifies this
      ensures Answers(old(tables), Steps.AddSalesItem(old(tables), o, i, product, ordered), tables, error)
    {
      if o !in tables.sales {
        return Some(NotFound);
      }
      if tables.sales[o].status != SoDraft {
        return Some(WrongStatus);
      }
      if !Active(tables.products, product) {
        return Some(NotFound);
      }
      if ordered <= 0 {
        return Some(NotPositive);
      }
      if ordered >= COLUMN_LIMIT {
        return Some(ColumnOverflow);
      }
      if i in tables.salesItems {
        return Some(DuplicateId);
      }
      if exists j ::
           j in tables.salesItems && tables.salesItems[j].order == o && tables.salesItems[j].product == product {
        return Some(ProductAlreadyOnOrder);
      }
      tables := tables.(salesItems := tables.salesItems[i := SalesItem(o, product, ordered, 0, 0)]);
      return None;
    }

    method RemoveSalesItem(o: Id, i: Id) returns (error: Option<Error>)
      modifies this
      ensures Answers(old(tables), Steps.RemoveSalesItem(old(tables), o, i), tables, error)
    {
      if o !in tables.sales {
        return Some(NotFound);
      }
      if tables.sales[o].status != SoDraft {
        return Some(WrongStatus);
      }
      if i !in tables.salesItems || tables.salesItems[i].order != o {
        return Some(NotFound);
      }
      if exists n :: 0 <= n < |tables.fulfillmentLines| && tables.fulfillmentLines[n].item == i {
        return Some(ForeignKey);
      }
      tables := tables.(salesItems := tables.salesItems - {i});
      return None;
    }

    method ConfirmSales(o: Id) returns (error: Option<Error>)
      modifies this
      ensures Answers(old(tables), Steps.ConfirmSales(old(tables), o), tables, error)
    {
      if o !in tables.sales {
        return Some(NotFound);
      }
      if tables.sales[o].status != SoDraft {
        return Some(WrongStatus);
      }
      var items := set i | i in tables.salesItems && tables.salesItems[i].order == o;
      if |items| == 0 {
        assert forall i :: i in tables.salesItems ==> i !in items;
        return Some(NoItems);
      }
      if !Active(tables.customers, tables.sales[o].customer) {
        return Some(PartnerInactive);
      }
      if !Active(tables.warehouses, tables.sales[o].warehouse) {
        return Some(WarehouseInactive);
      }
      assert exists i :: i in items;
      FinishSales(o, SoConfirmed, tables.sales[o].fulfilledAt, SalesConfirmed);
      return None;
    }

    /** The validation loop of reserve: the first offending line decides. */
    method ValidateReserve(o: Id, lines: seq<Line>) returns (error: Option<Error>)
      ensures error == Steps.CheckReserve(tables.salesItems, o, lines)
    {
      for n := 0 to |lines|
        invariant Steps.CheckReserve(tables.salesItems, o, lines)
                  == Steps.CheckReserve(tables.salesItems, o, lines[n..])
      {
        var line := lines[n];
        assert lines[n..][1..] == lines[n + 1..];
        if line.item !in tables.salesItems || tables.salesItems[line.item].order != o {
          return Some(ForeignItem);
        }
        var item := tables.salesItems[line.item];
        if line.quantity > item.ordered - item.fulfilled - item.reserved {
          return Some(ExceedsRemaining);
        }
      }
      return None;
    }

    method ValidateFulfill(o: Id, lines: seq<Line>) returns (error: Option<Error>)
      ensures error == Steps.CheckFulfill(tables.salesItems, o, lines)
    {
      for n := 0 to |lines|
        invariant Steps.CheckFulfill(tables.salesItems, o, lines)
                  == Steps.CheckFulfill(tables.salesItems, o, lines[n..])
      {
        var line := lines[n];
        assert lines[n..][1..] == lines[n + 1..];
        if line.item !in tables.salesItems || tables.salesItems[line.item].order != o {
          return Some(ForeignItem);
        }
        if line.quantity > tables.salesItems[line.item].reserved {
          return Some(ExceedsReserved);
        }
      }
      return None;
    }

    /** The two increments of one reserved line. */
    method HoldLine(o: Id, k: Key, line: Line)
      requires o in tables.sales && line.item in tables.salesItems && tables.salesItems[line.item].order == o
      requires k == ItemKey(tables, tables.salesItems[line.item]) && Steps.HasAvailable(tables, k, line.quantity)
      modifies this
      ensures Steps.ReserveLine(old(tables), o, line) == Committed(tables)
    {
      UpdateStock(k, 0, line.quantity);
      UpdateSalesItem(line.item, line.quantity, 0);
    }

    /** The reservation loop. It compares every line with rows read once, before the loop; the transition function
        reads each row afresh. They agree because lines name distinct items and an order lists a product once. */
    method ReserveLines(o: Id, lines: seq<Line>) returns (error: Option<Error>)
      requires Schema(tables) && o in tables.sales && DistinctItems(lines) && LinesBelong(tables, o, lines)
      modifies this
      ensures match Steps.ReserveLines(old(tables), o, lines)
              case Rejected(e) => error == Some(e)
              case Committed(db) => error == None && tables == db
    {
      var warehouse, items, read := tables.sales[o].warehouse, tables.salesItems, tables.stock;
      ghost var before := tables;
      for n := 0 to |lines|
        invariant tables.sales == before.sales
        invariant Steps.ReserveLines(before, o, lines) == Steps.ReserveLines(tables, o, lines[n..])
        invariant forall m :: n <= m < |lines| ==> Unread(before, tables, o, lines[m].item)
      {
        var line := lines[n];
        var item := items[line.item];
        var k := Key(warehouse, item.product);
        assert lines[n..][0] == line && lines[n..][1..] == lines[n + 1..];
        assert Unread(before, tables, o, line.item);
        if k !in read {
          return Some(InsufficientStock);
        }
        var available := read[k].quantity - read[k].reserved;
        if available < line.quantity {
          return Some(InsufficientStock);
        }
        ghost var now := tables;
        HoldLine(o, k, line);
        OtherLinesUnread(before, now, tables, o, lines, n);
      }
      assert lines[|lines|..] == [];
      return None;
    }

    method ReserveSales(o: Id, lines: seq<Line>) returns (error: Option<Error>)
      requires Schema(tables)
      modifies this
      ensures Answers(old(tables), Steps.ReserveSales(old(tables), o, lines), tables, error)
    {
      error := CheckRequest(lines);
      if error.Some? {
        return;
      }
      var before := tables;
      if o !in tables.sales {
        return Some(NotFound);
      }
      if tables.sales[o].status !in {SoConfirmed, SoPartiallyReserved, SoReserved, SoPartiallyFulfilled} {
        return Some(WrongStatus);
      }
      if !Active(tables.warehouses, tables.sales[o].warehouse) {
        return Some(WarehouseInactive);
      }
      error := ValidateReserve(o, lines);
      if error.Some? {
        return;
      }
      ValidLinesBelong(before, o, lines);
      error := ReserveLines(o, lines);
      if error.Some? {
        tables := before;
        return;
      }
      var status := Steps.ReservationStatus(tables.salesItems, o);
      FinishSales(o, status, tables.sales[o].fulfilledAt, SalesReserved);
    }

    /** One shipped line, with the two defensive branches. */
    method FulfillLine(o: Id, doc: Id, at: Time, k: Key, line: Line) returns (error: Option<Error>)
      requires o in tables.sales && line.item in tables.salesItems && tables.salesItems[line.item].order == o
      requires k == ItemKey(tables, tables.salesItems[line.item])
      modifies this
      ensures match Steps.FulfillLine(old(tables), o, doc, at, line)
              case Rejected(e) => error == Some(e)
              case Committed(db) => error == None && tables == db
    {
      if k !in tables.stock {
        return Some(ReservationMissing);
      }
      if tables.stock[k].reserved < line.quantity || tables.stock[k].quantity < line.quantity {
        return Some(ReservationInconsistent);
      }
      UpdateStock(k, -line.quantity, -line.quantity);
      UpdateSalesItem(line.item, -line.quantity, line.quantity);
      tables := tables.(fulfillmentLines := tables.fulfillmentLines + [DocumentLine(doc, line.item, line.quantity)]);
      WriteMovement(Movement(k, Issue, BySale(doc), -line.quantity, at));
      return None;
    }

    /** The fulfillment loop reads each row as it is when its line comes up. */
    method FulfillLines(o: Id, doc: Id, at: Time, lines: seq<Line>) returns (error: Option<Error>)
      requires o in tables.sales && LinesBelong(tables, o, lines)
      modifies this
      ensures match Steps.FulfillLines(old(tables), o, doc, at, lines)
              case Rejected(e) => error == Some(e)
              case Committed(db) => error == None && tables == db
    {
      var warehouse, items := tables.sales[o].warehouse, tables.salesItems;
      ghost var before := tables;
      for n := 0 to |lines|
        invariant tables.sales == before.sales && tables.salesItems.Keys == items.Keys
        invariant forall i :: i in items ==>
                    tables.salesItems[i].order == items[i].order && tables.salesItems[i].product == items[i].product
        invariant Steps.FulfillLines(before, o, doc, at, lines) == Steps.FulfillLines(tables, o, doc, at, lines[n..])
      {
        assert lines[n..][0] == lines[n] && lines[n..][1..] == lines[n + 1..];
        error := FulfillLine(o, doc, at, Key(warehouse, items[lines[n].item].product), lines[n]);
        if error.Some? {
          return;
        }
      }
      return None;
    }

    method FulfillSales(o: Id, doc: Id, at: Time, lines: seq<Line>) returns (error: Option<Error>)
      modifies this
      ensures Answers(old(tables), Steps.FulfillSales(old(tables), o, doc, at, lines), tables, error)
    {
      error := CheckRequest(lines);
      if error.Some? {
        return;
      }
      var before := tables;
      if o !in tables.sales {
        return Some(NotFound);
      }
      if tables.sales[o].status !in {SoPartiallyReserved, SoReserved, SoPartiallyFulfilled} {
        return Some(WrongStatus);
      }
      if !Active(tables.warehouses, tables.sales[o].warehouse) {
        return Some(WarehouseInactive);
      }
      error := ValidateFulfill(o, lines);
      if error.Some? {
        return;
      }
      ValidLinesBelong(before, o, lines);
      error := FulfillLines(o, doc, at, lines);
      if error.Some? {
        tables := before;
        return;
      }
      if Steps.FullyFulfilled(tables.salesItems, o) {
        FinishSales(o, SoFulfilled, Some(at), SalesFulfilled);
      } else {
        FinishSales(o, SoPartiallyFulfilled, None, SalesFulfilled);
      }
    }

    /** The two decrements of one released item. */
    method GiveBack(o: Id, i: Id, k: Key)
      requires Schema(tables) && i in tables.salesItems && tables.salesItems[i].order == o
      requires k == ItemKey(tables, tables.salesItems[i]) && k in tables.stock
      requires tables.salesItems[i].reserved <= tables.stock[k].reserved
      modifies this
      ensures ReleasedOne(old(tables), tables, o, i)
    {
      var reserved := tables.salesItems[i].reserved;
      UpdateStock(k, 0, -reserved);
      UpdateSalesItem(i, -reserved, 0);
    }

    /** One round of the release loop. */
    method ReleaseItem(o: Id, i: Id, ghost before: Db, ghost pending: set<Id>) returns (ok: bool)
      requires Releasing(before, tables, o, pending) && i in pending
      modifies this
      ensures !ok ==> !Steps.CanRelease(before, o)
      ensures ok ==> Releasing(before, tables, o, pending - {i})
    {
      ghost var now := tables;
      var item := tables.salesItems[i];
      if item.reserved != 0 {
        var k := Key(tables.sales[o].warehouse, item.product);
        if k !in tables.stock || tables.stock[k].reserved < item.reserved {
          assert !Steps.CanRelease(tables, o);
          return false;
        }
        GiveBack(o, i, k);
      }
      ReleasingOn(before, now, tables, o, pending, i);
      return true;
    }

    /** The release loop, in whatever order the items come. */
    method ReleaseItems(o: Id) returns (ok: bool)
      requires Schema(tables) && o in tables.sales
      modifies this
      ensures ok <==> Steps.CanRelease(old(tables), o)
      ensures ok ==> tables == Steps.ReleaseAll(old(tables), o)
    {
      var pending := set i | i in tables.salesItems && tables.salesItems[i].order == o;
      ghost var before := tables;
      while pending != {}
        invariant Releasing(before, tables, o, pending)
        decreases |pending|
      {
        var i :| i in pending;
        ok := ReleaseItem(o, i, before, pending);
        if !ok {
          return;
        }
        pending := pending - {i};
      }
      NothingToRelease(tables, o);
      return true;
    }

    method CancelSales(o: Id) returns (error: Option<Error>)
      requires Schema(tables)
      modifies this
      ensures Answers(old(tables), Steps.CancelSales(old(tables), o), tables, error)
    {
      var before := tables;
      if o !in tables.sales {
        return Some(NotFound);
      }
      if tables.sales[o].status !in {SoDraft, SoConfirmed, SoPartiallyReserved, SoReserved} {
        return Some(WrongStatus);
      }
      var ok := ReleaseItems(o);
      if !ok {
        tables := before;
        return Some(ReservationInconsistent);
      }
      FinishSales(o, SoCancelled, tables.sales[o].fulfilledAt, SalesCancelled);
      return None;
    }

    // -------------------------------------------------------------- purchase-orders.service.ts

    method AddPurchaseItem(o: Id, i: Id, product: Id, ordered: int) returns (error: Option<Error>)
      modifies this
      ensures Answers(old(tables), Steps.AddPurchaseItem(old(tables), o, i, product, ordered), tables, error)
    {
      if o !in tables.purchases {
        return Some(NotFound);
      }
      if tables.purchases[o].status != PoDraft {
        return Some(WrongStatus);
      }
      if !Active(tables.products, product) {
        return Some(NotFound);
      }
      if ordered <= 0 {
        return Some(NotPositive);
      }
      if ordered >= COLUMN_LIMIT {
        return Some(ColumnOverflow);
      }
      if i in tables.purchaseItems {
        return Some(DuplicateId);
      }
      if exists j ::
           && j in tables.purchaseItems
           && tables.purchaseItems[j].order == o && tables.purchaseItems[j].product == product {
        return Some(ProductAlreadyOnOrder);
      }
      tables := tables.(purchaseItems := tables.purchaseItems[i := PurchaseItem(o, product, ordered, 0)]);
      return None;
    }

    method RemovePurchaseItem(o: Id, i: Id) returns (error: Option<Error>)
      modifies this
      ensures Answers(old(tables), Steps.RemovePurchaseItem(old(tables), o, i), tables, error)
    {
      if o !in tables.purchases {
        return Some(NotFound);
      }
      if tables.purchases[o].status != PoDraft {
        return Some(WrongStatus);
      }
      if i !in tables.purchaseItems || tables.purchaseItems[i].order != o {
        return Some(NotFound);
      }
      if exists n :: 0 <= n < |tables.receiptLines| && tables.receiptLines[n].item == i {
        return Some(ForeignKey);
      }
      tables := tables.(purchaseItems := tables.purchaseItems - {i});
      return None;
    }

    method SubmitPurchase(o: Id) returns (error: Option<Error>)
      modifies this
      ensures Answers(old(tables), Steps.SubmitPurchase(old(tables), o), tables, error)
    {
      if o !in tables.purchases {
        return Some(NotFound);
      }
      if tables.purchases[o].status != PoDraft {
        return Some(WrongStatus);
      }
      var items := set i | i in tables.purchaseItems && tables.purchaseItems[i].order == o;
      if |items| == 0 {
        assert forall i :: i in tables.purchaseItems ==> i !in items;
        return Some(NoItems);
      }
      assert exists i :: i in items;
      if !Active(tables.suppliers, tables.purchases[o].supplier) {
        return Some(PartnerInactive);
      }
      if !Active(tables.warehouses, tables.purchases[o].warehouse) {
        return Some(WarehouseInactive);
      }
      FinishPurchase(o, PoSubmitted, tables.purchases[o].receivedAt, PurchaseSubmitted);
      return None;
    }

    method CancelPurchase(o: Id) returns (error: Option<Error>)
      modifies this
      ensures Answers(old(tables), Steps.CancelPurchase(old(tables), o), tables, error)
    {
      if o !in tables.purchases {
        return Some(NotFound);
      }
      if tables.purchases[o].status != PoDraft && tables.purchases[o].status != PoSubmitted {
        return Some(WrongStatus);
      }
      FinishPurchase(o, PoCancelled, tables.purchases[o].receivedAt, PurchaseCancelled);
      return None;
    }

    method ValidateReceive(o: Id, lines: seq<Line>) returns (error: Option<Error>)
      ensures error == Steps.CheckReceive(tables.purchaseItems, o, lines)
    {
      for n := 0 to |lines|
        invariant Steps.CheckReceive(tables.purchaseItems, o, lines)
                  == Steps.CheckReceive(tables.purchaseItems, o, lines[n..])
      {
        var line := lines[n];
        assert lines[n..][1..] == lines[n + 1..];
        if line.item !in tables.purchaseItems || tables.purchaseItems[line.item].order != o {
          return Some(ForeignItem);
        }
        if line.quantity > tables.purchaseItems[line.item].ordered - tables.purchaseItems[line.item].received {
          return Some(ExceedsRemaining);
        }
      }
      return None;
    }

    /** One received line: the item, its receipt line, the stock row and the movement. */
    method ReceiveLine(o: Id, doc: Id, at: Time, k: Key, line: Line) returns (overflow: bool)
      requires o in tables.purchases && line.quantity > 0
      requires line.item in tables.purchaseItems && tables.purchaseItems[line.item].order == o
      requires k == Key(tables.purchases[o].warehouse, tables.purchaseItems[line.item].product)
      modifies this
      ensures Steps.ReceiveLine(old(tables), o, doc, at, line)
           == if overflow then Rejected(ColumnOverflow) else Committed(tables)
    {
      var item := tables.purchaseItems[line.item];
      var grown := item.(received := item.received + line.quantity);
      tables := tables.(purchaseItems := tables.purchaseItems[line.item := grown],
                        receiptLines := tables.receiptLines + [DocumentLine(doc, line.item, line.quantity)]);
      overflow := UpsertStock(k, line.quantity);
      if !overflow {
        WriteMovement(Movement(k, Receipt, ByPurchase(doc), line.quantity, at));
      }
    }

    /** The receipt loop. */
    method ReceiveLines(o: Id, doc: Id, at: Time, lines: seq<Line>) returns (error: Option<Error>)
      requires o in tables.purchases && AllPositive(lines)
      requires forall n :: 0 <= n < |lines| ==>
                 lines[n].item in tables.purchaseItems && tables.purchaseItems[lines[n].item].order == o
      modifies this
      ensures match Steps.ReceiveLines(old(tables), o, doc, at, lines)
              case Rejected(e) => error == Some(e)
              case Committed(db) => error == None && tables == db
    {
      var warehouse, items := tables.purchases[o].warehouse, tables.purchaseItems;
      ghost var before := tables;
      for n := 0 to |lines|
        invariant tables.purchases == before.purchases && tables.purchaseItems.Keys == items.Keys
        invariant forall i :: i in items ==>
                    tables.purchaseItems[i].order == items[i].order
                        && tables.purchaseItems[i].product == items[i].product
        invariant Steps.ReceiveLines(before, o, doc, at, lines) == Steps.ReceiveLines(tables, o, doc, at, lines[n..])
      {
        assert lines[n..][0] == lines[n] && lines[n..][1..] == lines[n + 1..];
        var overflow := ReceiveLine(o, doc, at, Key(warehouse, items[lines[n].item].product), lines[n]);
        if overflow {
          return Some(ColumnOverflow);
        }
      }
      return None;
    }

    method ReceivePurchase(o: Id, doc: Id, at: Time, lines: seq<Line>) returns (error: Option<Error>)
      modifies this
      ensures Answers(old(tables), Steps.ReceivePurchase(old(tables), o, doc, at, lines), tables, error)
    {
      error := CheckRequest(lines);
      if error.Some? {
        return;
      }
      var before := tables;
      if o !in tables.purchases {
        return Some(NotFound);
      }
      if tables.purchases[o].status != PoSubmitted && tables.purchases[o].status != PoPartiallyReceived {
        return Some(WrongStatus);
      }
      if !Active(tables.warehouses, tables.purchases[o].warehouse) {
        return Some(WarehouseInactive);
      }
      error := ValidateReceive(o, lines);
      if error.Some? {
        return;
      }
      ReceiptLinesBelong(before, o, lines);
      error := ReceiveLines(o, doc, at, lines);
      if error.Some? {
        tables := before;
        return;
      }
      var status, receivedAt := PoPartiallyReceived, None;
      if Steps.FullyReceived(tables.purchaseItems, o) {
        status, receivedAt := PoReceived, Some(at);
      }
      FinishPurchase(o, status, receivedAt, PurchaseReceived);
    }

    // -------------------------------------------------------------- warehouses.service.ts

    /** The guards are read only when an active warehouse is to be deactivated. */
    method UpdateWarehouse(w: Id, isActive: Option<bool>) returns (error: Option<Error>)
      modifies this
      ensures Answers(old(tables), Steps.UpdateWarehouse(old(tables), w, isActive), tables, error)
    {
      if w !in tables.warehouses {
        return Some(NotFound);
      }
      if isActive == Some(false) && tables.warehouses[w] {
        if exists k :: k in tables.stock && k.warehouse == w && tables.stock[k].quantity > 0 {
          return Some(HasStock);
        }
        if exists o ::
             && o in tables.purchases
             && tables.purchases[o].warehouse == w && Steps.OpenPurchase(tables.purchases[o].status) {
          return Some(HasOpenPurchases);
        }
        if exists o :: o in tables.sales && tables.sales[o].warehouse == w && Steps.OpenSale(tables.sales[o].status) {
          return Some(HasOpenSales);
        }
      }
      if isActive.Some? {
        tables := tables.(warehouses := tables.warehouses[w := isActive.value]);
      }
      return None;
    }

    // -------------------------------------------------------------- transactions with retries

    /** Whichever transaction is asked for. */
    method Execute(op: Steps.Op) returns (error: Option<Error>)
      requires Sound(tables)
      modifies this
      ensures Sound(tables)
      ensures Answers(old(tables), Steps.Step(old(tables), op), tables, error)
    {
      StepAccounted(tables, op);
      if Steps.StockOp(op) {
        error := ExecuteStock(op);
      } else if Steps.SalesOp(op) {
        error := ExecuteSales(op);
      } else if Steps.PurchaseOp(op) {
        error := ExecutePurchase(op);
      } else {
        error := ExecuteAdmin(op);
      }
    }

    method ExecuteStock(op: Steps.Op) returns (error: Option<Error>)
      requires RowsOk(tables.stock) && Steps.StockOp(op)
      modifies this
      ensures Answers(old(tables), Steps.Step(old(tables), op), tables, error)
    {
      match op {
        case OpReceiveStock(k, q, id, at) => error := ReceiveStock(k, q, id, at);
        case OpIssueStock(k, q, id, at) => error := IssueStock(k, q, id, at);
        case OpAdjustStock(k, d, id, at) => error := AdjustStock(k, d, id, at);
        case OpTransferStock(from, to, p, q, id, at) => error := TransferStock(from, to, p, q, id, at);
        case OpSetReorderPoint(k, point) => error := Apply(Steps.SetReorderPoint(tables, k, point));
      }
    }

    method ExecuteSales(op: Steps.Op) returns (error: Option<Error>)
      requires Sound(tables) && Steps.SalesOp(op)
      modifies this
      ensures Answers(old(tables), Steps.Step(old(tables), op), tables, error)
    {
      if op.OpReserveSales? {
        error := ReserveSales(op.order, op.lines);
      } else if op.OpFulfillSales? {
        error := FulfillSales(op.order, op.document, op.at, op.lines);
      } else if op.OpCancelSales? {
        error := CancelSales(op.order);
      } else {
        error := EditSales(op);
      }
    }

    method EditSales(op: Steps.Op) returns (error: Option<Error>)
      requires op.OpCreateSales? || op.OpAddSalesItem? || op.OpRemoveSalesItem? || op.OpConfirmSales?
      modifies this
      ensures Answers(old(tables), Steps.Step(old(tables), op), tables, error)
    {
      match op {
        case OpCreateSales(o, c, w) => error := Apply(Steps.CreateSales(tables, o, c, w));
        case OpAddSalesItem(o, i, p, q) => error := AddSalesItem(o, i, p, q);
        case OpRemoveSalesItem(o, i) => error := RemoveSalesItem(o, i);
        case OpConfirmSales(o) => error := ConfirmSales(o);
      }
    }

    method ExecutePurchase(op: Steps.Op) returns (error: Option<Error>)
      requires Steps.PurchaseOp(op)
      modifies this
      ensures Answers(old(tables), Steps.Step(old(tables), op), tables, error)
    {
      if op.OpSubmitPurchase? {
        error := SubmitPurchase(op.order);
      } else if op.OpCancelPurchase? {
        error := CancelPurchase(op.order);
      } else if op.OpReceivePurchase? {
        error := ReceivePurchase(op.order, op.document, op.at, op.lines);
      } else {
        error := EditPurchase(op);
      }
    }

    method EditPurchase(op: Steps.Op) returns (error: Option<Error>)
      requires op.OpCreatePurchase? || op.OpAddPurchaseItem? || op.OpRemovePurchaseItem?
      modifies this
      ensures Answers(old(tables), Steps.Step(old(tables), op), tables, error)
    {
      match op {
        case OpCreatePurchase(o, s, w) => error := Apply(Steps.CreatePurchase(tables, o, s, w));
        case OpAddPurchaseItem(o, i, p, q) => error := AddPurchaseItem(o, i, p, q);
        case OpRemovePurchaseItem(o, i) => error := RemovePurchaseItem(o, i);
      }
    }

    method ExecuteAdmin(op: Steps.Op) returns (error: Option<Error>)
      requires !Steps.StockOp(op) && !Steps.SalesOp(op) && !Steps.PurchaseOp(op)
      modifies this
      ensures Answers(old(tables), Steps.Step(old(tables), op), tables, error)
    {
      match op {
        case OpUpdateWarehouse(w, active) => error := UpdateWarehouse(w, active);
        case OpCreateWarehouse(w) => error := Apply(Steps.CreateWarehouse(tables, w));
        case OpSetProduct(p, active) => error := Apply(Committed(tables.(products := tables.products[p := active])));
        case OpSetCustomer(c, active) => error := Apply(Committed(tables.(customers := tables.customers[c := active])));
        case OpSetSupplier(s, active) => error := Apply(Committed(tables.(suppliers := tables.suppliers[s := active])));
      }
    }

    /** The transactions without a loop or a guard of their own, written directly. */
    method Apply(r: Outcome) returns (error: Option<Error>)
      modifies this
      ensures Answers(old(tables), r, tables, error)
    {
      match r {
        case Rejected(e) => error := Some(e);
        case Committed(db) =>
          tables := db;
          error := None;
      }
    }

    /** What other callers do between two attempts. */
    method Others(ops: seq<Steps.Op>)
      requires Sound(tables)
      modifies this
      ensures Sound(tables) && tables == Steps.Run(old(tables), ops)
    {
      ghost var before := tables;
      for n := 0 to |ops|
        invariant Sound(tables) && tables == Steps.Run(before, ops[..n])
      {
        assert ops[..n + 1][..n] == ops[..n];
        var _ := Execute(ops[n]);
      }
      assert ops[..|ops|] == ops;
    }

    /** runSerializableTransaction: up to three attempts, each of which either aborts without effect (`conflicts`) or
        runs to its outcome; `others` is what the rest of the system commits before each attempt. However many
        attempts it takes, the call commits at most once. */
    method RunSerializable(op: Steps.Op, conflicts: seq<bool>, others: seq<seq<Steps.Op>>)
      returns (error: Option<Error>, attempts: nat)
      requires Sound(tables) && |conflicts| == |others| == MAX_TRANSACTION_RETRIES
      modifies this
      ensures Sound(tables) && Retried(conflicts, attempts) && 1 <= attempts <= 3
      ensures attempts < 3 ==> !conflicts[attempts - 1]
      ensures Attempted(Interleaved(old(tables), others, attempts), op, conflicts[attempts - 1], tables, error)
    {
      ghost var start := tables;
      attempts := 0;
      while true
        invariant attempts < MAX_TRANSACTION_RETRIES && tables == Interleaved(start, others, attempts)
        invariant forall a :: 0 <= a < attempts ==> conflicts[a]
        decreases MAX_TRANSACTION_RETRIES - attempts
      {
        error := Attempt(op, conflicts[attempts], others, attempts, start);
        attempts := attempts + 1;
        if !conflicts[attempts - 1] || attempts == MAX_TRANSACTION_RETRIES {
          return;
        }
      }
    }

    /** Attempt number `n`: the others go first, then the transaction runs, or aborts and leaves no trace. */
    method Attempt(op: Steps.Op, conflict: bool, others: seq<seq<Steps.Op>>, n: nat, ghost start: Db)
      returns (error: Option<Error>)
      requires Sound(start) && n < |others| && tables == Interleaved(start, others, n)
      modifies this
      ensures Sound(tables)
      ensures conflict ==> tables == Interleaved(start, others, n + 1)
      ensures Attempted(Interleaved(start, others, n + 1), op, conflict, tables, error)
    {
      InterleavedSound(start, others, n, tables);
      Others(others[n]);
      if conflict {
        return Some(RetriesExhausted);
      }
      error := Execute(op);
    }
  }

  lemma {:induction false} RunSound(db: Db, ops: seq<Steps.Op>)
    requires Sound(db)
    ensures Sound(Steps.Run(db, ops))
    decreases |ops|
  {
    if ops != [] {
      RunSound(db, ops[..|ops| - 1]);
      StepAccounted(Steps.Run(db, ops[..|ops| - 1]), ops[|ops| - 1]);
    }
  }

  lemma {:induction false} InterleavedSound(db: Db, histories: seq<seq<Steps.Op>>, n: nat, after: Db)
    requires Sound(db) && n <= |histories| && after == Interleaved(db, histories, n)
    ensures Sound(after)
    decreases n
  {
    if n > 0 {
      var before := Interleaved(db, histories, n - 1);
      InterleavedSound(db, histories, n - 1, before);
      TurnSound(before, histories[n - 1], after);
    }
  }

  lemma TurnSound(before: Db, ops: seq<Steps.Op>, after: Db)
    requires Sound(before) && after == Steps.Run(before, ops)
    ensures Sound(after)
  {
    RunSound(before, ops);
  }

  /** Attempts go on exactly until one does not conflict, or the last. */
  predicate Retried(conflicts: seq<bool>, attempts: nat) {
    && 1 <= attempts <= MAX_TRANSACTION_RETRIES && attempts <= |conflicts|
    && (forall a :: 0 <= a < attempts - 1 ==> conflicts[a])
    && (conflicts[attempts - 1] ==> attempts == MAX_TRANSACTION_RETRIES)
  }

  /** How an attempt at `op` ends: aborted, or with the outcome of the transaction. */
  ghost predicate Attempted(before: Db, op: Steps.Op, conflict: bool, after: Db, error: Option<Error>) {
    if conflict then after == before && error == Some(RetriesExhausted)
    else Answers(before, Steps.Step(before, op), after, error)
  }

  const MAX_TRANSACTION_RETRIES: nat := 3

  /** The state after the first `n` histories, one after the other. */
  ghost function Interleaved(db: Db, histories: seq<seq<Steps.Op>>, n: nat): Db
    requires n <= |histories|
  {
    if n == 0 then db else Steps.Run(Interleaved(db, histories, n - 1), histories[n - 1])
  }

  /** A transition call, however many of its attempts are aborted and whatever the others commit before each: if it
      succeeds, it has published exactly one event and one audit row on top of what the others did; if it ends in an
      error, the one for exhausted retries included, it has published nothing. The premises are what `RunSerializable`
      ensures. */
  lemma CallPublishesOnce(start: Db, op: Steps.Op, conflicts: seq<bool>, others: seq<seq<Steps.Op>>, attempts: nat,
                          after: Db, error: Option<Error>)
    requires Transition(op) && |conflicts| == |others| == MAX_TRANSACTION_RETRIES && Retried(conflicts, attempts)
    requires Attempted(Interleaved(start, others, attempts), op, conflicts[attempts - 1], after, error)
    ensures var before := Interleaved(start, others, attempts);
            if error.Some? then after == before
            else
              && |after.events| == |before.events| + 1 && before.events <= after.events
              && after.events[|before.events|].action == ActionOf(op) && after.events[|before.events|].order == op.order
              && after.audits == before.audits + [Audit(ActionOf(op), op.order)]
    ensures (forall a :: 0 <= a < MAX_TRANSACTION_RETRIES ==> conflicts[a]) ==>
              error == Some(RetriesExhausted) && attempts == MAX_TRANSACTION_RETRIES
  {
    TransactionPublishesOnce(Interleaved(start, others, attempts), op, conflicts[attempts - 1], after, error);
  }

  lemma TransactionPublishesOnce(before: Db, op: Steps.Op, conflict: bool, after: Db, error: Option<Error>)
    requires Transition(op) && Attempted(before, op, conflict, after, error)
    ensures error.Some? ==> after == before
    ensures error.None? ==>
              && |after.events| == |before.events| + 1 && before.events <= after.events
              && after.events[|before.events|].action == ActionOf(op) && after.events[|before.events|].order == op.order
              && after.audits == before.audits + [Audit(ActionOf(op), op.order)]
  {
    if error.None? {
      if SalesTransition(op) {
        SalesTransitionLogs(before, op);
      } else {
        PurchaseTransitionLogs(before, op);
      }
    }
  }
}
