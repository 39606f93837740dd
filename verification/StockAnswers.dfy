/** What the stock calls answer and do, said of rows, movements and audit rows alone. */
module StockAnswers {
  import opened Ledger
  import opened LedgerSteps
  import opened ReservationProofs

  /** Warehouse and product exist and are switched on. */
  ghost predicate Served(db: Db, k: Key) {
    && k.warehouse in db.warehouses && db.warehouses[k.warehouse]
    && k.product in db.products && db.products[k.product]
  }

  /** A place without a row has nothing on hand, nothing reserved and no reorder point. */
  ghost function RowOf(db: Db, k: Key): Stock {
    if k in db.stock then db.stock[k] else Stock(0, 0, 0)
  }

  /** The row at `k` has gained `delta` on hand and is otherwise as it was. */
  ghost predicate Gained(db: Db, next: Db, k: Key, delta: int) {
    && k in next.stock && next.stock[k].quantity == RowOf(db, k).quantity + delta
    && next.stock[k].reserved == RowOf(db, k).reserved && next.stock[k].reorderPoint == RowOf(db, k).reorderPoint
  }

  ghost predicate SameRow(db: Db, next: Db, k: Key) {
    (k in next.stock <==> k in db.stock) && (k in db.stock ==> next.stock[k] == db.stock[k])
  }

  /** `next` differs from `db` in rows, and by these movements and one audit row at the end of their tables. */
  ghost predicate Logged(db: Db, next: Db, movements: seq<Movement>, audit: Audit) {
    next == db.(stock := next.stock, movements := db.movements + movements, audits := db.audits + [audit])
  }

  /** A single row has moved by `delta`, for one movement. */
  ghost predicate MovedOnce(db: Db, next: Db, m: Movement, audit: Audit) {
    && Logged(db, next, [m], audit) && Gained(db, next, m.key, m.delta)
    && forall k: Key :: k != m.key ==> SameRow(db, next, k)
  }

  /** A receipt adds to its row, which it creates where there is none. */
  lemma ReceiptAnswer(db: Db, k: Key, quantity: int, op: Id, at: Time)
    ensures var r := Step(db, OpReceiveStock(k, quantity, op, at));
            && (r.Committed? <==>
                quantity > 0 && Served(db, k) && RowOf(db, k).quantity + quantity < 1_000_000_000_000_000_000)
            && (r.Committed? ==>
                MovedOnce(db, r.db, Movement(k, Receipt, ByHand, quantity, at), Audit(InventoryReceived, op)))
            && (r.Rejected? ==>
                r.error == if quantity <= 0 then NotPositive else if !Served(db, k) then NotFound else ColumnOverflow)
  {
  }

  /** An issue takes from what is on hand and not reserved. */
  lemma IssueAnswer(db: Db, k: Key, quantity: int, op: Id, at: Time)
    requires RowsOk(db.stock)
    ensures var r := Step(db, OpIssueStock(k, quantity, op, at));
            && (r.Committed? <==>
                quantity > 0 && Served(db, k) && RowOf(db, k).quantity - RowOf(db, k).reserved >= quantity)
            && (r.Committed? ==>
                MovedOnce(db, r.db, Movement(k, Issue, ByHand, -quantity, at), Audit(InventoryIssued, op)))
            && (r.Rejected? ==>
                r.error == if quantity <= 0 then NotPositive else if !Served(db, k) then NotFound
                           else InsufficientStock)
  {
  }

  /** An adjustment moves the row by its signed amount: down no further than what is reserved, up to the column. */
  lemma AdjustmentAnswer(db: Db, k: Key, delta: int, op: Id, at: Time)
    requires RowsOk(db.stock)
    ensures var r := Step(db, OpAdjustStock(k, delta, op, at));
            var row := RowOf(db, k);
            && (r.Committed? <==>
                && delta != 0 && Served(db, k)
                && row.reserved <= row.quantity + delta < 1_000_000_000_000_000_000)
            && (r.Committed? ==>
                MovedOnce(db, r.db, Movement(k, Adjustment, ByHand, delta, at), Audit(InventoryAdjusted, op)))
            && (r.Rejected? ==>
                r.error == if delta == 0 then ZeroDelta else if !Served(db, k) then NotFound
                           else if delta < 0 then InsufficientStock else ColumnOverflow)
  {
  }

  /** A transfer takes from the one warehouse exactly what it gives to the other. */
  lemma TransferAnswer(db: Db, from: Id, to: Id, product: Id, quantity: int, op: Id, at: Time)
    requires RowsOk(db.stock)
    ensures var r := Step(db, OpTransferStock(from, to, product, quantity, op, at));
            var source, target := RowOf(db, Key(from, product)), RowOf(db, Key(to, product));
            && (r.Committed? <==>
                && from != to && quantity > 0 && Served(db, Key(from, product)) && Served(db, Key(to, product))
                && source.quantity - source.reserved >= quantity
                && target.quantity + quantity < 1_000_000_000_000_000_000)
            && (r.Rejected? ==>
                r.error == if from == to then SameWarehouse else if quantity <= 0 then NotPositive
                           else if !Served(db, Key(from, product)) || !Served(db, Key(to, product)) then NotFound
                           else if source.quantity - source.reserved < quantity then InsufficientStock
                           else ColumnOverflow)
  {
  }

  lemma TransferEffect(db: Db, from: Id, to: Id, product: Id, quantity: int, op: Id, at: Time)
    requires Step(db, OpTransferStock(from, to, product, quantity, op, at)).Committed?
    ensures var next := Step(db, OpTransferStock(from, to, product, quantity, op, at)).db;
            && Gained(db, next, Key(from, product), -quantity) && Gained(db, next, Key(to, product), quantity)
            && (forall k: Key :: k != Key(from, product) && k != Key(to, product) ==> SameRow(db, next, k))
            && Logged(db, next,
                      [Movement(Key(from, product), TransferOut, ByHand, -quantity, at),
                       Movement(Key(to, product), TransferIn, ByHand, quantity, at)],
                      Audit(InventoryTransferred, op))
  {
  }

  /** Setting a reorder point changes that column of that row only; a place without a row gets an empty one. */
  lemma ReorderPointAnswer(db: Db, k: Key, point: nat)
    ensures var r := Step(db, OpSetReorderPoint(k, point));
            var row := RowOf(db, k);
            r == if Served(db, k)
                 then Committed(db.(stock := db.stock[k := Stock(row.quantity, row.reserved, point)]))
                 else Rejected(NotFound)
  {
  }
}
