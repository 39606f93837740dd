/** The tables behind the stock ledger, for one organization. Quantities are integers in thousandths. */
module Ledger {
  import opened Sums

  datatype Option<+T> = None | Some(value: T)

  type Id = nat
  type Time = nat

  /** `Decimal(18,3)`: magnitudes in thousandths stay below 10^18, or the statement fails. */
  const COLUMN_LIMIT := 1_000_000_000_000_000_000

  datatype Key = Key(warehouse: Id, product: Id)

  datatype Stock = Stock(quantity: int, reserved: int, reorderPoint: int)

  datatype SalesStatus =
    | SoDraft | SoConfirmed | SoPartiallyReserved | SoReserved | SoPartiallyFulfilled | SoFulfilled | SoCancelled

  datatype PurchaseStatus = PoDraft | PoSubmitted | PoPartiallyReceived | PoReceived | PoCancelled

  datatype SalesOrder = SalesOrder(warehouse: Id, customer: Id, status: SalesStatus, fulfilledAt: Option<Time>)

  datatype PurchaseOrder = PurchaseOrder(warehouse: Id, supplier: Id, status: PurchaseStatus, receivedAt: Option<Time>)

  datatype SalesItem = SalesItem(order: Id, product: Id, ordered: int, reserved: int, fulfilled: int)

  datatype PurchaseItem = PurchaseItem(order: Id, product: Id, ordered: int, received: int)

  /** One requested line of a reserve, fulfill or receive call. */
  datatype Line = Line(item: Id, quantity: int)

  /** One stored row of a purchase receipt or of a sales fulfillment. */
  datatype DocumentLine = DocumentLine(document: Id, item: Id, quantity: int)

  datatype MovementType = Receipt | Issue | Adjustment | TransferIn | TransferOut

  /** `purchaseReceiptId` and `salesFulfillmentId`: what caused a movement. */
  datatype Cause = ByHand | ByPurchase(receipt: Id) | BySale(fulfillment: Id)

  datatype Movement = Movement(key: Key, kind: MovementType, cause: Cause, delta: int, at: Time)

  datatype Action =
    | InventoryReceived | InventoryIssued | InventoryAdjusted | InventoryTransferred
    | PurchaseSubmitted | PurchaseCancelled | PurchaseReceived
    | SalesConfirmed | SalesReserved | SalesFulfilled | SalesCancelled

  datatype Audit = Audit(action: Action, entity: Id)

  /** An outbox row: the aggregate it names and the status in its payload. */
  datatype OrderEvent =
    | SalesEvent(action: Action, order: Id, soStatus: SalesStatus)
    | PurchaseEvent(action: Action, order: Id, poStatus: PurchaseStatus)

  datatype Db = Db(
    warehouses: map<Id, bool>,
    products: map<Id, bool>,
    customers: map<Id, bool>,
    suppliers: map<Id, bool>,
    stock: map<Key, Stock>,
    sales: map<Id, SalesOrder>,
    salesItems: map<Id, SalesItem>,
    purchases: map<Id, PurchaseOrder>,
    purchaseItems: map<Id, PurchaseItem>,
    receiptLines: seq<DocumentLine>,
    fulfillmentLines: seq<DocumentLine>,
    movements: seq<Movement>,
    audits: seq<Audit>,
    events: seq<OrderEvent>)

  const EMPTY := Db(map[], map[], map[], map[], map[], map[], map[], map[], map[], [], [], [], [], [])

  datatype Error =
    | NotFound | WrongStatus | NoItems | PartnerInactive | WarehouseInactive
    | DuplicateLine | NotPositive | ZeroDelta | ForeignItem | ExceedsRemaining | ExceedsReserved
    | InsufficientStock | ReservationMissing | ReservationInconsistent | SameWarehouse
    | ProductAlreadyOnOrder | DuplicateId | ColumnOverflow | ForeignKey
    | HasStock | HasOpenPurchases | HasOpenSales | RetriesExhausted

  /** The outcome of one transaction: committed, or rolled back with the error the caller sees. */
  datatype Outcome = Committed(db: Db) | Rejected(error: Error)

  /** The state other callers see afterwards: an aborted transaction leaves no trace. */
  function After(db: Db, outcome: Outcome): Db {
    if outcome.Committed? then outcome.db else db
  }

  predicate Active(flags: map<Id, bool>, id: Id) {
    id in flags && flags[id]
  }

  function QuantityAt(stock: map<Key, Stock>, k: Key): int {
    if k in stock then stock[k].quantity else 0
  }

  function ReservedAt(stock: map<Key, Stock>, k: Key): int {
    if k in stock then stock[k].reserved else 0
  }

  /** Where the stock of a sales order item lives. */
  function ItemKey(db: Db, item: SalesItem): Key
    requires item.order in db.sales
  {
    Key(db.sales[item.order].warehouse, item.product)
  }

  /** Per item: what it holds at `k`, for every item of that product on any sales order of that warehouse. */
  ghost function Holds(sales: map<Id, SalesOrder>, items: map<Id, SalesItem>, k: Key): map<Id, int> {
    map i | i in items && items[i].order in sales
         && sales[items[i].order].warehouse == k.warehouse && items[i].product == k.product
      :: items[i].reserved
  }

  /** The reserved quantity that order items account for at `k`. */
  ghost function ItemsReserved(sales: map<Id, SalesOrder>, items: map<Id, SalesItem>, k: Key): int {
    Total(Holds(sales, items, k))
  }

  /** Reserved stock at `k` that no order item accounts for. */
  ghost function Leak(db: Db, k: Key): int {
    ReservedAt(db.stock, k) - ItemsReserved(db.sales, db.salesItems, k)
  }

  /** The movement histories the conservation laws speak about. */
  datatype History =
    | AtKey(key: Key)
    | AnyMovement(product: Id)
    | PurchaseReceipts(product: Id)
    | ManualReceipts(product: Id)
    | Adjustments(product: Id)
    | ManualIssues(product: Id)
    | SaleIssues(product: Id)
    | Transfers(product: Id)

  predicate BelongsTo(m: Movement, h: History) {
    match h
    case AtKey(k) => m.key == k
    case AnyMovement(p) => m.key.product == p
    case PurchaseReceipts(p) => m.key.product == p && m.kind.Receipt? && m.cause.ByPurchase?
    case ManualReceipts(p) => m.key.product == p && m.kind.Receipt? && m.cause.ByHand?
    case Adjustments(p) => m.key.product == p && m.kind.Adjustment?
    case ManualIssues(p) => m.key.product == p && m.kind.Issue? && m.cause.ByHand?
    case SaleIssues(p) => m.key.product == p && m.kind.Issue? && m.cause.BySale?
    case Transfers(p) => m.key.product == p && (m.kind.TransferIn? || m.kind.TransferOut?)
  }

  /** Sum of the movement deltas in a history. */
  ghost function MovementSum(movements: seq<Movement>, h: History): int {
    if movements == [] then 0
    else
      var last := movements[|movements| - 1];
      MovementSum(movements[..|movements| - 1], h) + if BelongsTo(last, h) then last.delta else 0
  }

  /** Sum of the document lines that name `item`. */
  ghost function LineSum(lines: seq<DocumentLine>, item: Id): int {
    if lines == [] then 0
    else
      var last := lines[|lines| - 1];
      LineSum(lines[..|lines| - 1], item) + if last.item == item then last.quantity else 0
  }

  /** The total quantity a request asks for `item`. */
  function LineQuantity(lines: seq<Line>, item: Id): int {
    if lines == [] then 0
    else (if lines[0].item == item then lines[0].quantity else 0) + LineQuantity(lines[1..], item)
  }

  /** The total quantity a request asks for. */
  function RequestTotal(lines: seq<Line>): int {
    if lines == [] then 0 else lines[0].quantity + RequestTotal(lines[1..])
  }

  predicate DistinctItems(lines: seq<Line>) {
    forall i, j :: 0 <= i < j < |lines| ==> lines[i].item != lines[j].item
  }

  predicate AllPositive(lines: seq<Line>) {
    forall i :: 0 <= i < |lines| ==> lines[i].quantity > 0
  }

  /** Keys and uniqueness that the schema enforces. */
  ghost predicate Schema(db: Db) {
    && (forall i :: i in db.salesItems ==> db.salesItems[i].order in db.sales)
    && (forall i, j :: i in db.salesItems && j in db.salesItems && i != j
          ==> !(db.salesItems[i].order == db.salesItems[j].order
              && db.salesItems[i].product == db.salesItems[j].product))
    && (forall i :: i in db.purchaseItems ==> db.purchaseItems[i].order in db.purchases)
    && (forall i, j :: i in db.purchaseItems && j in db.purchaseItems && i != j
          ==> !(db.purchaseItems[i].order == db.purchaseItems[j].order
              && db.purchaseItems[i].product == db.purchaseItems[j].product))
    && (forall o :: o in db.sales ==> db.sales[o].warehouse in db.warehouses && db.sales[o].customer in db.customers)
    && (forall o :: o in db.purchases ==>
        db.purchases[o].warehouse in db.warehouses && db.purchases[o].supplier in db.suppliers)
    && (forall k :: k in db.stock ==> k.warehouse in db.warehouses)
  }

  /** There is always an id not used yet. */
  lemma {:induction false} UnusedId(used: set<Id>) returns (id: Id)
    ensures forall u :: u in used ==> u < id
    decreases |used|
  {
    if used == {} {
      id := 0;
    } else {
      var u :| u in used;
      var rest := UnusedId(used - {u});
      id := if rest > u then rest else u + 1;
      assert forall v :: v in used ==> v == u || v in used - {u};
    }
  }
}
