/** The inventory and movement reports: declarative queries over the ledger, and how they agree with one another. */
module Reports {
  import opened Sums
  import opened Ledger
  import opened StockConservation
  import opened WarehouseActivity
  import opened LedgerSteps
  import opened LedgerRuns

  /** The five aggregate columns of both inventory reports. */
  datatype Figure = OnHandQuantity | ReservedQuantity | AvailableQuantity | Positions | LowStockPositions

  predicate IsLow(stock: Stock) {
    stock.reorderPoint > 0 && stock.quantity - stock.reserved <= stock.reorderPoint
  }

  /** What one inventory row adds to a figure; a count adds one for each row its filter lets through. */
  function Measure(stock: Stock, f: Figure): int {
    match f
    case OnHandQuantity => stock.quantity
    case ReservedQuantity => stock.reserved
    case AvailableQuantity => stock.quantity - stock.reserved
    case Positions => 1
    case LowStockPositions => if IsLow(stock) then 1 else 0
  }

  function Column(stock: map<Key, Stock>, rows: set<Key>, f: Figure): map<Key, int> {
    map k | k in rows && k in stock :: Measure(stock[k], f)
  }

  /** COALESCE(SUM(...), 0) or COUNT(...) over the selected rows. */
  ghost function Aggregate(stock: map<Key, Stock>, rows: set<Key>, f: Figure): int {
    Total(Column(stock, rows, f))
  }

  /** FROM Inventory JOIN Product JOIN Warehouse, both active. */
  function DashboardRows(db: Db): set<Key> {
    set k | k in db.stock && Active(db.products, k.product) && Active(db.warehouses, k.warehouse)
  }

  ghost function Dashboard(db: Db, f: Figure): int {
    Aggregate(db.stock, DashboardRows(db), f)
  }

  function ActiveWarehouses(db: Db): set<Id> {
    set w | w in db.warehouses && db.warehouses[w]
  }

  /** One warehouse's inventory rows with an active product. */
  function WarehouseRows(db: Db, w: Id): set<Key> {
    set k | k in db.stock && k.warehouse == w && Active(db.products, k.product)
  }

  /** GROUP BY warehouse; the LEFT JOINs keep the active warehouses that have no such row. */
  ghost function ByWarehouse(db: Db, f: Figure): map<Id, int> {
    map w | w in ActiveWarehouses(db) :: Aggregate(db.stock, WarehouseRows(db, w), f)
  }

  lemma ColumnOfWarehouse(db: Db, w: Id, f: Figure, home: map<Key, Id>)
    requires w in ActiveWarehouses(db) && home == map k | k in DashboardRows(db) :: k.warehouse
    ensures Column(db.stock, WarehouseRows(db, w), f) == Grouped(Column(db.stock, DashboardRows(db), f), home, {w})
  {
  }

  /** On every state, each figure of the per-warehouse report adds up to that of the dashboard. */
  lemma WarehousesAddUp(db: Db, f: Figure)
    ensures Total(ByWarehouse(db, f)) == Dashboard(db, f)
  {
    var column := Column(db.stock, DashboardRows(db), f);
    var home := map k | k in DashboardRows(db) :: k.warehouse;
    forall w | w in ActiveWarehouses(db) ensures ByWarehouse(db, f)[w] == Total(Grouped(column, home, {w})) {
      ColumnOfWarehouse(db, w, f, home);
    }
    BucketsAddUp(column, home, ActiveWarehouses(db), ByWarehouse(db, f));
    AllGrouped(column, home, ActiveWarehouses(db));
  }

  /** `available` is what is on hand less what is reserved. */
  lemma AvailableIsDifference(stock: map<Key, Stock>, rows: set<Key>)
    ensures Aggregate(stock, rows, AvailableQuantity)
         == Aggregate(stock, rows, OnHandQuantity) - Aggregate(stock, rows, ReservedQuantity)
  {
    TotalSplit(Column(stock, rows, OnHandQuantity), Column(stock, rows, AvailableQuantity),
        Column(stock, rows, ReservedQuantity));
  }

  // ---------------------------------------------------------------- low stock

  /** What findLowStock selects, before its LIMIT. */
  function LowStockKeys(db: Db, warehouse: Option<Id>): set<Key> {
    set k | k in db.stock && (warehouse.Some? ==> k.warehouse == warehouse.value) && Active(db.products, k.product)
            && Active(db.warehouses, k.warehouse) && IsLow(db.stock[k])
  }

  /** Distinct selected rows, those longest without an update first, as many as the limit allows. */
  ghost predicate IsLowStockList(db: Db, updatedAt: Key -> Time, warehouse: Option<Id>, limit: nat, list: seq<Key>) {
    && (forall i, j :: 0 <= i < j < |list| ==> list[i] != list[j])
    && (forall i :: 0 <= i < |list| ==> list[i] in LowStockKeys(db, warehouse))
    && (forall i, j :: 0 <= i < j < |list| ==> updatedAt(list[i]) <= updatedAt(list[j]))
    && (forall i, k :: 0 <= i < |list| && k in LowStockKeys(db, warehouse) && k !in list ==>
          updatedAt(list[i]) <= updatedAt(k))
    && |list| <= limit
    && (|list| < limit ==> forall k :: k in LowStockKeys(db, warehouse) ==> k in list)
  }

  lemma {:induction false} CountIsSize(stock: map<Key, Stock>, rows: set<Key>)
    requires rows <= stock.Keys
    ensures Aggregate(stock, rows, LowStockPositions) == |set k | k in rows && IsLow(stock[k])|
    decreases |rows|
  {
    var column := Column(stock, rows, LowStockPositions);
    if rows == {} {
      assert column == map[];
    } else {
      var k :| k in rows;
      TotalRemove(column, k);
      assert column - {k} == Column(stock, rows - {k}, LowStockPositions);
      CountIsSize(stock, rows - {k});
      var low := set j | j in rows && IsLow(stock[j]);
      var rest := set j | j in rows - {k} && IsLow(stock[j]);
      assert low == if IsLow(stock[k]) then rest + {k} else rest;
    }
  }

  /** The list is as long as the count says, cut at the limit: the dashboard's count for all warehouses, a warehouse's
      own for that warehouse. */
  lemma LowStockAgrees(db: Db, updatedAt: Key -> Time, warehouse: Option<Id>, limit: nat, list: seq<Key>)
    requires IsLowStockList(db, updatedAt, warehouse, limit, list)
    requires warehouse.Some? ==> warehouse.value in ActiveWarehouses(db)
    ensures var count := if warehouse.Some? then ByWarehouse(db, LowStockPositions)[warehouse.value]
                         else Dashboard(db, LowStockPositions);
            |list| == if count <= limit then count else limit
  {
    var rows := if warehouse.Some? then WarehouseRows(db, warehouse.value) else DashboardRows(db);
    CountIsSize(db.stock, rows);
    assert LowStockKeys(db, warehouse) == set k | k in rows && IsLow(db.stock[k]);
    ListLength(list, LowStockKeys(db, warehouse));
  }

  lemma {:induction false} ListLength(list: seq<Key>, selected: set<Key>)
    requires forall i, j :: 0 <= i < j < |list| ==> list[i] != list[j]
    requires forall i :: 0 <= i < |list| ==> list[i] in selected
    ensures |list| <= |selected|
    ensures (forall k :: k in selected ==> k in list) ==> |list| == |selected|
    decreases |list|
  {
    if list != [] {
      var init, last := list[..|list| - 1], list[|list| - 1];
      assert list == init + [last];
      ListLength(init, selected - {last});
    } else if selected != {} {
      var k :| k in selected;
      assert k !in list;
    }
  }

  // ---------------------------------------------------------------- no hidden stock

  /** Each active product's stock over all warehouses. */
  ghost function ActiveStock(db: Db): map<Id, int> {
    map p | p in db.products && db.products[p] :: OnHand(db.stock, p)
  }

  /** The rows of a product that the dashboard leaves out are empty. */
  lemma ProductIsShown(db: Db, p: Id, shown: map<Key, int>, product: map<Key, Id>)
    requires Schema(db) && InactiveQuiet(db) && p in db.products && db.products[p]
    requires shown == Column(db.stock, DashboardRows(db), OnHandQuantity)
    requires product == map k | k in DashboardRows(db) :: k.product
    ensures OnHand(db.stock, p) == Total(Grouped(shown, product, {p}))
  {
    var all, visible := OnHandRows(db.stock, p), Grouped(shown, product, {p});
    var hidden := all - visible.Keys;
    assert all == visible + hidden;
    TotalOfUnion(all, visible, hidden);
    forall k | k in hidden ensures hidden[k] == 0 {
      assert k.warehouse in db.warehouses && !db.warehouses[k.warehouse];
      assert Quiet(db, k.warehouse);
    }
    TotalAllZero(hidden);
  }

  /** Inactive warehouses being empty, the dashboard shows the whole stock of every active product. */
  lemma DashboardHidesNothing(db: Db)
    requires Schema(db) && InactiveQuiet(db)
    ensures Dashboard(db, OnHandQuantity) == Total(ActiveStock(db))
  {
    var shown := Column(db.stock, DashboardRows(db), OnHandQuantity);
    var product := map k | k in DashboardRows(db) :: k.product;
    forall p | p in ActiveStock(db) ensures ActiveStock(db)[p] == Total(Grouped(shown, product, {p})) {
      ProductIsShown(db, p, shown, product);
    }
    BucketsAddUp(shown, product, ActiveStock(db).Keys, ActiveStock(db));
    AllGrouped(shown, product, ActiveStock(db).Keys);
  }

  // ---------------------------------------------------------------- movements per day

  const DAY_MS: nat := 86_400_000

  datatype DayFigure = Inbound | Outbound | MovementCount | NetDelta

  /** What one movement adds to a figure of its day; `NetDelta` is not reported, but is what the others must explain. */
  function DayMeasure(delta: int, f: DayFigure): int {
    match f
    case Inbound => if delta > 0 then delta else 0
    case Outbound => if delta < 0 then -delta else 0
    case MovementCount => 1
    case NetDelta => delta
  }

  /** The movements of the window, by position in the table. */
  function Window(movements: seq<Movement>, from: int): set<nat> {
    set n: nat | n < |movements| && movements[n].at >= from
  }

  function Days(movements: seq<Movement>, from: int): map<nat, nat> {
    map n | n in Window(movements, from) :: movements[n].at / DAY_MS
  }

  function DayColumn(movements: seq<Movement>, from: int, f: DayFigure): map<nat, int> {
    map n | n in Window(movements, from) :: DayMeasure(movements[n].delta, f)
  }

  /** GROUP BY day: one row for each day of the window with a movement. */
  ghost function Daily(movements: seq<Movement>, from: int, f: DayFigure): map<nat, int> {
    map day | day in Days(movements, from).Values ::
        Total(Grouped(DayColumn(movements, from, f), Days(movements, from), {day}))
  }

  ghost function InWindow(movements: seq<Movement>, from: int, f: DayFigure): int {
    Total(DayColumn(movements, from, f))
  }

  lemma DaysAddUp(movements: seq<Movement>, from: int, f: DayFigure)
    ensures Total(Daily(movements, from, f)) == InWindow(movements, from, f)
  {
    var column, day := DayColumn(movements, from, f), Days(movements, from);
    BucketsAddUp(column, day, day.Values, Daily(movements, from, f));
    AllGrouped(column, day, day.Values);
  }

  /** Daily inbound less daily outbound adds up to the sum of all deltas in the window, and the counts to their
      number. */
  lemma MovementReport(movements: seq<Movement>, from: int)
    ensures Total(Daily(movements, from, Inbound)) - Total(Daily(movements, from, Outbound))
            == InWindow(movements, from, NetDelta)
    ensures Total(Daily(movements, from, MovementCount)) == |Window(movements, from)|
  {
    DaysAddUp(movements, from, Inbound);
    DaysAddUp(movements, from, Outbound);
    DaysAddUp(movements, from, MovementCount);
    TotalSplit(DayColumn(movements, from, Inbound), DayColumn(movements, from, NetDelta),
        DayColumn(movements, from, Outbound));
    TotalOfOnes(Window(movements, from));
    assert DayColumn(movements, from, MovementCount) == Ones(Window(movements, from));
  }

  // ---------------------------------------------------------------- reports and stock

  function MovementKeys(movements: seq<Movement>): map<nat, Key> {
    map n: nat | n < |movements| :: movements[n].key
  }

  function DeltasAt(movements: seq<Movement>, k: Key): map<nat, int> {
    map n: nat | n < |movements| && movements[n].key == k :: movements[n].delta
  }

  lemma {:induction false} DeltasAtSum(movements: seq<Movement>, k: Key)
    ensures Total(DeltasAt(movements, k)) == MovementSum(movements, AtKey(k))
    decreases |movements|
  {
    if movements == [] {
      assert DeltasAt(movements, k) == map[];
    } else {
      var last: nat := |movements| - 1;
      var init := movements[..last];
      DeltasAtSum(init, k);
      if movements[last].key == k {
        assert DeltasAt(movements, k) == DeltasAt(init, k)[last := movements[last].delta];
        TotalUpdate(DeltasAt(init, k), last, movements[last].delta);
      } else {
        assert DeltasAt(movements, k) == DeltasAt(init, k);
      }
    }
  }

  /** All movements at one warehouse and product, grouped by position, are the history the stock law speaks of. */
  lemma KeyBucket(movements: seq<Movement>, k: Key)
    ensures Total(Grouped(DayColumn(movements, 0, NetDelta), MovementKeys(movements), {k}))
            == MovementSum(movements, AtKey(k))
  {
    DeltasAtSum(movements, k);
    assert Grouped(DayColumn(movements, 0, NetDelta), MovementKeys(movements), {k}) == DeltasAt(movements, k);
  }

  function Quantities(stock: map<Key, Stock>, keys: set<Key>): map<Key, int> {
    map k | k in keys :: QuantityAt(stock, k)
  }

  lemma NoRowNoQuantity(stock: map<Key, Stock>, keys: set<Key>)
    ensures Total(Quantities(stock, keys + stock.Keys)) == Total(Quantities(stock, stock.Keys))
  {
    var extra := Quantities(stock, keys - stock.Keys);
    assert Quantities(stock, keys + stock.Keys) == Quantities(stock, stock.Keys) + extra;
    TotalOfUnion(Quantities(stock, keys + stock.Keys), Quantities(stock, stock.Keys), extra);
    TotalAllZero(extra);
  }

  /** Where every row is the sum of its movements, the movement report over all time nets to the stock of all rows. */
  lemma MovementsExplainStock(stock: map<Key, Stock>, movements: seq<Movement>)
    requires forall k :: QuantityAt(stock, k) == MovementSum(movements, AtKey(k))
    ensures InWindow(movements, 0, NetDelta) == Total(Quantities(stock, stock.Keys))
  {
    var column, key := DayColumn(movements, 0, NetDelta), MovementKeys(movements);
    var keys := key.Values + stock.Keys;
    forall k | k in keys ensures Quantities(stock, keys)[k] == Total(Grouped(column, key, {k})) {
      KeyBucket(movements, k);
    }
    BucketsAddUp(column, key, keys, Quantities(stock, keys));
    AllGrouped(column, key, keys);
    NoRowNoQuantity(stock, key.Values);
  }

  /** In every reachable state: the dashboard hides no stock of an active product, and the movement report over all
      time, inbound less outbound, is the quantity on all inventory rows. */
  lemma ReportLaw(ops: seq<Op>)
    requires AllWellFormed(ops)
    ensures var db := Run(EMPTY, ops);
            && Dashboard(db, OnHandQuantity) == Total(ActiveStock(db))
            && Total(Daily(db.movements, 0, Inbound)) - Total(Daily(db.movements, 0, Outbound))
                == Total(Quantities(db.stock, db.stock.Keys))
  {
    var db := Run(EMPTY, ops);
    EmptyInv();
    RunInv(EMPTY, ops);
    DashboardHidesNothing(db);
    MovementReport(db.movements, 0);
    StockLaw(ops, 0);
    MovementsExplainStock(db.stock, db.movements);
  }
}
