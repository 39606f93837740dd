/** What the figures of the reports count and add up, said of rows and movements alone. */
module ReportAnswers {
  import opened Sums
  import opened Ledger
  import opened Reports

  /** A row of an active product in an active warehouse. */
  ghost predicate Shown(db: Db, k: Key) {
    && k in db.stock
    && k.product in db.products && db.products[k.product]
    && k.warehouse in db.warehouses && db.warehouses[k.warehouse]
  }

  /** The rows that the dashboard is made of. */
  ghost function ShownRows(db: Db): set<Key> {
    set k | k in db.stock && Shown(db, k)
  }

  /** Those of one warehouse. */
  ghost function ShownAt(db: Db, w: Id): set<Key> {
    set k | k in db.stock && Shown(db, k) && k.warehouse == w
  }

  ghost function OnHandOf(db: Db, rows: set<Key>): map<Key, int> {
    map k | k in rows && k in db.stock :: db.stock[k].quantity
  }

  ghost function ReservedOf(db: Db, rows: set<Key>): map<Key, int> {
    map k | k in rows && k in db.stock :: db.stock[k].reserved
  }

  ghost function AvailableOf(db: Db, rows: set<Key>): map<Key, int> {
    map k | k in rows && k in db.stock :: db.stock[k].quantity - db.stock[k].reserved
  }

  /** The rows with a reorder point that what is on hand and not reserved does not exceed. */
  ghost function RunningLow(db: Db, rows: set<Key>): set<Key> {
    set k | k in rows && k in db.stock && db.stock[k].reorderPoint > 0
            && db.stock[k].quantity - db.stock[k].reserved <= db.stock[k].reorderPoint
  }

  /** Each of the five figures of a set of rows. */
  ghost predicate Figures(db: Db, rows: set<Key>, figure: Figure -> int) {
    && figure(OnHandQuantity) == Total(OnHandOf(db, rows))
    && figure(ReservedQuantity) == Total(ReservedOf(db, rows))
    && figure(AvailableQuantity) == Total(AvailableOf(db, rows))
    && figure(Positions) == |rows|
    && figure(LowStockPositions) == |RunningLow(db, rows)|
  }

  lemma SummedFigures(db: Db, rows: set<Key>)
    requires rows <= db.stock.Keys
    ensures Aggregate(db.stock, rows, OnHandQuantity) == Total(OnHandOf(db, rows))
    ensures Aggregate(db.stock, rows, ReservedQuantity) == Total(ReservedOf(db, rows))
    ensures Aggregate(db.stock, rows, AvailableQuantity) == Total(AvailableOf(db, rows))
  {
    assert Column(db.stock, rows, OnHandQuantity) == OnHandOf(db, rows);
    assert Column(db.stock, rows, ReservedQuantity) == ReservedOf(db, rows);
    assert Column(db.stock, rows, AvailableQuantity) == AvailableOf(db, rows);
  }

  lemma CountedFigures(db: Db, rows: set<Key>)
    requires rows <= db.stock.Keys
    ensures Aggregate(db.stock, rows, Positions) == |rows|
    ensures Aggregate(db.stock, rows, LowStockPositions) == |RunningLow(db, rows)|
  {
    TotalOfOnes(rows);
    assert Column(db.stock, rows, Positions) == Ones(rows);
    CountIsSize(db.stock, rows);
    assert RunningLow(db, rows) == set k | k in rows && IsLow(db.stock[k]);
  }

  /** The dashboard adds up quantities, reservations and what is left of the rows shown, and counts them, and those that
      run low. */
  lemma DashboardAnswer(db: Db)
    ensures Figures(db, ShownRows(db), f => Dashboard(db, f))
  {
    assert DashboardRows(db) == ShownRows(db);
    SummedFigures(db, ShownRows(db));
    CountedFigures(db, ShownRows(db));
  }

  /** So does the report of each active warehouse, of its own rows; others have none. */
  lemma WarehouseAnswer(db: Db, w: Id)
    ensures forall f :: w in ByWarehouse(db, f) <==> w in db.warehouses && db.warehouses[w]
    ensures w in db.warehouses && db.warehouses[w] ==>
              Figures(db, ShownAt(db, w), f requires w in ByWarehouse(db, f) => ByWarehouse(db, f)[w])
  {
    if w in db.warehouses && db.warehouses[w] {
      assert WarehouseRows(db, w) == ShownAt(db, w);
      SummedFigures(db, ShownAt(db, w));
      CountedFigures(db, ShownAt(db, w));
    }
  }

  /** The low-stock list selects, of the rows shown, those that run low, for the warehouse asked for. */
  lemma LowStockAnswer(db: Db, warehouse: Option<Id>, k: Key)
    ensures k in LowStockKeys(db, warehouse)
       <==> k in RunningLow(db, ShownRows(db)) && (warehouse == None || warehouse == Some(k.warehouse))
  {
  }

  // ---------------------------------------------------------------- movements per day

  /** The movements since `from` that fall on the given day, by position. */
  ghost function OnDay(movements: seq<Movement>, from: int, day: nat): set<nat> {
    set n: nat | n < |movements| && movements[n].at >= from && movements[n].at / 86_400_000 == day
  }

  ghost function Ins(movements: seq<Movement>, positions: set<nat>): map<nat, int> {
    map n | n in positions && n < |movements| :: if movements[n].delta > 0 then movements[n].delta else 0
  }

  ghost function Outs(movements: seq<Movement>, positions: set<nat>): map<nat, int> {
    map n | n in positions && n < |movements| :: if movements[n].delta < 0 then -movements[n].delta else 0
  }

  /** A day is listed when something moved on it, with what came in, what went out, and how many movements there
      were. */
  lemma DayAnswer(movements: seq<Movement>, from: int, day: nat)
    ensures forall f :: day in Daily(movements, from, f) <==> OnDay(movements, from, day) != {}
    ensures OnDay(movements, from, day) != {} ==>
              && Daily(movements, from, Inbound)[day] == Total(Ins(movements, OnDay(movements, from, day)))
              && Daily(movements, from, Outbound)[day] == Total(Outs(movements, OnDay(movements, from, day)))
              && Daily(movements, from, MovementCount)[day] == |OnDay(movements, from, day)|
  {
    var days, positions := Days(movements, from), OnDay(movements, from, day);
    assert forall n :: n in positions <==> n in days && days[n] == day;
    if n :| n in positions {
      assert days[n] in days.Values;
      assert Grouped(DayColumn(movements, from, Inbound), days, {day}) == Ins(movements, positions);
      assert Grouped(DayColumn(movements, from, Outbound), days, {day}) == Outs(movements, positions);
      TotalOfOnes(positions);
      assert Grouped(DayColumn(movements, from, MovementCount), days, {day}) == Ones(positions);
    }
  }
}
