/** `stockService`: quantities of supplies per (catalog item, office) in the `stock` store,
    and the `stockTransactions` log of adjustments. `now` is the clock reading. */
module StockService {
  import opened Common
  import opened RecordStore
  import opened Joins
  import opened Ordering
  import opened OfficeService
  import opened CatalogService

  datatype Stock = Stock(stockID: Option<int>, catalogID: int, officeID: int, quantityOnHand: int)

  datatype StockAction =
    | StockAdded
    | Issued
    | CountCorrectionIncrease
    | CountCorrectionDecrease
    | WrittenOff

  datatype StockTransaction = StockTransaction(
    transactionID: Option<int>,
    stockID: int,
    action: StockAction,
    quantityChange: int,
    notes: Option<string>,
    timestamp: int)

  /** A stock row as listed; `None` where the non-null assertion lets `undefined` through. */
  datatype DetailedStock = DetailedStock(stock: Stock, catalogItem: Option<CatalogItem>, office: Option<Office>)

  /** What `addStock` resolves with: the key `put` yields for a topped-up row, or the new row. */
  datatype AddStockOutcome = Updated(key: int) | Created(row: Stock)

  /** "Stock item not found.", "Stock quantity cannot be negative.", or a failed request. */
  datatype StockError = StockNotFound | NegativeQuantity | StoreFailure(error: StoreError)

  const StockStoreName: string := "stock"
  const TransactionStoreName: string := "stockTransactions"

  function StockKey(s: Stock): Option<int> { s.stockID }
  function WithStockKey(s: Stock, k: int): Stock { s.(stockID := Some(k)) }
  function StockPath(): KeyPath<Stock> { KeyPath(StockKey, WithStockKey) }

  function StockTransactionKey(t: StockTransaction): Option<int> { t.transactionID }
  function WithStockTransactionKey(t: StockTransaction, k: int): StockTransaction { t.(transactionID := Some(k)) }
  function StockTransactionPath(): KeyPath<StockTransaction> { KeyPath(StockTransactionKey, WithStockTransactionKey) }

  ghost predicate IsStockStore(s: ObjectStore<Stock>)
    reads s
  {
    s.Valid() && s.path == StockPath()
  }

  ghost predicate IsStockLog(s: ObjectStore<StockTransaction>)
    reads s
  {
    s.Valid() && s.path == StockTransactionPath()
  }

  /** No stored row has a negative quantity on hand. */
  predicate NoNegativeStock(rows: map<int, Stock>)
  {
    forall k :: k in rows ==> rows[k].quantityOnHand >= 0
  }

  function CatalogItemOf(c: CatalogItem): CatalogItem { c }
  function OfficeOf(o: Office): Office { o }

  /** `stockLevels.map(stock => ({ ...stock, catalogItem: catalogMap.get(..)!, office: officeMap.get(..)! }))`. */
  function JoinStock(rows: seq<Stock>, catalog: seq<CatalogItem>, offices: seq<Office>): (r: seq<DetailedStock>)
    ensures |r| == |rows|
    ensures forall i :: 0 <= i < |r| ==> r[i].stock == rows[i]
  {
    var catalogMap := IndexBy(catalog, CatalogKey, CatalogItemOf);
    var officeMap := IndexBy(offices, OfficeKey, OfficeOf);
    seq(|rows|, i requires 0 <= i < |rows| =>
      DetailedStock(rows[i], MapGet(catalogMap, rows[i].catalogID), MapGet(officeMap, rows[i].officeID)))
  }

  /** `detailedStock.catalogItem?.type === 'Supply'`. */
  predicate IsSupplyRow(d: DetailedStock)
  {
    d.catalogItem.Some? && d.catalogItem.value.itemType == Supply
  }

  /** The pipeline of `getDetailedStockLevels`: join, then keep the supply rows. */
  function DetailedStockLevels(rows: seq<Stock>, catalog: seq<CatalogItem>, offices: seq<Office>): seq<DetailedStock>
  {
    Filter(JoinStock(rows, catalog, offices), IsSupplyRow)
  }

  /** A stock row's catalog item is the (last) catalog entry with its id. */
  predicate SupplyAt(catalog: seq<CatalogItem>, catalogID: int, j: int)
  {
    LastWithKey(catalog, CatalogKey, catalogID, j) && catalog[j].itemType == Supply
  }

  /** `getDetailedStockLevels` keeps a row exactly when a catalog item with its catalog id
      exists and is a supply, and keeps the row's stored fields. */
  lemma DetailedStockLevelsKeepSupplies(rows: seq<Stock>, catalog: seq<CatalogItem>, offices: seq<Office>, i: int)
    requires 0 <= i < |rows|
    ensures var d := JoinStock(rows, catalog, offices)[i];
      && d.stock == rows[i]
      && (IsSupplyRow(d) <==> exists j :: SupplyAt(catalog, rows[i].catalogID, j))
      && (IsSupplyRow(d) ==> d in DetailedStockLevels(rows, catalog, offices))
    ensures forall e :: e in DetailedStockLevels(rows, catalog, offices) ==> IsSupplyRow(e) && e.stock in rows
  {
    var joined := JoinStock(rows, catalog, offices);
    IndexByLastWins(catalog, CatalogKey, CatalogItemOf, rows[i].catalogID);
    if IsSupplyRow(joined[i]) {
      var j :| LastWithKey(catalog, CatalogKey, rows[i].catalogID, j) && IndexBy(catalog, CatalogKey, CatalogItemOf)[rows[i].catalogID] == catalog[j];
      assert SupplyAt(catalog, rows[i].catalogID, j);
    }
    forall e | e in DetailedStockLevels(rows, catalog, offices) ensures IsSupplyRow(e) && e.stock in rows {
      var r := DetailedStockLevels(rows, catalog, offices);
      var n :| 0 <= n < |r| && r[n] == e;
      var m :| 0 <= m < |joined| && joined[m] == e;
    }
  }

  /** `getDetailedStockLevels()`. */
  method GetDetailedStockLevels(stock: ObjectStore<Stock>, catalog: ObjectStore<CatalogItem>, offices: ObjectStore<Office>)
    returns (r: seq<DetailedStock>)
    requires IsStockStore(stock) && IsCatalogStore(catalog) && IsOfficeStore(offices)
    ensures r == DetailedStockLevels(stock.All(), catalog.All(), offices.All())
    ensures forall i :: 0 <= i < |r| ==> IsSupplyRow(r[i]) && r[i].stock in stock.records.Values
  {
    var rows := stock.GetAllData();
    var items := GetCatalogItems(catalog);
    var offs := GetOffices(offices);
    r := DetailedStockLevels(rows, items, offs);
    forall i | 0 <= i < |r| ensures IsSupplyRow(r[i]) && r[i].stock in stock.records.Values {
      assert r[i] in r;
      DetailedStockLevelsKeepSupplies(rows, items, offs, 0);
    }
  }

  predicate SameSlot(s: Stock, catalogID: int, officeID: int)
  {
    s.catalogID == catalogID && s.officeID == officeID
  }

  /** `rows.find(s => s.catalogID === catalogID && s.officeID === officeID)`, as the index of
      the first match. */
  function FindSlot(rows: seq<Stock>, catalogID: int, officeID: int): (r: Option<nat>)
    ensures r.Some? ==> r.value < |rows| && SameSlot(rows[r.value], catalogID, officeID)
    ensures r.Some? ==> forall i :: 0 <= i < r.value ==> !SameSlot(rows[i], catalogID, officeID)
    ensures r.None? ==> forall i :: 0 <= i < |rows| ==> !SameSlot(rows[i], catalogID, officeID)
  {
    if rows == [] then None
    else if SameSlot(rows[0], catalogID, officeID) then Some(0)
    else match FindSlot(rows[1..], catalogID, officeID)
      case None => None
      case Some(n) => Some(n + 1)
  }

  /** What `addStock` does to the `stock` store: top up the first row of that
      (catalog item, office) pair in key order, or add a new row holding `quantityToAdd`. */
  function AddStockTo(st: StoreState<Stock>, catalogID: int, officeID: int, quantityToAdd: int)
    : (out: (StoreState<Stock>, Result<AddStockOutcome, StoreError>))
    requires WellFormed(st, StockPath())
    ensures WellFormed(out.0, StockPath())
  {
    var all := GetAll(st, StockPath());
    match FindSlot(all, catalogID, officeID)
    case Some(i) =>
      var put := TopUp(st, all[i], quantityToAdd);
      (put.0, AsUpdated(put.1))
    case None =>
      var add := NewRow(st, catalogID, officeID, quantityToAdd);
      (add.0, AsCreated(add.1, Stock(None, catalogID, officeID, quantityToAdd)))
  }

  /** The `put` of `row` with `quantityToAdd` more on hand. */
  function TopUp(st: StoreState<Stock>, row: Stock, quantityToAdd: int): (out: (StoreState<Stock>, Result<int, StoreError>))
    requires WellFormed(st, StockPath())
    ensures WellFormed(out.0, StockPath())
  {
    Put(st, StockPath(), row.(quantityOnHand := row.quantityOnHand + quantityToAdd))
  }

  /** The `add` of a new row for the pair holding `quantityToAdd`. */
  function NewRow(st: StoreState<Stock>, catalogID: int, officeID: int, quantityToAdd: int)
    : (out: (StoreState<Stock>, Result<int, StoreError>))
    requires WellFormed(st, StockPath())
    ensures WellFormed(out.0, StockPath())
  {
    Add(st, StockPath(), Stock(None, catalogID, officeID, quantityToAdd))
  }

  /** The key `put` yields, as `addStock`'s result for a topped-up row. */
  function AsUpdated(key: Result<int, StoreError>): (r: Result<AddStockOutcome, StoreError>)
    ensures r.Ok? <==> key.Ok?
    ensures key.Ok? ==> r.value == Updated(key.value)
    ensures key.Err? ==> r.error == key.error
  {
    match key
    case Ok(k) => Ok(Updated(k))
    case Err(e) => Err(e)
  }

  /** The key `add` yields for `row`, as `addStock`'s result: the row under that key. */
  function AsCreated(key: Result<int, StoreError>, row: Stock): (r: Result<AddStockOutcome, StoreError>)
    ensures r.Ok? <==> key.Ok?
    ensures key.Ok? ==> r.value == Created(row.(stockID := Some(key.value)))
    ensures key.Err? ==> r.error == key.error
  {
    match key
    case Ok(k) => Ok(Created(row.(stockID := Some(k))))
    case Err(e) => Err(e)
  }

  /** With a row for the pair, `addStock` adds `quantityToAdd` to the first such row (in key
      order), changes nothing else, creates no row, and resolves with that row's key. */
  lemma AddStockTopsUp(st: StoreState<Stock>, catalogID: int, officeID: int, quantityToAdd: int, k: int)
    requires WellFormed(st, StockPath())
    requires k in st.records && SameSlot(st.records[k], catalogID, officeID)
    requires forall j :: j in st.records && j < k ==> !SameSlot(st.records[j], catalogID, officeID)
    ensures var (st', res) := AddStockTo(st, catalogID, officeID, quantityToAdd);
      && res == Ok(Updated(k))
      && st'.records == st.records[k := st.records[k].(quantityOnHand := st.records[k].quantityOnHand + quantityToAdd)]
      && st'.records.Keys == st.records.Keys
  {
    var all := GetAll(st, StockPath());
    var n :| 0 <= n < |st.keys| && st.keys[n] == k;
    assert SameSlot(all[n], catalogID, officeID);
    var i := FindSlot(all, catalogID, officeID).value;
    assert i == n;
  }

  /** Without a row for the pair, `addStock` inserts exactly one row, under the generated key,
      holding `quantityToAdd`, and resolves with it; a failed request changes nothing. */
  lemma AddStockInserts(st: StoreState<Stock>, catalogID: int, officeID: int, quantityToAdd: int)
    requires WellFormed(st, StockPath())
    requires forall k :: k in st.records ==> !SameSlot(st.records[k], catalogID, officeID)
    ensures var (st', res) := AddStockTo(st, catalogID, officeID, quantityToAdd);
      && (res.Ok? <==> st.current <= MaxGeneratedKey)
      && (res.Ok? ==>
            var row := Stock(Some(st.current), catalogID, officeID, quantityToAdd);
            res == Ok(Created(row)) && st.current !in st.records && st'.records == st.records[st.current := row])
      && (res.Err? ==> st' == st)
  {
    var all := GetAll(st, StockPath());
    forall i | 0 <= i < |all| ensures !SameSlot(all[i], catalogID, officeID) {
      assert all[i] == st.records[st.keys[i]];
    }
  }

  /** Adding a non-negative amount never makes a quantity on hand negative. */
  lemma AddStockKeepsNoNegative(st: StoreState<Stock>, catalogID: int, officeID: int, quantityToAdd: int)
    requires WellFormed(st, StockPath()) && NoNegativeStock(st.records) && quantityToAdd >= 0
    ensures NoNegativeStock(AddStockTo(st, catalogID, officeID, quantityToAdd).0.records)
  {
    var all := GetAll(st, StockPath());
    match FindSlot(all, catalogID, officeID)
    case Some(i) =>
      var row := all[i];
      assert row == st.records[st.keys[i]] && row.quantityOnHand >= 0;
      var put := TopUp(st, row, quantityToAdd);
      assert put.0.records == st.records[st.keys[i] := row.(quantityOnHand := row.quantityOnHand + quantityToAdd)];
    case None =>
      var add := NewRow(st, catalogID, officeID, quantityToAdd);
      assert add.1.Ok? ==> add.0.records == st.records[add.1.value := Stock(Some(add.1.value), catalogID, officeID, quantityToAdd)];
  }

  /** `addStockTo` on a pair that has a row: one `put` of the topped-up row. */
  lemma AddStockToFound(st: StoreState<Stock>, catalogID: int, officeID: int, quantityToAdd: int, i: nat)
    requires WellFormed(st, StockPath())
    requires FindSlot(GetAll(st, StockPath()), catalogID, officeID) == Some(i)
    ensures var put := TopUp(st, GetAll(st, StockPath())[i], quantityToAdd);
      AddStockTo(st, catalogID, officeID, quantityToAdd) == (put.0, AsUpdated(put.1))
  {
  }

  /** `addStockTo` on a pair without a row: one `add` of a new row. */
  lemma AddStockToMissing(st: StoreState<Stock>, catalogID: int, officeID: int, quantityToAdd: int)
    requires WellFormed(st, StockPath())
    requires FindSlot(GetAll(st, StockPath()), catalogID, officeID) == None
    ensures var add := NewRow(st, catalogID, officeID, quantityToAdd);
      AddStockTo(st, catalogID, officeID, quantityToAdd) == (add.0, AsCreated(add.1, Stock(None, catalogID, officeID, quantityToAdd)))
  {
  }

  /** `addStock(catalogID, officeID, quantityToAdd)`: reads every row, finds the pair with
      `find`, then writes once. No stock transaction is written. */
  method AddStock(stock: ObjectStore<Stock>, catalogID: int, officeID: int, quantityToAdd: int)
    returns (res: Result<AddStockOutcome, StoreError>)
    requires IsStockStore(stock)
    modifies stock
    ensures IsStockStore(stock)
    ensures (stock.State(), res) == AddStockTo(old(stock.State()), catalogID, officeID, quantityToAdd)
  {
    ghost var st := stock.State();
    var allStock := stock.GetAllData();
    assert allStock == GetAll(st, StockPath());
    var existing := FindSlot(allStock, catalogID, officeID);
    if existing.Some? {
      var row := allStock[existing.value];
      var updated := row.(quantityOnHand := row.quantityOnHand + quantityToAdd);
      var key := stock.UpdateData(updated);
      assert (stock.State(), key) == TopUp(st, row, quantityToAdd);
      res := AsUpdated(key);
      AddStockToFound(st, catalogID, officeID, quantityToAdd, existing.value);
    } else {
      var newStock := Stock(None, catalogID, officeID, quantityToAdd);
      var key := stock.AddData(newStock);
      assert (stock.State(), key) == NewRow(st, catalogID, officeID, quantityToAdd);
      res := AsCreated(key, newStock);
      AddStockToMissing(st, catalogID, officeID, quantityToAdd);
    }
  }

  /** The actions that take stock away. */
  predicate Decreases(action: StockAction)
  {
    action == Issued || action == CountCorrectionDecrease || action == WrittenOff
  }

  /** The signed effect of an adjustment on the quantity on hand. */
  function SignedChange(action: StockAction, quantityChange: int): int
  {
    if Decreases(action) then -quantityChange else quantityChange
  }

  /** `adjustStockQuantity(stockID, action, quantityChange, notes)`: rejects without writing
      when the row is missing or the new quantity would be negative; otherwise writes the new
      quantity and then appends one transaction. The two writes are not atomic: a failed log
      write leaves the updated row in place. */
  method AdjustStockQuantity(stock: ObjectStore<Stock>, log: ObjectStore<StockTransaction>, stockID: int,
                             action: StockAction, quantityChange: int, notes: Option<string>, now: int)
    returns (res: Result<Stock, StockError>)
    requires IsStockStore(stock) && IsStockLog(log)
    modifies stock, log
    ensures IsStockStore(stock) && IsStockLog(log)
    ensures stockID !in old(stock.records) ==>
      res == Err(StockNotFound) && stock.State() == old(stock.State()) && log.State() == old(log.State())
    ensures stockID in old(stock.records) ==>
      var row := old(stock.records)[stockID];
      var newQuantity := row.quantityOnHand + SignedChange(action, quantityChange);
      && (newQuantity < 0 ==>
            res == Err(NegativeQuantity) && stock.State() == old(stock.State()) && log.State() == old(log.State()))
      && (newQuantity >= 0 ==>
            && stock.records == old(stock.records)[stockID := row.(quantityOnHand := newQuantity)]
            && (res.Ok? <==> old(log.current) <= MaxGeneratedKey)
            && (res.Ok? ==>
                  && res.value == row.(quantityOnHand := newQuantity)
                  && log.records == old(log.records)[old(log.current) :=
                       StockTransaction(Some(old(log.current)), stockID, action, quantityChange, notes, now)])
            && (res.Err? ==> log.State() == old(log.State())))
    ensures res.Ok? ==> res.value.quantityOnHand >= 0
    ensures NoNegativeStock(old(stock.records)) ==> NoNegativeStock(stock.records)
  {
    var stockItem := stock.GetDataByKey(stockID);
    if stockItem.None? {
      return Err(StockNotFound);
    }
    var item := stockItem.value;
    assert item == old(stock.records)[stockID] && item.stockID == Some(stockID);
    var newQuantity := item.quantityOnHand;
    if action == Issued || action == CountCorrectionDecrease || action == WrittenOff {
      newQuantity := newQuantity - quantityChange;
    } else {
      newQuantity := newQuantity + quantityChange;
    }
    assert newQuantity == item.quantityOnHand + SignedChange(action, quantityChange);
    if newQuantity < 0 {
      return Err(NegativeQuantity);
    }
    var updatedStockItem := item.(quantityOnHand := newQuantity);
    var transaction := StockTransaction(None, stockID, action, quantityChange, notes, now);
    var _ := stock.UpdateData(updatedStockItem);
    assert stock.records == old(stock.records)[stockID := updatedStockItem];
    ghost var logBefore := log.State();
    assert logBefore == old(log.State());
    var logged := log.AddData(transaction);
    assert logged.Ok? ==> log.records == logBefore.records[logBefore.current := transaction.(transactionID := Some(logBefore.current))];
    if logged.Err? {
      return Err(StoreFailure(logged.error));
    }
    res := Ok(updatedStockItem);
  }

  /** The field the `stockID_idx` index is on. */
  function StockIdOf(t: StockTransaction): int { t.stockID }

  function StockTransactionTime(t: StockTransaction): int { t.timestamp }

  /** `getTransactionsForStockItem(stockID)`: exactly the transactions of that row, each
      once, newest first. */
  method GetTransactionsForStockItem(log: ObjectStore<StockTransaction>, stockID: int) returns (r: seq<StockTransaction>)
    requires IsStockLog(log)
    ensures NewestFirstOrder(r, StockTransactionTime)
    ensures forall i :: 0 <= i < |r| ==> r[i].stockID == stockID && r[i] in log.All()
    ensures forall k :: k in log.records && log.records[k].stockID == stockID ==> log.records[k] in r
    ensures multiset(r) == multiset(GetAllByIndex(log.State(), log.path, StockIdOf, stockID))
  {
    var items := log.GetAllDataByIndex(StockIdOf, stockID);
    r := NewestFirst(items, StockTransactionTime);
    SortedSameMembers(items, StockTransactionTime);
    forall i | 0 <= i < |r| ensures r[i] in items {
      assert r[i] in r;
    }
  }
}
