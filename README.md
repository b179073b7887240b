# Asset management data layer, in Dafny

This project models the data layer and the pure logic of a browser-based asset and
inventory administration tool. The tool keeps offices, employees, catalog items, equipment
instances, supply stock, receiving vouchers and audit logs in an in-browser IndexedDB
database. The model covers:

- **The record store** (`RecordStore`). `class ObjectStore` stands for one object store, with
  an in-line key path and a key generator. `add`, `put`, `delete`, `get`, `getAll` and the
  index read follow the W3C Indexed Database API (key generator: section 2.11). Pure functions
  `Add`, `Put`, `Delete` and `Get` state their effect on a `StoreState`. `class Database`
  models `initDB`'s create-if-missing upgrade.
- **The services**. The office, catalog, employee, voucher, asset, history, asset-transaction,
  equipment and stock services are methods on `ObjectStore` objects. The joins of the
  listings are functions with placeholder names (`Joins`). History reads use a stable
  newest-first sort (`Ordering`).
- **The list pages**. Their `fetch*` callbacks are in `IndexPages` and `Settings`: a
  case-insensitive search, exact filters, a `ceil` page count and a slice (`Listing`).
  The `DataTable` component's page cursor and filter map are a class (`DataTables`).
- **The dashboard aggregation** of `useDashboardStats` (`Dashboard`).
- **The submit handlers** of the receive, stock-add, asset-create and asset-edit pages
  (`PageSubmits`).
- **The zod validation schemas** and their shared `parseInt` transform (`Schemas`, `Numbers`).

The clock is an integer parameter `now` in milliseconds. A promise that rejects is an `Err`
result or a `None`. The `Promise.all` groups are sequential writes or reads.

## Model

| member | source | states |
|---|---|---|
| RecordStore.Add | src/utils/indexedDB.ts:46-55 | a record without a key is stored under the generator's current number, which then grows; a record with a key is stored under that key only if the key is new; a failed add changes nothing |
| RecordStore.Put | src/utils/indexedDB.ts:70-79 | upsert by primary key, resolving with the key; a keyless record gets a generated key like `add` |
| RecordStore.Delete | src/utils/indexedDB.ts:82-91 | the key is gone afterwards, whether or not it was present; the generator is untouched |
| RecordStore.GetAllExact | src/utils/indexedDB.ts:58-67 | `getAll` yields every stored record exactly once, in ascending key order |
| RecordStore.AddThenGet | src/utils/indexedDB.ts:46-55 | after a successful add, `get` of the returned key yields the stored record carrying that key, and every other key reads as before |
| RecordStore.PutThenGet | src/utils/indexedDB.ts:70-79 | after `put`, `get` of the record's key yields the new record and every other key is unchanged |
| RecordStore.DeleteThenGet | src/utils/indexedDB.ts:82-102 | after `delete`, `get` of that key is `undefined` and every other key is unchanged |
| RecordStore.GeneratedKeysIncrease | src/utils/indexedDB.ts:46-55 | two successive generated keys are strictly increasing |
| RecordStore.ObjectStore.AddData | src/utils/indexedDB.ts:46-55 | `addData` changes the store exactly as `Add` says and resolves with its result |
| RecordStore.ObjectStore.UpdateData | src/utils/indexedDB.ts:70-79 | `updateData` changes the store exactly as `Put` says and resolves with the key |
| RecordStore.ObjectStore.DeleteData | src/utils/indexedDB.ts:82-91 | `deleteData` always resolves `true` and leaves the store as `Delete` says |
| RecordStore.ObjectStore.GetDataByKey | src/utils/indexedDB.ts:93-102 | the stored record or `undefined`; the store is not changed |
| RecordStore.ObjectStore.GetAllData | src/utils/indexedDB.ts:58-67 | exactly the stored records, each once, in key order; the store is not changed |
| RecordStore.ObjectStore.GetAllDataByIndex | src/services/stockService.ts:125 | exactly the records whose indexed field equals the query |
| RecordStore.Database.UpgradeNeeded | src/utils/indexedDB.ts:24-41 | creates `offices`, `employees` and `assets` only where missing; other stores are kept |
| RecordStore.Database.InitDB | src/utils/indexedDB.ts:9-43 | opening at a lower version upgrades and assigns the handle; at the same version nothing is created; a newer database fails the open |
| RecordStore.UpgradeIsIdempotent | src/utils/indexedDB.ts:27-39 | on a database that already has the three stores the upgrade creates nothing |
| Joins.IndexByLastWins | src/pages/asset/AssetService.ts:38-39 | a `new Map(...)` lookup finds a key exactly when some entry carries it, and yields the last such entry |
| Joins.NameOfId | src/pages/asset/AssetService.ts:44 | `id ? map.get(id) \|\| placeholder : absent`, with `null` and `0` falsy |
| Ordering.NewestFirst | src/services/assetTransactionService.ts:21 | the sort's result is ordered by timestamp non-increasing and is a permutation of its input |
| Ordering.SortedSameMembers | src/services/assetTransactionService.ts:20-21 | sorting loses and adds nothing |
| OfficeService.GetOffices | src/pages/office/OfficeService.ts:18-21 | exactly the stored offices |
| OfficeService.AddOffice | src/pages/office/OfficeService.ts:24-28 | the input plus `officeID` = the generated key, stored under it |
| OfficeService.UpdateOffice | src/pages/office/OfficeService.ts:31-34 | the office with that id is replaced; resolves with the key |
| OfficeService.DeleteOffice | src/pages/office/OfficeService.ts:37-40 | the office is removed without checking references; resolves `true` |
| OfficeService.GetOfficeById | src/pages/office/OfficeService.ts:42-45 | the stored office or `undefined` |
| CatalogService.GetCatalogItems | src/services/assetCatalogService.ts:16-18 | exactly the stored items |
| CatalogService.GetCatalogItemById | src/services/assetCatalogService.ts:19-21 | the stored item or `undefined` |
| CatalogService.AddCatalogItem | src/services/assetCatalogService.ts:22-25 | the input plus `catalogID` = the generated key |
| CatalogService.UpdateCatalogItem | src/services/assetCatalogService.ts:26-28 | upsert by `catalogID` |
| CatalogService.DeleteCatalogItem | src/services/assetCatalogService.ts:29-32 | removes the item without looking for instances or stock that refer to it |
| EmployeeService.EmployeeOfficeName | src/pages/employee/EmployeeService.ts:33-36 | the office name is the matched office's name, 'Unknown Office' when the id is set but unmatched, 'N/A' when it is null or 0 |
| EmployeeService.GetEmployees | src/pages/employee/EmployeeService.ts:24-37 | one entry per stored employee with its fields preserved |
| EmployeeService.GetEmployeeById | src/pages/employee/EmployeeService.ts:40-43 | the stored employee or `undefined` |
| EmployeeService.AddEmployee | src/pages/employee/EmployeeService.ts:46-50 | the input plus `employeeID` = the generated key |
| EmployeeService.UpdateEmployee | src/pages/employee/EmployeeService.ts:53-56 | upsert by `employeeID` |
| EmployeeService.DeleteEmployee | src/pages/employee/EmployeeService.ts:59-62 | the employee is removed; resolves `true` |
| VoucherService.VoucherEmployeeName | src/services/receivingVouchers.ts:28-31 | the receiving employee's name is "First Last" when matched, 'Unknown' when set but unmatched, 'N/A' when null or 0 |
| VoucherService.GetDetailedVouchers | src/services/receivingVouchers.ts:20-32 | one entry per stored voucher with its fields preserved |
| VoucherService.GetVoucherById | src/services/receivingVouchers.ts:34-36 | the stored voucher or `undefined` |
| VoucherService.AddVoucher | src/services/receivingVouchers.ts:38-41 | the input plus `voucherID` = the generated key |
| VoucherService.UpdateVoucher | src/services/receivingVouchers.ts:43-45 | upsert by `voucherID` |
| AssetService.AssetNames | src/pages/asset/AssetService.ts:41-45 | `officeName` is the office's name or 'Unknown Office'; `assignedToEmployeeName` is "First Last", 'Unknown Employee' for an unmatched id, or 'N/A' for null or 0 |
| AssetService.GetAssets | src/pages/asset/AssetService.ts:30-46 | one enriched entry per stored asset, with every stored field preserved |
| AssetService.GetAssetById | src/pages/asset/AssetService.ts:48-50 | the stored asset or `undefined` |
| AssetService.AddAsset | src/pages/asset/AssetService.ts:52-55 | the input plus `assetID` = the generated key |
| AssetService.UpdateAsset | src/pages/asset/AssetService.ts:57-59 | a put in `assets` only; no history entry is written |
| AssetService.DeleteAsset | src/pages/asset/AssetService.ts:61-63 | a delete in `assets` only; resolves `true` |
| HistoryService.AddHistoryEntry | src/pages/asset/HistoryService.ts:15-18 | the entry plus `historyID` = the generated key; no earlier entry changes |
| HistoryService.GetHistoryForAsset | src/pages/asset/HistoryService.ts:20-24 | exactly the entries of that asset, each once, newest first |
| AssetTransactionService.AddTransaction | src/services/assetTransactionService.ts:14-17 | the transaction plus `transactionID` = the generated key; no earlier transaction changes |
| AssetTransactionService.GetTransactionsForInstance | src/services/assetTransactionService.ts:19-22 | exactly the transactions of that instance, a permutation of the index read, newest first |
| EquipmentService.DetailedJoin | src/services/equipmentService.ts:29-46 | each listed instance carries the catalog item and office with its ids, if any (the last one in list order); the employee is present exactly when the assignment is truthy and matches a listed employee, and is then the last such employee |
| EquipmentService.GetDetailedInstances | src/services/equipmentService.ts:29-47 | one entry per stored instance, in key order |
| EquipmentService.GetInstanceById | src/services/equipmentService.ts:49-51 | the stored instance or `undefined` |
| EquipmentService.AddInstanceTo | src/services/equipmentService.ts:53-68 | a failed instance write changes nothing; otherwise the instance is stored under the next key, no stored instance or transaction changes, and the creation is logged under the log's next key unless the log write fails, which keeps the instance and rejects |
| EquipmentService.AddInstance | src/services/equipmentService.ts:53-68 | the instance is stored, then exactly one transaction is logged with the new id, the status as action and the "created with property code" note |
| EquipmentService.ChangeNotesDescribeChanges | src/services/equipmentService.ts:74-92 | one note per changed field among status, assignment and office, in that order; none when none changed |
| EquipmentService.CollectChanges | src/services/equipmentService.ts:74-84 | the `push` loop builds exactly those notes |
| EquipmentService.UpdateInstance | src/services/equipmentService.ts:70-97 | "Instance not found" writes nothing; otherwise one transaction exactly when a tracked field changed, with the new status as action, and the record is always overwritten |
| EquipmentService.DeleteInstance | src/services/equipmentService.ts:99-107 | logs a 'Deleted' transaction, then removes the record without an existence check |
| StockService.DetailedStockLevelsKeepSupplies | src/services/stockService.ts:42-48 | a stock row is kept exactly when its catalog item exists and is a 'Supply', with its stored fields unchanged |
| StockService.GetDetailedStockLevels | src/services/stockService.ts:31-49 | only supply rows, each one a stored row |
| StockService.FindSlot | src/services/stockService.ts:58-60 | `find` returns the first row of the (catalogID, officeID) pair, or none |
| StockService.AddStockTopsUp | src/services/stockService.ts:62-68 | with a row for the pair, its quantity grows by `quantityToAdd` and no row is created |
| StockService.AddStockInserts | src/services/stockService.ts:69-78 | without one, exactly one row holding `quantityToAdd` is inserted under the new key and returned |
| StockService.AddStockKeepsNoNegative | src/services/stockService.ts:52-79 | adding a non-negative amount keeps every quantity non-negative |
| StockService.AddStock | src/services/stockService.ts:52-79 | the store changes exactly as `AddStockTo` says; no stock transaction is written |
| StockService.AdjustStockQuantity | src/services/stockService.ts:80-123 | a missing row or a negative result rejects before any write; otherwise the new quantity (minus for 'Issued', 'Count Correction - Decrease' and 'Written Off', plus otherwise) is written and exactly one transaction appended; stock never goes negative |
| StockService.GetTransactionsForStockItem | src/services/stockService.ts:124-128 | exactly the transactions of that stock row, newest first |
| Listing.CeilDiv | src/pages/asset/AssetIndexPage.tsx:68 | `Math.ceil(n / pageSize)`: the least page count covering `n` rows, 0 exactly for none |
| Listing.Slice | src/pages/asset/AssetIndexPage.tsx:69 | `Array.prototype.slice` with clamped and negative bounds |
| Listing.PageShape | src/pages/asset/AssetIndexPage.tsx:68-69 | a page holds at most `pageSize` rows, is the contiguous, order-preserving slice for page ≥ 1, and is empty past the last page |
| Listing.PagesUpToPrefix | src/pages/asset/AssetIndexPage.tsx:69 | pages `1..n` concatenate to the first `n · pageSize` rows |
| Listing.PagesPartition | src/pages/asset/AssetIndexPage.tsx:68-69 | pages `1..totalPages` concatenate to exactly the filtered list |
| IndexPages.AssetSearchExact | src/pages/asset/AssetIndexPage.tsx:52-65 | a row is listed iff the term is empty or occurs case-insensitively in one of its six fields, and it matches the set filters |
| IndexPages.AssetEmptySearchKeepsAll | src/pages/asset/AssetIndexPage.tsx:52-62 | no term and no filter keep every row |
| IndexPages.AssetPage | src/pages/asset/AssetIndexPage.tsx:48-72 | the page has at most `pageSize` passing rows, and the pages partition the filtered list |
| IndexPages.EquipmentSearchExact | src/pages/equipment/EquipmentIndexPage.tsx:36-44 | an empty term returns all instances; otherwise a row is kept iff the term occurs in catalog name, property code, status, office name or employee name |
| IndexPages.EquipmentMissingCatalogRejects | src/pages/equipment/EquipmentIndexPage.tsx:37-38 | a search over a row without a catalog item throws |
| IndexPages.EquipmentPage | src/pages/equipment/EquipmentIndexPage.tsx:30-53 | page size bound, order, and the pages partition the filtered list |
| IndexPages.StockSearchExact | src/pages/stock/StockIndexPage.tsx:35-41 | an empty term returns all rows; otherwise a row is kept iff the term occurs in catalog name, SKU when present, or office name |
| IndexPages.StockPage | src/pages/stock/StockIndexPage.tsx:29-50 | page size bound, order, partition |
| IndexPages.OfficeSearchExact | src/pages/office/OfficeIndexPage.tsx:33-36 | an office is kept iff the term occurs in its name or address; an empty term keeps all |
| IndexPages.OfficePage | src/pages/office/OfficeIndexPage.tsx:28-44 | page size bound, order, partition |
| IndexPages.CatalogSearchExact | src/pages/catalog/AssetCatalogIndexPage.tsx:39-44 | an item is kept iff the term occurs in name or SKU and it has the filtered type |
| IndexPages.CatalogPage | src/pages/catalog/AssetCatalogIndexPage.tsx:37-49 | page size bound, order, partition |
| IndexPages.EmployeeSearchExact | src/pages/employee/EmployeeIndexPage.tsx:21-25 | an employee is kept iff the term occurs in "First Last", e-mail or office name; an empty term keeps all |
| IndexPages.EmployeePage | src/pages/employee/EmployeeIndexPage.tsx:19-29 | page size bound, order, partition |
| IndexPages.VoucherPages | src/pages/vouchers/ReceivingVoucherIndexPage.tsx:19-25 | the term is ignored, and pages `1..totalPages` concatenate to all vouchers |
| Settings.MockLogs | src/pages/Settings.tsx:29 | 120 entries, entry `i` built from `i` |
| Settings.MockLogsNewestFirst | src/pages/Settings.tsx:29 | ids run from 120 down to 1, newest first, an hour apart under one clock reading |
| Settings.MockLogsCycle | src/pages/Settings.tsx:29 | actions and statuses repeat every 15 entries, users every 10 |
| Settings.AuditSearchExact | src/pages/Settings.tsx:34-36 | a log is kept iff the term is empty or occurs in its user or action, and it has the filtered status and action |
| Settings.AuditPage | src/pages/Settings.tsx:31-40 | page size bound, partition, and `ceil(120 / pageSize)` pages without term or filter |
| DataTables.PreviousPage | src/components/tables/DataTable.tsx:138 | `max(1, p − 1)` never drops below 1 |
| DataTables.NextPage | src/components/tables/DataTable.tsx:145 | `min(totalPages, p + 1)` never exceeds `totalPages` |
| DataTables.CursorStaysInRange | src/components/tables/DataTable.tsx:138-145 | both buttons keep the cursor in `1..totalPages`, and each undoes the other |
| DataTables.NextWalksEveryPage | src/components/tables/DataTable.tsx:145 | pressing Next `n` times advances `n` pages until the last |
| DataTables.DataTable.constructor | src/components/tables/DataTable.tsx:42-47 | the page starts at 1, with no data, no pages, no term and no filters |
| DataTables.DataTable.Previous | src/components/tables/DataTable.tsx:136-138 | moves back one page unless disabled on page 1 |
| DataTables.DataTable.Next | src/components/tables/DataTable.tsx:136-145 | moves forward one page unless disabled on the last |
| DataTables.DataTable.HandleFilterChange | src/components/tables/DataTable.tsx:66-70 | sets only that key and resets the page to 1 |
| DataTables.DataTable.SearchTermSettled | src/components/tables/DataTable.tsx:66 | a changed term resets the page to 1 |
| DataTables.DataTable.LoadData | src/components/tables/DataTable.tsx:50-64 | a resolved fetch shows its page and page count; a rejected one changes neither |
| Dashboard.CatalogIdsBounded | src/hooks/useDashboardStats.ts:33 | the distinct catalog ids are at most as many as the rows |
| Dashboard.TallyCounts | src/hooks/useDashboardStats.ts:39-45 | the tally lists each name once with its number of occurrences, and the counts sum to the number of names |
| Dashboard.EquipmentByOffice | src/hooks/useDashboardStats.ts:39-43 | the reduce loop builds the tally of office names, and throws when an instance has no office |
| Dashboard.FetchStats | src/hooks/useDashboardStats.ts:31-45 | the totals, distinct supplies, low-stock rows and chart, with chart counts summing to the total |
| Dashboard.ChartPerOffice | src/hooks/useDashboardStats.ts:39-45 | one chart entry per distinct office name, carrying that office's instance count |
| Dashboard.LowStockExact | src/hooks/useDashboardStats.ts:36 | the alerts are exactly the rows under 10 |
| PageSubmits.ReceiveEquipment | src/pages/equipment/EquipmentReceivePage.tsx:35-59 | a failed voucher write changes nothing; otherwise one voucher from the form's voucher fields, then the stores and outcomes `ReceiveAll` gives, which keep every promise of `Received` |
| PageSubmits.ReceiveRows | src/pages/equipment/EquipmentReceivePage.tsx:44-57 | the row loop leaves the stores and outcomes exactly as `ReceiveAll` says, keeping every promise of `Received` |
| PageSubmits.ReceiveRow | src/pages/equipment/EquipmentReceivePage.tsx:45-56 | one `addInstance` of the row's instance: shared catalog item, status and office, unassigned, in 'Storage', linked to the voucher |
| PageSubmits.ReceiveAllKeeps | src/pages/equipment/EquipmentReceivePage.tsx:44-57 | no stored instance or transaction changes or disappears, and neither key generator moves back |
| PageSubmits.ReceiveAllNewKeys | src/pages/equipment/EquipmentReceivePage.tsx:44-57 | every new instance is one of the rows' instances, stored under a key handed out during the receipt |
| PageSubmits.ReceiveAllCreated | src/pages/equipment/EquipmentReceivePage.tsx:44-57 | each created instance is its own row's instance under a new key, stored as returned |
| PageSubmits.ReceiveAllIncreasing | src/pages/equipment/EquipmentReceivePage.tsx:44-57 | created ids increase with the row order |
| PageSubmits.ReceiveAllLogCount | src/services/equipmentService.ts:58-66 | the log grows by exactly as many transactions as instances were created |
| PageSubmits.ReceiveAllLogged | src/services/equipmentService.ts:58-66 | every new transaction records the creation of one created instance |
| PageSubmits.ReceiveAllLogsEach | src/services/equipmentService.ts:58-66 | every created instance has its creation transaction among the new ones |
| PageSubmits.UnloggedReceipt | src/services/equipmentService.ts:54-66 | an instance stored under a failed outcome (its log write failed) has no new transaction |
| PageSubmits.ReceiveAllReceived | src/pages/equipment/EquipmentReceivePage.tsx:35-59 | every receipt keeps all the promises above together |
| PageSubmits.AddStockWithVoucher | src/pages/stock/StockAddPage.tsx:27-41 | the voucher is written first; only then one `addStock` with the form's pair and quantity, not linked to the voucher |
| PageSubmits.AssetPayload | src/pages/asset/AssetCreatePage.tsx:13-16 | quantity 1 for Equipment, the form's quantity for Supply, every other field unchanged |
| PageSubmits.CreateAsset | src/pages/asset/AssetCreatePage.tsx:11-17 | exactly one `addAsset` of the payload |
| PageSubmits.EditAsset | src/pages/asset/AssetEditPage.tsx:31-36 | exactly one `updateAsset` of the payload under the loaded asset's id |
| PageSubmits.EditAfterCreateChangesNothing | src/pages/asset/AssetEditPage.tsx:31-36 | saving the edit page with the form the create page just stored writes back the same record and resolves with its id |
| Numbers.LeadingInteger | src/pages/stock/stockAddSchema.ts:10 | `parseInt` reads a leading run of digits up to the first non-digit |
| Numbers.ParseIntNatToString | src/pages/stock/stockAddSchema.ts:10 | the decimal notation of a number parses back to it |
| Numbers.NoLeadingDigitIsNaN | src/pages/stock/stockAddSchema.ts:10-11 | text that does not start with a sign or digit is NaN |
| Numbers.EmptyOrNaNToNullOfId | src/pages/stock/stockAddSchema.ts:8-12 | an id string submitted by a select box becomes that id |
| Schemas.ParseStockAdjust | src/pages/stock/stockAdjustSchema.ts:3-16 | accepted iff stock id ≥ 1, one of the four adjustment actions, and a positive whole quantity; the data carries those values |
| Schemas.StockAddedRejected | src/pages/stock/stockAdjustSchema.ts:6-11 | 'Stock Added' is rejected with an enum issue on `action` |
| Schemas.ParseStockAdd | src/pages/stock/stockAddSchema.ts:3-19 | accepted iff a non-empty date, ids ≥ 1 and a whole quantity ≥ 1; the employee id goes through the transform |
| Schemas.AsStockAddForm | src/pages/stock/StockAddPage.tsx:27 | the accepted data is the stock page's form exactly when both ids are whole, with every field carried over |
| Schemas.RowIssues | src/pages/equipment/equipmentReceiveSchema.ts:4-7 | no issue iff every row has a property code |
| Schemas.ParseEquipmentReceive | src/pages/equipment/equipmentReceiveSchema.ts:10-29 | accepted iff a date, ids ≥ 1, a non-empty status and at least one row, each with a property code; the voucher fields and rows are carried over and the employee id goes through the transform |
| Schemas.AsReceiveForm | src/pages/equipment/EquipmentReceivePage.tsx:35 | the accepted data is the receive page's form exactly when both ids are whole, with every field carried over |
| Schemas.ReceiveNeedsARow | src/pages/equipment/equipmentReceiveSchema.ts:28 | an empty row list is rejected with an issue on `instances` |
| Schemas.ParseEquipmentEdit | src/pages/equipment/equipmentEditSchema.ts:3-14 | accepted iff one of the five statuses and an office id ≥ 1 |
| Schemas.EditAssignmentTransform | src/pages/equipment/equipmentEditSchema.ts:8-12 | empty or absent gives `null`; a submitted id string gives that id |
| Schemas.ParseAsset | src/pages/asset/assetSchema.ts:4-28 | accepted iff code and name of at least 3 characters, a known type, a whole quantity ≥ 1, one of four statuses and an office id ≥ 1 |
| Schemas.AsAssetForm | src/pages/asset/AssetCreatePage.tsx:11 | the accepted data is the asset pages' form exactly when the office id is whole, with every field carried over |
| Schemas.ParseOffice | src/pages/office/officeSchema.ts:4-7 | accepted iff a name of 3 to 100 characters and an address absent, null or at most 255 characters |
| Schemas.ParseCatalog | src/pages/catalog/assetCatalogSchema.ts:3-12 | accepted iff a name of at least 3 characters, a known type and a non-empty unit; an absent unit becomes 'pcs' |
| Schemas.ParseEmployee | src/pages/employee/employeeSchema.ts:4-9 | accepted iff names of 2 to 100 characters, an e-mail by the given check, and an office id that is null or a number |
| Schemas.ParseVoucherEdit | src/pages/vouchers/voucherEditSchema.ts:3-13 | never rejects; the employee id goes through the transform |
| Schemas.ApplyVoucherEdit | src/pages/vouchers/ReceivingVoucherEditPage.tsx:47 | the spread keeps the id and the date received and replaces only the fields sent |

## Left out

- The React rendering, navigation, alerts, debounce timers and the simulated network delay are left out: they carry no stateable behaviour.
- `Promise.all` is modelled as sequential writes and reads. Two fetches of `DataTable` in flight at once, and their race, are not modelled.
- Settings.MockLogs: the clock is read once for all 120 entries, while the code calls `Date.now()` again for each entry. The exact one-hour spacing holds only under that single reading.
- Numbers.ParseInt: returns the exact integer. The conversion to a double (rounding above 2^53, and `-0` for "-0") is not modelled; ids and quantities stay far below 2^53.
- `toLowerCase` is modelled on ASCII letters only. Locale formatting (`toLocaleString`) is display only and left out.
- ISO timestamp strings are modelled as integer milliseconds, so `new Date(x).getTime()` is the integer itself.
- The IndexedDB open, blocked and version events and the transaction life cycle are left out. Only the upgrade's create-if-missing logic and the per-request store effects are modelled.
- RecordStore.Database.UpgradeNeeded: only `offices`, `employees` and `assets` are created, as the code does. The seven other stores the services use are never created by the code shown and are taken as existing.
- RecordStore.ObjectStore.GetAllDataByIndex: `getAllDataByIndex` is imported by three services but defined nowhere. It is modelled as "every record whose indexed field equals the query", and index creation is not modelled.
- `null` and `undefined` are both `None`, except where JavaScript truthiness matters (ids of 0 are falsy in the joins).
- Quantities are integers. Floating-point quantities and `NaN` in the services are not modelled.
- Dashboard.FetchStats: `getRecentTransactions` does not exist, so in the code the call throws and the statistics are never set. The model takes the recent-activity list as an input instead.
- Dashboard.Tally: the entries keep first-insertion order. JavaScript lists integer-like property names first and treats names such as `__proto__` specially; neither is modelled.
- Ordering.NewestFirst: the sort is a stable insertion sort. The engine's own sort order for equal timestamps is not modelled.
- The list pages require `pageSize >= 1` (the table's default is 10).
- Schemas.ParseEmployee: the e-mail check is a parameter; zod's own pattern is not modelled.
- Schemas: a `z.coerce.number()` field is given as the number `Number(input)` yields. The string-to-number conversion and infinities are not modelled. zod's messages are reduced to an issue kind per path.
- Schemas: a required string field that is missing altogether (not sent by the form) is not modelled; the forms always send one.
- `updateX` services resolve with the key that `put` yields, not with the record, as the code does.
- The equipment and stock searches dereference `catalogItem` and `office`, which may be `undefined` for dangling ids. That throws in the code, and the model returns `None`.
