/** `assetService`: the `assets` store, and the listing joined with office and employee
    names. It writes no history entries. */
module AssetService {
  import opened Common
  import opened RecordStore
  import opened Joins
  import opened OfficeService
  import opened EmployeeService
  import opened CatalogService

  datatype AssetStatus = InStorage | Issued | Disposed | Returned

  function StatusLabel(s: AssetStatus): string
  {
    match s
    case InStorage => "In Storage"
    case Issued => "Issued"
    case Disposed => "Disposed"
    case Returned => "Returned"
  }

  function TypeLabel(t: ItemType): string
  {
    match t
    case Equipment => "Equipment"
    case Supply => "Supply"
  }

  datatype Asset = Asset(
    assetID: Option<int>,
    propertyCode: string,
    name: string,
    assetType: ItemType,
    description: Option<string>,
    quantity: int,
    unitOfMeasurement: Option<string>,
    status: AssetStatus,
    currentOfficeId: int,
    assignedToEmployeeId: Option<int>,
    specificLocation: Option<string>)

  /** An asset as listed: its stored fields plus the office and employee names. */
  datatype AssetWithDetails = AssetWithDetails(asset: Asset, officeName: string, assignedToEmployeeName: string)

  const StoreName: string := "assets"

  function AssetKey(a: Asset): Option<int> { a.assetID }
  function WithAssetKey(a: Asset, k: int): Asset { a.(assetID := Some(k)) }

  /** `keyPath: 'assetID', autoIncrement: true`. */
  function AssetPath(): KeyPath<Asset> { KeyPath(AssetKey, WithAssetKey) }

  ghost predicate IsAssetStore(s: ObjectStore<Asset>)
    reads s
  {
    s.Valid() && s.path == AssetPath()
  }

  /** The join of `getAssets`: `officeMap.get(id) || 'Unknown Office'` and
      `id ? employeeMap.get(id) || 'Unknown Employee' : 'N/A'`. */
  function WithDetails(assets: seq<Asset>, offices: seq<Office>, employees: seq<EmployeeWithOffice>): (r: seq<AssetWithDetails>)
    ensures |r| == |assets|
    ensures forall i :: 0 <= i < |r| ==> r[i].asset == assets[i]
  {
    var officeNames := IndexBy(offices, OfficeKey, OfficeNameOf);
    var employeeNames := IndexBy(employees, ListedKey, ListedFullName);
    seq(|assets|, i requires 0 <= i < |assets| =>
      AssetWithDetails(assets[i],
        NameOr(officeNames, assets[i].currentOfficeId, "Unknown Office"),
        NameOfId(employeeNames, assets[i].assignedToEmployeeId, "Unknown Employee", "N/A")))
  }

  predicate NoEmployeeWithId(employees: seq<EmployeeWithOffice>, id: Option<int>)
  {
    forall j :: 0 <= j < |employees| ==> employees[j].employee.employeeID != id
  }

  /** Both names of a listed asset are total: the office's name or 'Unknown Office' (no
      office with that id, or an empty name); the employee's "First Last", 'Unknown Employee'
      for an unmatched id, or 'N/A' without one. */
  lemma AssetNames(assets: seq<Asset>, offices: seq<Office>, employees: seq<EmployeeWithOffice>, i: int)
    requires 0 <= i < |assets|
    ensures var a := assets[i]; var d := WithDetails(assets, offices, employees)[i];
      && ((forall j :: 0 <= j < |offices| ==> offices[j].officeID != Some(a.currentOfficeId)) ==> d.officeName == "Unknown Office")
      && (forall j :: LastWithKey(offices, OfficeKey, a.currentOfficeId, j) ==>
            d.officeName == (if offices[j].officeName != "" then offices[j].officeName else "Unknown Office"))
      && (!Truthy(a.assignedToEmployeeId) ==> d.assignedToEmployeeName == "N/A")
      && (Truthy(a.assignedToEmployeeId) && NoEmployeeWithId(employees, a.assignedToEmployeeId) ==>
            d.assignedToEmployeeName == "Unknown Employee")
      && (forall j :: Truthy(a.assignedToEmployeeId) && LastWithKey(employees, ListedKey, a.assignedToEmployeeId.value, j) ==>
            d.assignedToEmployeeName == ListedFullName(employees[j]))
  {
    var a := assets[i];
    IndexByLastWins(offices, OfficeKey, OfficeNameOf, a.currentOfficeId);
    if Truthy(a.assignedToEmployeeId) {
      IndexByLastWins(employees, ListedKey, ListedFullName, a.assignedToEmployeeId.value);
    }
  }

  /** `getAssets()`: one entry per stored asset, in key order, with its names. */
  method GetAssets(assets: ObjectStore<Asset>, offices: ObjectStore<Office>, employees: ObjectStore<Employee>)
    returns (r: seq<AssetWithDetails>)
    requires IsAssetStore(assets) && IsOfficeStore(offices) && IsEmployeeStore(employees)
    ensures r == WithDetails(assets.All(), offices.All(), WithOfficeNames(employees.All(), offices.All()))
    ensures |r| == |assets.records|
  {
    var all := assets.GetAllData();
    var offs := GetOffices(offices);
    var emps := GetEmployees(employees, offices);
    r := WithDetails(all, offs, emps);
  }

  /** `getAssetById(id)`: the stored asset, or `undefined`. */
  method GetAssetById(assets: ObjectStore<Asset>, id: int) returns (r: Option<Asset>)
    requires IsAssetStore(assets)
    ensures r.Some? <==> id in assets.records
    ensures r.Some? ==> r.value == assets.records[id] && r.value.assetID == Some(id)
  {
    r := assets.GetDataByKey(id);
  }

  /** `addAsset(asset)`: stores the asset under a generated key and returns it with that
      key; a failed request stores nothing. */
  method AddAsset(assets: ObjectStore<Asset>, asset: Asset) returns (res: Result<Asset, StoreError>)
    requires IsAssetStore(assets) && asset.assetID.None?
    modifies assets
    ensures IsAssetStore(assets)
    ensures res.Ok? <==> old(assets.current) <= MaxGeneratedKey
    ensures res.Ok? ==> var k := old(assets.current);
      && res.value == asset.(assetID := Some(k))
      && k !in old(assets.records)
      && assets.records == old(assets.records)[k := res.value]
    ensures res.Err? ==> assets.State() == old(assets.State())
  {
    var key := assets.AddData(asset);
    match key
    case Ok(k) => res := Ok(asset.(assetID := Some(k)));
    case Err(e) => res := Err(e);
  }

  /** `updateAsset(asset)`: an upsert by `assetID` in `assets` only; resolves with the key. */
  method UpdateAsset(assets: ObjectStore<Asset>, asset: Asset) returns (res: Result<int, StoreError>)
    requires IsAssetStore(assets)
    modifies assets
    ensures IsAssetStore(assets)
    ensures asset.assetID.Some? ==>
      res == Ok(asset.assetID.value) && assets.records == old(assets.records)[asset.assetID.value := asset]
    ensures (assets.State(), res) == Put(old(assets.State()), AssetPath(), asset)
  {
    res := assets.UpdateData(asset);
  }

  /** `deleteAsset(id)`: removes the asset from `assets` only and resolves `true`. */
  method DeleteAsset(assets: ObjectStore<Asset>, assetID: int) returns (ok: bool)
    requires IsAssetStore(assets)
    modifies assets
    ensures IsAssetStore(assets)
    ensures ok && assets.records == old(assets.records) - {assetID}
    ensures assets.current == old(assets.current)
  {
    ok := assets.DeleteData(assetID);
  }
}
