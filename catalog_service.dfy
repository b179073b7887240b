/** `assetCatalogService`: the `assetCatalog` store of item definitions. */
module CatalogService {
  import opened Common
  import opened RecordStore

  datatype ItemType = Equipment | Supply

  datatype CatalogItem = CatalogItem(
    catalogID: Option<int>,
    name: string,
    itemType: ItemType,
    description: Option<string>,
    unitOfMeasurement: string,
    sku: Option<string>)

  const StoreName: string := "assetCatalog"

  function CatalogKey(c: CatalogItem): Option<int> { c.catalogID }
  function WithCatalogKey(c: CatalogItem, k: int): CatalogItem { c.(catalogID := Some(k)) }

  /** `keyPath: 'catalogID', autoIncrement: true`. */
  function CatalogPath(): KeyPath<CatalogItem> { KeyPath(CatalogKey, WithCatalogKey) }

  ghost predicate IsCatalogStore(s: ObjectStore<CatalogItem>)
    reads s
  {
    s.Valid() && s.path == CatalogPath()
  }

  /** `getCatalogItems()`: exactly the stored items, each once, in key order. */
  method GetCatalogItems(catalog: ObjectStore<CatalogItem>) returns (r: seq<CatalogItem>)
    requires IsCatalogStore(catalog)
    ensures r == catalog.All()
    ensures |r| == |catalog.records|
    ensures forall k :: k in catalog.records ==> catalog.records[k] in r
    ensures forall i :: 0 <= i < |r| ==>
      r[i].catalogID.Some? && r[i].catalogID.value in catalog.records && catalog.records[r[i].catalogID.value] == r[i]
  {
    r := catalog.GetAllData();
  }

  /** `getCatalogItemById(id)`: the stored item, or `undefined`. */
  method GetCatalogItemById(catalog: ObjectStore<CatalogItem>, id: int) returns (r: Option<CatalogItem>)
    requires IsCatalogStore(catalog)
    ensures r.Some? <==> id in catalog.records
    ensures r.Some? ==> r.value == catalog.records[id] && r.value.catalogID == Some(id)
  {
    r := catalog.GetDataByKey(id);
  }

  /** `addCatalogItem(item)`: stores the item under a generated key and returns it with that
      key; a failed request stores nothing. */
  method AddCatalogItem(catalog: ObjectStore<CatalogItem>, item: CatalogItem) returns (res: Result<CatalogItem, StoreError>)
    requires IsCatalogStore(catalog) && item.catalogID.None?
    modifies catalog
    ensures IsCatalogStore(catalog)
    ensures res.Ok? <==> old(catalog.current) <= MaxGeneratedKey
    ensures res.Ok? ==> var k := old(catalog.current);
      && res.value == item.(catalogID := Some(k))
      && k !in old(catalog.records)
      && catalog.records == old(catalog.records)[k := res.value]
    ensures res.Err? ==> catalog.State() == old(catalog.State())
  {
    var key := catalog.AddData(item);
    match key
    case Ok(k) => res := Ok(item.(catalogID := Some(k)));
    case Err(e) => res := Err(e);
  }

  /** `updateCatalogItem(item)`: an upsert by `catalogID`; resolves with the key. */
  method UpdateCatalogItem(catalog: ObjectStore<CatalogItem>, item: CatalogItem) returns (res: Result<int, StoreError>)
    requires IsCatalogStore(catalog)
    modifies catalog
    ensures IsCatalogStore(catalog)
    ensures item.catalogID.Some? ==>
      res == Ok(item.catalogID.value) && catalog.records == old(catalog.records)[item.catalogID.value := item]
    ensures (catalog.State(), res) == Put(old(catalog.State()), CatalogPath(), item)
  {
    res := catalog.UpdateData(item);
  }

  /** `deleteCatalogItem(id)`: removes the item without looking for instances or stock rows
      that refer to it, and resolves `true`. */
  method DeleteCatalogItem(catalog: ObjectStore<CatalogItem>, id: int) returns (ok: bool)
    requires IsCatalogStore(catalog)
    modifies catalog
    ensures IsCatalogStore(catalog)
    ensures ok && catalog.records == old(catalog.records) - {id}
    ensures catalog.current == old(catalog.current)
  {
    ok := catalog.DeleteData(id);
  }
}
