/** `historyService`: the append-only `assetHistory` log, read back per asset newest first. */
module HistoryService {
  import opened Common
  import opened RecordStore
  import opened Ordering

  datatype HistoryAction = Created | Updated | Issued | Returned | Disposed | Transferred

  /** `timestamp` is the entry's time in milliseconds, the value `new Date(timestamp).getTime()`
      compares. */
  datatype HistoryEntry = HistoryEntry(
    historyID: Option<int>,
    assetID: int,
    action: HistoryAction,
    timestamp: int,
    notes: string)

  const StoreName: string := "assetHistory"

  function HistoryKey(e: HistoryEntry): Option<int> { e.historyID }
  function WithHistoryKey(e: HistoryEntry, k: int): HistoryEntry { e.(historyID := Some(k)) }

  /** `keyPath: 'historyID', autoIncrement: true`. */
  function HistoryPath(): KeyPath<HistoryEntry> { KeyPath(HistoryKey, WithHistoryKey) }

  ghost predicate IsHistoryStore(s: ObjectStore<HistoryEntry>)
    reads s
  {
    s.Valid() && s.path == HistoryPath()
  }

  /** The field the `assetID_idx` index is on. */
  function AssetIdOf(e: HistoryEntry): int { e.assetID }

  function EntryTime(e: HistoryEntry): int { e.timestamp }

  /** `addHistoryEntry(entry)`: appends the entry under a generated key and returns it with
      that key; no earlier entry changes. */
  method AddHistoryEntry(history: ObjectStore<HistoryEntry>, entry: HistoryEntry) returns (res: Result<HistoryEntry, StoreError>)
    requires IsHistoryStore(history) && entry.historyID.None?
    modifies history
    ensures IsHistoryStore(history)
    ensures res.Ok? <==> old(history.current) <= MaxGeneratedKey
    ensures res.Ok? ==> var k := old(history.current);
      && res.value == entry.(historyID := Some(k))
      && k !in old(history.records)
      && history.records == old(history.records)[k := res.value]
    ensures forall k :: k in old(history.records) ==> k in history.records && history.records[k] == old(history.records)[k]
    ensures res.Err? ==> history.State() == old(history.State())
  {
    var key := history.AddData(entry);
    match key
    case Ok(k) => res := Ok(entry.(historyID := Some(k)));
    case Err(e) => res := Err(e);
  }

  /** `getHistoryForAsset(assetID)`: exactly the entries of that asset, each once, newest
      first. */
  method GetHistoryForAsset(history: ObjectStore<HistoryEntry>, assetID: int) returns (r: seq<HistoryEntry>)
    requires IsHistoryStore(history)
    ensures NewestFirstOrder(r, EntryTime)
    ensures forall i :: 0 <= i < |r| ==> r[i].assetID == assetID && r[i] in history.All()
    ensures forall k :: k in history.records && history.records[k].assetID == assetID ==> history.records[k] in r
    ensures multiset(r) == multiset(GetAllByIndex(history.State(), history.path, AssetIdOf, assetID))
  {
    var items := history.GetAllDataByIndex(AssetIdOf, assetID);
    r := NewestFirst(items, EntryTime);
    SortedSameMembers(items, EntryTime);
    forall i | 0 <= i < |r| ensures r[i] in items {
      assert r[i] in r;
    }
  }
}
