/** `assetTransactionService`: the append-only `assetTransactions` log of equipment
    instances, read back per instance newest first. */
module AssetTransactionService {
  import opened Common
  import opened RecordStore
  import opened Ordering

  /** `action` is the instance status the change led to, or 'Deleted'; `timestamp` is the
      time in milliseconds. `officeID` and `employeeID` are the extra fields the equipment
      service writes. */
  datatype AssetTransaction = AssetTransaction(
    transactionID: Option<int>,
    instanceID: int,
    action: string,
    officeID: Option<int>,
    employeeID: Option<int>,
    notes: string,
    timestamp: int)

  const StoreName: string := "assetTransactions"

  function TransactionKey(t: AssetTransaction): Option<int> { t.transactionID }
  function WithTransactionKey(t: AssetTransaction, k: int): AssetTransaction { t.(transactionID := Some(k)) }

  /** `keyPath: 'transactionID', autoIncrement: true`. */
  function TransactionPath(): KeyPath<AssetTransaction> { KeyPath(TransactionKey, WithTransactionKey) }

  ghost predicate IsTransactionStore(s: ObjectStore<AssetTransaction>)
    reads s
  {
    s.Valid() && s.path == TransactionPath()
  }

  /** The field the `instanceID_idx` index is on. */
  function InstanceIdOf(t: AssetTransaction): int { t.instanceID }

  function TransactionTime(t: AssetTransaction): int { t.timestamp }

  /** `addTransaction(transaction)`: appends it under a generated key and returns it with
      that key; no earlier transaction changes. */
  method AddTransaction(log: ObjectStore<AssetTransaction>, transaction: AssetTransaction) returns (res: Result<AssetTransaction, StoreError>)
    requires IsTransactionStore(log) && transaction.transactionID.None?
    modifies log
    ensures IsTransactionStore(log)
    ensures res.Ok? <==> old(log.current) <= MaxGeneratedKey
    ensures res.Ok? ==> var k := old(log.current);
      && res.value == transaction.(transactionID := Some(k))
      && k !in old(log.records)
      && log.records == old(log.records)[k := res.value]
    ensures forall k :: k in old(log.records) ==> k in log.records && log.records[k] == old(log.records)[k]
    ensures res.Err? ==> log.State() == old(log.State())
    ensures log.State() == Add(old(log.State()), TransactionPath(), transaction).0
    ensures res.Err? ==> Add(old(log.State()), TransactionPath(), transaction).1 == Err(res.error)
  {
    var key := log.AddData(transaction);
    match key
    case Ok(k) => res := Ok(transaction.(transactionID := Some(k)));
    case Err(e) => res := Err(e);
  }

  /** `getTransactionsForInstance(instanceID)`: exactly the transactions of that instance,
      each once, newest first. */
  method GetTransactionsForInstance(log: ObjectStore<AssetTransaction>, instanceID: int) returns (r: seq<AssetTransaction>)
    requires IsTransactionStore(log)
    ensures NewestFirstOrder(r, TransactionTime)
    ensures forall i :: 0 <= i < |r| ==> r[i].instanceID == instanceID && r[i] in log.All()
    ensures forall k :: k in log.records && log.records[k].instanceID == instanceID ==> log.records[k] in r
    ensures multiset(r) == multiset(GetAllByIndex(log.State(), log.path, InstanceIdOf, instanceID))
  {
    var items := log.GetAllDataByIndex(InstanceIdOf, instanceID);
    r := NewestFirst(items, TransactionTime);
    SortedSameMembers(items, TransactionTime);
    forall i | 0 <= i < |r| ensures r[i] in items {
      assert r[i] in r;
    }
  }
}
