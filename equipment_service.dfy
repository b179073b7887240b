/** `equipmentService`: the `assetInstances` store of individually tracked equipment. Every
    creation, qualifying update and deletion appends one record to the `assetTransactions`
    log. `now` is the clock reading `new Date().toISOString()` stands for. */
module EquipmentService {
  import opened Common
  import opened Text
  import opened RecordStore
  import opened Joins
  import opened OfficeService
  import opened CatalogService
  import opened EmployeeService
  import opened AssetTransactionService

  datatype AssetInstance = AssetInstance(
    instanceID: Option<int>,
    catalogID: int,
    propertyCode: string,
    serialNumber: Option<string>,
    status: string,
    currentOfficeId: int,
    assignedToEmployeeId: Option<int>,
    specificLocation: Option<string>,
    receivingVoucherID: Option<int>)

  /** An instance as listed. `catalogItem` and `office` are `None` where the source's
      non-null assertion lets `undefined` through. */
  datatype InstanceDetails = InstanceDetails(
    instance: AssetInstance,
    catalogItem: Option<CatalogItem>,
    office: Option<Office>,
    employee: Option<EmployeeWithOffice>)

  /** Why an instance request fails: "Instance not found", or a failed store request. */
  datatype InstanceError = InstanceNotFound | StoreFailure(error: StoreError)

  const StoreName: string := "assetInstances"

  function InstanceKey(i: AssetInstance): Option<int> { i.instanceID }
  function WithInstanceKey(i: AssetInstance, k: int): AssetInstance { i.(instanceID := Some(k)) }

  /** `keyPath: 'instanceID', autoIncrement: true`. */
  function InstancePath(): KeyPath<AssetInstance> { KeyPath(InstanceKey, WithInstanceKey) }

  ghost predicate IsInstanceStore(s: ObjectStore<AssetInstance>)
    reads s
  {
    s.Valid() && s.path == InstancePath()
  }

  function CatalogItemSelf(c: CatalogItem): CatalogItem { c }
  function OfficeSelf(o: Office): Office { o }
  function ListedSelf(e: EmployeeWithOffice): EmployeeWithOffice { e }

  /** The join of `getDetailedInstances`. */
  function Detailed(instances: seq<AssetInstance>, catalog: seq<CatalogItem>, offices: seq<Office>,
                    employees: seq<EmployeeWithOffice>): (r: seq<InstanceDetails>)
    ensures |r| == |instances|
    ensures forall i :: 0 <= i < |r| ==> r[i].instance == instances[i]
  {
    var catalogMap := IndexBy(catalog, CatalogKey, CatalogItemSelf);
    var officeMap := IndexBy(offices, OfficeKey, OfficeSelf);
    var employeeMap := IndexBy(employees, ListedKey, ListedSelf);
    seq(|instances|, i requires 0 <= i < |instances| =>
      var inst := instances[i];
      InstanceDetails(inst,
        MapGet(catalogMap, inst.catalogID),
        MapGet(officeMap, inst.currentOfficeId),
        if Truthy(inst.assignedToEmployeeId) then MapGet(employeeMap, inst.assignedToEmployeeId.value) else None))
  }

  /** Each listed instance carries the catalog item and office with its ids when there are
      some, and nothing otherwise; the employee is absent when the assignment is null or 0 or
      matches no employee. */
  lemma DetailedJoin(instances: seq<AssetInstance>, catalog: seq<CatalogItem>, offices: seq<Office>,
                     employees: seq<EmployeeWithOffice>, i: int)
    requires 0 <= i < |instances|
    ensures var inst := instances[i]; var d := Detailed(instances, catalog, offices, employees)[i];
      && (d.catalogItem.Some? <==> exists j :: 0 <= j < |catalog| && catalog[j].catalogID == Some(inst.catalogID))
      && (forall j :: LastWithKey(catalog, CatalogKey, inst.catalogID, j) ==> d.catalogItem == Some(catalog[j]))
      && (d.office.Some? <==> exists j :: 0 <= j < |offices| && offices[j].officeID == Some(inst.currentOfficeId))
      && (forall j :: LastWithKey(offices, OfficeKey, inst.currentOfficeId, j) ==> d.office == Some(offices[j]))
      && (d.employee.Some? <==>
            (Truthy(inst.assignedToEmployeeId)
             && exists j :: 0 <= j < |employees| && employees[j].employee.employeeID == inst.assignedToEmployeeId))
      && (forall j :: Truthy(inst.assignedToEmployeeId) && LastWithKey(employees, ListedKey, inst.assignedToEmployeeId.value, j) ==>
            d.employee == Some(employees[j]))
      && (d.employee.Some? ==> d.employee.value.employee.employeeID == inst.assignedToEmployeeId)
  {
    var inst := instances[i];
    IndexByLastWins(catalog, CatalogKey, CatalogItemSelf, inst.catalogID);
    IndexByLastWins(offices, OfficeKey, OfficeSelf, inst.currentOfficeId);
    if Truthy(inst.assignedToEmployeeId) {
      IndexByLastWins(employees, ListedKey, ListedSelf, inst.assignedToEmployeeId.value);
    }
  }

  /** `getDetailedInstances()`: one entry per stored instance, in key order. */
  method GetDetailedInstances(instances: ObjectStore<AssetInstance>, catalog: ObjectStore<CatalogItem>,
                              offices: ObjectStore<Office>, employees: ObjectStore<Employee>) returns (r: seq<InstanceDetails>)
    requires IsInstanceStore(instances) && IsCatalogStore(catalog) && IsOfficeStore(offices) && IsEmployeeStore(employees)
    ensures r == Detailed(instances.All(), catalog.All(), offices.All(), WithOfficeNames(employees.All(), offices.All()))
    ensures |r| == |instances.records|
  {
    var all := instances.GetAllData();
    var items := GetCatalogItems(catalog);
    var offs := GetOffices(offices);
    var emps := GetEmployees(employees, offices);
    r := Detailed(all, items, offs, emps);
  }

  /** `getInstanceById(id)`: the stored instance, or `undefined`. */
  method GetInstanceById(instances: ObjectStore<AssetInstance>, id: int) returns (r: Option<AssetInstance>)
    requires IsInstanceStore(instances)
    ensures r.Some? <==> id in instances.records
    ensures r.Some? ==> r.value == instances.records[id] && r.value.instanceID == Some(id)
  {
    r := instances.GetDataByKey(id);
  }

  function CreatedNote(propertyCode: string): string
  {
    "Asset instance created with property code " + propertyCode + "."
  }

  /** The transaction `addInstance` logs for a new instance stored under `id`. */
  function CreatedTransaction(instance: AssetInstance, id: int, now: int): AssetTransaction
  {
    AssetTransaction(None, id, instance.status, Some(instance.currentOfficeId), instance.assignedToEmployeeId,
      CreatedNote(instance.propertyCode), now)
  }

  /** What `addInstance` does to the instance store and the transaction log: the instance is
      stored under the next generated key, then its creation is logged under the log's next
      key. A failed instance write changes nothing; a failed log write keeps the instance. */
  function AddInstanceTo(instSt: StoreState<AssetInstance>, logSt: StoreState<AssetTransaction>, instance: AssetInstance,
                         now: int): (out: (StoreState<AssetInstance>, StoreState<AssetTransaction>, Result<AssetInstance, StoreError>))
    requires WellFormed(instSt, InstancePath()) && WellFormed(logSt, TransactionPath()) && instance.instanceID.None?
    ensures WellFormed(out.0, InstancePath()) && WellFormed(out.1, TransactionPath())
    ensures out.2.Ok? <==> instSt.current <= MaxGeneratedKey && logSt.current <= MaxGeneratedKey
    ensures instSt.current > MaxGeneratedKey ==> out.0 == instSt && out.1 == logSt
    ensures instSt.current <= MaxGeneratedKey ==>
      && instSt.current !in instSt.records
      && out.0.records == instSt.records[instSt.current := instance.(instanceID := Some(instSt.current))]
      && instSt.current < out.0.current
    ensures out.0.current >= instSt.current && out.1.current >= logSt.current
    ensures forall k :: k in instSt.records ==> k in out.0.records && out.0.records[k] == instSt.records[k]
    ensures forall t :: t in logSt.records ==> t in out.1.records && out.1.records[t] == logSt.records[t]
    ensures out.2.Ok? ==>
      && out.2.value == instance.(instanceID := Some(instSt.current))
      && logSt.current !in logSt.records
      && out.1.records == logSt.records[logSt.current := CreatedTransaction(instance, instSt.current, now).(transactionID := Some(logSt.current))]
    ensures out.2.Err? ==> out.1 == logSt
  {
    var stored := Add(instSt, InstancePath(), instance);
    match stored.1
    case Err(e) => (instSt, logSt, Err(e))
    case Ok(k) =>
      var logged := Add(logSt, TransactionPath(), CreatedTransaction(instance, k, now));
      match logged.1
      case Err(e) => (stored.0, logSt, Err(e))
      case Ok(_) => (stored.0, logged.0, Ok(instance.(instanceID := Some(k))))
  }

  /** `addInstance(instance)`: stores the instance, then logs exactly one transaction whose
      action is the initial status. A failed store request rejects before the log write; a
      failed log write leaves the stored instance in place. */
  method AddInstance(instances: ObjectStore<AssetInstance>, log: ObjectStore<AssetTransaction>,
                     instance: AssetInstance, now: int) returns (res: Result<AssetInstance, StoreError>)
    requires IsInstanceStore(instances) && IsTransactionStore(log) && instance.instanceID.None?
    modifies instances, log
    ensures IsInstanceStore(instances) && IsTransactionStore(log)
    ensures old(instances.current) > MaxGeneratedKey ==>
      res.Err? && instances.State() == old(instances.State()) && log.State() == old(log.State())
    ensures old(instances.current) <= MaxGeneratedKey ==> var k := old(instances.current);
      && instances.records == old(instances.records)[k := instance.(instanceID := Some(k))]
      && (res.Ok? <==> old(log.current) <= MaxGeneratedKey)
      && (res.Ok? ==> res.value == instance.(instanceID := Some(k))
                      && log.records == old(log.records)[old(log.current) := CreatedTransaction(instance, k, now).(transactionID := Some(old(log.current)))])
      && (res.Err? ==> log.State() == old(log.State()))
    ensures (instances.State(), log.State(), res) == AddInstanceTo(old(instances.State()), old(log.State()), instance, now)
  {
    var key := instances.AddData(instance);
    if key.Err? {
      return Err(key.error);
    }
    var newId := key.value;
    var logged := AddTransaction(log, CreatedTransaction(instance, newId, now));
    if logged.Err? {
      return Err(logged.error);
    }
    res := Ok(instance.(instanceID := Some(newId)));
  }

  function StatusNote(oldStatus: string, newStatus: string): string
  {
    "Status changed from \"" + oldStatus + "\" to \"" + newStatus + "\"."
  }

  /** The change notes `updateInstance` logs, in order: status, assignment, office. */
  function ChangeNotes(before: AssetInstance, after: AssetInstance): seq<string>
  {
    (if before.status != after.status then [StatusNote(before.status, after.status)] else [])
    + (if before.assignedToEmployeeId != after.assignedToEmployeeId then ["Assignment updated."] else [])
    + (if before.currentOfficeId != after.currentOfficeId then ["Office location updated."] else [])
  }

  /** Number of the three tracked fields that differ. */
  function ChangedFieldCount(before: AssetInstance, after: AssetInstance): nat
  {
    (if before.status != after.status then 1 else 0)
    + (if before.assignedToEmployeeId != after.assignedToEmployeeId then 1 else 0)
    + (if before.currentOfficeId != after.currentOfficeId then 1 else 0)
  }

  /** One note per changed field, none otherwise; a status change is always named first,
      with both statuses. */
  lemma ChangeNotesDescribeChanges(before: AssetInstance, after: AssetInstance)
    ensures |ChangeNotes(before, after)| == ChangedFieldCount(before, after)
    ensures ChangeNotes(before, after) == [] <==>
      before.status == after.status && before.assignedToEmployeeId == after.assignedToEmployeeId
      && before.currentOfficeId == after.currentOfficeId
    ensures before.status != after.status ==> ChangeNotes(before, after)[0] == StatusNote(before.status, after.status)
    ensures before.currentOfficeId != after.currentOfficeId ==>
      ChangeNotes(before, after)[|ChangeNotes(before, after)| - 1] == "Office location updated."
  {
  }

  /** The `changes` array of `updateInstance`, grown by one `push` per differing field. */
  method CollectChanges(before: AssetInstance, after: AssetInstance) returns (changes: seq<string>)
    ensures changes == ChangeNotes(before, after)
  {
    changes := [];
    if before.status != after.status {
      changes := changes + [StatusNote(before.status, after.status)];
    }
    if before.assignedToEmployeeId != after.assignedToEmployeeId {
      changes := changes + ["Assignment updated."];
    }
    if before.currentOfficeId != after.currentOfficeId {
      changes := changes + ["Office location updated."];
    }
  }

  /** The transaction `updateInstance` logs for a change of the instance `after`. */
  function UpdatedTransaction(after: AssetInstance, id: int, notes: seq<string>, now: int): AssetTransaction
  {
    AssetTransaction(None, id, after.status, Some(after.currentOfficeId), after.assignedToEmployeeId, Join(notes, " "), now)
  }

  /** `updateInstance(instance)`: rejects with "Instance not found", writing nothing, when
      no instance has the id; otherwise logs one transaction exactly when status, assignment
      or office changed, then always overwrites the record and resolves with its key. */
  method UpdateInstance(instances: ObjectStore<AssetInstance>, log: ObjectStore<AssetTransaction>,
                        instance: AssetInstance, now: int) returns (res: Result<int, InstanceError>)
    requires IsInstanceStore(instances) && IsTransactionStore(log)
    modifies instances, log
    ensures IsInstanceStore(instances) && IsTransactionStore(log)
    ensures instance.instanceID.None? ==>
      res == Err(StoreFailure(DataError)) && instances.State() == old(instances.State()) && log.State() == old(log.State())
    ensures instance.instanceID.Some? && instance.instanceID.value !in old(instances.records) ==>
      res == Err(InstanceNotFound) && instances.State() == old(instances.State()) && log.State() == old(log.State())
    ensures instance.instanceID.Some? && instance.instanceID.value in old(instances.records) ==>
      var id := instance.instanceID.value;
      var notes := ChangeNotes(old(instances.records)[id], instance);
      && (notes == [] ==> log.State() == old(log.State()) && res == Ok(id)
                          && instances.records == old(instances.records)[id := instance])
      && (notes != [] && old(log.current) <= MaxGeneratedKey ==>
            && log.records == old(log.records)[old(log.current) := UpdatedTransaction(instance, id, notes, now).(transactionID := Some(old(log.current)))]
            && res == Ok(id) && instances.records == old(instances.records)[id := instance])
      && (notes != [] && old(log.current) > MaxGeneratedKey ==>
            res.Err? && instances.State() == old(instances.State()) && log.State() == old(log.State()))
  {
    if instance.instanceID.None? {
      return Err(StoreFailure(DataError));
    }
    var id := instance.instanceID.value;
    var oldInstance := GetInstanceById(instances, id);
    if oldInstance.None? {
      return Err(InstanceNotFound);
    }
    var changes := CollectChanges(oldInstance.value, instance);
    if |changes| > 0 {
      var logged := AddTransaction(log, UpdatedTransaction(instance, id, changes, now));
      if logged.Err? {
        return Err(StoreFailure(logged.error));
      }
    }
    var key := instances.UpdateData(instance);
    res := Ok(key.value);
  }

  /** The transaction `deleteInstance` logs. */
  function DeletedTransaction(id: int, now: int): AssetTransaction
  {
    AssetTransaction(None, id, "Deleted", None, None, "Asset instance record was deleted from the system.", now)
  }

  /** `deleteInstance(id)`: logs a 'Deleted' transaction, then removes the record without
      checking that it exists, and resolves `true`. */
  method DeleteInstance(instances: ObjectStore<AssetInstance>, log: ObjectStore<AssetTransaction>,
                        id: int, now: int) returns (res: Result<bool, StoreError>)
    requires IsInstanceStore(instances) && IsTransactionStore(log)
    modifies instances, log
    ensures IsInstanceStore(instances) && IsTransactionStore(log)
    ensures res.Ok? <==> old(log.current) <= MaxGeneratedKey
    ensures res.Ok? ==>
      && res.value
      && log.records == old(log.records)[old(log.current) := DeletedTransaction(id, now).(transactionID := Some(old(log.current)))]
      && instances.records == old(instances.records) - {id}
    ensures res.Err? ==> instances.State() == old(instances.State()) && log.State() == old(log.State())
  {
    var logged := AddTransaction(log, DeletedTransaction(id, now));
    if logged.Err? {
      return Err(logged.error);
    }
    var ok := instances.DeleteData(id);
    res := Ok(ok);
  }
}
