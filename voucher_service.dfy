/** `receivingVoucherService`: the `receivingVouchers` store and its listing joined with the
    receiving employee's name. The service has no delete. */
module VoucherService {
  import opened Common
  import opened RecordStore
  import opened Joins
  import opened OfficeService
  import opened EmployeeService

  datatype ReceivingVoucher = ReceivingVoucher(
    voucherID: Option<int>,
    supplier: Option<string>,
    referenceNumber: Option<string>,
    dateReceived: string,
    receivedByEmployeeId: Option<int>,
    notes: Option<string>)

  /** A voucher as listed: its stored fields plus the receiving employee's name. */
  datatype DetailedVoucher = DetailedVoucher(voucher: ReceivingVoucher, receivedByEmployeeName: string)

  const StoreName: string := "receivingVouchers"

  function VoucherKey(v: ReceivingVoucher): Option<int> { v.voucherID }
  function WithVoucherKey(v: ReceivingVoucher, k: int): ReceivingVoucher { v.(voucherID := Some(k)) }

  /** `keyPath: 'voucherID', autoIncrement: true`. */
  function VoucherPath(): KeyPath<ReceivingVoucher> { KeyPath(VoucherKey, WithVoucherKey) }

  ghost predicate IsVoucherStore(s: ObjectStore<ReceivingVoucher>)
    reads s
  {
    s.Valid() && s.path == VoucherPath()
  }

  /** `vouchers.map(v => ({ ...v, receivedByEmployeeName: v.receivedByEmployeeId ?
      employeeMap.get(v.receivedByEmployeeId) || 'Unknown' : 'N/A' }))`. */
  function WithEmployeeNames(vouchers: seq<ReceivingVoucher>, employees: seq<EmployeeWithOffice>): (r: seq<DetailedVoucher>)
    ensures |r| == |vouchers|
    ensures forall i :: 0 <= i < |r| ==> r[i].voucher == vouchers[i]
  {
    var names := IndexBy(employees, ListedKey, ListedFullName);
    seq(|vouchers|, i requires 0 <= i < |vouchers| =>
      DetailedVoucher(vouchers[i], NameOfId(names, vouchers[i].receivedByEmployeeId, "Unknown", "N/A")))
  }

  /** The receiving employee's name is total: 'N/A' without an id, "First Last" of the
      employee with that id, 'Unknown' when no employee has it. */
  lemma VoucherEmployeeName(vouchers: seq<ReceivingVoucher>, employees: seq<EmployeeWithOffice>, i: int)
    requires 0 <= i < |vouchers|
    ensures var id := vouchers[i].receivedByEmployeeId;
      var n := WithEmployeeNames(vouchers, employees)[i].receivedByEmployeeName;
      && (!Truthy(id) ==> n == "N/A")
      && (Truthy(id) && (forall j :: 0 <= j < |employees| ==> employees[j].employee.employeeID != id) ==> n == "Unknown")
      && (forall j :: Truthy(id) && LastWithKey(employees, ListedKey, id.value, j) ==> n == ListedFullName(employees[j]))
  {
    var id := vouchers[i].receivedByEmployeeId;
    if Truthy(id) {
      IndexByLastWins(employees, ListedKey, ListedFullName, id.value);
    }
  }

  /** `getDetailedVouchers()`: one entry per stored voucher, in key order. */
  method GetDetailedVouchers(vouchers: ObjectStore<ReceivingVoucher>, employees: ObjectStore<Employee>,
                             offices: ObjectStore<Office>) returns (r: seq<DetailedVoucher>)
    requires IsVoucherStore(vouchers) && IsEmployeeStore(employees) && IsOfficeStore(offices)
    ensures r == WithEmployeeNames(vouchers.All(), WithOfficeNames(employees.All(), offices.All()))
    ensures |r| == |vouchers.records|
  {
    var vs := vouchers.GetAllData();
    var es := GetEmployees(employees, offices);
    r := WithEmployeeNames(vs, es);
  }

  /** `getVoucherById(id)`: the stored voucher, or `undefined`. */
  method GetVoucherById(vouchers: ObjectStore<ReceivingVoucher>, id: int) returns (r: Option<ReceivingVoucher>)
    requires IsVoucherStore(vouchers)
    ensures r.Some? <==> id in vouchers.records
    ensures r.Some? ==> r.value == vouchers.records[id] && r.value.voucherID == Some(id)
  {
    r := vouchers.GetDataByKey(id);
  }

  /** `addVoucher(voucher)`: stores the voucher under a generated key and returns it with
      that key; a failed request stores nothing. */
  method AddVoucher(vouchers: ObjectStore<ReceivingVoucher>, voucher: ReceivingVoucher) returns (res: Result<ReceivingVoucher, StoreError>)
    requires IsVoucherStore(vouchers) && voucher.voucherID.None?
    modifies vouchers
    ensures IsVoucherStore(vouchers)
    ensures res.Ok? <==> old(vouchers.current) <= MaxGeneratedKey
    ensures res.Ok? ==> var k := old(vouchers.current);
      && res.value == voucher.(voucherID := Some(k))
      && k !in old(vouchers.records)
      && vouchers.records == old(vouchers.records)[k := res.value]
    ensures res.Err? ==> vouchers.State() == old(vouchers.State())
  {
    var key := vouchers.AddData(voucher);
    match key
    case Ok(k) => res := Ok(voucher.(voucherID := Some(k)));
    case Err(e) => res := Err(e);
  }

  /** `updateVoucher(voucher)`: an upsert by `voucherID`; resolves with the key. */
  method UpdateVoucher(vouchers: ObjectStore<ReceivingVoucher>, voucher: ReceivingVoucher) returns (res: Result<int, StoreError>)
    requires IsVoucherStore(vouchers)
    modifies vouchers
    ensures IsVoucherStore(vouchers)
    ensures voucher.voucherID.Some? ==>
      res == Ok(voucher.voucherID.value) && vouchers.records == old(vouchers.records)[voucher.voucherID.value := voucher]
    ensures (vouchers.State(), res) == Put(old(vouchers.State()), VoucherPath(), voucher)
  {
    res := vouchers.UpdateData(voucher);
  }
}
