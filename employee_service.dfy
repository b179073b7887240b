/** `employeeService`: the `employees` store, and the listing joined with office names. */
module EmployeeService {
  import opened Common
  import opened RecordStore
  import opened Joins
  import opened OfficeService

  datatype Employee = Employee(
    employeeID: Option<int>,
    firstName: string,
    lastName: string,
    email: string,
    currentOfficeId: Option<int>)

  /** An employee as listed: its stored fields plus the name of its office. */
  datatype EmployeeWithOffice = EmployeeWithOffice(employee: Employee, officeName: string)

  const StoreName: string := "employees"

  function EmployeeKey(e: Employee): Option<int> { e.employeeID }
  function WithEmployeeKey(e: Employee, k: int): Employee { e.(employeeID := Some(k)) }

  /** `keyPath: 'employeeID', autoIncrement: true`. */
  function EmployeePath(): KeyPath<Employee> { KeyPath(EmployeeKey, WithEmployeeKey) }

  ghost predicate IsEmployeeStore(s: ObjectStore<Employee>)
    reads s
  {
    s.Valid() && s.path == EmployeePath()
  }

  function OfficeNameOf(o: Office): string { o.officeName }

  /** `employees.map(emp => ({ ...emp, officeName: emp.currentOfficeId ?
      officeMap.get(emp.currentOfficeId) || 'Unknown Office' : 'N/A' }))`. */
  function WithOfficeNames(emps: seq<Employee>, offices: seq<Office>): (r: seq<EmployeeWithOffice>)
    ensures |r| == |emps|
    ensures forall i :: 0 <= i < |r| ==> r[i].employee == emps[i]
  {
    var names := IndexBy(offices, OfficeKey, OfficeNameOf);
    seq(|emps|, i requires 0 <= i < |emps| =>
      EmployeeWithOffice(emps[i], NameOfId(names, emps[i].currentOfficeId, "Unknown Office", "N/A")))
  }

  /** The office name of a listed employee is total: 'N/A' without an office id, the office's
      name when an office has that id (its last one), 'Unknown Office' when none has it or
      its name is empty. */
  lemma EmployeeOfficeName(emps: seq<Employee>, offices: seq<Office>, i: int)
    requires 0 <= i < |emps|
    ensures var id := emps[i].currentOfficeId; var n := WithOfficeNames(emps, offices)[i].officeName;
      && (!Truthy(id) ==> n == "N/A")
      && (Truthy(id) && (forall j :: 0 <= j < |offices| ==> offices[j].officeID != id) ==> n == "Unknown Office")
      && (forall j :: Truthy(id) && LastWithKey(offices, OfficeKey, id.value, j) ==>
            n == (if offices[j].officeName != "" then offices[j].officeName else "Unknown Office"))
  {
    var id := emps[i].currentOfficeId;
    if Truthy(id) {
      IndexByLastWins(offices, OfficeKey, OfficeNameOf, id.value);
    }
  }

  function ListedKey(e: EmployeeWithOffice): Option<int> { e.employee.employeeID }

  /** `` `${e.firstName} ${e.lastName}` ``, the name other listings show for an employee. */
  function ListedFullName(e: EmployeeWithOffice): (r: string)
    ensures r != ""
  {
    FullName(e.employee.firstName, e.employee.lastName)
  }

  /** `getEmployees()`: one entry per stored employee, in key order, with its office name. */
  method GetEmployees(employees: ObjectStore<Employee>, offices: ObjectStore<Office>) returns (r: seq<EmployeeWithOffice>)
    requires IsEmployeeStore(employees) && IsOfficeStore(offices)
    ensures r == WithOfficeNames(employees.All(), offices.All())
    ensures |r| == |employees.records|
    ensures forall i :: 0 <= i < |r| ==> r[i].employee.employeeID.Some? && r[i].employee in employees.records.Values
  {
    var emps := employees.GetAllData();
    var offs := GetOffices(offices);
    r := WithOfficeNames(emps, offs);
  }

  /** `getEmployeeById(id)`: the stored employee, or `undefined`. */
  method GetEmployeeById(employees: ObjectStore<Employee>, id: int) returns (r: Option<Employee>)
    requires IsEmployeeStore(employees)
    ensures r.Some? <==> id in employees.records
    ensures r.Some? ==> r.value == employees.records[id] && r.value.employeeID == Some(id)
  {
    r := employees.GetDataByKey(id);
  }

  /** `addEmployee(employee)`: stores the employee under a generated key and returns it with
      that key; a failed request stores nothing. */
  method AddEmployee(employees: ObjectStore<Employee>, employee: Employee) returns (res: Result<Employee, StoreError>)
    requires IsEmployeeStore(employees) && employee.employeeID.None?
    modifies employees
    ensures IsEmployeeStore(employees)
    ensures res.Ok? <==> old(employees.current) <= MaxGeneratedKey
    ensures res.Ok? ==> var k := old(employees.current);
      && res.value == employee.(employeeID := Some(k))
      && k !in old(employees.records)
      && employees.records == old(employees.records)[k := res.value]
    ensures res.Err? ==> employees.State() == old(employees.State())
  {
    var key := employees.AddData(employee);
    match key
    case Ok(k) => res := Ok(employee.(employeeID := Some(k)));
    case Err(e) => res := Err(e);
  }

  /** `updateEmployee(employee)`: an upsert by `employeeID`; resolves with the key. */
  method UpdateEmployee(employees: ObjectStore<Employee>, employee: Employee) returns (res: Result<int, StoreError>)
    requires IsEmployeeStore(employees)
    modifies employees
    ensures IsEmployeeStore(employees)
    ensures employee.employeeID.Some? ==>
      res == Ok(employee.employeeID.value)
      && employees.records == old(employees.records)[employee.employeeID.value := employee]
    ensures (employees.State(), res) == Put(old(employees.State()), EmployeePath(), employee)
  {
    res := employees.UpdateData(employee);
  }

  /** `deleteEmployee(id)`: removes the employee and resolves `true`. */
  method DeleteEmployee(employees: ObjectStore<Employee>, employeeID: int) returns (ok: bool)
    requires IsEmployeeStore(employees)
    modifies employees
    ensures IsEmployeeStore(employees)
    ensures ok && employees.records == old(employees.records) - {employeeID}
    ensures employees.current == old(employees.current)
  {
    ok := employees.DeleteData(employeeID);
  }
}
