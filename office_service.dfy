/** `officeService`: the `offices` store, one request per operation. */
module OfficeService {
  import opened Common
  import opened RecordStore

  datatype Office = Office(officeID: Option<int>, officeName: string, address: Option<string>)

  const StoreName: string := "offices"

  function OfficeKey(o: Office): Option<int> { o.officeID }
  function WithOfficeKey(o: Office, k: int): Office { o.(officeID := Some(k)) }

  /** `keyPath: 'officeID', autoIncrement: true`. */
  function OfficePath(): KeyPath<Office> { KeyPath(OfficeKey, WithOfficeKey) }

  ghost predicate IsOfficeStore(s: ObjectStore<Office>)
    reads s
  {
    s.Valid() && s.path == OfficePath()
  }

  /** `getOffices()`: exactly the stored offices, each once, in key order. */
  method GetOffices(offices: ObjectStore<Office>) returns (r: seq<Office>)
    requires IsOfficeStore(offices)
    ensures r == offices.All()
    ensures |r| == |offices.records|
    ensures forall k :: k in offices.records ==> offices.records[k] in r
    ensures forall i :: 0 <= i < |r| ==>
      r[i].officeID.Some? && r[i].officeID.value in offices.records && offices.records[r[i].officeID.value] == r[i]
  {
    r := offices.GetAllData();
  }

  /** `addOffice(office)`: stores the office under a generated key and returns it with that
      key; a failed request stores nothing. */
  method AddOffice(offices: ObjectStore<Office>, office: Office) returns (res: Result<Office, StoreError>)
    requires IsOfficeStore(offices) && office.officeID.None?
    modifies offices
    ensures IsOfficeStore(offices)
    ensures res.Ok? <==> old(offices.current) <= MaxGeneratedKey
    ensures res.Ok? ==> var k := old(offices.current);
      && res.value == office.(officeID := Some(k))
      && k !in old(offices.records)
      && offices.records == old(offices.records)[k := res.value]
    ensures res.Err? ==> offices.State() == old(offices.State())
  {
    var key := offices.AddData(office);
    match key
    case Ok(k) => res := Ok(office.(officeID := Some(k)));
    case Err(e) => res := Err(e);
  }

  /** `updateOffice(office)`: replaces the office stored under its id and resolves with the
      key (the request's result), not with the office. */
  method UpdateOffice(offices: ObjectStore<Office>, office: Office) returns (res: Result<int, StoreError>)
    requires IsOfficeStore(offices)
    modifies offices
    ensures IsOfficeStore(offices)
    ensures office.officeID.Some? ==>
      res == Ok(office.officeID.value) && offices.records == old(offices.records)[office.officeID.value := office]
    ensures (offices.State(), res) == Put(old(offices.State()), OfficePath(), office)
  {
    res := offices.UpdateData(office);
  }

  /** `deleteOffice(id)`: removes the office, whether or not employees or assets still refer
      to it, and resolves `true`. */
  method DeleteOffice(offices: ObjectStore<Office>, officeID: int) returns (ok: bool)
    requires IsOfficeStore(offices)
    modifies offices
    ensures IsOfficeStore(offices)
    ensures ok && offices.records == old(offices.records) - {officeID}
    ensures offices.current == old(offices.current)
  {
    ok := offices.DeleteData(officeID);
  }

  /** `getOfficeById(id)`: the stored office, or `undefined`. */
  method GetOfficeById(offices: ObjectStore<Office>, id: int) returns (r: Option<Office>)
    requires IsOfficeStore(offices)
    ensures r.Some? <==> id in offices.records
    ensures r.Some? ==> r.value == offices.records[id] && r.value.officeID == Some(id)
  {
    r := offices.GetDataByKey(id);
  }
}
