/** The in-browser keyed record store of `src/utils/indexedDB.ts`: named object stores with
    in-line primary keys (`keyPath`) and a key generator (`autoIncrement: true`), following
    the key-generator rules of section 2.11 of the W3C Indexed Database API.

    `StoreState` is the value of one object store and the functions over it say what each
    request does; `ObjectStore` is the store the application mutates in place, one method per
    exported function of the source file. */
module RecordStore {
  import opened Common

  /** 2^53: the largest key a key generator hands out. */
  const MaxGeneratedKey: int := 9007199254740992

  const DbName: string := "AssetManagementDB"
  const DbVersion: int := 3

  /** The stores the upgrade handler creates when missing. */
  const UpgradeStores: set<string> := {"offices", "employees", "assets"}

  /** How a request fails: `ConstraintError` for a taken key or an exhausted key generator,
      `DataError` for a request made with a key that is `undefined`. */
  datatype StoreError = ConstraintError | DataError

  /** How a store finds the primary key inside a record (`keyPath`) and how it writes a
      generated key back into the record. */
  datatype KeyPath<!R> = KeyPath(keyOf: R -> Option<int>, withKey: (R, int) -> R)

  /** Writing a key into a record makes it that record's key. */
  ghost predicate LawfulKeyPath<R(!new)>(path: KeyPath<R>)
  {
    forall r, k :: path.keyOf(path.withKey(r, k)) == Some(k)
  }

  predicate Ascending(ks: seq<int>)
  {
    forall i, j :: 0 <= i < j < |ks| ==> ks[i] < ks[j]
  }

  /** One object store: its records by primary key, the keys in ascending order (the order
      `getAll` returns), and the key generator's current number. */
  datatype StoreState<R> = StoreState(records: map<int, R>, keys: seq<int>, current: int)

  ghost predicate WellFormed<R(!new)>(st: StoreState<R>, path: KeyPath<R>)
  {
    && LawfulKeyPath(path)
    && 1 <= st.current <= MaxGeneratedKey + 1
    && Ascending(st.keys)
    && (forall k :: k in st.records <==> k in st.keys)
    && (forall k :: k in st.records ==> path.keyOf(st.records[k]) == Some(k))
    // every key the generator could still hand out is free
    && (forall k :: k in st.records ==> k < st.current || k > MaxGeneratedKey)
  }

  function EmptyStore<R(!new)>(path: KeyPath<R>): (st: StoreState<R>)
    requires LawfulKeyPath(path)
    ensures WellFormed(st, path) && st.records == map[]
  {
    StoreState(map[], [], 1)
  }

  /** Places a new key in an ascending key list. */
  function InsertKey(ks: seq<int>, k: int): (r: seq<int>)
    requires Ascending(ks) && k !in ks
    ensures Ascending(r) && |r| == |ks| + 1
    ensures forall x :: x in r <==> x in ks || x == k
  {
    if ks == [] then [k]
    else if k < ks[0] then [k] + ks
    else
      var rest := InsertKey(ks[1..], k);
      assert forall j :: 0 <= j < |rest| ==> ks[0] < rest[j] by {
        forall j | 0 <= j < |rest| ensures ks[0] < rest[j] {
          assert rest[j] in rest;
          if rest[j] in ks[1..] {
            var i :| 0 <= i < |ks[1..]| && ks[1..][i] == rest[j];
            assert ks[i + 1] == rest[j];
          }
        }
      }
      [ks[0]] + rest
  }

  /** Takes a key out of an ascending key list. */
  function RemoveKey(ks: seq<int>, k: int): (r: seq<int>)
    requires Ascending(ks)
    ensures Ascending(r)
    ensures forall x :: x in r <==> x in ks && x != k
  {
    if ks == [] then []
    else if ks[0] == k then RemoveKey(ks[1..], k)
    else
      var rest := RemoveKey(ks[1..], k);
      assert forall j :: 0 <= j < |rest| ==> ks[0] < rest[j] by {
        forall j | 0 <= j < |rest| ensures ks[0] < rest[j] {
          assert rest[j] in rest;
          if rest[j] in ks[1..] {
            var i :| 0 <= i < |ks[1..]| && ks[1..][i] == rest[j];
            assert ks[i + 1] == rest[j];
          }
        }
      }
      [ks[0]] + rest
  }

  /** "Possibly update the key generator" after a record was stored under an explicit key. */
  function NextCurrent(current: int, k: int): (c: int)
    ensures c >= current
    ensures c > Min(k, MaxGeneratedKey)
  {
    var v := Min(k, MaxGeneratedKey);
    if v >= current then v + 1 else current
  }

  /** Stores `value` under `k`, keeping the key list in step. */
  function Store<R(!new)>(st: StoreState<R>, k: int, value: R, current: int): StoreState<R>
    requires Ascending(st.keys) && (forall x :: x in st.records <==> x in st.keys)
  {
    StoreState(st.records[k := value], if k in st.records then st.keys else InsertKey(st.keys, k), current)
  }

  /** `store.add(r)`: fails when the record's own key is taken or the generator is
      exhausted; otherwise stores the record and yields its key. */
  function Add<R(!new)>(st: StoreState<R>, path: KeyPath<R>, r: R): (out: (StoreState<R>, Result<int, StoreError>))
    requires WellFormed(st, path)
    ensures WellFormed(out.0, path)
    ensures out.1.Err? ==> out.0 == st
    ensures out.1.Ok? ==> var k := out.1.value;
      && k !in st.records
      && out.0.records == st.records[k := (if path.keyOf(r).Some? then r else path.withKey(r, k))]
    ensures path.keyOf(r).Some? ==> (out.1.Ok? <==> path.keyOf(r).value !in st.records)
    ensures path.keyOf(r).None? ==> (out.1.Ok? <==> st.current <= MaxGeneratedKey)
    ensures path.keyOf(r).None? && out.1.Ok? ==> out.1.value == st.current < out.0.current
    ensures out.0.current >= st.current
  {
    match path.keyOf(r)
    case Some(k) =>
      if k in st.records then (st, Err(ConstraintError))
      else (Store(st, k, r, NextCurrent(st.current, k)), Ok(k))
    case None =>
      if st.current > MaxGeneratedKey then (st, Err(ConstraintError))
      else (Store(st, st.current, path.withKey(r, st.current), st.current + 1), Ok(st.current))
  }

  /** `store.put(r)`: an upsert by the record's own key; a record without one gets a
      generated key as with `add`. Yields the key. */
  function Put<R(!new)>(st: StoreState<R>, path: KeyPath<R>, r: R): (out: (StoreState<R>, Result<int, StoreError>))
    requires WellFormed(st, path)
    ensures WellFormed(out.0, path)
    ensures out.1.Err? ==> out.0 == st
    ensures path.keyOf(r).Some? ==> var k := path.keyOf(r).value;
      out.1 == Ok(k) && out.0.records == st.records[k := r]
    ensures path.keyOf(r).None? ==> (out.1.Ok? <==> st.current <= MaxGeneratedKey)
    ensures path.keyOf(r).None? && out.1.Ok? ==> var k := out.1.value;
      && k == st.current && k !in st.records
      && out.0.records == st.records[k := path.withKey(r, k)]
    ensures out.0.current >= st.current
  {
    match path.keyOf(r)
    case Some(k) => (Store(st, k, r, NextCurrent(st.current, k)), Ok(k))
    case None => Add(st, path, r)
  }

  /** `store.delete(k)`: removes the key if present; an absent key is no error. */
  function Delete<R(!new)>(st: StoreState<R>, path: KeyPath<R>, k: int): (out: StoreState<R>)
    requires WellFormed(st, path)
    ensures WellFormed(out, path)
    ensures out.records == st.records - {k}
    ensures out.current == st.current
  {
    StoreState(st.records - {k}, RemoveKey(st.keys, k), st.current)
  }

  /** `store.get(k)`: the record or `undefined`. */
  function Get<R(!new)>(st: StoreState<R>, k: int): Option<R>
  {
    if k in st.records then Some(st.records[k]) else None
  }

  function Lookup<R(!new)>(m: map<int, R>, ks: seq<int>): (r: seq<R>)
    requires forall i :: 0 <= i < |ks| ==> ks[i] in m
    ensures |r| == |ks|
    ensures forall i :: 0 <= i < |ks| ==> r[i] == m[ks[i]]
  {
    if ks == [] then [] else [m[ks[0]]] + Lookup(m, ks[1..])
  }

  /** `store.getAll()`: every record, in ascending key order. */
  function GetAll<R(!new)>(st: StoreState<R>, path: KeyPath<R>): (r: seq<R>)
    requires WellFormed(st, path)
    ensures |r| == |st.keys|
  {
    Lookup(st.records, st.keys)
  }

  function FieldEquals<R(!new)>(field: R -> int, value: int): R -> bool
  {
    x => field(x) == value
  }

  /** `index.getAll(value)` for an index on `field`: the records whose field equals
      `value`, in ascending key order. */
  function GetAllByIndex<R(!new)>(st: StoreState<R>, path: KeyPath<R>, field: R -> int, value: int): seq<R>
    requires WellFormed(st, path)
  {
    Filter(GetAll(st, path), FieldEquals(field, value))
  }

  /** `getAll` yields exactly the stored records, each once, ordered by key, and each
      carrying its own key. */
  lemma GetAllExact<R(!new)>(st: StoreState<R>, path: KeyPath<R>)
    requires WellFormed(st, path)
    ensures |GetAll(st, path)| == |st.records|
    ensures forall i :: 0 <= i < |st.keys| ==> GetAll(st, path)[i] == st.records[st.keys[i]]
    ensures forall k :: k in st.records ==> st.records[k] in GetAll(st, path)
    ensures forall i, j :: 0 <= i < j < |GetAll(st, path)| ==>
      path.keyOf(GetAll(st, path)[i]).value < path.keyOf(GetAll(st, path)[j]).value
  {
    GetAllCount(st, path);
    GetAllCovers(st, path);
    GetAllOrdered(st, path);
  }

  lemma GetAllCount<R(!new)>(st: StoreState<R>, path: KeyPath<R>)
    requires WellFormed(st, path)
    ensures |GetAll(st, path)| == |st.records|
  {
    var ks := set k | k in st.keys;
    forall k ensures k in st.records.Keys <==> k in ks {
      assert k in st.records <==> k in st.keys;
    }
    assert st.records.Keys == ks;
    DistinctCardinality(st.keys);
  }

  lemma GetAllCovers<R(!new)>(st: StoreState<R>, path: KeyPath<R>)
    requires WellFormed(st, path)
    ensures forall k :: k in st.records ==> st.records[k] in GetAll(st, path)
  {
    var all := GetAll(st, path);
    forall k | k in st.records ensures st.records[k] in all {
      var i :| 0 <= i < |st.keys| && st.keys[i] == k;
      assert all[i] == st.records[k];
    }
  }

  lemma GetAllOrdered<R(!new)>(st: StoreState<R>, path: KeyPath<R>)
    requires WellFormed(st, path)
    ensures forall i, j :: 0 <= i < j < |GetAll(st, path)| ==>
      path.keyOf(GetAll(st, path)[i]).value < path.keyOf(GetAll(st, path)[j]).value
  {
    var all := GetAll(st, path);
    forall i, j | 0 <= i < j < |all|
      ensures path.keyOf(all[i]).value < path.keyOf(all[j]).value
    {
      assert st.keys[i] in st.records && st.keys[j] in st.records;
      assert path.keyOf(all[i]) == Some(st.keys[i]);
      assert path.keyOf(all[j]) == Some(st.keys[j]);
    }
  }

  /** Every record `getAll` yields is stored under its own key. */
  lemma GetAllKeyed<R(!new)>(st: StoreState<R>, path: KeyPath<R>)
    requires WellFormed(st, path)
    ensures forall i :: 0 <= i < |GetAll(st, path)| ==>
      && path.keyOf(GetAll(st, path)[i]).Some?
      && path.keyOf(GetAll(st, path)[i]).value in st.records
      && st.records[path.keyOf(GetAll(st, path)[i]).value] == GetAll(st, path)[i]
  {
    var all := GetAll(st, path);
    forall i | 0 <= i < |all|
      ensures path.keyOf(all[i]) == Some(st.keys[i]) && st.keys[i] in st.records
      ensures st.records[st.keys[i]] == all[i]
    {
      assert st.keys[i] in st.records;
    }
  }

  /** An ascending list has as many elements as its set. */
  lemma {:induction false} DistinctCardinality(ks: seq<int>)
    requires Ascending(ks)
    ensures |set k | k in ks| == |ks|
  {
    if ks != [] {
      DistinctCardinality(ks[1..]);
      assert (set k | k in ks) == (set k | k in ks[1..]) + {ks[0]};
      assert ks[0] !in (set k | k in ks[1..]);
    }
  }

  /** After a successful `add`, `get` of the new key yields the stored record, which carries
      that key, and every other key is unchanged. */
  lemma AddThenGet<R(!new)>(st: StoreState<R>, path: KeyPath<R>, r: R, j: int)
    requires WellFormed(st, path)
    ensures var (s1, res) := Add(st, path, r);
      res.Ok? ==>
        && Get(s1, res.value).Some?
        && path.keyOf(Get(s1, res.value).value) == Some(res.value)
        && (j != res.value ==> Get(s1, j) == Get(st, j))
  {
  }

  /** After a successful `put`, `get` of its key yields the record and no other key changed. */
  lemma PutThenGet<R(!new)>(st: StoreState<R>, path: KeyPath<R>, r: R, j: int)
    requires WellFormed(st, path)
    requires path.keyOf(r).Some?
    ensures var out := Put(st, path, r); var k := path.keyOf(r).value;
      && Get(out.0, k) == Some(r)
      && (j != k ==> Get(out.0, j) == Get(st, j))
  {
  }

  /** After `delete(k)`, `get(k)` yields `undefined` and no other key changed. */
  lemma DeleteThenGet<R(!new)>(st: StoreState<R>, path: KeyPath<R>, k: int, j: int)
    requires WellFormed(st, path)
    ensures Get(Delete(st, path, k), k) == None
    ensures j != k ==> Get(Delete(st, path, k), j) == Get(st, j)
  {
  }

  /** A key generated later is greater than a key generated earlier, whatever explicit-key
      requests happen in between. */
  lemma {:induction false} GeneratedKeysIncrease<R(!new)>(st: StoreState<R>, path: KeyPath<R>, r1: R, r2: R)
    requires WellFormed(st, path)
    requires path.keyOf(r1).None? && path.keyOf(r2).None?
    ensures var (s1, k1) := Add(st, path, r1);
      k1.Ok? ==> var (s2, k2) := Add(s1, path, r2);
      k2.Ok? ==> k1.value < k2.value
  {
  }

  /** An object store as the application holds it: mutated in place by each request. */
  class ObjectStore<R(!new)> {
    const name: string
    const path: KeyPath<R>
    var records: map<int, R>
    var keys: seq<int>
    var current: int

    function State(): StoreState<R>
      reads this
    {
      StoreState(records, keys, current)
    }

    ghost predicate Valid()
      reads this
    {
      WellFormed(State(), path)
    }

    /** `createObjectStore(name, { keyPath, autoIncrement: true })`. */
    constructor (name: string, path: KeyPath<R>)
      requires LawfulKeyPath(path)
      ensures Valid() && this.name == name && this.path == path
      ensures records == map[] && current == 1
    {
      this.name := name;
      this.path := path;
      records, keys, current := map[], [], 1;
    }

    function All(): seq<R>
      reads this
      requires Valid()
    {
      GetAll(State(), path)
    }

    method Set(st: StoreState<R>)
      modifies this
      ensures State() == st
    {
      records, keys, current := st.records, st.keys, st.current;
    }

    /** `addData(storeName, data)`. */
    method AddData(data: R) returns (res: Result<int, StoreError>)
      requires Valid()
      modifies this
      ensures Valid()
      ensures (State(), res) == Add(old(State()), path, data)
    {
      var out := Add(State(), path, data);
      Set(out.0);
      res := out.1;
    }

    /** `updateData(storeName, data)`: resolves with `put`'s result, the key. */
    method UpdateData(data: R) returns (res: Result<int, StoreError>)
      requires Valid()
      modifies this
      ensures Valid()
      ensures (State(), res) == Put(old(State()), path, data)
    {
      var out := Put(State(), path, data);
      Set(out.0);
      res := out.1;
    }

    /** `deleteData(storeName, key)`: resolves `true` whether or not the key was present. */
    method DeleteData(key: int) returns (ok: bool)
      requires Valid()
      modifies this
      ensures Valid()
      ensures ok && State() == Delete(old(State()), path, key)
    {
      Set(Delete(State(), path, key));
      ok := true;
    }

    /** `getDataByKey(storeName, key)`. */
    method GetDataByKey(key: int) returns (r: Option<R>)
      requires Valid()
      ensures r == Get(State(), key)
      ensures r.Some? ==> key in records && r.value == records[key]
      ensures r.None? ==> key !in records
    {
      r := if key in records then Some(records[key]) else None;
    }

    /** `getAllData(storeName)`. */
    method GetAllData() returns (r: seq<R>)
      requires Valid()
      ensures r == All()
      ensures |r| == |records|
      ensures forall i :: 0 <= i < |keys| ==> r[i] == records[keys[i]]
      ensures forall i :: 0 <= i < |r| ==>
        path.keyOf(r[i]).Some? && path.keyOf(r[i]).value in records && records[path.keyOf(r[i]).value] == r[i]
      ensures forall i, j :: 0 <= i < j < |r| ==> path.keyOf(r[i]).value < path.keyOf(r[j]).value
    {
      ghost var st := State();
      assert WellFormed(st, path);
      r := GetAll(State(), path);
      GetAllExact(st, path);
      GetAllKeyed(st, path);
    }

    /** `getAllDataByIndex(storeName, indexName, value)` for an index on `field`. */
    method GetAllDataByIndex(field: R -> int, value: int) returns (r: seq<R>)
      requires Valid()
      ensures r == GetAllByIndex(State(), path, field, value)
      ensures forall i :: 0 <= i < |r| ==> field(r[i]) == value && r[i] in All()
      ensures forall k :: k in records && field(records[k]) == value ==> records[k] in r
    {
      var all := GetAllData();
      r := Filter(all, FieldEquals(field, value));
    }
  }

  /** The database the module-level `db` handle points to once `initDB` succeeds. */
  class Database {
    var version: int          // 0 while no database of this name exists
    var storeNames: set<string>
    var isOpen: bool          // the module-level handle has been assigned

    constructor (version: int, storeNames: set<string>)
      ensures this.version == version && this.storeNames == storeNames && !isOpen
    {
      this.version, this.storeNames, isOpen := version, storeNames, false;
    }

    /** The `onupgradeneeded` handler: creates each of the three stores only if missing. */
    method UpgradeNeeded() returns (created: set<string>)
      modifies this`storeNames
      ensures created == UpgradeStores - old(storeNames)
      ensures storeNames == old(storeNames) + UpgradeStores
    {
      created := {};
      if "offices" !in storeNames {
        storeNames, created := storeNames + {"offices"}, created + {"offices"};
      }
      if "employees" !in storeNames {
        storeNames, created := storeNames + {"employees"}, created + {"employees"};
      }
      if "assets" !in storeNames {
        storeNames, created := storeNames + {"assets"}, created + {"assets"};
      }
    }

    /** `initDB()`: opening at version 3 runs the upgrade handler when the stored version is
        lower, fails (rejects with `false`) when it is higher, and otherwise only opens. */
    method InitDB() returns (ok: bool)
      modifies this
      ensures ok <==> old(version) <= DbVersion
      ensures ok ==> version == DbVersion && isOpen
      ensures ok && old(version) < DbVersion ==> storeNames == old(storeNames) + UpgradeStores
      ensures old(version) == DbVersion ==> storeNames == old(storeNames)
      ensures !ok ==> version == old(version) && storeNames == old(storeNames) && isOpen == old(isOpen)
    {
      if version > DbVersion {
        ok := false;
        return;
      }
      if version < DbVersion {
        var _ := UpgradeNeeded();
        version := DbVersion;
      }
      isOpen := true;
      ok := true;
    }
  }

  /** Running the upgrade against a database that already has the three stores creates
      nothing. */
  method UpgradeIsIdempotent(db: Database) returns (created: set<string>)
    requires UpgradeStores <= db.storeNames
    modifies db
    ensures created == {} && db.storeNames == old(db.storeNames)
  {
    created := db.UpgradeNeeded();
  }
}
