/** The enrichment joins of the services: `new Map(list.map(x => [x.id!, v]))` lookups with
    JavaScript's truthiness deciding between the looked-up value and a placeholder. */
module Joins {
  import opened Common

  /** `new Map(items.map(x => [key(x)!, val(x)]))`: a later entry with the same key
      overwrites an earlier one; an entry whose key is `undefined` can never be looked up by
      a number, so it is left out. */
  function IndexBy<T, V>(items: seq<T>, key: T -> Option<int>, val: T -> V): map<int, V>
  {
    if items == [] then map[]
    else
      var m := IndexBy(items[..|items| - 1], key, val);
      var last := items[|items| - 1];
      if key(last).Some? then m[key(last).value := val(last)] else m
  }

  /** Position `i` holds the last entry of `items` whose key is `k`. */
  predicate LastWithKey<T>(items: seq<T>, key: T -> Option<int>, k: int, i: int)
  {
    && 0 <= i < |items|
    && key(items[i]) == Some(k)
    && (forall j :: i < j < |items| ==> key(items[j]) != Some(k))
  }

  /** A map lookup finds a key exactly when some entry carries it, and then yields the value
      of the last such entry. */
  lemma {:induction false} IndexByLastWins<T, V>(items: seq<T>, key: T -> Option<int>, val: T -> V, k: int)
    ensures k in IndexBy(items, key, val) <==> exists i :: 0 <= i < |items| && key(items[i]) == Some(k)
    ensures k in IndexBy(items, key, val) ==>
      exists i :: LastWithKey(items, key, k, i) && IndexBy(items, key, val)[k] == val(items[i])
  {
    if items != [] {
      var init := items[..|items| - 1];
      var n := |items| - 1;
      IndexByLastWins(init, key, val, k);
      if key(items[n]) == Some(k) {
        assert LastWithKey(items, key, k, n);
      } else if k in IndexBy(init, key, val) {
        var i :| LastWithKey(init, key, k, i) && IndexBy(init, key, val)[k] == val(init[i]);
        assert LastWithKey(items, key, k, i);
      } else {
        forall i | 0 <= i < |items| ensures key(items[i]) != Some(k) {
          if i < n {
            assert items[i] == init[i];
          }
        }
      }
    }
  }

  /** When keys are distinct, the looked-up value is the one of the only entry with that key. */
  lemma IndexByDistinct<T, V>(items: seq<T>, key: T -> Option<int>, val: T -> V, i: int)
    requires 0 <= i < |items| && key(items[i]).Some?
    requires forall j :: 0 <= j < |items| && j != i ==> key(items[j]) != key(items[i])
    ensures key(items[i]).value in IndexBy(items, key, val)
    ensures IndexBy(items, key, val)[key(items[i]).value] == val(items[i])
  {
    var k := key(items[i]).value;
    IndexByLastWins(items, key, val, k);
    var i' :| LastWithKey(items, key, k, i') && IndexBy(items, key, val)[k] == val(items[i']);
  }

  /** `m.get(k)`: the value under `k`, or `undefined`. */
  function MapGet<V>(m: map<int, V>, k: int): (r: Option<V>)
    ensures r.Some? <==> k in m
    ensures r.Some? ==> r.value == m[k]
  {
    if k in m then Some(m[k]) else None
  }

  /** JavaScript truthiness of a `number | null` id: `null` and `0` are falsy. */
  predicate Truthy(id: Option<int>)
  {
    id.Some? && id.value != 0
  }

  /** `m.get(k) || placeholder` for a map of names: a missing key or an empty name (which is
      falsy) yields the placeholder. */
  function NameOr(m: map<int, string>, k: int, placeholder: string): (r: string)
    ensures r == placeholder || (k in m && r == m[k] && r != "")
    ensures k in m && m[k] != "" ==> r == m[k]
  {
    if k in m && m[k] != "" then m[k] else placeholder
  }

  /** `id ? m.get(id) || placeholder : absent`. */
  function NameOfId(m: map<int, string>, id: Option<int>, placeholder: string, absent: string): (r: string)
    ensures !Truthy(id) ==> r == absent
    ensures Truthy(id) ==> r == NameOr(m, id.value, placeholder)
  {
    if Truthy(id) then NameOr(m, id.value, placeholder) else absent
  }

  /** `` `${first} ${last}` ``. */
  function FullName(first: string, last: string): string
  {
    first + " " + last
  }
}
