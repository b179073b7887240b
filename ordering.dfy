/** `items.sort((a, b) => time(b) - time(a))`: the newest-first order every history read
    returns, with the timestamp already turned into milliseconds. */
module Ordering {

  predicate NewestFirstOrder<T>(s: seq<T>, time: T -> int)
  {
    forall i, j :: 0 <= i < j < |s| ==> time(s[i]) >= time(s[j])
  }

  /** Inserts `x` in front of the first element that is not newer than it, so that equal
      timestamps keep their original relative order. */
  function Insert<T>(x: T, s: seq<T>, time: T -> int): (r: seq<T>)
    requires NewestFirstOrder(s, time)
    ensures NewestFirstOrder(r, time)
    ensures multiset(r) == multiset(s) + multiset{x}
    ensures |r| == |s| + 1
    ensures r[0] == x || (s != [] && r[0] == s[0])
  {
    if s == [] || time(s[0]) <= time(x) then [x] + s
    else
      var rest := Insert(x, s[1..], time);
      assert s == [s[0]] + s[1..];
      [s[0]] + rest
  }

  /** The stable newest-first sort. */
  function NewestFirst<T>(items: seq<T>, time: T -> int): (r: seq<T>)
    ensures NewestFirstOrder(r, time)
    ensures multiset(r) == multiset(items)
    ensures |r| == |items|
  {
    if items == [] then []
    else
      assert items == [items[0]] + items[1..];
      Insert(items[0], NewestFirst(items[1..], time), time)
  }

  /** Sorting keeps exactly the elements it was given: nothing is lost and nothing added. */
  lemma SortedSameMembers<T>(items: seq<T>, time: T -> int)
    ensures forall x :: x in NewestFirst(items, time) <==> x in items
  {
    var r := NewestFirst(items, time);
    forall x
      ensures x in r <==> x in items
    {
      assert x in r <==> x in multiset(r);
      assert x in items <==> x in multiset(items);
    }
  }
}
