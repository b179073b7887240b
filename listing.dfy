/** Client-side paging as every list page's fetch callback does it:
    `totalPages = Math.ceil(filtered.length / pageSize)` and
    `data = filtered.slice((page - 1) * pageSize, page * pageSize)`. */
module Listing {

  /** What a fetch callback resolves with. */
  datatype FetchResult<T> = FetchResult(data: seq<T>, totalPages: int)

  /** `Math.ceil(n / pageSize)`. */
  function CeilDiv(n: nat, pageSize: nat): (r: nat)
    requires pageSize >= 1
    ensures r * pageSize >= n
    ensures r == 0 || (r - 1) * pageSize < n
    ensures r == 0 <==> n == 0
  {
    var q := (n + pageSize - 1) / pageSize;
    assert q * pageSize + (n + pageSize - 1) % pageSize == n + pageSize - 1;
    q
  }

  /** How `slice` resolves a possibly negative index against a length. */
  function RelativeIndex(i: int, len: nat): (r: nat)
    ensures r <= len
    ensures 0 <= i <= len ==> r == i
  {
    if i < 0 then (if len + i < 0 then 0 else len + i)
    else if i > len then len
    else i
  }

  /** `s.slice(start, end)`. */
  function Slice<T>(s: seq<T>, start: int, end: int): (r: seq<T>)
    ensures |r| <= |s|
  {
    var from := RelativeIndex(start, |s|);
    var to := RelativeIndex(end, |s|);
    if from < to then s[from..to] else []
  }

  /** A slice never holds more than `end - start` elements. */
  lemma SliceLength<T>(s: seq<T>, start: int, end: int)
    requires start <= end
    ensures |Slice(s, start, end)| <= end - start
  {
  }

  /** A slice holds only elements of the list it is cut from. */
  lemma SliceWithin<T>(s: seq<T>, start: int, end: int)
    ensures forall x :: x in Slice(s, start, end) ==> x in s
  {
    var from := RelativeIndex(start, |s|);
    var to := RelativeIndex(end, |s|);
    if from < to {
      forall x | x in s[from..to] ensures x in s {
        var j :| 0 <= j < to - from && s[from..to][j] == x;
        assert s[from + j] == x;
      }
    }
  }

  /** `{ data: filtered.slice((page - 1) * pageSize, page * pageSize),
        totalPages: Math.ceil(filtered.length / pageSize) }`. */
  function Paginate<T>(filtered: seq<T>, page: int, pageSize: nat): FetchResult<T>
    requires pageSize >= 1
  {
    FetchResult(Slice(filtered, (page - 1) * pageSize, page * pageSize), CeilDiv(|filtered|, pageSize))
  }

  function MinNat(a: nat, b: nat): nat { if a <= b then a else b }

  /** A page holds at most `pageSize` items; page `p >= 1` is the contiguous run of
      `filtered` from position `(p - 1) * pageSize`, in order; a page past the last is empty;
      there are no pages exactly when there are no items. */
  lemma PageShape<T>(filtered: seq<T>, page: int, pageSize: nat)
    requires pageSize >= 1
    ensures var r := Paginate(filtered, page, pageSize);
      && |r.data| <= pageSize
      && (r.totalPages == 0 <==> filtered == [])
      && (page >= 1 ==>
            var from := MinNat((page - 1) * pageSize, |filtered|);
            r.data == filtered[from..MinNat(page * pageSize, |filtered|)])
      && (page > r.totalPages ==> r.data == [])
  {
    var n := |filtered|;
    var t := CeilDiv(n, pageSize);
    assert page * pageSize - (page - 1) * pageSize == pageSize;
    SliceLength(filtered, (page - 1) * pageSize, page * pageSize);
    if page > t {
      assert (page - 1) * pageSize >= t * pageSize by {
        assert page - 1 >= t;
        MulMonotone(t, page - 1, pageSize);
      }
    }
    if page >= 1 {
      assert (page - 1) * pageSize >= 0 by {
        MulMonotone(0, page - 1, pageSize);
      }
    }
  }

  lemma MulMonotone(a: int, b: int, c: nat)
    requires a <= b
    ensures a * c <= b * c
  {
  }

  /** Pages `1..n` laid end to end. */
  function PagesUpTo<T>(filtered: seq<T>, pageSize: nat, n: nat): seq<T>
    requires pageSize >= 1
  {
    if n == 0 then [] else PagesUpTo(filtered, pageSize, n - 1) + Paginate(filtered, n, pageSize).data
  }

  /** The first `n` pages are exactly the first `n * pageSize` items. */
  lemma {:induction false} PagesUpToPrefix<T>(filtered: seq<T>, pageSize: nat, n: nat)
    requires pageSize >= 1
    ensures PagesUpTo(filtered, pageSize, n) == filtered[..MinNat(n * pageSize, |filtered|)]
  {
    if n > 0 {
      PagesUpToPrefix(filtered, pageSize, n - 1);
      PageShape(filtered, n, pageSize);
      var a := MinNat((n - 1) * pageSize, |filtered|);
      var b := MinNat(n * pageSize, |filtered|);
      assert a <= b by {
        MulMonotone(n - 1, n, pageSize);
      }
      assert Paginate(filtered, n, pageSize).data == filtered[a..b];
      assert filtered[..a] + filtered[a..b] == filtered[..b];
    }
  }

  /** Pagination partitions the list: pages `1..totalPages` concatenate to exactly the
      filtered list, so every item is on exactly one page and in order. */
  lemma PagesPartition<T>(filtered: seq<T>, pageSize: nat)
    requires pageSize >= 1
    ensures PagesUpTo(filtered, pageSize, Paginate(filtered, 1, pageSize).totalPages) == filtered
  {
    var t := CeilDiv(|filtered|, pageSize);
    PagesUpToPrefix(filtered, pageSize, t);
    assert filtered[..|filtered|] == filtered;
  }
}
