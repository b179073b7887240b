/** Small shared vocabulary: optional values, results, and JavaScript's `Array.prototype.filter`. */
module Common {

  /** `undefined`/`null` versus a present value. */
  datatype Option<+T> = None | Some(value: T)

  /** A resolved promise (`Ok`) or a rejected one (`Err`). */
  datatype Result<+T, +E> = Ok(value: T) | Err(error: E)

  /** `s.filter(p)`: the elements of `s` that satisfy `p`, in their original order. */
  function Filter<T>(s: seq<T>, p: T -> bool): (r: seq<T>)
    ensures |r| <= |s|
    ensures forall i :: 0 <= i < |r| ==> r[i] in s && p(r[i])
    ensures forall i :: 0 <= i < |s| && p(s[i]) ==> s[i] in r
  {
    if s == [] then [] else (if p(s[0]) then [s[0]] else []) + Filter(s[1..], p)
  }

  /** Filtering distributes over concatenation, so it keeps relative order. */
  lemma {:induction false} FilterConcat<T>(a: seq<T>, b: seq<T>, p: T -> bool)
    ensures Filter(a + b, p) == Filter(a, p) + Filter(b, p)
  {
    if a == [] {
      assert a + b == b;
    } else {
      assert (a + b)[1..] == a[1..] + b;
      FilterConcat(a[1..], b, p);
    }
  }

  /** A filter whose predicate holds everywhere keeps the whole sequence. */
  lemma {:induction false} FilterKeepsAll<T>(s: seq<T>, p: T -> bool)
    requires forall i :: 0 <= i < |s| ==> p(s[i])
    ensures Filter(s, p) == s
  {
    if s != [] {
      FilterKeepsAll(s[1..], p);
    }
  }

  /** Two filters in a row are one filter by the conjunction of their predicates. */
  lemma {:induction false} FilterFilter<T>(s: seq<T>, p: T -> bool, q: T -> bool, pq: T -> bool)
    requires forall x :: pq(x) == (p(x) && q(x))
    ensures Filter(Filter(s, p), q) == Filter(s, pq)
  {
    if s != [] {
      FilterFilter(s[1..], p, q, pq);
      var head := if p(s[0]) then [s[0]] else [];
      FilterConcat(head, Filter(s[1..], p), q);
      if p(s[0]) {
        assert Filter(head, q) == (if q(s[0]) then [s[0]] else []) + Filter([], q);
      }
    }
  }

  /** Filtering by two predicates that agree everywhere gives the same list. */
  lemma {:induction false} FilterSame<T>(s: seq<T>, p: T -> bool, q: T -> bool)
    requires forall x :: p(x) == q(x)
    ensures Filter(s, p) == Filter(s, q)
  {
    if s != [] {
      FilterSame(s[1..], p, q);
    }
  }

  /** `s.filter(p)` where evaluating `p` may throw (`None`): the filter throws exactly when
      `p` throws on some element, and otherwise keeps, in order, the elements `p` accepts. */
  function FilterOpt<T>(s: seq<T>, p: T -> Option<bool>): (r: Option<seq<T>>)
    ensures r.None? <==> exists i :: 0 <= i < |s| && p(s[i]).None?
    ensures r.Some? ==> |r.value| <= |s|
    ensures r.Some? ==> forall i :: 0 <= i < |r.value| ==> r.value[i] in s && p(r.value[i]) == Some(true)
    ensures r.Some? ==> forall i :: 0 <= i < |s| && p(s[i]) == Some(true) ==> s[i] in r.value
  {
    if s == [] then Some([])
    else
      match p(s[0])
      case None => None
      case Some(keep) =>
        match FilterOpt(s[1..], p)
        case None =>
          assert exists i :: 0 <= i < |s[1..]| && p(s[1..][i]).None?;
          var i :| 0 <= i < |s[1..]| && p(s[1..][i]).None?;
          assert p(s[i + 1]).None?;
          None
        case Some(rest) =>
          assert forall i :: 1 <= i < |s| ==> s[i] == s[1..][i - 1];
          Some((if keep then [s[0]] else []) + rest)
  }

  /** When `p` throws on no element, the throwing filter is the plain filter by `q`, the
      predicate `p` evaluates to. */
  lemma {:induction false} FilterOptTotal<T>(s: seq<T>, p: T -> Option<bool>, q: T -> bool)
    requires forall i :: 0 <= i < |s| ==> p(s[i]) == Some(q(s[i]))
    ensures FilterOpt(s, p) == Some(Filter(s, q))
  {
    if s != [] {
      assert forall i :: 0 <= i < |s[1..]| ==> s[1..][i] == s[i + 1];
      FilterOptTotal(s[1..], p, q);
    }
  }

  /** Number of elements of `s` satisfying `p` (`s.filter(p).length`). */
  function Count<T>(s: seq<T>, p: T -> bool): (n: nat)
    ensures n <= |s|
  {
    |Filter(s, p)|
  }

  function Min(a: int, b: int): int { if a <= b then a else b }
  function Max(a: int, b: int): int { if a >= b then a else b }
}
