/**
 * Generic list operations the source takes from JavaScript's arrays: `filter`, `reduce` to a sum,
 * counting, and the stable `sort` (ECMAScript 2019 requires `Array.prototype.sort` to be stable).
 */
module Seqs {
  import opened Wrappers

  /** `s.filter(p)`. */
  function Filter<T>(s: seq<T>, p: T -> bool): (r: seq<T>)
    ensures |r| <= |s|
    ensures forall i :: 0 <= i < |r| ==> p(r[i])
    ensures multiset(r) <= multiset(s)
  {
    if s == [] then []
    else
      assert s == [s[0]] + s[1..];
      (if p(s[0]) then [s[0]] else []) + Filter(s[1..], p)
  }

  lemma {:induction false} FilterAppend<T>(a: seq<T>, b: seq<T>, p: T -> bool)
    ensures Filter(a + b, p) == Filter(a, p) + Filter(b, p)
  {
    if a == [] {
      assert a + b == b;
    } else {
      assert (a + b)[1..] == a[1..] + b;
      FilterAppend(a[1..], b, p);
    }
  }

  /** Every element of `s` that satisfies `p` is kept. */
  lemma {:induction false} FilterKeeps<T>(s: seq<T>, p: T -> bool, x: T)
    requires x in s && p(x)
    ensures x in Filter(s, p)
  {
    if s[0] != x {
      FilterKeeps(s[1..], p, x);
    }
  }

  /** The filtered list holds exactly the elements of `s` that satisfy `p`. */
  lemma FilterMembers<T>(s: seq<T>, p: T -> bool)
    ensures forall x :: x in Filter(s, p) <==> x in s && p(x)
  {
    forall x | x in s && p(x)
      ensures x in Filter(s, p)
    {
      FilterKeeps(s, p, x);
    }
    forall x | x in Filter(s, p)
      ensures x in s && p(x)
    {
      assert x in multiset(Filter(s, p));
    }
  }

  /** Replacing an element the filter drops by another it drops leaves the filtered list as it was. */
  lemma {:induction false} FilterUpdate<T>(s: seq<T>, k: nat, x: T, p: T -> bool)
    requires k < |s| && !p(s[k]) && !p(x)
    ensures Filter(s[k := x], p) == Filter(s, p)
  {
    if k == 0 {
      assert s[k := x][1..] == s[1..];
    } else {
      FilterUpdate(s[1..], k - 1, x, p);
      assert s[k := x][1..] == s[1..][k - 1 := x];
    }
  }

  /** No two elements share a key. */
  predicate DistinctBy<T, K(==)>(s: seq<T>, key: T -> K) {
    forall i, j | 0 <= i < j < |s| :: key(s[i]) != key(s[j])
  }

  /** Filtering keeps keys distinct. */
  lemma {:induction false} FilterDistinctBy<T, K>(s: seq<T>, p: T -> bool, key: T -> K)
    requires DistinctBy(s, key)
    ensures DistinctBy(Filter(s, p), key)
  {
    if s != [] {
      FilterDistinctBy(s[1..], p, key);
      var rest := Filter(s[1..], p);
      forall i | 0 <= i < |rest|
        ensures key(rest[i]) != key(s[0])
      {
        assert rest[i] in multiset(s[1..]);
        var m :| 0 <= m < |s[1..]| && s[1..][m] == rest[i];
        assert s[m + 1] == rest[i];
      }
    }
  }

  /** Filtering with a predicate no element satisfies gives the empty list. */
  lemma {:induction false} FilterNone<T>(s: seq<T>, p: T -> bool)
    requires forall i :: 0 <= i < |s| ==> !p(s[i])
    ensures Filter(s, p) == []
  {
    if s != [] {
      FilterNone(s[1..], p);
    }
  }

  /** Filtering with a predicate every element satisfies gives the list back. */
  lemma {:induction false} FilterAll<T>(s: seq<T>, p: T -> bool)
    requires forall i :: 0 <= i < |s| ==> p(s[i])
    ensures Filter(s, p) == s
  {
    if s != [] {
      FilterAll(s[1..], p);
    }
  }

  /** `s.reduce((sum, t) => sum + f(t), 0)`. */
  function Sum<T>(s: seq<T>, f: T -> real): real {
    if s == [] then 0.0 else f(s[0]) + Sum(s[1..], f)
  }

  lemma {:induction false} SumAppend<T>(a: seq<T>, b: seq<T>, f: T -> real)
    ensures Sum(a + b, f) == Sum(a, f) + Sum(b, f)
  {
    if a == [] {
      assert a + b == b;
    } else {
      assert (a + b)[1..] == a[1..] + b;
      SumAppend(a[1..], b, f);
    }
  }

  /** One more element adds its value to the sum. */
  lemma SumSnoc<T>(a: seq<T>, x: T, f: T -> real)
    ensures Sum(a + [x], f) == Sum(a, f) + f(x)
  {
    SumAppend(a, [x], f);
  }

  /**
   * Splitting a list by a predicate and its negation splits its length and every sum over it.
   */
  lemma {:induction false} FilterPartition<T>(s: seq<T>, p: T -> bool, q: T -> bool, f: T -> real)
    requires forall x :: p(x) == !q(x)
    ensures Sum(Filter(s, p), f) + Sum(Filter(s, q), f) == Sum(s, f)
    ensures |Filter(s, p)| + |Filter(s, q)| == |s|
  {
    if s != [] {
      FilterPartition(s[1..], p, q, f);
      if p(s[0]) {
        var r := Filter(s, p);
        assert r == [s[0]] + Filter(s[1..], p);
        assert r[1..] == Filter(s[1..], p);
        assert Filter(s, q) == [] + Filter(s[1..], q) == Filter(s[1..], q);
      } else {
        assert Filter(s, p) == [] + Filter(s[1..], p) == Filter(s[1..], p);
        var r := Filter(s, q);
        assert r == [s[0]] + Filter(s[1..], q);
        assert r[1..] == Filter(s[1..], q);
      }
    }
  }

  lemma {:induction false} SumNonNegative<T>(s: seq<T>, f: T -> real)
    requires forall i :: 0 <= i < |s| ==> f(s[i]) >= 0.0
    ensures Sum(s, f) >= 0.0
  {
    if s != [] {
      SumNonNegative(s[1..], f);
    }
  }

  /** The number of elements of `s` that satisfy `p` (`s.filter(p).length`). */
  function Count<T>(s: seq<T>, p: T -> bool): (n: nat)
    ensures n == |Filter(s, p)|
  {
    if s == [] then 0 else (if p(s[0]) then 1 else 0) + Count(s[1..], p)
  }

  lemma {:induction false} CountAppend<T>(a: seq<T>, b: seq<T>, p: T -> bool)
    ensures Count(a + b, p) == Count(a, p) + Count(b, p)
  {
    FilterAppend(a, b, p);
  }

  /** A count is the whole length exactly when every element qualifies. */
  lemma {:induction false} CountAll<T>(s: seq<T>, p: T -> bool)
    ensures Count(s, p) == |s| <==> (forall i | 0 <= i < |s| :: p(s[i]))
  {
    if s != [] {
      var tail := s[1..];
      CountAll(tail, p);
      assert Count(s, p) == (if p(s[0]) then 1 else 0) + Count(tail, p);
      assert Count(tail, p) <= |tail|;
      assert forall i | 1 <= i < |s| :: tail[i - 1] == s[i];
    }
  }

  /** A count is zero exactly when no element qualifies. */
  lemma {:induction false} CountNone<T>(s: seq<T>, p: T -> bool)
    ensures Count(s, p) == 0 <==> (forall i | 0 <= i < |s| :: !p(s[i]))
  {
    if s != [] {
      var tail := s[1..];
      CountNone(tail, p);
      assert Count(s, p) == (if p(s[0]) then 1 else 0) + Count(tail, p);
      assert forall i | 1 <= i < |s| :: tail[i - 1] == s[i];
    }
  }

  /** A count is the whole length exactly when every element qualifies, and zero when none does. */
  lemma CountExtremes<T>(s: seq<T>, p: T -> bool)
    ensures Count(s, p) == |s| <==> (forall i | 0 <= i < |s| :: p(s[i]))
    ensures Count(s, p) == 0 <==> (forall i | 0 <= i < |s| :: !p(s[i]))
  {
    CountAll(s, p);
    CountNone(s, p);
  }

  /** `s.findIndex(p)`: the first index whose element satisfies `p`, or -1. */
  function FindIndex<T>(s: seq<T>, p: T -> bool): (r: int)
    ensures -1 <= r < |s|
    ensures r >= 0 ==> p(s[r]) && forall j | 0 <= j < r :: !p(s[j])
    ensures r == -1 ==> forall j | 0 <= j < |s| :: !p(s[j])
  {
    if s == [] then -1
    else if p(s[0]) then 0
    else
      var r := FindIndex(s[1..], p);
      if r == -1 then -1 else r + 1
  }

  /** `s.find(p)`: the first element that satisfies `p`, if any. */
  function Find<T>(s: seq<T>, p: T -> bool): (r: Option<T>)
    ensures r.Some? ==> r.value in s && p(r.value)
    ensures r.None? <==> forall j | 0 <= j < |s| :: !p(s[j])
  {
    var i := FindIndex(s, p);
    if i >= 0 then Some(s[i]) else None
  }

  /** Some element of `s` satisfies `p` (`s.some(p)`). */
  predicate Any<T>(s: seq<T>, p: T -> bool) {
    exists i :: 0 <= i < |s| && p(s[i])
  }

  /** Sorted by `key`, ascending. */
  predicate SortedBy<T>(s: seq<T>, key: T -> real) {
    forall i, j :: 0 <= i < j < |s| ==> key(s[i]) <= key(s[j])
  }

  /** In a sorted list an element with a smaller key comes first. */
  lemma SortedByOrder<T>(s: seq<T>, key: T -> real, i: nat, k: nat)
    requires SortedBy(s, key) && i < |s| && k < |s| && key(s[i]) < key(s[k])
    ensures i < k
  {
  }

  /** Cutting a sorted list after `k` elements leaves out nothing with a smaller key than one kept. */
  lemma SortedPrefix<T>(s: seq<T>, key: T -> real, k: nat)
    requires SortedBy(s, key) && k <= |s|
    ensures forall x | x in s :: x in s[..k] || forall i | 0 <= i < k :: key(s[i]) <= key(x)
  {
    forall x | x in s
      ensures x in s[..k] || forall i | 0 <= i < k :: key(s[i]) <= key(x)
    {
      var j :| 0 <= j < |s| && s[j] == x;
      if j < k {
        assert s[..k][j] == x;
      }
    }
  }

  /** Puts `x` in front of the first element whose key is not below its own. */
  function Insert<T>(x: T, s: seq<T>, key: T -> real): (r: seq<T>)
    ensures |r| == |s| + 1
    ensures multiset(r) == multiset(s) + multiset{x}
  {
    if s == [] || key(x) <= key(s[0]) then [x] + s
    else
      assert s == [s[0]] + s[1..];
      [s[0]] + Insert(x, s[1..], key)
  }

  /**
   * A stable sort by `key`: `s.sort((a, b) => key(a) - key(b))` in an engine whose sort is stable.
   * Insertion sort only defines the result: `SortBySorted`, the permutation in the contract and
   * `SortByStable` are what a stable sort promises.
   */
  function SortBy<T>(s: seq<T>, key: T -> real): (r: seq<T>)
    ensures |r| == |s|
    ensures multiset(r) == multiset(s)
  {
    if s == [] then []
    else
      assert s == [s[0]] + s[1..];
      Insert(s[0], SortBy(s[1..], key), key)
  }

  /** A sorted list stays sorted when an element no larger than all of it is put in front. */
  lemma SortedCons<T>(h: T, t: seq<T>, key: T -> real)
    requires SortedBy(t, key)
    requires forall y | y in t :: key(h) <= key(y)
    ensures SortedBy([h] + t, key)
  {
    var r := [h] + t;
    forall i, j | 0 <= i < j < |r|
      ensures key(r[i]) <= key(r[j])
    {
      assert r[j] == t[j - 1];
      if i > 0 {
        assert r[i] == t[i - 1];
      }
    }
  }

  /** Every element of `Insert(x, s, key)` is `x` or an element of `s`. */
  lemma InsertMembers<T>(x: T, s: seq<T>, key: T -> real)
    ensures forall y | y in Insert(x, s, key) :: y == x || y in s
  {
    var r := Insert(x, s, key);
    forall y | y in r
      ensures y == x || y in s
    {
      assert y in multiset(r);
    }
  }

  lemma {:induction false} InsertSorted<T>(x: T, s: seq<T>, key: T -> real)
    requires SortedBy(s, key)
    ensures SortedBy(Insert(x, s, key), key)
  {
    if s == [] || key(x) <= key(s[0]) {
      assert forall y | y in s :: key(x) <= key(y) by {
        forall y | y in s
          ensures key(x) <= key(y)
        {
          var k :| 0 <= k < |s| && s[k] == y;
        }
      }
      SortedCons(x, s, key);
    } else {
      var tail := s[1..];
      var t := Insert(x, tail, key);
      assert SortedBy(tail, key);
      InsertSorted(x, tail, key);
      InsertMembers(x, tail, key);
      assert forall y | y in tail :: key(s[0]) <= key(y) by {
        forall y | y in tail
          ensures key(s[0]) <= key(y)
        {
          var k :| 0 <= k < |tail| && tail[k] == y;
          assert s[k + 1] == y;
        }
      }
      SortedCons(s[0], t, key);
    }
  }

  /** The stable sort returns its input sorted by `key` (and, by its contract, permuted). */
  lemma {:induction false} SortBySorted<T>(s: seq<T>, key: T -> real)
    ensures SortedBy(SortBy(s, key), key)
  {
    if s != [] {
      SortBySorted(s[1..], key);
      InsertSorted(s[0], SortBy(s[1..], key), key);
    }
  }

  /** The elements of `s` whose key is `k`, in their order in `s`. */
  function KeyClass<T>(s: seq<T>, key: T -> real, k: real): seq<T> {
    Filter(s, (x: T) => key(x) == k)
  }

  /** Two pieces of which one is empty can be put in either order. */
  lemma SwapEmpty<T>(a: seq<T>, b: seq<T>, c: seq<T>)
    requires a == [] || b == []
    ensures a + (b + c) == b + (a + c)
  {
    if a == [] {
      assert a + (b + c) == b + c;
      assert a + c == c;
    } else {
      assert b + c == c;
      assert b + (a + c) == a + c;
    }
  }

  /** Of two elements that never both satisfy `p`, the one that does comes first either way. */
  lemma FilterPassOver<T>(h: T, x: T, rest: seq<T>, t: seq<T>, p: T -> bool)
    requires Filter(t, p) == Filter([x], p) + Filter(rest, p)
    requires !(p(h) && p(x))
    ensures Filter([h] + t, p) == Filter([x], p) + Filter([h] + rest, p)
  {
    var fh, fx, fr := Filter([h], p), Filter([x], p), Filter(rest, p);
    FilterAppend([h], t, p);
    FilterAppend([h], rest, p);
    assert fh == [] || fx == [] by {
      if p(x) {
        assert [h][1..] == [];
      } else {
        assert [x][1..] == [];
      }
    }
    SwapEmpty(fh, fx, fr);
  }

  lemma {:induction false} InsertStable<T>(x: T, s: seq<T>, key: T -> real, k: real)
    requires SortedBy(s, key)
    ensures KeyClass(Insert(x, s, key), key, k) == KeyClass([x], key, k) + KeyClass(s, key, k)
  {
    var p := (y: T) => key(y) == k;
    if s == [] || key(x) <= key(s[0]) {
      FilterAppend([x], s, p);
    } else {
      var tail := s[1..];
      assert SortedBy(tail, key);
      InsertStable(x, tail, key, k);
      var t := Insert(x, tail, key);
      assert Insert(x, s, key) == [s[0]] + t;
      assert [s[0]] + tail == s;
      // s[0] has a smaller key than x, so they are never both in the class of k
      FilterPassOver(s[0], x, tail, t, p);
    }
  }

  /**
   * Stability: for every key, the elements with that key appear in the sorted list in the
   * order they had in the input.
   */
  lemma {:induction false} SortByStable<T>(s: seq<T>, key: T -> real, k: real)
    ensures KeyClass(SortBy(s, key), key, k) == KeyClass(s, key, k)
  {
    if s != [] {
      var t := SortBy(s[1..], key);
      SortByStable(s[1..], key, k);
      SortBySorted(s[1..], key);
      InsertStable(s[0], t, key, k);
      assert KeyClass(SortBy(s, key), key, k) == KeyClass([s[0]], key, k) + KeyClass(t, key, k);
      FilterAppend([s[0]], s[1..], (y: T) => key(y) == k);
      assert [s[0]] + s[1..] == s;
    }
  }

  lemma {:induction false} SumInsert<T>(x: T, s: seq<T>, key: T -> real, f: T -> real)
    ensures Sum(Insert(x, s, key), f) == f(x) + Sum(s, f)
  {
    if s == [] || key(x) <= key(s[0]) {
    } else {
      SumInsert(x, s[1..], key, f);
    }
  }

  /** Sorting does not change a sum over the list. */
  lemma {:induction false} SumSortBy<T>(s: seq<T>, key: T -> real, f: T -> real)
    ensures Sum(SortBy(s, key), f) == Sum(s, f)
  {
    if s != [] {
      SumSortBy(s[1..], key, f);
      SumInsert(s[0], SortBy(s[1..], key), key, f);
    }
  }
}
