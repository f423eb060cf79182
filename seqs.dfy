/** Sequence helpers shared by the backend query layer and the frontend:
    an order-preserving filter (Python's queryset `.filter`, JavaScript's
    `Array.prototype.filter`) and the database's `ORDER BY`, modelled as an
    insertion sort over a total preorder. */
module Seqs {

  /** The order-preserving subsequence of `s` whose elements satisfy `p`. */
  function Filter<T(!new)>(p: T -> bool, s: seq<T>): (r: seq<T>)
    ensures |r| <= |s|
    ensures forall x :: x in r <==> x in s && p(x)
    ensures forall i :: 0 <= i < |r| ==> p(r[i])
  {
    if s == [] then []
    else
      var rest := Filter(p, s[1..]);
      assert s == [s[0]] + s[1..];
      if p(s[0]) then [s[0]] + rest else rest
  }

  /** The filter takes each element at most as often as it occurs. */
  lemma {:induction false} FilterMultiset<T(!new)>(p: T -> bool, s: seq<T>)
    ensures multiset(Filter(p, s)) <= multiset(s)
  {
    if s != [] {
      FilterMultiset(p, s[1..]);
      assert s == [s[0]] + s[1..];
    }
  }

  /** Filtering a three-element sequence keeps each element on its own test. */
  lemma FilterThree<T(!new)>(p: T -> bool, s: seq<T>)
    requires |s| == 3
    ensures Filter(p, s)
      == (if p(s[0]) then [s[0]] else []) + (if p(s[1]) then [s[1]] else []) + (if p(s[2]) then [s[2]] else [])
    ensures (forall i :: 0 <= i < 3 ==> p(s[i])) ==> Filter(p, s) == s
    ensures (forall i :: 0 <= i < 3 ==> !p(s[i])) ==> Filter(p, s) == []
  {
    assert s == [s[0]] + [s[1]] + [s[2]];
    assert Filter(p, s[2..]) == if p(s[2]) then [s[2]] else [] by {
      assert s[2..][1..] == [];
    }
    assert Filter(p, s[1..]) == (if p(s[1]) then [s[1]] else []) + Filter(p, s[2..]) by {
      assert s[1..][1..] == s[2..];
    }
  }

  /** Every element passes: the filter is the identity. */
  lemma {:induction false} FilterAll<T(!new)>(p: T -> bool, s: seq<T>)
    requires forall i :: 0 <= i < |s| ==> p(s[i])
    ensures Filter(p, s) == s
  {
    if s != [] {
      FilterAll(p, s[1..]);
    }
  }

  /** Filtering by `q` and then by `p` keeps what one filter by their conjunction keeps. */
  lemma {:induction false} FilterFilter<T(!new)>(p: T -> bool, q: T -> bool, pq: T -> bool, s: seq<T>)
    requires forall x :: pq(x) == (p(x) && q(x))
    ensures Filter(p, Filter(q, s)) == Filter(pq, s)
  {
    if s != [] {
      FilterFilter(p, q, pq, s[1..]);
      var fq := Filter(q, s[1..]);
      if q(s[0]) {
        assert Filter(q, s) == [s[0]] + fq;
        assert ([s[0]] + fq)[1..] == fq;
      }
    }
  }

  /** Two predicates that agree on every element of `s` filter it alike. */
  lemma {:induction false} FilterCongruent<T(!new)>(p: T -> bool, q: T -> bool, s: seq<T>)
    requires forall i :: 0 <= i < |s| ==> p(s[i]) == q(s[i])
    ensures Filter(p, s) == Filter(q, s)
  {
    if s != [] {
      FilterCongruent(p, q, s[1..]);
    }
  }

  /** Filtering distributes over concatenation. */
  lemma {:induction false} FilterAppend<T(!new)>(p: T -> bool, a: seq<T>, b: seq<T>)
    ensures Filter(p, a + b) == Filter(p, a) + Filter(p, b)
  {
    if a == [] {
      assert a + b == b;
    } else {
      assert (a + b)[1..] == a[1..] + b;
      FilterAppend(p, a[1..], b);
    }
  }

  /** `le` orders all of `T`: any two values compare, and comparisons chain. */
  ghost predicate TotalPreorder<T(!new)>(le: (T, T) -> bool) {
    && (forall a, b :: le(a, b) || le(b, a))
    && (forall a, b, c :: le(a, b) && le(b, c) ==> le(a, c))
  }

  /** Every element may stand before every later one. */
  predicate SortedBy<T>(le: (T, T) -> bool, s: seq<T>) {
    forall i, j :: 0 <= i < j < |s| ==> le(s[i], s[j])
  }

  /** Places `x` in front of the first element it may precede. */
  function Insert<T>(le: (T, T) -> bool, x: T, s: seq<T>): (r: seq<T>)
    ensures |r| == |s| + 1
    ensures multiset(r) == multiset(s) + multiset{x}
  {
    if s == [] then [x]
    else if le(x, s[0]) then [x] + s
    else
      assert s == [s[0]] + s[1..];
      [s[0]] + Insert(le, x, s[1..])
  }

  /** The rows of `s` in the order `ORDER BY` with the relation `le` produces. */
  function Sort<T>(le: (T, T) -> bool, s: seq<T>): (r: seq<T>)
    ensures |r| == |s|
    ensures multiset(r) == multiset(s)
  {
    if s == [] then []
    else
      assert s == [s[0]] + s[1..];
      Insert(le, s[0], Sort(le, s[1..]))
  }

  /** A head that may precede everything behind it keeps a sorted tail sorted. */
  lemma ConsSorted<T>(le: (T, T) -> bool, y: T, r: seq<T>)
    requires SortedBy(le, r)
    requires forall z :: z in r ==> le(y, z)
    ensures SortedBy(le, [y] + r)
  {
    forall i, j | 0 <= i < j < |r| + 1
      ensures le(([y] + r)[i], ([y] + r)[j])
    {
      if i == 0 {
        assert ([y] + r)[j] == r[j - 1];
      } else {
        assert ([y] + r)[i] == r[i - 1] && ([y] + r)[j] == r[j - 1];
      }
    }
  }

  lemma {:induction false} InsertSorted<T(!new)>(le: (T, T) -> bool, x: T, s: seq<T>)
    requires TotalPreorder(le) && SortedBy(le, s)
    ensures SortedBy(le, Insert(le, x, s))
  {
    if s == [] {
    } else if le(x, s[0]) {
      forall z | z in s ensures le(x, z) {
        var k :| 0 <= k < |s| && s[k] == z;
        assert k == 0 || le(s[0], s[k]);
      }
      ConsSorted(le, x, s);
    } else {
      var t := s[1..];
      assert SortedBy(le, t);
      InsertSorted(le, x, t);
      var r := Insert(le, x, t);
      forall z | z in r ensures le(s[0], z) {
        assert z in multiset(r);
        if z != x {
          assert z in multiset(t);
          var k :| 0 <= k < |t| && t[k] == z;
          assert s[k + 1] == z;
        }
      }
      ConsSorted(le, s[0], r);
    }
  }

  /** The sort's output is ordered by `le`. */
  lemma {:induction false} SortSorted<T(!new)>(le: (T, T) -> bool, s: seq<T>)
    requires TotalPreorder(le)
    ensures SortedBy(le, Sort(le, s))
  {
    if s != [] {
      SortSorted(le, s[1..]);
      InsertSorted(le, s[0], Sort(le, s[1..]));
    }
  }

  lemma {:induction false} InsertFilter<T(!new)>(le: (T, T) -> bool, p: T -> bool, x: T, s: seq<T>)
    requires TotalPreorder(le) && SortedBy(le, s)
    ensures Filter(p, Insert(le, x, s)) == if p(x) then Insert(le, x, Filter(p, s)) else Filter(p, s)
  {
    if s == [] {
    } else if le(x, s[0]) {
      assert ([x] + s)[1..] == s;
      var f := Filter(p, s);
      if p(x) && f != [] {
        assert f[0] in s;
        var k :| 0 <= k < |s| && s[k] == f[0];
        assert k == 0 || le(s[0], s[k]);
        assert le(x, f[0]);
      }
    } else {
      var t := s[1..];
      assert SortedBy(le, t);
      InsertFilter(le, p, x, t);
      assert ([s[0]] + Insert(le, x, t))[1..] == Insert(le, x, t);
      if p(s[0]) {
        var f := Filter(p, t);
        assert Filter(p, s) == [s[0]] + f;
        if p(x) {
          assert ([s[0]] + f)[1..] == f;
        }
      }
    }
  }

  /** Sorting and then filtering gives what filtering and then sorting gives:
      a filtered `ORDER BY` is the ordered result restricted to the filter. */
  lemma {:induction false} SortFilter<T(!new)>(le: (T, T) -> bool, p: T -> bool, s: seq<T>)
    requires TotalPreorder(le)
    ensures Filter(p, Sort(le, s)) == Sort(le, Filter(p, s))
  {
    if s != [] {
      SortFilter(le, p, s[1..]);
      SortSorted(le, s[1..]);
      InsertFilter(le, p, s[0], Sort(le, s[1..]));
    }
  }
}
