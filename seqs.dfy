/** The list operations the views are built from: `Array.prototype.filter`
    (and `filter(...).length`) and `Array.prototype.sort`, which is stable,
    called with a comparator that compares one numeric key per element. */
module Seqs {

  // ---------------------------------------------------------------------
  // filter

  /** The elements of `s` that satisfy `p`, in their order in `s`. */
  function Filter<T>(s: seq<T>, p: T -> bool): (r: seq<T>)
    ensures |r| <= |s|
  {
    if s == [] then [] else (if p(s[0]) then [s[0]] else []) + Filter(s[1..], p)
  }

  /** What filtering keeps: only elements of `s` that satisfy `p`, and
      every element of `s` that does. */
  lemma {:induction false} FilterMembers<T>(s: seq<T>, p: T -> bool)
    ensures forall i :: 0 <= i < |Filter(s, p)| ==> p(Filter(s, p)[i]) && Filter(s, p)[i] in s
    ensures forall i :: 0 <= i < |s| && p(s[i]) ==> s[i] in Filter(s, p)
  {
    if s != [] {
      FilterMembers(s[1..], p);
      var head := if p(s[0]) then [s[0]] else [];
      var rest := Filter(s[1..], p);
      assert Filter(s, p) == head + rest;
      forall i | 0 <= i < |s| && p(s[i]) ensures s[i] in Filter(s, p) {
        if i > 0 { assert s[i] == s[1..][i - 1]; }
      }
    }
  }

  /** Filtering keeps every copy of an element that satisfies `p` and no
      copy of one that does not. */
  lemma {:induction false} FilterMultiset<T>(s: seq<T>, p: T -> bool)
    ensures forall x :: x in multiset(s) ==>
              multiset(Filter(s, p))[x] == if p(x) then multiset(s)[x] else 0
    ensures multiset(Filter(s, p)) <= multiset(s)
  {
    if s != [] {
      FilterMultiset(s[1..], p);
      assert s == [s[0]] + s[1..];
      var head := if p(s[0]) then [s[0]] else [];
      assert Filter(s, p) == head + Filter(s[1..], p);
      assert multiset(Filter(s, p)) == multiset(head) + multiset(Filter(s[1..], p));
      assert multiset(s) == multiset([s[0]]) + multiset(s[1..]);
    }
  }

  /** The indices of `s` whose element satisfies `p`. */
  ghost function IndexSet<T>(s: seq<T>, p: T -> bool): set<int> {
    set i | 0 <= i < |s| && p(s[i])
  }

  /** `filter(p).length` counts the positions of `s` whose element
      satisfies `p`. */
  lemma {:induction false} FilterCount<T>(s: seq<T>, p: T -> bool)
    ensures |Filter(s, p)| == |IndexSet(s, p)|
  {
    if s != [] {
      var n := |s| - 1;
      var init := s[..n];
      FilterCount(init, p);
      assert s == init + [s[n]];
      FilterAppend(init, [s[n]], p);
      var last := if p(s[n]) then {n} else {};
      forall i ensures i in IndexSet(s, p) <==> i in IndexSet(init, p) + last {
        if 0 <= i < n {
          assert s[i] == init[i];
        }
      }
      assert IndexSet(s, p) == IndexSet(init, p) + last;
      assert n !in IndexSet(init, p);
    }
  }

  /** `r` is what remains of `s` after deleting some of its elements:
      the relative order of what is kept is unchanged. */
  predicate IsSubseq<T(==)>(r: seq<T>, s: seq<T>)
    decreases |s|
  {
    if r == [] then true
    else if s == [] then false
    else (r[0] == s[0] && IsSubseq(r[1..], s[1..])) || IsSubseq(r, s[1..])
  }

  /** Filtering deletes elements and never reorders what it keeps. */
  lemma {:induction false} FilterIsSubseq<T>(s: seq<T>, p: T -> bool)
    ensures IsSubseq(Filter(s, p), s)
  {
    if s != [] {
      FilterIsSubseq(s[1..], p);
      var rest := Filter(s[1..], p);
      if p(s[0]) {
        assert Filter(s, p) == [s[0]] + rest;
        assert ([s[0]] + rest)[1..] == rest;
      } else {
        assert Filter(s, p) == rest;
        assert rest != [] ==> IsSubseq(rest, s[1..]);
      }
    }
  }

  /** Filtering twice with the same predicate is filtering once. */
  lemma {:induction false} FilterIdempotent<T>(s: seq<T>, p: T -> bool)
    ensures Filter(Filter(s, p), p) == Filter(s, p)
  {
    if s != [] {
      FilterIdempotent(s[1..], p);
      var rest := Filter(s[1..], p);
      if p(s[0]) {
        assert Filter(s, p) == [s[0]] + rest;
        assert ([s[0]] + rest)[1..] == rest;
        assert Filter([s[0]] + rest, p) == [s[0]] + Filter(rest, p);
      } else {
        assert Filter(s, p) == rest;
      }
    }
  }

  /** A predicate every element satisfies keeps the whole sequence. */
  lemma {:induction false} FilterKeepsAll<T>(s: seq<T>, p: T -> bool)
    requires forall i :: 0 <= i < |s| ==> p(s[i])
    ensures Filter(s, p) == s
  {
    if s != [] {
      FilterKeepsAll(s[1..], p);
      assert [s[0]] + s[1..] == s;
    }
  }

  /** A predicate no element satisfies keeps nothing. */
  lemma {:induction false} FilterKeepsNone<T>(s: seq<T>, p: T -> bool)
    requires forall i :: 0 <= i < |s| ==> !p(s[i])
    ensures Filter(s, p) == []
  {
    if s != [] {
      FilterKeepsNone(s[1..], p);
    }
  }

  /** Filtering a concatenation filters each part. */
  lemma {:induction false} FilterAppend<T>(a: seq<T>, b: seq<T>, p: T -> bool)
    ensures Filter(a + b, p) == Filter(a, p) + Filter(b, p)
  {
    if a == [] {
      assert a + b == b;
    } else {
      FilterAppend(a[1..], b, p);
      var head := if p(a[0]) then [a[0]] else [];
      assert (a + b)[1..] == a[1..] + b;
      calc {
        Filter(a + b, p);
        head + Filter(a[1..] + b, p);
        head + (Filter(a[1..], p) + Filter(b, p));
        (head + Filter(a[1..], p)) + Filter(b, p);
        Filter(a, p) + Filter(b, p);
      }
    }
  }

  /** Filtering with `p` and filtering with its negation split the
      sequence: the two counts add up to its length. */
  lemma {:induction false} FilterComplement<T>(s: seq<T>, p: T -> bool, q: T -> bool)
    requires forall x :: q(x) == !p(x)
    ensures |Filter(s, p)| + |Filter(s, q)| == |s|
  {
    if s != [] {
      FilterComplement(s[1..], p, q);
    }
  }

  /** A stronger predicate keeps no more elements than a weaker one. */
  lemma {:induction false} FilterMonotone<T>(s: seq<T>, p: T -> bool, q: T -> bool)
    requires forall x :: p(x) ==> q(x)
    ensures |Filter(s, p)| <= |Filter(s, q)|
  {
    if s != [] {
      FilterMonotone(s[1..], p, q);
    }
  }

  /** Two predicates that agree on every element filter alike. */
  lemma {:induction false} FilterExt<T>(s: seq<T>, p: T -> bool, q: T -> bool)
    requires forall i :: 0 <= i < |s| ==> p(s[i]) == q(s[i])
    ensures Filter(s, p) == Filter(s, q)
  {
    if s != [] {
      FilterExt(s[1..], p, q);
    }
  }

  /** Filtering the output of a filter filters by both predicates. */
  lemma {:induction false} FilterFilter<T>(s: seq<T>, p: T -> bool, q: T -> bool, pq: T -> bool)
    requires forall x :: pq(x) == (p(x) && q(x))
    ensures Filter(Filter(s, p), q) == Filter(s, pq)
  {
    if s != [] {
      FilterFilter(s[1..], p, q, pq);
      var rest := Filter(s[1..], p);
      if p(s[0]) {
        assert Filter(s, p) == [s[0]] + rest;
        assert ([s[0]] + rest)[1..] == rest;
      } else {
        assert Filter(s, p) == rest;
      }
    }
  }

  // ---------------------------------------------------------------------
  // reduce((sum, x) => sum + f(x), 0)

  /** The sum of `f` over the elements of `s`. */
  function Sum<T>(s: seq<T>, f: T -> real): real {
    if s == [] then 0.0 else f(s[0]) + Sum(s[1..], f)
  }

  lemma {:induction false} SumAppend<T>(a: seq<T>, b: seq<T>, f: T -> real)
    ensures Sum(a + b, f) == Sum(a, f) + Sum(b, f)
  {
    if a == [] {
      assert a + b == b;
    } else {
      assert (a + b)[1..] == a[1..] + b;
      SumAppend(a[1..], b, f);
    }
  }

  /** A sum splits into the part `p` keeps and the part its negation keeps. */
  lemma {:induction false} SumSplit<T>(s: seq<T>, f: T -> real, p: T -> bool, q: T -> bool)
    requires forall x :: q(x) == !p(x)
    ensures Sum(s, f) == Sum(Filter(s, p), f) + Sum(Filter(s, q), f)
  {
    if s != [] {
      SumSplit(s[1..], f, p, q);
      var head := if p(s[0]) then [s[0]] else [];
      var other := if q(s[0]) then [s[0]] else [];
      SumAppend(head, Filter(s[1..], p), f);
      SumAppend(other, Filter(s[1..], q), f);
    }
  }

  /** Every summand within bounds puts the sum within `|s|` times them. */
  lemma {:induction false} SumBounds<T>(s: seq<T>, f: T -> real, lo: real, hi: real)
    requires forall i :: 0 <= i < |s| ==> lo <= f(s[i]) <= hi
    ensures |s| as real * lo <= Sum(s, f) <= |s| as real * hi
  {
    if s != [] {
      SumBounds(s[1..], f, lo, hi);
    }
  }

  // ---------------------------------------------------------------------
  // stable sort by a numeric key

  /** Keys never decrease along `s`. */
  ghost predicate SortedBy<T>(s: seq<T>, key: T -> real) {
    forall i, j :: 0 <= i < j < |s| ==> key(s[i]) <= key(s[j])
  }

  /** Every key in `s` is at least `b`. */
  ghost predicate KeysAtLeast<T>(s: seq<T>, key: T -> real, b: real) {
    forall i :: 0 <= i < |s| ==> b <= key(s[i])
  }

  /** The elements of `s` whose key is `k`, in their order in `s`. */
  function KeyClass<T>(s: seq<T>, key: T -> real, k: real): (r: seq<T>)
    ensures forall i :: 0 <= i < |r| ==> key(r[i]) == k
  {
    var inClass := x => key(x) == k;
    FilterMembers(s, inClass);
    Filter(s, inClass)
  }

  /** Places `x` in front of the first element whose key is not smaller:
      one step of a stable insertion sort. */
  function Insert<T>(x: T, s: seq<T>, key: T -> real): (r: seq<T>)
    ensures |r| == |s| + 1
    ensures multiset(r) == multiset{x} + multiset(s)
  {
    if s == [] || key(x) <= key(s[0]) then [x] + s
    else
      assert s == [s[0]] + s[1..];
      [s[0]] + Insert(x, s[1..], key)
  }

  /** The stable ascending sort of `s` by `key`: what `Array.prototype.sort`
      returns for the comparator `(a, b) => key(a) - key(b)`. */
  function SortBy<T>(s: seq<T>, key: T -> real): (r: seq<T>)
    ensures |r| == |s|
  {
    if s == [] then [] else Insert(s[0], SortBy(s[1..], key), key)
  }

  lemma {:induction false} SumInsert<T>(x: T, s: seq<T>, key: T -> real, f: T -> real)
    ensures Sum(Insert(x, s, key), f) == f(x) + Sum(s, f)
  {
    if s != [] && key(s[0]) < key(x) {
      SumInsert(x, s[1..], key, f);
    }
  }

  /** Sorting leaves every sum over the elements as it was. */
  lemma {:induction false} SumSortBy<T>(s: seq<T>, key: T -> real, f: T -> real)
    ensures Sum(SortBy(s, key), f) == Sum(s, f)
  {
    if s != [] {
      SumSortBy(s[1..], key, f);
      SumInsert(s[0], SortBy(s[1..], key), key, f);
    }
  }

  lemma {:induction false} InsertKeysAtLeast<T>(x: T, s: seq<T>, key: T -> real, b: real)
    requires KeysAtLeast(s, key, b) && b <= key(x)
    ensures KeysAtLeast(Insert(x, s, key), key, b)
  {
    if s != [] && key(s[0]) < key(x) {
      InsertKeysAtLeast(x, s[1..], key, b);
    }
  }

  lemma {:induction false} InsertSorted<T>(x: T, s: seq<T>, key: T -> real)
    requires SortedBy(s, key)
    ensures SortedBy(Insert(x, s, key), key)
  {
    if s != [] && key(s[0]) < key(x) {
      InsertSorted(x, s[1..], key);
      InsertKeysAtLeast(x, s[1..], key, key(s[0]));
    }
  }

  /** The sort's output is ordered by key. */
  lemma {:induction false} SortBySorted<T>(s: seq<T>, key: T -> real)
    ensures SortedBy(SortBy(s, key), key)
  {
    if s != [] {
      SortBySorted(s[1..], key);
      InsertSorted(s[0], SortBy(s[1..], key), key);
    }
  }

  /** The sort's output is a permutation of its input. */
  lemma {:induction false} SortByPermutation<T>(s: seq<T>, key: T -> real)
    ensures multiset(SortBy(s, key)) == multiset(s)
  {
    if s != [] {
      SortByPermutation(s[1..], key);
      assert s == [s[0]] + s[1..];
    }
  }

  lemma KeyClassCons<T>(y: T, t: seq<T>, key: T -> real, k: real)
    ensures KeyClass([y] + t, key, k)
         == (if key(y) == k then [y] else []) + KeyClass(t, key, k)
  {
    assert ([y] + t)[0] == y;
    assert ([y] + t)[1..] == t;
  }

  lemma SwapEmpty<T>(a: seq<T>, b: seq<T>, c: seq<T>)
    requires a == [] || b == []
    ensures a + (b + c) == b + (a + c)
  {
  }

  lemma {:induction false} InsertKeyClass<T>(x: T, s: seq<T>, key: T -> real, k: real)
    ensures KeyClass(Insert(x, s, key), key, k)
         == (if key(x) == k then [x] else []) + KeyClass(s, key, k)
  {
    if s == [] || key(x) <= key(s[0]) {
      KeyClassCons(x, s, key, k);
    } else {
      var t := Insert(x, s[1..], key);
      var head := if key(s[0]) == k then [s[0]] else [];
      var mine := if key(x) == k then [x] else [];
      assert Insert(x, s, key) == [s[0]] + t;
      InsertKeyClass(x, s[1..], key, k);
      KeyClassCons(s[0], t, key, k);
      KeyClassCons(s[0], s[1..], key, k);
      assert [s[0]] + s[1..] == s;
      // x and s[0] have different keys, so at most one of them is in the class
      SwapEmpty(head, mine, KeyClass(s[1..], key, k));
    }
  }

  /** Stability: elements that share a key leave the sort in the order in
      which they entered it. Together with SortBySorted and
      SortByPermutation this fixes the output completely. */
  lemma {:induction false} SortByStable<T>(s: seq<T>, key: T -> real, k: real)
    ensures KeyClass(SortBy(s, key), key, k) == KeyClass(s, key, k)
  {
    if s != [] {
      SortByStable(s[1..], key, k);
      InsertKeyClass(s[0], SortBy(s[1..], key), key, k);
      KeyClassCons(s[0], s[1..], key, k);
      assert [s[0]] + s[1..] == s;
    }
  }

  /** A comparator that always answers 0 (one key for every element)
      leaves the order unchanged. */
  lemma SortByConstantKey<T>(s: seq<T>, key: T -> real, k: real)
    requires forall i :: 0 <= i < |s| ==> key(s[i]) == k
    ensures SortBy(s, key) == s
  {
    var r := SortBy(s, key);
    SortByPermutation(s, key);
    forall i | 0 <= i < |r| ensures key(r[i]) == k {
      assert r[i] in multiset(r);
      assert r[i] in multiset(s);
      var j :| 0 <= j < |s| && s[j] == r[i];
    }
    FilterKeepsAll(r, x => key(x) == k);
    FilterKeepsAll(s, x => key(x) == k);
    SortByStable(s, key, k);
  }
}
