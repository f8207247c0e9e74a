/**
 * Sequence operations the pages use through JavaScript's array methods:
 * `filter`, `slice(-n)` and a stable `sort` with a comparator.
 */
module Seqs {

  // ---------------------------------------------------------------- filter

  /** `s.filter(p)`. */
  function Filter<T>(s: seq<T>, p: T -> bool): (r: seq<T>)
    ensures |r| <= |s|
    ensures forall x :: x in r ==> x in s && p(x)
    ensures forall x :: x in s && p(x) ==> x in r
    decreases |s|
  {
    if s == [] then []
    else
      var rest := Filter(s[1..], p);
      assert forall x :: x in s ==> x == s[0] || x in s[1..];
      if p(s[0]) then [s[0]] + rest else rest
  }

  /** `a` is obtained from `b` by deleting elements, keeping the order of the rest. */
  predicate IsSubsequence<T(==)>(a: seq<T>, b: seq<T>)
    decreases |b|
  {
    if a == [] then true
    else if b == [] then false
    else if a[0] == b[0] then IsSubsequence(a[1..], b[1..])
    else IsSubsequence(a, b[1..])
  }

  /** Filtering keeps an order-preserving sub-sequence. */
  lemma {:induction false} FilterIsSubsequence<T>(s: seq<T>, p: T -> bool)
    ensures IsSubsequence(Filter(s, p), s)
    decreases |s|
  {
    if s != [] {
      FilterIsSubsequence(s[1..], p);
      var rest := Filter(s[1..], p);
      if !p(s[0]) && rest != [] {
        // rest is a sub-sequence of s[1..]; dropping s[0] first keeps that
        SubsequenceOfTail(rest, s);
      }
    }
  }

  lemma {:induction false} SubsequenceOfTail<T>(a: seq<T>, b: seq<T>)
    requires b != [] && IsSubsequence(a, b[1..])
    ensures IsSubsequence(a, b)
    decreases |b|, 1
  {
    if a != [] && a[0] == b[0] {
      // a[1..] is a sub-sequence of a, hence of b[1..]
      SubsequenceDropHead(a, b[1..]);
    }
  }

  lemma {:induction false} SubsequenceDropHead<T>(a: seq<T>, b: seq<T>)
    requires a != [] && IsSubsequence(a, b)
    ensures IsSubsequence(a[1..], b)
    decreases |b|, 2
  {
    if a[0] != b[0] {
      SubsequenceDropHead(a, b[1..]);
      SubsequenceOfTail(a[1..], b);
    } else if a[1..] != [] {
      SubsequenceOfTail(a[1..], b);
    }
  }

  /** A sub-sequence is no longer than the sequence it is taken from. */
  lemma {:induction false} SubsequenceLength<T>(a: seq<T>, b: seq<T>)
    requires IsSubsequence(a, b)
    ensures |a| <= |b|
    decreases |b|
  {
    if a != [] {
      if a[0] == b[0] {
        SubsequenceLength(a[1..], b[1..]);
      } else {
        SubsequenceLength(a, b[1..]);
      }
    }
  }

  /** Every index of a sub-sequence lands on an equal element at a later-or-equal index of the original. */
  lemma {:induction false} SubsequenceOrder<T>(a: seq<T>, b: seq<T>, i: nat, j: nat)
    requires IsSubsequence(a, b) && i < j < |a|
    ensures exists k, l :: 0 <= k < l < |b| && b[k] == a[i] && b[l] == a[j]
    decreases |b|
  {
    if a[0] == b[0] {
      if i == 0 {
        SubsequenceMember(a[1..], b[1..], j - 1);
        var l :| 0 <= l < |b[1..]| && b[1..][l] == a[1..][j - 1];
        assert b[0] == a[i] && b[l + 1] == a[j];
      } else {
        SubsequenceOrder(a[1..], b[1..], i - 1, j - 1);
        var k, l :| 0 <= k < l < |b[1..]| && b[1..][k] == a[1..][i - 1] && b[1..][l] == a[1..][j - 1];
        assert b[k + 1] == a[i] && b[l + 1] == a[j];
      }
    } else {
      SubsequenceOrder(a, b[1..], i, j);
      var k, l :| 0 <= k < l < |b[1..]| && b[1..][k] == a[i] && b[1..][l] == a[j];
      assert b[k + 1] == a[i] && b[l + 1] == a[j];
    }
  }

  lemma {:induction false} SubsequenceMember<T>(a: seq<T>, b: seq<T>, i: nat)
    requires IsSubsequence(a, b) && i < |a|
    ensures exists k :: 0 <= k < |b| && b[k] == a[i]
    decreases |b|
  {
    if a[0] == b[0] {
      if i > 0 {
        SubsequenceMember(a[1..], b[1..], i - 1);
        var k :| 0 <= k < |b[1..]| && b[1..][k] == a[1..][i - 1];
        assert b[k + 1] == a[i];
      }
    } else {
      SubsequenceMember(a, b[1..], i);
      var k :| 0 <= k < |b[1..]| && b[1..][k] == a[i];
      assert b[k + 1] == a[i];
    }
  }

  /** Filters of complementary predicates split a sequence's length. */
  lemma {:induction false} FilterPartition<T>(s: seq<T>, p: T -> bool, q: T -> bool)
    requires forall x :: q(x) == !p(x)
    ensures |Filter(s, p)| + |Filter(s, q)| == |s|
    decreases |s|
  {
    if s != [] {
      FilterPartition(s[1..], p, q);
    }
  }

  /** Filtering with a predicate that holds everywhere in `s` keeps `s`. */
  lemma {:induction false} FilterKeepsAll<T>(s: seq<T>, p: T -> bool)
    requires forall k :: 0 <= k < |s| ==> p(s[k])
    ensures Filter(s, p) == s
    decreases |s|
  {
    if s != [] {
      FilterKeepsAll(s[1..], p);
      assert [s[0]] + s[1..] == s;
    }
  }

  /** Filtering with a predicate that fails everywhere in `s` keeps nothing. */
  lemma {:induction false} FilterNone<T>(s: seq<T>, p: T -> bool)
    requires forall k :: 0 <= k < |s| ==> !p(s[k])
    ensures Filter(s, p) == []
    decreases |s|
  {
    if s != [] {
      FilterNone(s[1..], p);
    }
  }

  /** Predicates that agree on every element of `s` filter it alike. */
  lemma {:induction false} FilterCongruent<T>(s: seq<T>, p: T -> bool, q: T -> bool)
    requires forall k :: 0 <= k < |s| ==> p(s[k]) == q(s[k])
    ensures Filter(s, p) == Filter(s, q)
    decreases |s|
  {
    if s != [] {
      FilterCongruent(s[1..], p, q);
    }
  }

  /** Filtering twice with the same predicate changes nothing the second time. */
  lemma FilterIdempotent<T>(s: seq<T>, p: T -> bool)
    ensures Filter(Filter(s, p), p) == Filter(s, p)
  {
    var r := Filter(s, p);
    assert forall k :: 0 <= k < |r| ==> r[k] in r;
    FilterKeepsAll(r, p);
  }

  /** Filtering distributes over concatenation. */
  lemma {:induction false} FilterAppend<T>(a: seq<T>, b: seq<T>, p: T -> bool)
    ensures Filter(a + b, p) == Filter(a, p) + Filter(b, p)
    decreases |a|
  {
    if a == [] {
      assert a + b == b;
    } else {
      assert (a + b)[1..] == a[1..] + b;
      FilterAppend(a[1..], b, p);
    }
  }

  // -------------------------------------------------------------- slice(-n)

  /** `s.slice(-n)` for n > 0: the last `min(|s|, n)` elements. */
  function TakeLast<T>(s: seq<T>, n: nat): (r: seq<T>)
    ensures |r| == if |s| < n then |s| else n
    ensures s == s[..|s| - |r|] + r
  {
    if |s| <= n then s else s[|s| - n..]
  }

  // ---------------------------------------------------------- stable sort

  /** `le` is total and transitive: what a consistent comparator gives. */
  ghost predicate TotalPreorder<T(!new)>(le: (T, T) -> bool)
  {
    && (forall a, b :: le(a, b) || le(b, a))
    && (forall a, b, c :: le(a, b) && le(b, c) ==> le(a, c))
  }

  /** Every earlier element is `le` every later one. */
  ghost predicate SortedBy<T>(s: seq<T>, le: (T, T) -> bool)
  {
    forall i, j :: 0 <= i < j < |s| ==> le(s[i], s[j])
  }

  /** Inserts `x` before the first element it is `le`, so that among equals `x` comes first. */
  function Insert<T>(x: T, s: seq<T>, le: (T, T) -> bool): (r: seq<T>)
    ensures |r| == |s| + 1
    ensures multiset(r) == multiset(s) + multiset{x}
    decreases |s|
  {
    if s == [] then [x]
    else if le(x, s[0]) then [x] + s
    else
      assert s == [s[0]] + s[1..];
      [s[0]] + Insert(x, s[1..], le)
  }

  /**
   * A stable sort by the ordering `le` (insertion sort from the back), standing
   * for `Array.prototype.sort`, which is stable and sorts by `cmp(a, b) <= 0`.
   */
  function SortBy<T>(s: seq<T>, le: (T, T) -> bool): (r: seq<T>)
    ensures |r| == |s|
    ensures multiset(r) == multiset(s)
    decreases |s|
  {
    if s == [] then []
    else
      assert s == [s[0]] + s[1..];
      Insert(s[0], SortBy(s[1..], le), le)
  }

  lemma {:induction false} InsertSorted<T(!new)>(x: T, s: seq<T>, le: (T, T) -> bool)
    requires TotalPreorder(le) && SortedBy(s, le)
    ensures SortedBy(Insert(x, s, le), le)
    decreases |s|
  {
    if s != [] && !le(x, s[0]) {
      InsertSorted(x, s[1..], le);
      var r := Insert(x, s[1..], le);
      assert le(s[0], x);
      forall k | 0 <= k < |r| ensures le(s[0], r[k]) {
        assert r[k] in multiset(r);
        assert r[k] == x || r[k] in multiset(s[1..]);
        if r[k] != x {
          var m :| 0 <= m < |s[1..]| && s[1..][m] == r[k];
          assert s[m + 1] == r[k];
        }
      }
    } else if s != [] {
      var r := [x] + s;
      forall i, j | 0 <= i < j < |r| ensures le(r[i], r[j]) {
        if i == 0 && j > 1 {
          assert le(s[0], s[j - 1]);
        }
      }
    }
  }

  /** The stable sort's result is ordered by `le`. */
  lemma {:induction false} SortBySorted<T(!new)>(s: seq<T>, le: (T, T) -> bool)
    requires TotalPreorder(le)
    ensures SortedBy(SortBy(s, le), le)
    decreases |s|
  {
    if s != [] {
      SortBySorted(s[1..], le);
      InsertSorted(s[0], SortBy(s[1..], le), le);
    }
  }
}
