/**
 * `Array.prototype.filter` over immutable sequences, and what every screen's
 * filter inherits from it: the result is an order-preserving subsequence of
 * the input, an element is kept iff the predicate holds of it, no element is
 * duplicated, and a predicate and its negation partition the input.
 */
module Lists {

  /** The elements of `s` satisfying `p`, in their original order. */
  function Filter<T(==,!new)>(p: T -> bool, s: seq<T>): (r: seq<T>)
    ensures |r| <= |s|
    ensures forall x :: x in r <==> x in s && p(x)
  {
    if s == [] then []
    else
      assert s == [s[0]] + s[1..];
      (if p(s[0]) then [s[0]] else []) + Filter(p, s[1..])
  }

  /** An element is kept as often as it occurs when the predicate holds of it, and never otherwise. */
  lemma {:induction false} FilterCounts<T(!new)>(p: T -> bool, s: seq<T>)
    ensures forall x :: multiset(Filter(p, s))[x] == if p(x) then multiset(s)[x] else 0
  {
    if s != [] {
      assert s == [s[0]] + s[1..];
      FilterCounts(p, s[1..]);
    }
  }

  /** `idx` lists, in increasing order, the positions in `s` at which the elements of `r` are found. */
  ghost predicate IsEmbedding<T>(idx: seq<int>, r: seq<T>, s: seq<T>) {
    && |idx| == |r|
    && (forall k :: 0 <= k < |idx| ==> 0 <= idx[k] < |s| && r[k] == s[idx[k]])
    && (forall j, k :: 0 <= j < k < |idx| ==> idx[j] < idx[k])
  }

  /** `r` is obtained from `s` by deleting elements, without reordering any. */
  ghost predicate IsSubsequence<T>(r: seq<T>, s: seq<T>) {
    exists idx :: IsEmbedding(idx, r, s)
  }

  /** No element occurs twice. */
  predicate Distinct<T(==)>(s: seq<T>) {
    forall i, j :: 0 <= i < j < |s| ==> s[i] != s[j]
  }

  /** Every position moved one place to the right. */
  function Shift(idx: seq<int>): (r: seq<int>)
    ensures |r| == |idx| && forall k :: 0 <= k < |r| ==> r[k] == idx[k] + 1
  {
    seq(|idx|, k requires 0 <= k < |idx| => idx[k] + 1)
  }

  /** An embedding of `r` into `s[1..]`, shifted, embeds `r` into `s`. */
  lemma ShiftEmbedding<T>(idx: seq<int>, r: seq<T>, s: seq<T>)
    requires s != [] && IsEmbedding(idx, r, s[1..])
    ensures IsEmbedding(Shift(idx), r, s)
  {
    forall k | 0 <= k < |idx| ensures r[k] == s[Shift(idx)[k]] {
      assert r[k] == s[1..][idx[k]];
    }
  }

  /** An embedding whose first position is after 0 extends to one that also maps `x` to position 0. */
  lemma ConsEmbedding<T>(idx: seq<int>, r: seq<T>, s: seq<T>)
    requires s != [] && IsEmbedding(idx, r, s)
    requires forall k :: 0 <= k < |idx| ==> idx[k] > 0
    ensures IsEmbedding([0] + idx, [s[0]] + r, s)
  {
    var full, rr := [0] + idx, [s[0]] + r;
    forall k | 0 < k < |full| ensures 0 <= full[k] < |s| && rr[k] == s[full[k]] {
      assert full[k] == idx[k - 1] && rr[k] == r[k - 1];
    }
  }

  /** The positions in `s` of the elements `Filter(p, s)` keeps. */
  ghost function KeptPositions<T(!new)>(p: T -> bool, s: seq<T>): seq<int>
  {
    if s == [] then []
    else if p(s[0]) then [0] + Shift(KeptPositions(p, s[1..]))
    else Shift(KeptPositions(p, s[1..]))
  }

  /** The filtered list is an order-preserving subsequence of the input. */
  lemma {:induction false} FilterIsSubsequence<T(!new)>(p: T -> bool, s: seq<T>)
    ensures IsEmbedding(KeptPositions(p, s), Filter(p, s), s)
    ensures IsSubsequence(Filter(p, s), s)
  {
    if s != [] {
      var rest, idx := Filter(p, s[1..]), KeptPositions(p, s[1..]);
      FilterIsSubsequence(p, s[1..]);
      ShiftEmbedding(idx, rest, s);
      if p(s[0]) {
        ConsEmbedding(Shift(idx), rest, s);
        assert Filter(p, s) == [s[0]] + rest;
      } else {
        assert Filter(p, s) == rest;
      }
    }
    assert IsEmbedding(KeptPositions(p, s), Filter(p, s), s);
  }

  /** A predicate that holds of every element keeps the whole list, in order. */
  lemma {:induction false} FilterKeepsAll<T(!new)>(p: T -> bool, s: seq<T>)
    requires forall x :: x in s ==> p(x)
    ensures Filter(p, s) == s
  {
    if s != [] {
      FilterKeepsAll(p, s[1..]);
    }
  }

  /** Two predicates that agree on every element of the list keep the same elements, in the same order. */
  lemma {:induction false} FilterAgree<T(!new)>(p: T -> bool, q: T -> bool, s: seq<T>)
    requires forall x :: x in s ==> p(x) == q(x)
    ensures Filter(p, s) == Filter(q, s)
  {
    if s != [] {
      assert forall x :: x in s[1..] ==> x in s;
      FilterAgree(p, q, s[1..]);
    }
  }

  /** A predicate that holds of no element yields the empty list. */
  lemma FilterKeepsNone<T(!new)>(p: T -> bool, s: seq<T>)
    requires forall x :: x in s ==> !p(x)
    ensures Filter(p, s) == []
  {
  }

  /** The filter keeps as many elements as it was given exactly when the predicate holds of all of them. */
  lemma FilterLengthFull<T(!new)>(p: T -> bool, s: seq<T>)
    ensures |Filter(p, s)| == |s| <==> forall x :: x in s ==> p(x)
  {
    if forall x :: x in s ==> p(x) {
      FilterKeepsAll(p, s);
    } else {
      var x :| x in s && !p(x);
      var r := Filter(p, s);
      FilterCounts(p, s);
      var dropped := multiset(s) - multiset(r);
      assert multiset(s) == multiset(r) + dropped;
      assert x in dropped;
    }
  }

  /** A filter that keeps two elements found two positions satisfying the predicate. */
  lemma FilterKeepsTwo<T(!new)>(p: T -> bool, s: seq<T>)
    ensures |Filter(p, s)| > 1 ==> exists i, j :: 0 <= i < j < |s| && p(s[i]) && p(s[j])
  {
    var r, idx := Filter(p, s), KeptPositions(p, s);
    FilterIsSubsequence(p, s);
    if |r| > 1 {
      assert r[0] in r && r[1] in r;
      assert p(s[idx[0]]) && p(s[idx[1]]);
    }
  }

  /** When no two positions both satisfy the predicate, the filter keeps at most one element. */
  lemma FilterAtMostOne<T(!new)>(p: T -> bool, s: seq<T>)
    requires forall i, j :: 0 <= i < j < |s| ==> !(p(s[i]) && p(s[j]))
    ensures |Filter(p, s)| <= 1
  {
    FilterKeepsTwo(p, s);
  }

  /** A list of at most one element that contains `x` is `[x]`. */
  lemma SingletonOf<T>(r: seq<T>, x: T)
    requires |r| <= 1 && x in r
    ensures r == [x]
  {
  }

  /** Filtering distributes over concatenation. */
  lemma {:induction false} FilterAppend<T(!new)>(p: T -> bool, a: seq<T>, b: seq<T>)
    ensures Filter(p, a + b) == Filter(p, a) + Filter(p, b)
  {
    if a == [] {
      assert a + b == b;
    } else {
      assert (a + b)[1..] == a[1..] + b;
      FilterAppend(p, a[1..], b);
    }
  }

  /** Filtering never introduces a duplicate. */
  lemma {:induction false} FilterDistinct<T(!new)>(p: T -> bool, s: seq<T>)
    requires Distinct(s)
    ensures Distinct(Filter(p, s))
  {
    if s != [] {
      assert Distinct(s[1..]) by {
        forall i, j | 0 <= i < j < |s[1..]| ensures s[1..][i] != s[1..][j] {
          assert s[1..][i] == s[i + 1] && s[1..][j] == s[j + 1];
        }
      }
      FilterDistinct(p, s[1..]);
      var rest := Filter(p, s[1..]);
      if p(s[0]) {
        assert s[0] !in s[1..];
        assert s[0] !in rest;
        var r := [s[0]] + rest;
        forall i, j | 0 <= i < j < |r| ensures r[i] != r[j] {
          if i == 0 {
            assert r[j] == rest[j - 1];
            assert rest[j - 1] in rest;
          } else {
            assert r[i] == rest[i - 1] && r[j] == rest[j - 1];
          }
        }
      }
    }
  }

  /**
   * Filtering with `p` and with its negation `q` splits the input: every
   * element goes to exactly one side, and the two lengths add up to the
   * input's length.
   */
  lemma FilterPartition<T(!new)>(p: T -> bool, q: T -> bool, s: seq<T>)
    requires forall x :: q(x) == !p(x)
    ensures multiset(Filter(p, s)) + multiset(Filter(q, s)) == multiset(s)
    ensures |Filter(p, s)| + |Filter(q, s)| == |s|
    ensures forall x :: x in s ==> (x in Filter(p, s) <==> x !in Filter(q, s))
  {
    var a, b := Filter(p, s), Filter(q, s);
    FilterCounts(p, s);
    FilterCounts(q, s);
    assert multiset(a) + multiset(b) == multiset(s) by {
      forall x ensures (multiset(a) + multiset(b))[x] == multiset(s)[x] {
      }
    }
    assert |multiset(a) + multiset(b)| == |multiset(s)|;
  }
}
