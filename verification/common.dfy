/** Shared vocabulary of the model: optional values and the two folds the page
    builds everything from, `filter` and `reduce((s, x) => s + f(x), 0)`. */
module Common {

  /** A value that may be absent (`null`/`undefined` in the page). */
  datatype Option<+T> = None | Some(value: T)

  /** `reduce((s, x) => s + f(x), 0)`: a left fold, so it peels the LAST element. */
  function SumOf<T>(s: seq<T>, f: T -> int): int
  {
    if |s| == 0 then 0 else SumOf(s[..|s| - 1], f) + f(s[|s| - 1])
  }

  /** `a` is `b` with some elements deleted: what remains keeps its order. */
  ghost predicate Subsequence<T>(a: seq<T>, b: seq<T>)
    decreases |b|
  {
    || |a| == 0
    || (&& |b| > 0
        && (|| Subsequence(a, b[..|b| - 1])
            || (a[|a| - 1] == b[|b| - 1] && Subsequence(a[..|a| - 1], b[..|b| - 1]))))
  }

  /** Every sequence is a subsequence of itself. */
  lemma {:induction false} SubsequenceRefl<T>(s: seq<T>)
    ensures Subsequence(s, s)
    decreases |s|
  {
    if |s| > 0 {
      SubsequenceRefl(s[..|s| - 1]);
    }
  }

  /** `Array.prototype.filter`: keeps, in order, the elements satisfying `p`. */
  function Filter<T(!new)>(s: seq<T>, p: T -> bool): (r: seq<T>)
    ensures |r| <= |s|
    ensures forall x :: x in r <==> x in s && p(x)
    ensures Subsequence(r, s)
  {
    if |s| == 0 then []
    else
      var init := s[..|s| - 1];
      var last := s[|s| - 1];
      assert s == init + [last];
      var r := Filter(init, p) + (if p(last) then [last] else []);
      assert Subsequence(r, s) by {
        if p(last) {
          assert r[..|r| - 1] == Filter(init, p) && r[|r| - 1] == last;
        } else {
          assert r == Filter(init, p);
        }
      }
      r
  }

  lemma {:induction false} SumOfAppend<T>(a: seq<T>, b: seq<T>, f: T -> int)
    ensures SumOf(a + b, f) == SumOf(a, f) + SumOf(b, f)
    decreases |b|
  {
    if |b| == 0 {
      assert a + b == a;
    } else {
      var init := b[..|b| - 1];
      assert (a + b)[..|a + b| - 1] == a + init;
      assert (a + b)[|a + b| - 1] == b[|b| - 1];
      SumOfAppend(a, init, f);
    }
  }

  lemma SumOfSingleton<T>(x: T, f: T -> int)
    ensures SumOf([x], f) == f(x)
  {
    assert [x][..0] == [];
  }

  /** Adding a leading element adds its value. */
  lemma SumOfCons<T>(x: T, s: seq<T>, f: T -> int)
    ensures SumOf([x] + s, f) == f(x) + SumOf(s, f)
  {
    SumOfAppend([x], s, f);
    SumOfSingleton(x, f);
  }

  /** A sum of non-negative values is non-negative. */
  lemma {:induction false} SumOfNonNegative<T>(s: seq<T>, f: T -> int)
    ensures (forall x :: x in s ==> f(x) >= 0) ==> SumOf(s, f) >= 0
    decreases |s|
  {
    if |s| > 0 {
      var init := s[..|s| - 1];
      assert s == init + [s[|s| - 1]];
      SumOfNonNegative(init, f);
    }
  }

  /** A summand that is zero on every element sums to zero. */
  lemma {:induction false} SumOfZero<T>(s: seq<T>, f: T -> int)
    requires forall x :: x in s ==> f(x) == 0
    ensures SumOf(s, f) == 0
    decreases |s|
  {
    if |s| > 0 {
      var init := s[..|s| - 1];
      assert s == init + [s[|s| - 1]];
      SumOfZero(init, f);
    }
  }

  /** Two summands that agree on every element give the same sum. */
  lemma {:induction false} SumOfCongruent<T>(s: seq<T>, f: T -> int, g: T -> int)
    requires forall x :: x in s ==> f(x) == g(x)
    ensures SumOf(s, f) == SumOf(s, g)
    decreases |s|
  {
    if |s| > 0 {
      var init := s[..|s| - 1];
      assert s == init + [s[|s| - 1]];
      SumOfCongruent(init, f, g);
    }
  }

  /** The sum of a pointwise sum is the sum of the sums. */
  lemma {:induction false} SumOfAdd<T>(s: seq<T>, f: T -> int, g: T -> int, h: T -> int)
    requires forall x :: x in s ==> f(x) == g(x) + h(x)
    ensures SumOf(s, f) == SumOf(s, g) + SumOf(s, h)
    decreases |s|
  {
    if |s| > 0 {
      var init := s[..|s| - 1];
      assert s == init + [s[|s| - 1]];
      SumOfAdd(init, f, g, h);
    }
  }

  /** Filtering distributes over concatenation: the kept elements stay in order. */
  lemma {:induction false} FilterAppend<T(!new)>(a: seq<T>, b: seq<T>, p: T -> bool)
    ensures Filter(a + b, p) == Filter(a, p) + Filter(b, p)
    decreases |b|
  {
    if |b| == 0 {
      assert a + b == a;
    } else {
      var init := b[..|b| - 1];
      var last := b[|b| - 1];
      assert (a + b)[..|a + b| - 1] == a + init;
      assert (a + b)[|a + b| - 1] == last;
      FilterAppend(a, init, p);
    }
  }

  lemma FilterSingleton<T(!new)>(x: T, p: T -> bool)
    ensures Filter([x], p) == if p(x) then [x] else []
  {
    assert [x][..0] == [];
  }

  /** An element the filter rejects can be taken out of the list, wherever it stands. */
  lemma FilterSkipsRejected<T(!new)>(a: seq<T>, x: T, b: seq<T>, p: T -> bool)
    requires !p(x)
    ensures Filter(a + [x] + b, p) == Filter(a + b, p)
  {
    FilterAppend(a + [x], b, p);
    FilterAppend(a, [x], p);
    FilterAppend(a, b, p);
    FilterSingleton(x, p);
    assert Filter(a, p) + [] == Filter(a, p);
  }

  /** A filter that every element passes keeps the whole sequence. */
  lemma {:induction false} FilterKeepsAll<T(!new)>(s: seq<T>, p: T -> bool)
    requires forall x :: x in s ==> p(x)
    ensures Filter(s, p) == s
    decreases |s|
  {
    if |s| > 0 {
      var init := s[..|s| - 1];
      assert s == init + [s[|s| - 1]];
      FilterKeepsAll(init, p);
    }
  }

  /** Filters that agree on every element keep the same elements. */
  lemma {:induction false} FilterCongruent<T(!new)>(s: seq<T>, p: T -> bool, q: T -> bool)
    requires forall x :: x in s ==> p(x) == q(x)
    ensures Filter(s, p) == Filter(s, q)
    decreases |s|
  {
    if |s| > 0 {
      var init := s[..|s| - 1];
      assert s == init + [s[|s| - 1]];
      FilterCongruent(init, p, q);
    }
  }

  /** Summing over a filtered sequence is summing the masked summand over all of it. */
  lemma {:induction false} SumOfFilter<T(!new)>(s: seq<T>, p: T -> bool, f: T -> int, masked: T -> int)
    requires forall x :: x in s ==> masked(x) == if p(x) then f(x) else 0
    ensures SumOf(Filter(s, p), f) == SumOf(s, masked)
    decreases |s|
  {
    if |s| > 0 {
      var init := s[..|s| - 1];
      var last := s[|s| - 1];
      assert s == init + [last];
      SumOfFilter(init, p, f, masked);
      var kept := if p(last) then [last] else [];
      SumOfAppend(Filter(init, p), kept, f);
      if p(last) {
        SumOfSingleton(last, f);
      }
    }
  }

  /** Two complementary filters split a sum in two. */
  lemma {:induction false} SumOfPartition<T(!new)>(s: seq<T>, p: T -> bool, q: T -> bool, f: T -> int)
    requires forall x :: x in s ==> (p(x) <==> !q(x))
    ensures SumOf(Filter(s, p), f) + SumOf(Filter(s, q), f) == SumOf(s, f)
    decreases |s|
  {
    if |s| > 0 {
      var init := s[..|s| - 1];
      var last := s[|s| - 1];
      assert s == init + [last];
      SumOfPartition(init, p, q, f);
      SumOfAppend(Filter(init, p), if p(last) then [last] else [], f);
      SumOfAppend(Filter(init, q), if q(last) then [last] else [], f);
      SumOfSingleton(last, f);
    }
  }
}
