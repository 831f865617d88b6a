/** Filtering, counting and permutation facts about sequences, shared by every
    store model: a store query is a `Filter`, a document count is a `Count`. */
module Seqs {
  import opened Numbers

  datatype Option<+T> = None | Some(value: T)

  lemma ConcatAssoc<T>(a: seq<T>, b: seq<T>, c: seq<T>)
    ensures a + (b + c) == a + b + c
  {
  }

  lemma SnocFront<T>(s: seq<T>, x: T)
    ensures (s + [x])[..|s|] == s && (s + [x])[|s|] == x
  {
  }

  lemma PrefixSnoc<T>(s: seq<T>, i: nat)
    requires i < |s|
    ensures s[..i + 1] == s[..i] + [s[i]]
  {
  }

  lemma HeadAndLast<T>(s: seq<T>)
    requires |s| > 0
    ensures s == s[..|s| - 1] + [s[|s| - 1]]
  {
  }

  function Filter<T>(s: seq<T>, p: T -> bool): seq<T> {
    if |s| == 0 then []
    else Filter(s[..|s| - 1], p) + (if p(s[|s| - 1]) then [s[|s| - 1]] else [])
  }

  function Count<T>(s: seq<T>, p: T -> bool): nat {
    |Filter(s, p)|
  }

  function Bit(b: bool): nat { if b then 1 else 0 }

  lemma FilterSnoc<T>(s: seq<T>, x: T, p: T -> bool)
    ensures Filter(s + [x], p) == Filter(s, p) + (if p(x) then [x] else [])
    ensures Count(s + [x], p) == Count(s, p) + Bit(p(x))
  {
    assert (s + [x])[..|s|] == s;
  }

  /** Membership in a filtered sequence, both directions. */
  lemma {:induction false} FilterIn<T>(s: seq<T>, p: T -> bool)
    ensures forall x :: x in Filter(s, p) <==> x in s && p(x)
  {
    if |s| > 0 {
      var n := |s| - 1;
      FilterIn(s[..n], p);
      assert s == s[..n] + [s[n]];
    }
  }

  lemma {:induction false} CountUpdate<T>(s: seq<T>, i: nat, x: T, p: T -> bool)
    requires i < |s|
    ensures Count(s[i := x], p) + Bit(p(s[i])) == Count(s, p) + Bit(p(x))
  {
    var n := |s| - 1;
    if i < n {
      CountUpdate(s[..n], i, x, p);
      assert s[i := x][..n] == s[..n][i := x];
    } else {
      assert s[i := x][..n] == s[..n];
    }
  }

  /** A predicate that implies another is satisfied at most as often. */
  lemma {:induction false} CountImplies<T>(s: seq<T>, p: T -> bool, q: T -> bool)
    requires forall x :: x in s && p(x) ==> q(x)
    ensures Count(s, p) <= Count(s, q)
  {
    if |s| > 0 {
      CountImplies(s[..|s| - 1], p, q);
    }
  }

  lemma {:induction false} CountSplit<T>(s: seq<T>, k: nat, p: T -> bool)
    requires k <= |s|
    ensures Count(s, p) == Count(s[..k], p) + Count(s[k..], p)
  {
    var n := |s| - 1;
    if k == |s| {
      assert s[..k] == s;
    } else {
      CountSplit(s[..n], k, p);
      assert s[..n][..k] == s[..k];
      assert s[..n][k..] == s[k..][..n - k];
    }
  }

  lemma {:induction false} CountPositive<T>(s: seq<T>, i: nat, p: T -> bool)
    requires i < |s| && p(s[i])
    ensures Count(s, p) >= 1
  {
    FilterIn(s, p);
    assert s[i] in Filter(s, p);
  }

  lemma {:induction false} CountZero<T>(s: seq<T>, p: T -> bool)
    requires forall i :: 0 <= i < |s| ==> !p(s[i])
    ensures Count(s, p) == 0
  {
    if |s| > 0 {
      CountZero(s[..|s| - 1], p);
    }
  }

  lemma {:induction false} CountAtMost<T>(s: seq<T>, p: T -> bool)
    ensures Count(s, p) <= |s|
  {
    if |s| > 0 {
      CountAtMost(s[..|s| - 1], p);
    }
  }

  /** Two predicates that agree on every element keep the same ones. */
  lemma {:induction false} FilterAgree<T>(s: seq<T>, p: T -> bool, q: T -> bool)
    requires forall x :: x in s ==> p(x) == q(x)
    ensures Filter(s, p) == Filter(s, q)
  {
    if |s| > 0 {
      FilterAgree(s[..|s| - 1], p, q);
    }
  }

  /** Sequences that agree position by position on a query have the same count. */
  lemma {:induction false} CountAgree<T>(s: seq<T>, t: seq<T>, p: T -> bool)
    requires |s| == |t|
    requires forall i :: 0 <= i < |s| ==> p(s[i]) == p(t[i])
    ensures Count(s, p) == Count(t, p)
  {
    if |s| > 0 {
      CountAgree(s[..|s| - 1], t[..|s| - 1], p);
    }
  }

  /** Counting inside a wider query changes nothing. */
  lemma {:induction false} CountFilter<T>(s: seq<T>, q: T -> bool, p: T -> bool)
    requires forall x :: x in s && p(x) ==> q(x)
    ensures Count(Filter(s, q), p) == Count(s, p)
  {
    if |s| > 0 {
      var n := |s| - 1;
      CountFilter(s[..n], q, p);
      if q(s[n]) {
        FilterSnoc(Filter(s[..n], q), s[n], p);
      } else {
        assert Filter(s, q) == Filter(s[..n], q);
      }
    }
  }

  /** Total of a real-valued measure over a sequence. */
  function Sum<T>(s: seq<T>, f: T -> real): real {
    if |s| == 0 then 0.0 else Sum(s[..|s| - 1], f) + f(s[|s| - 1])
  }

  ghost predicate Scaled<T>(s: seq<T>, f: T -> real, g: T -> real, k: real) {
    forall x :: x in s ==> g(x) == f(x) * k
  }

  lemma {:induction false} SumScales<T>(s: seq<T>, f: T -> real, g: T -> real, k: real)
    requires Scaled(s, f, g, k)
    ensures Sum(s, g) == Sum(s, f) * k
  {
    if |s| > 0 {
      var head := s[..|s| - 1];
      SumScales(head, f, g, k);
      TimesSum(Sum(head, f), f(s[|s| - 1]), k);
    }
  }

  /** Shares of `pool` in proportion to `f` make up the pool. */
  lemma SharesSum<T>(s: seq<T>, f: T -> real, g: T -> real, total: real, pool: real)
    requires total == Sum(s, f) && total != 0.0 && Scaled(s, f, g, pool / total)
    ensures Sum(s, g) == pool
  {
    SumScales(s, f, g, pool / total);
    ScaledBack(total, pool);
  }

  lemma SumSnoc<T>(s: seq<T>, x: T, f: T -> real)
    ensures Sum(s + [x], f) == Sum(s, f) + f(x)
  {
    assert (s + [x])[..|s|] == s;
  }

  lemma {:induction false} SumConcat<T>(s: seq<T>, t: seq<T>, f: T -> real)
    ensures Sum(s + t, f) == Sum(s, f) + Sum(t, f)
  {
    if |t| == 0 {
      assert s + t == s;
    } else {
      var n := |t| - 1;
      SumConcat(s, t[..n], f);
      assert (s + t)[..|s + t| - 1] == s + t[..n];
    }
  }

  lemma {:induction false} FilterConcat<T>(s: seq<T>, t: seq<T>, p: T -> bool)
    ensures Filter(s + t, p) == Filter(s, p) + Filter(t, p)
  {
    if |t| == 0 {
      assert s + t == s;
    } else {
      var n := |t| - 1;
      FilterConcat(s, t[..n], p);
      assert (s + t)[..|s + t| - 1] == s + t[..n];
    }
  }

  lemma FilterMiddle<T>(a: seq<T>, x: T, b: seq<T>, p: T -> bool)
    ensures Filter(a + [x] + b, p) == Filter(a, p) + (if p(x) then [x] else []) + Filter(b, p)
  {
    FilterConcat(a + [x], b, p);
    FilterSnoc(a, x, p);
  }

  lemma SumMiddle<T>(a: seq<T>, x: T, b: seq<T>, f: T -> real)
    ensures Sum(a + [x] + b, f) == Sum(a + b, f) + f(x)
  {
    SumConcat(a + [x], b, f);
    SumSnoc(a, x, f);
    SumConcat(a, b, f);
  }

  /** Where a permutation `t` of `s` keeps the last element of `s`. */
  lemma PermutationStep<T>(s: seq<T>, t: seq<T>) returns (a: seq<T>, b: seq<T>)
    requires multiset(s) == multiset(t) && |s| > 0
    ensures t == a + [s[|s| - 1]] + b
    ensures multiset(s[..|s| - 1]) == multiset(a + b)
  {
    var n := |s| - 1;
    var x := s[n];
    assert s == s[..n] + [x];
    assert x in multiset(t);
    var i :| 0 <= i < |t| && t[i] == x;
    a, b := t[..i], t[i + 1..];
    assert t == a + [x] + b;
    MiddleMultiset(a, x, b);
    CancelOne(multiset(s[..n]), multiset(a + b), x);
  }

  lemma CancelOne<T>(m: multiset<T>, n: multiset<T>, x: T)
    requires m + multiset{x} == n + multiset{x}
    ensures m == n
  {
    assert m == m + multiset{x} - multiset{x};
    assert n == n + multiset{x} - multiset{x};
  }

  lemma MiddleMultiset<T>(a: seq<T>, x: T, b: seq<T>)
    ensures multiset(a + [x] + b) == multiset(a + b) + multiset{x}
  {
  }

  /** A total does not depend on the order in which a query returns the rows. */
  lemma {:induction false} SumPermutes<T>(s: seq<T>, t: seq<T>, f: T -> real)
    requires multiset(s) == multiset(t)
    ensures Sum(s, f) == Sum(t, f)
  {
    assert |multiset(t)| == |t|;
    if |s| > 0 {
      var a, b := PermutationStep(s, t);
      SumPermutes(s[..|s| - 1], a + b, f);
      SumMiddle(a, s[|s| - 1], b, f);
    }
  }

  /** The rows a query keeps are, as a multiset, independent of the row order. */
  lemma {:induction false} FilterPermutes<T>(s: seq<T>, t: seq<T>, p: T -> bool)
    requires multiset(s) == multiset(t)
    ensures multiset(Filter(s, p)) == multiset(Filter(t, p))
  {
    assert |multiset(t)| == |t|;
    if |s| > 0 {
      var a, b := PermutationStep(s, t);
      var x := s[|s| - 1];
      FilterPermutes(s[..|s| - 1], a + b, p);
      FilterMiddle(a, x, b, p);
      FilterConcat(a, b, p);
      MiddleMultiset(Filter(a, p), x, Filter(b, p));
      assert Filter(a, p) + [] + Filter(b, p) == Filter(a, p) + Filter(b, p);
    }
  }

  function Map<T, U>(s: seq<T>, f: T -> U): seq<U> {
    if |s| == 0 then [] else Map(s[..|s| - 1], f) + [f(s[|s| - 1])]
  }

  lemma MapSnoc<T, U>(s: seq<T>, x: T, f: T -> U)
    ensures Map(s + [x], f) == Map(s, f) + [f(x)]
  {
    assert (s + [x])[..|s|] == s;
  }

  lemma {:induction false} MapConcat<T, U>(s: seq<T>, t: seq<T>, f: T -> U)
    ensures Map(s + t, f) == Map(s, f) + Map(t, f)
  {
    if |t| == 0 {
      assert s + t == s;
    } else {
      var n := |t| - 1;
      MapConcat(s, t[..n], f);
      assert (s + t)[..|s + t| - 1] == s + t[..n];
    }
  }

  /** Images under a function, as a multiset, are independent of the order. */
  lemma {:induction false} MapPermutes<T, U>(s: seq<T>, t: seq<T>, f: T -> U)
    requires multiset(s) == multiset(t)
    ensures multiset(Map(s, f)) == multiset(Map(t, f))
  {
    assert |multiset(t)| == |t|;
    if |s| > 0 {
      var a, b := PermutationStep(s, t);
      var x := s[|s| - 1];
      MapPermutes(s[..|s| - 1], a + b, f);
      MapConcat(a + [x], b, f);
      MapSnoc(a, x, f);
      MapConcat(a, b, f);
      MiddleMultiset(Map(a, f), f(x), Map(b, f));
    }
  }

  lemma {:induction false} MapMap<T, U, V>(s: seq<T>, f: T -> U, g: U -> V, h: T -> V)
    requires forall x :: x in s ==> g(f(x)) == h(x)
    ensures Map(Map(s, f), g) == Map(s, h)
  {
    if |s| > 0 {
      MapMap(s[..|s| - 1], f, g, h);
      MapSnoc(Map(s[..|s| - 1], f), f(s[|s| - 1]), g);
    }
  }

  lemma {:induction false} MapAt<T, U>(s: seq<T>, f: T -> U)
    ensures |Map(s, f)| == |s|
    ensures forall k :: 0 <= k < |s| ==> Map(s, f)[k] == f(s[k])
  {
    if |s| > 0 {
      MapAt(s[..|s| - 1], f);
    }
  }
}
