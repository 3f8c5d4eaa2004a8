/** Values and sequence operations shared by every component model.
    JavaScript numbers are modelled as `real` (exact arithmetic, no IEEE-754 rounding),
    so that the integer checks of the form schemas keep their meaning. */
module Common {

  datatype Option<+T> = None | Some(value: T)

  /** What a remote select returns: an error, or the rows, in the order the store sent them. */
  datatype Query<+T> = QueryError | Rows(rows: seq<T>)

  /** `x || 0` for a number field that may be absent. */
  function OrZero(x: Option<real>): (r: real)
    ensures x.None? ==> r == 0.0
    ensures x.Some? && x.value != 0.0 ==> r == x.value
  {
    if x.Some? then x.value else 0.0
  }

  /** `s || ""` for a text field that may be absent. */
  function OrEmpty(s: Option<string>): (r: string)
    ensures s.None? ==> r == ""
    ensures s.Some? ==> r == s.value
  {
    if s.Some? then s.value else ""
  }

  /** zod's `.int()`: the number has no fractional part. */
  predicate IsInt(x: real) {
    x.Floor as real == x
  }

  /** `xs.reduce((acc, x) => acc + f(x), 0)`. */
  function SumOf<T>(xs: seq<T>, f: T -> real): real {
    if |xs| == 0 then 0.0 else f(xs[0]) + SumOf(xs[1..], f)
  }

  lemma {:induction false} SumOfAppend<T>(a: seq<T>, b: seq<T>, f: T -> real)
    ensures SumOf(a + b, f) == SumOf(a, f) + SumOf(b, f)
  {
    if |a| == 0 {
      assert a + b == b;
    } else {
      assert (a + b)[1..] == a[1..] + b;
      SumOfAppend(a[1..], b, f);
    }
  }

  /** A sum whose every term is between 0 and a bound term is itself so bounded. */
  lemma {:induction false} SumOfBetween<T>(xs: seq<T>, lo: T -> real, hi: T -> real)
    requires forall i :: 0 <= i < |xs| ==> 0.0 <= lo(xs[i]) <= hi(xs[i])
    ensures 0.0 <= SumOf(xs, lo) <= SumOf(xs, hi)
  {
    if |xs| > 0 {
      assert forall i :: 0 <= i < |xs[1..]| ==> xs[1..][i] == xs[i + 1];
      SumOfBetween(xs[1..], lo, hi);
    }
  }

  /** Termwise smaller gives a smaller sum. */
  lemma {:induction false} SumOfMonotone<T>(xs: seq<T>, lo: T -> real, hi: T -> real)
    requires forall i :: 0 <= i < |xs| ==> lo(xs[i]) <= hi(xs[i])
    ensures SumOf(xs, lo) <= SumOf(xs, hi)
  {
    if |xs| > 0 {
      assert forall i :: 0 <= i < |xs[1..]| ==> xs[1..][i] == xs[i + 1];
      SumOfMonotone(xs[1..], lo, hi);
    }
  }

  /** `s.filter(p)`: the elements satisfying `p`, in their original order. */
  function Filter<T>(s: seq<T>, p: T -> bool): (r: seq<T>)
    ensures |r| <= |s|
    ensures forall i :: 0 <= i < |r| ==> p(r[i]) && r[i] in s
    ensures forall i :: 0 <= i < |s| && p(s[i]) ==> s[i] in r
  {
    if |s| == 0 then []
    else (if p(s[0]) then [s[0]] else []) + Filter(s[1..], p)
  }

  lemma {:induction false} FilterAppend<T>(a: seq<T>, b: seq<T>, p: T -> bool)
    ensures Filter(a + b, p) == Filter(a, p) + Filter(b, p)
  {
    if |a| == 0 {
      assert a + b == b;
    } else {
      assert (a + b)[1..] == a[1..] + b;
      FilterAppend(a[1..], b, p);
    }
  }

  /** Filtering keeps everything when every element passes. */
  lemma {:induction false} FilterAll<T>(s: seq<T>, p: T -> bool)
    requires forall i :: 0 <= i < |s| ==> p(s[i])
    ensures Filter(s, p) == s
  {
    if |s| > 0 {
      assert forall i :: 0 <= i < |s[1..]| ==> s[1..][i] == s[i + 1];
      FilterAll(s[1..], p);
    }
  }

  /** Filtering out terms of a non-negative sum can only make it smaller. */
  lemma {:induction false} SumOfFilter<T>(s: seq<T>, p: T -> bool, f: T -> real)
    requires forall i :: 0 <= i < |s| ==> f(s[i]) >= 0.0
    ensures SumOf(Filter(s, p), f) <= SumOf(s, f)
  {
    if |s| > 0 {
      assert forall i :: 0 <= i < |s[1..]| ==> s[1..][i] == s[i + 1];
      SumOfFilter(s[1..], p, f);
      var rest := Filter(s[1..], p);
      if p(s[0]) {
        assert Filter(s, p) == [s[0]] + rest;
        assert ([s[0]] + rest)[1..] == rest;
        assert SumOf([s[0]] + rest, f) == f(s[0]) + SumOf(rest, f);
      } else {
        assert Filter(s, p) == [] + rest == rest;
      }
    }
  }

  /** `r` is obtained from `s` by deleting elements, keeping the order of the rest. */
  predicate SubsequenceOf<T(==)>(r: seq<T>, s: seq<T>)
    decreases |s|
  {
    if |r| == 0 then true
    else if |s| == 0 then false
    else (r[0] == s[0] && SubsequenceOf(r[1..], s[1..])) || SubsequenceOf(r, s[1..])
  }

  lemma {:induction false} FilterIsSubsequence<T>(s: seq<T>, p: T -> bool)
    ensures SubsequenceOf(Filter(s, p), s)
  {
    if |s| > 0 {
      FilterIsSubsequence(s[1..], p);
      var rest := Filter(s[1..], p);
      if p(s[0]) {
        assert Filter(s, p) == [s[0]] + rest;
        assert ([s[0]] + rest)[1..] == rest;
      } else {
        assert Filter(s, p) == rest;
      }
    }
  }

  /** Each element occurs in a filtered sequence as often as in the original when it
      passes, and not at all otherwise. */
  lemma {:induction false} FilterMultiset<T>(s: seq<T>, p: T -> bool)
    ensures forall x :: multiset(Filter(s, p))[x] == if p(x) then multiset(s)[x] else 0
  {
    if |s| > 0 {
      FilterMultiset(s[1..], p);
      assert s == [s[0]] + s[1..];
      assert multiset(s) == multiset{s[0]} + multiset(s[1..]);
      var head := if p(s[0]) then [s[0]] else [];
      assert Filter(s, p) == head + Filter(s[1..], p);
      assert multiset(Filter(s, p)) == multiset(head) + multiset(Filter(s[1..], p));
    }
  }

  /** Filtering two permutations of each other gives permutations of each other. */
  lemma FilterPermutation<T>(a: seq<T>, b: seq<T>, p: T -> bool)
    requires multiset(a) == multiset(b)
    ensures multiset(Filter(a, p)) == multiset(Filter(b, p))
    ensures |Filter(a, p)| == |Filter(b, p)|
  {
    FilterMultiset(a, p);
    FilterMultiset(b, p);
    assert multiset(Filter(a, p)) == multiset(Filter(b, p));
    assert |multiset(Filter(a, p))| == |multiset(Filter(b, p))|;
  }

  /** A prefix of a subsequence is a subsequence. */
  lemma {:induction false} PrefixSubsequence<T>(r: seq<T>, s: seq<T>, k: nat)
    requires SubsequenceOf(r, s) && k <= |r|
    ensures SubsequenceOf(r[..k], s)
    decreases |s|
  {
    if k > 0 {
      if r[0] == s[0] && SubsequenceOf(r[1..], s[1..]) {
        PrefixSubsequence(r[1..], s[1..], k - 1);
        assert r[..k][1..] == r[1..][..k - 1];
      } else {
        PrefixSubsequence(r, s[1..], k);
      }
    }
  }

  /** `s.slice(0, n)`. */
  function Take<T>(s: seq<T>, n: nat): (r: seq<T>)
    ensures |r| <= n && |r| <= |s|
    ensures |s| <= n ==> r == s
    ensures r <= s
  {
    if |s| <= n then s else s[..n]
  }

  /** No element occurs twice. */
  predicate Distinct<T(==)>(s: seq<T>) {
    forall i, j :: 0 <= i < j < |s| ==> s[i] != s[j]
  }
}
