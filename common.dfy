/** Small shared vocabulary: an optional value and the array combinators
    (`filter`, `reduce`) that the storefront's pages and stores are written with. */
module Common {

  /** A value that may be absent (`undefined` or `null` in the storefront). */
  datatype Option<+T> = None | Some(value: T) {
    /** `x ?? d`: the value when present, otherwise the default. */
    function GetOr(default: T): (r: T)
      ensures Some? ==> r == value
      ensures None? ==> r == default
    {
      match this
      case Some(v) => v
      case None => default
    }
  }

  function Max(a: int, b: int): (r: int)
    ensures r >= a && r >= b && (r == a || r == b)
  {
    if a >= b then a else b
  }

  function Min(a: int, b: int): (r: int)
    ensures r <= a && r <= b && (r == a || r == b)
  {
    if a <= b then a else b
  }

  /** The `n > 1 ? "s" : ""` suffix used by every count label. */
  function PluralSuffix(n: int): (r: string)
    ensures r == "s" <==> n > 1
    ensures r == "" <==> n <= 1
  {
    if n > 1 then "s" else ""
  }

  /** `Array.prototype.filter`: the elements satisfying `keep`, in order. */
  function Filter<T>(s: seq<T>, keep: T -> bool): (r: seq<T>)
    ensures |r| <= |s|
  {
    if s == [] then []
    else Filter(s[..|s| - 1], keep) + (if keep(s[|s| - 1]) then [s[|s| - 1]] else [])
  }

  /** `Array.prototype.reduce((acc, x) => acc + f(x), 0)`: a left fold. */
  function SumOf<T>(s: seq<T>, f: T -> int): int
  {
    if s == [] then 0 else SumOf(s[..|s| - 1], f) + f(s[|s| - 1])
  }

  /** An index argument of `Array.prototype.slice`, resolved against the length. */
  function SliceBound(k: int, len: nat): (r: nat)
    ensures r <= len
    ensures 0 <= k <= len ==> r == k
  {
    if k < 0 then Max(len + k, 0) else Min(k, len)
  }

  /** `s.slice(from, to)`. */
  function Slice<T>(s: seq<T>, from: int, to: int): (r: seq<T>)
    ensures |r| <= |s|
    ensures 0 <= from <= to ==> |r| <= to - from
  {
    var a, b := SliceBound(from, |s|), SliceBound(to, |s|);
    if a < b then s[a..b] else []
  }

  /** `s.slice(0, n)` for `n >= 0` is the first `n` elements, or all of them. */
  lemma SliceFromStart<T>(s: seq<T>, n: int)
    requires n >= 0
    ensures Slice(s, 0, n) == s[..Min(n, |s|)]
  {
  }

  /** `idx` embeds `a` into `b` in increasing positions. */
  ghost predicate EmbeddedVia<T>(a: seq<T>, b: seq<T>, idx: seq<int>)
  {
    && |idx| == |a|
    && (forall k | 0 <= k < |idx| :: 0 <= idx[k] < |b| && a[k] == b[idx[k]])
    && (forall k, m | 0 <= k < m < |idx| :: idx[k] < idx[m])
  }

  /** `a` is an order-preserving subsequence of `b`. */
  ghost predicate IsSubsequence<T>(a: seq<T>, b: seq<T>)
  {
    exists idx :: EmbeddedVia(a, b, idx)
  }

  /** Every sequence is a subsequence of itself. */
  lemma SubsequenceReflexive<T>(s: seq<T>)
    ensures IsSubsequence(s, s)
  {
    var idx := seq(|s|, k requires 0 <= k < |s| => k);
    assert EmbeddedVia(s, s, idx);
  }

  /** Being a subsequence is transitive. */
  lemma SubsequenceTransitive<T>(a: seq<T>, b: seq<T>, c: seq<T>)
    requires IsSubsequence(a, b) && IsSubsequence(b, c)
    ensures IsSubsequence(a, c)
  {
    var i1 :| EmbeddedVia(a, b, i1);
    var i2 :| EmbeddedVia(b, c, i2);
    var idx := seq(|i1|, k requires 0 <= k < |i1| => i2[i1[k]]);
    assert EmbeddedVia(a, c, idx);
  }

  /** An element is kept exactly when it is in the input and satisfies the predicate. */
  lemma {:induction false} FilterMembership<T>(s: seq<T>, keep: T -> bool, x: T)
    ensures x in Filter(s, keep) <==> x in s && keep(x)
  {
    if s != [] {
      FilterMembership(s[..|s| - 1], keep, x);
      assert s == s[..|s| - 1] + [s[|s| - 1]];
    }
  }

  /** Every kept element satisfies the predicate. */
  lemma {:induction false} FilterSound<T>(s: seq<T>, keep: T -> bool)
    ensures forall k | 0 <= k < |Filter(s, keep)| :: keep(Filter(s, keep)[k])
  {
    if s != [] {
      FilterSound(s[..|s| - 1], keep);
    }
  }

  /** Filtering keeps the relative order of the input. */
  lemma {:induction false} FilterIsSubsequence<T>(s: seq<T>, keep: T -> bool)
    ensures IsSubsequence(Filter(s, keep), s)
  {
    var idx := FilterEmbedding(s, keep);
  }

  lemma {:induction false} FilterEmbedding<T>(s: seq<T>, keep: T -> bool) returns (idx: seq<int>)
    ensures EmbeddedVia(Filter(s, keep), s, idx)
  {
    if s == [] {
      idx := [];
    } else {
      var init, last := s[..|s| - 1], s[|s| - 1];
      var pre := FilterEmbedding(init, keep);
      var kept := Filter(init, keep);
      if keep(last) {
        assert Filter(s, keep) == kept + [last];
        idx := pre + [|s| - 1];
        forall k | 0 <= k < |idx|
          ensures 0 <= idx[k] < |s| && Filter(s, keep)[k] == s[idx[k]]
        {
          if k < |pre| {
            assert idx[k] == pre[k] && Filter(s, keep)[k] == kept[k] && init[pre[k]] == s[pre[k]];
          }
        }
      } else {
        assert Filter(s, keep) == kept;
        idx := pre;
        assert forall k | 0 <= k < |pre| :: init[pre[k]] == s[pre[k]];
      }
    }
  }

  /** When every element satisfies the predicate nothing is dropped. */
  lemma {:induction false} FilterAllKept<T>(s: seq<T>, keep: T -> bool)
    requires forall k | 0 <= k < |s| :: keep(s[k])
    ensures Filter(s, keep) == s
  {
    if s != [] {
      FilterAllKept(s[..|s| - 1], keep);
      assert s == s[..|s| - 1] + [s[|s| - 1]];
    }
  }

  /** When no element satisfies the predicate the result is empty. */
  lemma {:induction false} FilterNoneKept<T>(s: seq<T>, keep: T -> bool)
    requires forall k | 0 <= k < |s| :: !keep(s[k])
    ensures Filter(s, keep) == []
  {
    if s != [] {
      FilterNoneKept(s[..|s| - 1], keep);
    }
  }

  /** Filtering twice with the same predicate is filtering once. */
  lemma FilterIdempotent<T>(s: seq<T>, keep: T -> bool)
    ensures Filter(Filter(s, keep), keep) == Filter(s, keep)
  {
    FilterSound(s, keep);
    FilterAllKept(Filter(s, keep), keep);
  }

  /** `filter` distributes over concatenation. */
  lemma {:induction false} FilterAppend<T>(a: seq<T>, b: seq<T>, keep: T -> bool)
    ensures Filter(a + b, keep) == Filter(a, keep) + Filter(b, keep)
  {
    if b == [] {
      assert a + b == a;
    } else {
      var b' := b[..|b| - 1];
      assert (a + b)[..|a + b| - 1] == a + b';
      FilterAppend(a, b', keep);
    }
  }

  /** The fold distributes over concatenation. */
  lemma {:induction false} SumOfAppend<T>(a: seq<T>, b: seq<T>, f: T -> int)
    ensures SumOf(a + b, f) == SumOf(a, f) + SumOf(b, f)
  {
    if b == [] {
      assert a + b == a;
    } else {
      var b' := b[..|b| - 1];
      assert (a + b)[..|a + b| - 1] == a + b';
      SumOfAppend(a, b', f);
    }
  }

  /** Two sequences that agree under `f` everywhere except at `k` fold to
      sums that differ by exactly the change at `k`. */
  lemma {:induction false} SumOfChangeAt<T>(a: seq<T>, b: seq<T>, f: T -> int, k: int)
    requires |a| == |b| && 0 <= k < |a|
    requires forall i | 0 <= i < |a| && i != k :: f(a[i]) == f(b[i])
    ensures SumOf(b, f) == SumOf(a, f) + f(b[k]) - f(a[k])
  {
    var n := |a| - 1;
    if k == n {
      SumOfSame(a[..n], b[..n], f);
    } else {
      SumOfChangeAt(a[..n], b[..n], f, k);
    }
  }

  /** Two sequences that agree under `f` everywhere fold to the same sum. */
  lemma {:induction false} SumOfSame<T>(a: seq<T>, b: seq<T>, f: T -> int)
    requires |a| == |b|
    requires forall i | 0 <= i < |a| :: f(a[i]) == f(b[i])
    ensures SumOf(b, f) == SumOf(a, f)
  {
    if a != [] {
      SumOfSame(a[..|a| - 1], b[..|b| - 1], f);
    }
  }

  /** A fold of non-negative terms is non-negative. */
  lemma {:induction false} SumOfNonNegative<T>(s: seq<T>, f: T -> int)
    requires forall k | 0 <= k < |s| :: f(s[k]) >= 0
    ensures SumOf(s, f) >= 0
  {
    if s != [] {
      SumOfNonNegative(s[..|s| - 1], f);
    }
  }
}
