/** Sequence helpers standing for the array methods the storefront relies on:
    `filter`, `slice` (with JavaScript's clamping of its bounds), `join`, and
    the subsequence relation that says an operation kept the original order. */
module Lists {

  /** `xs.filter(p)`: the elements satisfying `p`, in their original order. */
  function Filter<T>(xs: seq<T>, p: T -> bool): (r: seq<T>)
    ensures |r| <= |xs|
    ensures forall i :: 0 <= i < |r| ==> p(r[i])
  {
    if xs == [] then []
    else if p(xs[0]) then [xs[0]] + Filter(xs[1..], p)
    else Filter(xs[1..], p)
  }

  /** `sub` can be obtained from `xs` by deleting elements; the rest keep their order. */
  ghost predicate IsSubsequence<T>(sub: seq<T>, xs: seq<T>)
    decreases |xs|
  {
    if sub == [] then true
    else if xs == [] then false
    else if sub[0] == xs[0] then IsSubsequence(sub[1..], xs[1..])
    else IsSubsequence(sub, xs[1..])
  }

  /** Every element kept by `Filter` satisfies the predicate. */
  lemma {:induction false} FilterKeepsOnlyMatches<T>(xs: seq<T>, p: T -> bool)
    ensures forall x :: x in Filter(xs, p) ==> x in xs && p(x)
  {
    if xs != [] {
      FilterKeepsOnlyMatches(xs[1..], p);
    }
  }

  /** `Filter` keeps every matching element, as many times as it occurs, and no other. */
  lemma {:induction false} FilterCounts<T>(xs: seq<T>, p: T -> bool)
    ensures forall x :: multiset(Filter(xs, p))[x] == if p(x) then multiset(xs)[x] else 0
  {
    if xs != [] {
      FilterCounts(xs[1..], p);
      assert xs == [xs[0]] + xs[1..];
    }
  }

  /** Dropping the first element of a subsequence leaves a subsequence. */
  lemma {:induction false} SubsequenceTail<T>(sub: seq<T>, xs: seq<T>)
    requires sub != [] && IsSubsequence(sub, xs)
    ensures IsSubsequence(sub[1..], xs)
    decreases |xs|, 0
  {
    if sub[0] != xs[0] {
      SubsequenceTail(sub, xs[1..]);
      SubsequenceCons(sub[1..], xs[0], xs[1..]);
      assert [xs[0]] + xs[1..] == xs;
    } else if sub[1..] != [] {
      SubsequenceCons(sub[1..], xs[0], xs[1..]);
      assert [xs[0]] + xs[1..] == xs;
    }
  }

  /** A subsequence of `xs` is a subsequence of `xs` with one more element in front. */
  lemma {:induction false} SubsequenceCons<T>(sub: seq<T>, x: T, xs: seq<T>)
    requires IsSubsequence(sub, xs)
    ensures IsSubsequence(sub, [x] + xs)
    decreases |xs|, 1
  {
    assert ([x] + xs)[1..] == xs;
    if sub != [] && sub[0] == x {
      SubsequenceTail(sub, xs);
    }
  }

  /** `Filter` keeps the original order. */
  lemma {:induction false} FilterIsSubsequence<T>(xs: seq<T>, p: T -> bool)
    ensures IsSubsequence(Filter(xs, p), xs)
  {
    if xs != [] {
      FilterIsSubsequence(xs[1..], p);
      assert xs == [xs[0]] + xs[1..];
      if p(xs[0]) {
        assert ([xs[0]] + Filter(xs[1..], p))[1..] == Filter(xs[1..], p);
      } else {
        SubsequenceCons(Filter(xs[1..], p), xs[0], xs[1..]);
      }
    }
  }

  /** Filtering with a predicate that holds of every element changes nothing. */
  lemma {:induction false} FilterAllTrue<T>(xs: seq<T>, p: T -> bool)
    requires forall i :: 0 <= i < |xs| ==> p(xs[i])
    ensures Filter(xs, p) == xs
  {
    if xs != [] {
      FilterAllTrue(xs[1..], p);
    }
  }

  /** `Filter` of a concatenation is the concatenation of the filters. */
  lemma {:induction false} FilterAppend<T>(xs: seq<T>, ys: seq<T>, p: T -> bool)
    ensures Filter(xs + ys, p) == Filter(xs, p) + Filter(ys, p)
  {
    if xs == [] {
      assert xs + ys == ys;
    } else {
      assert (xs + ys)[1..] == xs[1..] + ys;
      FilterAppend(xs[1..], ys, p);
    }
  }

  /** Filtering twice keeps what satisfies both predicates. */
  lemma {:induction false} FilterTwice<T>(xs: seq<T>, p: T -> bool, q: T -> bool, both: T -> bool)
    requires forall x :: both(x) == (p(x) && q(x))
    ensures Filter(Filter(xs, p), q) == Filter(xs, both)
  {
    if xs != [] {
      FilterTwice(xs[1..], p, q, both);
      if p(xs[0]) {
        assert ([xs[0]] + Filter(xs[1..], p))[1..] == Filter(xs[1..], p);
      }
    }
  }

  /** The first `k` elements of a subsequence form a subsequence too. */
  lemma {:induction false} SubsequencePrefix<T>(sub: seq<T>, k: nat, xs: seq<T>)
    requires k <= |sub| && IsSubsequence(sub, xs)
    ensures IsSubsequence(sub[..k], xs)
    decreases |xs|
  {
    if k > 0 {
      if sub[0] == xs[0] {
        SubsequencePrefix(sub[1..], k - 1, xs[1..]);
        assert sub[..k][1..] == sub[1..][..k - 1];
      } else {
        SubsequencePrefix(sub, k, xs[1..]);
      }
    }
  }

  /** JavaScript's clamping of a `slice` bound: negative values count from the end. */
  function ClampIndex(i: int, len: nat): (r: nat)
    ensures r <= len
    ensures 0 <= i <= len ==> r == i
  {
    if i < 0 then (if len + i < 0 then 0 else len + i)
    else if i > len then len
    else i
  }

  /** `xs.slice(start, end)` with JavaScript's treatment of out-of-range bounds. */
  function Slice<T>(xs: seq<T>, start: int, end: int): (r: seq<T>)
    ensures 0 <= start <= end <= |xs| ==> r == xs[start..end]
    ensures 0 <= start <= end ==> |r| <= end - start
    ensures |r| <= |xs|
    ensures 0 <= start <= |xs| ==> r <= xs[start..]
  {
    var s := ClampIndex(start, |xs|);
    var e := ClampIndex(end, |xs|);
    if s >= e then [] else xs[s..e]
  }

  /** `parts.join(sep)`: the first part opens the result. */
  function Join(parts: seq<string>, sep: string): (r: string)
    ensures |parts| > 0 ==> parts[0] <= r
  {
    if parts == [] then ""
    else if |parts| == 1 then parts[0]
    else parts[0] + sep + Join(parts[1..], sep)
  }

  /** Three parts are joined with the separator between each pair. */
  lemma JoinThree(parts: seq<string>, sep: string)
    requires |parts| == 3
    ensures Join(parts, sep) == parts[0] + sep + parts[1] + sep + parts[2]
  {
    assert parts[1..][1..] == [parts[2]];
    assert Join(parts[1..], sep) == parts[1] + sep + parts[2];
  }

  /** Joining more parts only extends the string joined from a prefix of them. */
  lemma {:induction false} JoinPrefix(parts: seq<string>, k: nat, sep: string)
    requires 1 <= k <= |parts|
    ensures Join(parts[..k], sep) <= Join(parts, sep)
  {
    if k < |parts| {
      if k == 1 {
        assert parts[..1] == [parts[0]];
      } else {
        assert parts[..k][1..] == parts[1..][..k - 1];
        JoinPrefix(parts[1..], k - 1, sep);
        assert Join(parts[..k], sep) == parts[0] + sep + Join(parts[1..][..k - 1], sep);
      }
    } else {
      assert parts[..k] == parts;
    }
  }

  /** A sequence without repeated elements. */
  predicate NoDuplicates<T(==)>(xs: seq<T>)
  {
    forall i, j :: 0 <= i < j < |xs| ==> xs[i] != xs[j]
  }
}
