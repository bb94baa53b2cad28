/** Order-preserving list operations shared by every list filter of the application. */
module Seqs {
  import opened Base

  /** `Array.prototype.filter`: the elements satisfying `p`, in their original order. */
  function Filter<T>(s: seq<T>, p: T -> bool): (r: seq<T>)
    ensures |r| <= |s|
  {
    if s == [] then []
    else if p(s[0]) then [s[0]] + Filter(s[1..], p)
    else Filter(s[1..], p)
  }

  lemma {:induction false} FilterMembership<T>(s: seq<T>, p: T -> bool, x: T)
    ensures x in Filter(s, p) <==> x in s && p(x)
  {
    if s != [] {
      FilterMembership(s[1..], p, x);
      assert s == [s[0]] + s[1..];
    }
  }

  lemma {:induction false} FilterAll<T>(s: seq<T>, p: T -> bool)
    requires forall i :: 0 <= i < |s| ==> p(s[i])
    ensures Filter(s, p) == s
  {
    if s != [] {
      FilterAll(s[1..], p);
    }
  }

  lemma {:induction false} FilterNone<T>(s: seq<T>, p: T -> bool)
    requires forall i :: 0 <= i < |s| ==> !p(s[i])
    ensures Filter(s, p) == []
  {
    if s != [] {
      FilterNone(s[1..], p);
    }
  }

  /** `Array.prototype.find`: the first element satisfying `p`, if any. */
  function FindFirst<T>(s: seq<T>, p: T -> bool): (r: Option<T>)
    ensures r.None? <==> forall i :: 0 <= i < |s| ==> !p(s[i])
    ensures r.Some? ==> exists i :: 0 <= i < |s| && s[i] == r.value && p(r.value) && forall j :: 0 <= j < i ==> !p(s[j])
  {
    if s == [] then None
    else if p(s[0]) then Some(s[0])
    else
      var r := FindFirst(s[1..], p);
      assert r.Some? ==> exists i :: 0 <= i < |s| - 1 && s[1..][i] == r.value && p(r.value) && forall j :: 0 <= j < i ==> !p(s[1..][j]);
      r
  }

  /** `a` is obtained from `b` by deleting some elements; the rest keep their order. */
  predicate IsSubsequence<T(==)>(a: seq<T>, b: seq<T>)
    decreases |b|
  {
    a == [] ||
    (b != [] &&
     ((a[0] == b[0] && IsSubsequence(a[1..], b[1..])) || IsSubsequence(a, b[1..])))
  }

  lemma {:induction false} SubsequenceRefl<T>(a: seq<T>)
    ensures IsSubsequence(a, a)
  {
    if a != [] {
      SubsequenceRefl(a[1..]);
    }
  }

  lemma {:induction false} SubsequenceMembers<T>(a: seq<T>, b: seq<T>)
    requires IsSubsequence(a, b)
    ensures forall x :: x in a ==> x in b
    decreases |b|
  {
    if a != [] {
      assert a == [a[0]] + a[1..] && b == [b[0]] + b[1..];
      if a[0] == b[0] && IsSubsequence(a[1..], b[1..]) {
        SubsequenceMembers(a[1..], b[1..]);
      } else {
        SubsequenceMembers(a, b[1..]);
      }
    }
  }

  lemma SubsequenceCons<T>(a: seq<T>, x: T, b: seq<T>)
    requires IsSubsequence(a, b)
    ensures IsSubsequence(a, [x] + b)
  {
    assert ([x] + b)[1..] == b;
  }

  /** The result of a filter is an order-preserving sub-list of its input. */
  lemma {:induction false} FilterIsSubsequence<T>(s: seq<T>, p: T -> bool)
    ensures IsSubsequence(Filter(s, p), s)
  {
    if s != [] {
      FilterIsSubsequence(s[1..], p);
      if p(s[0]) {
        assert Filter(s, p)[0] == s[0] && Filter(s, p)[1..] == Filter(s[1..], p);
      } else {
        SubsequenceCons(Filter(s[1..], p), s[0], s[1..]);
        assert [s[0]] + s[1..] == s;
      }
    }
  }

  lemma {:induction false} SubsequenceLength<T>(a: seq<T>, b: seq<T>)
    requires IsSubsequence(a, b)
    ensures |a| <= |b|
    decreases |b|
  {
    if a != [] {
      if a[0] == b[0] && IsSubsequence(a[1..], b[1..]) {
        SubsequenceLength(a[1..], b[1..]);
      } else {
        SubsequenceLength(a, b[1..]);
      }
    }
  }

  /** Filtering a sub-list keeps a sub-list of the filtered whole. */
  lemma {:induction false} FilterMonotone<T>(a: seq<T>, b: seq<T>, p: T -> bool)
    requires IsSubsequence(a, b)
    ensures IsSubsequence(Filter(a, p), Filter(b, p))
    decreases |b|
  {
    if a == [] {
    } else if a[0] == b[0] && IsSubsequence(a[1..], b[1..]) {
      FilterMonotone(a[1..], b[1..], p);
      if p(a[0]) {
        var fa, fb := Filter(a[1..], p), Filter(b[1..], p);
        assert ([a[0]] + fa)[1..] == fa && ([b[0]] + fb)[1..] == fb;
      }
    } else {
      FilterMonotone(a, b[1..], p);
      if p(b[0]) {
        SubsequenceCons(Filter(a, p), b[0], Filter(b[1..], p));
      }
    }
  }

  /** Filtering a concatenation filters each part. */
  lemma {:induction false} FilterAppend<T>(a: seq<T>, b: seq<T>, p: T -> bool)
    ensures Filter(a + b, p) == Filter(a, p) + Filter(b, p)
  {
    if a != [] {
      FilterAppend(a[1..], b, p);
      assert (a + b)[1..] == a[1..] + b;
    } else {
      assert a + b == b;
    }
  }

  /** Filtering with a stronger predicate keeps a sub-list of what the weaker one keeps. */
  lemma {:induction false} FilterNarrowing<T>(s: seq<T>, p: T -> bool, q: T -> bool)
    requires forall x :: p(x) ==> q(x)
    ensures IsSubsequence(Filter(s, p), Filter(s, q))
  {
    if s != [] {
      FilterNarrowing(s[1..], p, q);
      if p(s[0]) {
        assert Filter(s, p)[0] == s[0] && Filter(s, p)[1..] == Filter(s[1..], p);
        assert Filter(s, q)[0] == s[0] && Filter(s, q)[1..] == Filter(s[1..], q);
      } else if q(s[0]) {
        SubsequenceCons(Filter(s[1..], p), s[0], Filter(s[1..], q));
      }
    }
  }

  predicate NoDuplicates<T(==)>(s: seq<T>)
  {
    forall i, j :: 0 <= i < j < |s| ==> s[i] != s[j]
  }

  /** `Array.from(new Set(s))`: each distinct element once, at the place of its first occurrence. */
  function Distinct<T(==)>(s: seq<T>): (r: seq<T>)
  {
    DistinctAfter(s, [])
  }

  /** Appends to `seen` the elements of `s` not met before, in order. */
  function DistinctAfter<T(==)>(s: seq<T>, seen: seq<T>): (r: seq<T>)
  {
    if s == [] then seen
    else if s[0] in seen then DistinctAfter(s[1..], seen)
    else DistinctAfter(s[1..], seen + [s[0]])
  }

  lemma {:induction false} DistinctAfterSpec<T>(s: seq<T>, seen: seq<T>)
    requires NoDuplicates(seen)
    ensures NoDuplicates(DistinctAfter(s, seen))
    ensures forall x :: x in DistinctAfter(s, seen) <==> x in seen || x in s
    ensures |seen| <= |DistinctAfter(s, seen)| && DistinctAfter(s, seen)[..|seen|] == seen
  {
    if s != [] {
      if s[0] in seen {
        DistinctAfterSpec(s[1..], seen);
      } else {
        DistinctAfterSpec(s[1..], seen + [s[0]]);
        assert (seen + [s[0]])[..|seen|] == seen;
      }
      forall x ensures x in s <==> x == s[0] || x in s[1..] {
        assert s == [s[0]] + s[1..];
      }
    }
  }

  /** A list of one repeated value de-duplicates to that value alone. */
  lemma {:induction false} DistinctOfConstant<T>(s: seq<T>, x: T)
    requires s != [] && forall i :: 0 <= i < |s| ==> s[i] == x
    ensures Distinct(s) == [x]
  {
    assert [] + [s[0]] == [x];
    DistinctAfterSeen(s[1..], x);
  }

  lemma {:induction false} DistinctAfterSeen<T>(s: seq<T>, x: T)
    requires forall i :: 0 <= i < |s| ==> s[i] == x
    ensures DistinctAfter(s, [x]) == [x]
  {
    if s != [] {
      DistinctAfterSeen(s[1..], x);
    }
  }

  /** The de-duplicated list has no repeats and holds exactly the input's elements. */
  lemma DistinctSpec<T>(s: seq<T>)
    ensures NoDuplicates(Distinct(s))
    ensures forall x :: x in Distinct(s) <==> x in s
  {
    DistinctAfterSpec(s, []);
  }
}
