/**
 Generic facts about order-preserving subsequences and the stable filter
 (`Array.prototype.filter`) and prefix (`Array.prototype.slice(0, n)`) operations
 that every screen of the dashboard uses.
 */
module Seqs {

  /** `sub` is obtained from `s` by deleting elements, keeping the order of the rest. */
  predicate IsSubseq<T(==)>(sub: seq<T>, s: seq<T>)
    decreases |s|
  {
    if sub == [] then true
    else if s == [] then false
    else (sub[0] == s[0] && IsSubseq(sub[1..], s[1..])) || IsSubseq(sub, s[1..])
  }

  /** The positions of `s` whose element passes `p`. */
  ghost function KeptIndices<T>(s: seq<T>, p: T -> bool): set<int>
  {
    set i | 0 <= i < |s| && p(s[i])
  }

  /** The stable filter: the elements of `s` that pass `p`, in their original order. */
  function Filter<T(==)>(s: seq<T>, p: T -> bool): (r: seq<T>)
    ensures |r| <= |s|
    ensures IsSubseq(r, s)
    ensures forall i :: 0 <= i < |r| ==> r[i] in s
    ensures forall i :: 0 <= i < |r| ==> p(r[i])
    ensures forall i :: 0 <= i < |s| ==> (s[i] in r <==> p(s[i]))
  {
    if s == [] then []
    else if p(s[0]) then [s[0]] + Filter(s[1..], p)
    else Filter(s[1..], p)
  }

  /** The first `n` elements of `s`, or all of `s` when it is shorter (`s.slice(0, n)`). */
  function Take<T>(s: seq<T>, n: nat): (r: seq<T>)
    ensures |r| == if n <= |s| then n else |s|
    ensures forall i :: 0 <= i < |r| ==> r[i] == s[i]
  {
    if n <= |s| then s[..n] else s
  }

  lemma SubseqOfCons<T>(t: seq<T>, x: T, u: seq<T>)
    requires IsSubseq(t, u)
    ensures IsSubseq(t, [x] + u)
  {
    if t != [] {
      assert ([x] + u)[1..] == u;
    }
  }

  /** A subsequence is never longer than the sequence it is taken from. */
  lemma {:induction false} SubseqLength<T>(t: seq<T>, s: seq<T>)
    requires IsSubseq(t, s)
    ensures |t| <= |s|
    decreases |s|
  {
    if t != [] {
      if t[0] == s[0] && IsSubseq(t[1..], s[1..]) {
        SubseqLength(t[1..], s[1..]);
      } else {
        SubseqLength(t, s[1..]);
      }
    }
  }

  /** A subsequence as long as the sequence it is taken from is that sequence. */
  lemma {:induction false} SubseqSameLength<T>(t: seq<T>, s: seq<T>)
    requires IsSubseq(t, s)
    requires |t| == |s|
    ensures t == s
    decreases |s|
  {
    if t != [] {
      if t[0] == s[0] && IsSubseq(t[1..], s[1..]) {
        SubseqSameLength(t[1..], s[1..]);
        assert t == [t[0]] + t[1..];
        assert s == [s[0]] + s[1..];
      } else {
        SubseqLength(t, s[1..]);
        assert false;
      }
    }
  }

  /** Every subsequence of `s` made of elements that pass `p` is a subsequence of the filter. */
  lemma {:induction false} FilterMaximal<T>(t: seq<T>, s: seq<T>, p: T -> bool)
    requires IsSubseq(t, s)
    requires forall i :: 0 <= i < |t| ==> p(t[i])
    ensures IsSubseq(t, Filter(s, p))
    decreases |s|
  {
    if t != [] {
      if t[0] == s[0] && IsSubseq(t[1..], s[1..]) {
        FilterMaximal(t[1..], s[1..], p);
        assert p(t[0]);
        var f := Filter(s, p);
        assert f == [s[0]] + Filter(s[1..], p);
        assert f[1..] == Filter(s[1..], p);
      } else {
        FilterMaximal(t, s[1..], p);
        if p(s[0]) {
          SubseqOfCons(t, s[0], Filter(s[1..], p));
        }
      }
    }
  }

  /**
   The filter is the only subsequence of `s` whose elements all pass `p` and that is
   at least as long as the filter: it is the longest such subsequence.
   */
  lemma FilterUnique<T>(t: seq<T>, s: seq<T>, p: T -> bool)
    requires IsSubseq(t, s)
    requires forall i :: 0 <= i < |t| ==> p(t[i])
    requires |t| >= |Filter(s, p)|
    ensures t == Filter(s, p)
  {
    FilterMaximal(t, s, p);
    SubseqLength(t, Filter(s, p));
    SubseqSameLength(t, Filter(s, p));
  }

  /** Filtering twice with the same predicate is filtering once. */
  lemma {:induction false} FilterIdempotent<T>(s: seq<T>, p: T -> bool)
    ensures Filter(Filter(s, p), p) == Filter(s, p)
  {
    if s != [] {
      FilterIdempotent(s[1..], p);
      if p(s[0]) {
        assert ([s[0]] + Filter(s[1..], p))[1..] == Filter(s[1..], p);
      }
    }
  }

  /** Filtering by a conjunction is filtering by one conjunct, then by the other. */
  lemma {:induction false} FilterConjunction<T>(s: seq<T>, p: T -> bool, q: T -> bool, pq: T -> bool)
    requires forall x :: pq(x) == (p(x) && q(x))
    ensures Filter(s, pq) == Filter(Filter(s, p), q)
  {
    if s != [] {
      FilterConjunction(s[1..], p, q, pq);
      if p(s[0]) {
        assert ([s[0]] + Filter(s[1..], p))[1..] == Filter(s[1..], p);
      }
    }
  }

  /** A predicate every element passes leaves the sequence unchanged. */
  lemma {:induction false} FilterKeepsAll<T>(s: seq<T>, p: T -> bool)
    requires forall i :: 0 <= i < |s| ==> p(s[i])
    ensures Filter(s, p) == s
  {
    if s != [] {
      FilterKeepsAll(s[1..], p);
      assert s == [s[0]] + s[1..];
    }
  }

  /** The filter of a concatenation is the concatenation of the filters. */
  lemma {:induction false} FilterAppend<T>(a: seq<T>, b: seq<T>, p: T -> bool)
    ensures Filter(a + b, p) == Filter(a, p) + Filter(b, p)
  {
    if a == [] {
      assert a + b == b;
    } else {
      var ab := a + b;
      assert ab[1..] == a[1..] + b;
      FilterAppend(a[1..], b, p);
      if p(a[0]) {
        calc {
          Filter(ab, p);
          [a[0]] + Filter(a[1..] + b, p);
          [a[0]] + (Filter(a[1..], p) + Filter(b, p));
          ([a[0]] + Filter(a[1..], p)) + Filter(b, p);
        }
      }
    }
  }

  lemma KeptIndicesLast<T>(s: seq<T>, p: T -> bool)
    requires s != []
    ensures var n := |s| - 1;
      KeptIndices(s, p) == KeptIndices(s[..n], p) + (if p(s[n]) then {n} else {})
  {
    var n := |s| - 1;
    forall i
      ensures i in KeptIndices(s, p) <==> i in KeptIndices(s[..n], p) + (if p(s[n]) then {n} else {})
    {
      if 0 <= i < n {
        assert s[..n][i] == s[i];
      }
    }
  }

  lemma FilterLast<T>(s: seq<T>, p: T -> bool)
    requires s != []
    ensures var n := |s| - 1;
      |Filter(s, p)| == |Filter(s[..n], p)| + (if p(s[n]) then 1 else 0)
  {
    var n := |s| - 1;
    assert s == s[..n] + [s[n]];
    FilterAppend(s[..n], [s[n]], p);
  }

  /** The filter holds exactly as many elements as there are positions whose element passes. */
  lemma {:induction false} FilterLength<T>(s: seq<T>, p: T -> bool)
    ensures |Filter(s, p)| == |KeptIndices(s, p)|
    decreases |s|
  {
    if s == [] {
      assert KeptIndices(s, p) == {};
    } else {
      var n := |s| - 1;
      FilterLength(s[..n], p);
      FilterLast(s, p);
      KeptIndicesLast(s, p);
      assert n !in KeptIndices(s[..n], p);
    }
  }

  /** The filter is empty exactly when no element passes. */
  lemma FilterEmpty<T>(s: seq<T>, p: T -> bool)
    ensures Filter(s, p) == [] <==> forall i :: 0 <= i < |s| ==> !p(s[i])
  {
    var r := Filter(s, p);
    if r != [] {
      assert r[0] in s;
    }
  }

  /**
   When `np` is the negation of `p` on `s`, the elements that pass `p` and those
   that pass `np` together account for all of `s`.
   */
  lemma {:induction false} FilterPartition<T>(s: seq<T>, p: T -> bool, np: T -> bool)
    requires forall i :: 0 <= i < |s| ==> np(s[i]) == !p(s[i])
    ensures |Filter(s, p)| + |Filter(s, np)| == |s|
  {
    if s != [] {
      FilterPartition(s[1..], p, np);
    }
  }
}
