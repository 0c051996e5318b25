/**
 * The three JavaScript array methods the dashboard's state updates are built
 * from: `Array.prototype.map`, `Array.prototype.filter` and
 * `Array.prototype.indexOf`, each as a function on sequences, together with
 * the facts about them that the list updates rely on.
 */
module ArrayOps {

  /** `s.map(f)`: same length, element `i` is `f(s[i])`. */
  function Map<A, B>(f: A -> B, s: seq<A>): (r: seq<B>)
    ensures |r| == |s|
    ensures forall i :: 0 <= i < |s| ==> r[i] == f(s[i])
  {
    if s == [] then [] else [f(s[0])] + Map(f, s[1..])
  }

  /** `s.filter(p)`: the elements of `s` that satisfy `p` (see FilterMembership). */
  function Filter<A>(p: A -> bool, s: seq<A>): (r: seq<A>)
    ensures |r| <= |s|
  {
    if s == [] then []
    else if p(s[0]) then [s[0]] + Filter(p, s[1..])
    else Filter(p, s[1..])
  }

  /** `s.indexOf(x)`: the first position of `x` in `s`, or -1 when `x` does not occur. */
  function IndexOf<A(==)>(s: seq<A>, x: A): (r: int)
    ensures -1 <= r < |s|
    ensures r == -1 <==> x !in s
    ensures 0 <= r ==> s[r] == x && x !in s[..r]
  {
    if s == [] then -1
    else if s[0] == x then 0
    else
      var k := IndexOf(s[1..], x);
      if k == -1 then -1 else k + 1
  }

  /** `a` is `b` with some elements taken out and the rest kept in their order. */
  ghost predicate IsSubsequence<A>(a: seq<A>, b: seq<A>)
    decreases |b|
  {
    a == [] ||
    (b != [] &&
     ((a[0] == b[0] && IsSubsequence(a[1..], b[1..])) || IsSubsequence(a, b[1..])))
  }

  /** No two elements of `s` have the same key. */
  ghost predicate DistinctBy<A, K>(key: A -> K, s: seq<A>)
  {
    forall i, j :: 0 <= i < j < |s| ==> key(s[i]) != key(s[j])
  }

  /** A subsequence is never longer than the sequence it is taken from. */
  lemma {:induction false} SubsequenceLength<A>(a: seq<A>, b: seq<A>)
    requires IsSubsequence(a, b)
    ensures |a| <= |b|
    decreases |b|
  {
    if a != [] {
      if a[0] == b[0] && IsSubsequence(a[1..], b[1..]) {
        SubsequenceLength(a[1..], b[1..]);
      } else {
        SubsequenceLength(a, b[1..]);
      }
    }
  }

  /** Filtering keeps exactly the elements that satisfy the predicate. */
  lemma {:induction false} FilterMembership<A>(p: A -> bool, s: seq<A>)
    ensures forall i :: 0 <= i < |Filter(p, s)| ==> Filter(p, s)[i] in s && p(Filter(p, s)[i])
    ensures forall i :: 0 <= i < |s| && p(s[i]) ==> s[i] in Filter(p, s)
  {
    if s != [] {
      FilterMembership(p, s[1..]);
      var r, rt := Filter(p, s), Filter(p, s[1..]);
      forall i | 0 <= i < |s| && p(s[i]) ensures s[i] in r {
        if i > 0 {
          assert s[1..][i - 1] == s[i];
        }
      }
      forall i | 0 <= i < |r| ensures r[i] in s && p(r[i]) {
        if p(s[0]) && i > 0 {
          assert r[i] == rt[i - 1];
        }
      }
    }
  }

  /** Filtering keeps every copy of an element that passes and no copy of one that fails. */
  lemma {:induction false} FilterCount<A>(p: A -> bool, s: seq<A>, x: A)
    ensures multiset(Filter(p, s))[x] == if p(x) then multiset(s)[x] else 0
  {
    if s != [] {
      FilterCount(p, s[1..], x);
      assert s == [s[0]] + s[1..];
    }
  }

  /** FilterCount for every element at once. */
  lemma FilterCounts<A>(p: A -> bool, s: seq<A>)
    ensures forall x :: multiset(Filter(p, s))[x] == if p(x) then multiset(s)[x] else 0
  {
    forall x ensures multiset(Filter(p, s))[x] == if p(x) then multiset(s)[x] else 0 {
      FilterCount(p, s, x);
    }
  }

  /** Filtering keeps the surviving elements in their original order. */
  lemma {:induction false} FilterIsSubsequence<A>(p: A -> bool, s: seq<A>)
    ensures IsSubsequence(Filter(p, s), s)
  {
    if s != [] {
      FilterIsSubsequence(p, s[1..]);
      if !p(s[0]) {
        assert Filter(p, s) == Filter(p, s[1..]);
      } else {
        var r := Filter(p, s);
        assert r[0] == s[0] && r[1..] == Filter(p, s[1..]);
      }
    }
  }

  /** Filtering by a weaker predicate keeps everything a stronger one keeps, in order. */
  lemma {:induction false} FilterMonotone<A>(p: A -> bool, q: A -> bool, s: seq<A>)
    requires forall x :: p(x) ==> q(x)
    ensures IsSubsequence(Filter(p, s), Filter(q, s))
  {
    if s != [] {
      FilterMonotone(p, q, s[1..]);
      var rp, rq := Filter(p, s), Filter(q, s);
      if p(s[0]) {
        assert rp[0] == s[0] && rp[1..] == Filter(p, s[1..]);
        assert rq[0] == s[0] && rq[1..] == Filter(q, s[1..]);
      } else if q(s[0]) {
        assert rp == Filter(p, s[1..]);
        assert rq != [] && rq[1..] == Filter(q, s[1..]);
      }
    }
  }

  /** Filtering a suffix decides its first element and filters the rest. */
  lemma FilterStep<A>(p: A -> bool, s: seq<A>, k: nat)
    requires k < |s|
    ensures Filter(p, s[k..]) == (if p(s[k]) then [s[k]] else []) + Filter(p, s[k + 1..])
  {
    assert s[k..][0] == s[k] && s[k..][1..] == s[k + 1..];
  }

  /** A filter that every element passes returns the sequence unchanged. */
  lemma {:induction false} FilterKeepsAll<A>(p: A -> bool, s: seq<A>)
    requires forall i :: 0 <= i < |s| ==> p(s[i])
    ensures Filter(p, s) == s
  {
    if s != [] {
      FilterKeepsAll(p, s[1..]);
    }
  }

  /** A filter drops no two elements with the same key into its result. */
  lemma {:induction false} FilterPreservesDistinct<A, K>(key: A -> K, p: A -> bool, s: seq<A>)
    requires DistinctBy(key, s)
    ensures DistinctBy(key, Filter(p, s))
  {
    if s != [] {
      var tail := s[1..];
      assert DistinctBy(key, tail) by {
        forall i, j | 0 <= i < j < |tail| ensures key(tail[i]) != key(tail[j]) {
          assert tail[i] == s[i + 1] && tail[j] == s[j + 1];
        }
      }
      FilterPreservesDistinct(key, p, tail);
      FilterMembership(p, tail);
      if p(s[0]) {
        var rt := Filter(p, tail);
        var r := [s[0]] + rt;
        forall i, j | 0 <= i < j < |r| ensures key(r[i]) != key(r[j]) {
          if i == 0 {
            assert r[j] == rt[j - 1] && rt[j - 1] in tail;
            var k :| 0 <= k < |tail| && tail[k] == rt[j - 1];
            assert s[k + 1] == tail[k];
          } else {
            assert r[i] == rt[i - 1] && r[j] == rt[j - 1];
          }
        }
      }
    }
  }
}
