// `Array.prototype.filter`, `find`, `findIndex` and `some` with a
// side-effect-free predicate, and the facts the screens rely on: the result
// of a filter is the order-preserving subsequence of exactly the elements
// that pass.
module SeqFilter {

  function Filter<T>(p: T -> bool, s: seq<T>): (r: seq<T>)
    ensures |r| <= |s|
    ensures forall i :: 0 <= i < |r| ==> p(r[i])
  {
    if s == [] then []
    else if p(s[0]) then [s[0]] + Filter(p, s[1..])
    else Filter(p, s[1..])
  }

  /** `r` is `s` with some elements left out and the rest kept in order. */
  predicate IsSubsequence<T(==)>(r: seq<T>, s: seq<T>)
    decreases |s|
  {
    r == [] || (s != [] && ((r[0] == s[0] && IsSubsequence(r[1..], s[1..])) || IsSubsequence(r, s[1..])))
  }

  /** Filtering distributes over concatenation. */
  lemma {:induction false} FilterConcat<T>(p: T -> bool, a: seq<T>, b: seq<T>)
    ensures Filter(p, a + b) == Filter(p, a) + Filter(p, b)
  {
    if a == [] {
      assert a + b == b;
    } else {
      assert (a + b)[1..] == a[1..] + b;
      FilterConcat(p, a[1..], b);
    }
  }

  /** An element is in the result exactly when it is in the input and passes. */
  lemma {:induction false} FilterMembership<T>(p: T -> bool, s: seq<T>, x: T)
    ensures x in Filter(p, s) <==> x in s && p(x)
  {
    if s != [] {
      FilterMembership(p, s[1..], x);
      assert s == [s[0]] + s[1..];
    }
  }

  /** Each element keeps its multiplicity when it passes and vanishes when
    * it does not. */
  lemma {:induction false} FilterCount<T>(p: T -> bool, s: seq<T>, x: T)
    ensures multiset(Filter(p, s))[x] == if p(x) then multiset(s)[x] else 0
  {
    if s != [] {
      FilterCount(p, s[1..], x);
      assert s == [s[0]] + s[1..];
    }
  }

  /** The result keeps the input order. */
  lemma {:induction false} FilterIsSubsequence<T>(p: T -> bool, s: seq<T>)
    ensures IsSubsequence(Filter(p, s), s)
  {
    if s != [] {
      FilterIsSubsequence(p, s[1..]);
      var r := Filter(p, s);
      if p(s[0]) {
        assert r[1..] == Filter(p, s[1..]);
      }
    }
  }

  /** When everything passes nothing is dropped. */
  lemma {:induction false} FilterAllPass<T>(p: T -> bool, s: seq<T>)
    requires forall i :: 0 <= i < |s| ==> p(s[i])
    ensures Filter(p, s) == s
  {
    if s != [] {
      FilterAllPass(p, s[1..]);
    }
  }

  /** The length drops exactly when some element fails. */
  lemma {:induction false} FilterShrinksIff<T>(p: T -> bool, s: seq<T>)
    ensures |Filter(p, s)| < |s| <==> exists i :: 0 <= i < |s| && !p(s[i])
  {
    if s != [] {
      FilterShrinksIff(p, s[1..]);
      if !p(s[0]) {
        assert !p(s[0 + 0]);
      } else if exists i :: 0 <= i < |s[1..]| && !p(s[1..][i]) {
        var i :| 0 <= i < |s[1..]| && !p(s[1..][i]);
        assert !p(s[i + 1]);
      } else {
        forall i | 0 <= i < |s| ensures p(s[i]) {
          if i > 0 {
            assert s[i] == s[1..][i - 1];
          }
        }
      }
    }
  }

  /** `s.findIndex(p)`: the first index whose element passes, or -1. */
  function FindIndex<T>(p: T -> bool, s: seq<T>): (k: int)
    ensures -1 <= k < |s|
    ensures k >= 0 ==> p(s[k])
    ensures k >= 0 ==> forall i :: 0 <= i < k ==> !p(s[i])
  {
    if s == [] then -1
    else if p(s[0]) then 0
    else
      var k := FindIndex(p, s[1..]);
      if k == -1 then -1 else k + 1
  }

  /** -1 means no element passes. */
  lemma {:induction false} FindIndexMissing<T>(p: T -> bool, s: seq<T>)
    ensures FindIndex(p, s) == -1 <==> forall i :: 0 <= i < |s| ==> !p(s[i])
  {
    if s != [] && !p(s[0]) {
      FindIndexMissing(p, s[1..]);
      assert forall i :: 1 <= i < |s| ==> s[i] == s[1..][i - 1];
    }
  }

  /** The first passing index is the one `findIndex` returns. */
  lemma FindIndexIs<T>(p: T -> bool, s: seq<T>, k: nat)
    requires k < |s| && p(s[k])
    requires forall i :: 0 <= i < k ==> !p(s[i])
    ensures FindIndex(p, s) == k
  {
    FindIndexMissing(p, s);
  }

  /** `s.some(p)` / `s.find(p) !== undefined`. */
  predicate Any<T>(p: T -> bool, s: seq<T>)
  {
    exists i :: 0 <= i < |s| && p(s[i])
  }
}
