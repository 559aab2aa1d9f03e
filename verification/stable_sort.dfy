// `Array.prototype.sort` with a comparator on a numeric score, which
// ECMAScript requires to be stable: entries with equal scores keep their
// original relative order.
module StableSort {

  /** A keyed score, as produced by `Object.entries`. */
  type Entry<K> = (K, int)

  predicate SortedDesc<K>(s: seq<Entry<K>>)
  {
    forall i, j :: 0 <= i < j < |s| ==> s[i].1 >= s[j].1
  }

  /** Insert `x` before the first entry with a score not above its own, so
    * that `x`, which came first, stays ahead of entries it ties with. */
  function Insert<K>(x: Entry<K>, t: seq<Entry<K>>): (r: seq<Entry<K>>)
    ensures |r| == |t| + 1
  {
    if t == [] || x.1 >= t[0].1 then [x] + t
    else [t[0]] + Insert(x, t[1..])
  }

  /** A stable sort by descending score (an insertion sort). */
  function SortDesc<K>(s: seq<Entry<K>>): (r: seq<Entry<K>>)
    ensures |r| == |s|
  {
    if s == [] then []
    else Insert(s[0], SortDesc(s[1..]))
  }

  /** Inserting adds exactly the one entry. */
  lemma {:induction false} InsertPermutes<K>(x: Entry<K>, t: seq<Entry<K>>)
    ensures multiset(Insert(x, t)) == multiset(t) + multiset{x}
  {
    if t != [] && x.1 < t[0].1 {
      InsertPermutes(x, t[1..]);
      assert t == [t[0]] + t[1..];
    }
  }

  /** Inserting an entry under a bound into entries under that bound stays
    * under it. */
  lemma {:induction false} InsertBounded<K>(x: Entry<K>, t: seq<Entry<K>>, b: int)
    requires x.1 <= b
    requires forall i :: 0 <= i < |t| ==> t[i].1 <= b
    ensures forall i :: 0 <= i < |t| + 1 ==> Insert(x, t)[i].1 <= b
  {
    if t != [] && x.1 < t[0].1 {
      InsertBounded(x, t[1..], b);
    }
  }

  /** Inserting into a sorted list keeps it sorted. */
  lemma {:induction false} InsertSorted<K>(x: Entry<K>, t: seq<Entry<K>>)
    requires SortedDesc(t)
    ensures SortedDesc(Insert(x, t))
  {
    if t == [] || x.1 >= t[0].1 {
      var r := [x] + t;
      forall i, j | 0 <= i < j < |r| ensures r[i].1 >= r[j].1 {
        if i == 0 {
          assert r[j] == t[j - 1] && t[0].1 >= t[j - 1].1;
        } else {
          assert r[i] == t[i - 1] && r[j] == t[j - 1];
        }
      }
    } else {
      InsertSorted(x, t[1..]);
      InsertBounded(x, t[1..], t[0].1);
      var rest := Insert(x, t[1..]);
      var r := [t[0]] + rest;
      forall i, j | 0 <= i < j < |r| ensures r[i].1 >= r[j].1 {
        if i == 0 {
          assert r[j] == rest[j - 1];
        } else {
          assert r[i] == rest[i - 1] && r[j] == rest[j - 1];
        }
      }
    }
  }

  /** The entries with score `v`, in their order. */
  function WithScore<K>(s: seq<Entry<K>>, v: int): (r: seq<Entry<K>>)
    ensures |r| <= |s|
    ensures forall i :: 0 <= i < |r| ==> r[i].1 == v
  {
    if s == [] then []
    else if s[0].1 == v then [s[0]] + WithScore(s[1..], v)
    else WithScore(s[1..], v)
  }

  /** Inserting `x` puts it ahead of every entry it ties with. */
  lemma {:induction false} InsertStable<K>(x: Entry<K>, t: seq<Entry<K>>, v: int)
    ensures WithScore(Insert(x, t), v) == (if x.1 == v then [x] else []) + WithScore(t, v)
  {
    if t == [] || x.1 >= t[0].1 {
      assert ([x] + t)[1..] == t;
    } else {
      var r := [t[0]] + Insert(x, t[1..]);
      assert r[1..] == Insert(x, t[1..]);
      InsertStable(x, t[1..], v);
    }
  }

  /** Stability: the entries with any one score keep their original order. */
  lemma {:induction false} SortDescStable<K>(s: seq<Entry<K>>, v: int)
    ensures WithScore(SortDesc(s), v) == WithScore(s, v)
  {
    if s != [] {
      SortDescStable(s[1..], v);
      InsertStable(s[0], SortDesc(s[1..]), v);
    }
  }

  /** The sort yields a descending permutation of its input. */
  lemma {:induction false} SortDescSorted<K>(s: seq<Entry<K>>)
    ensures multiset(SortDesc(s)) == multiset(s)
    ensures SortedDesc(SortDesc(s))
  {
    if s != [] {
      SortDescSorted(s[1..]);
      InsertSorted(s[0], SortDesc(s[1..]));
      InsertPermutes(s[0], SortDesc(s[1..]));
      assert s == [s[0]] + s[1..];
    }
  }

  /** The first index holding a maximal score: every entry is at most its
    * score and every earlier entry is strictly below it. */
  function FirstMaxIndex<K>(s: seq<Entry<K>>): (k: nat)
    requires |s| > 0
    ensures k < |s|
    ensures forall i :: 0 <= i < |s| ==> s[i].1 <= s[k].1
    ensures forall i :: 0 <= i < k ==> s[i].1 < s[k].1
  {
    if |s| == 1 then 0
    else
      var k' := FirstMaxIndex(s[1..]);
      assert forall i :: 1 <= i < |s| ==> s[i] == s[1..][i - 1];
      if s[0].1 >= s[1..][k'].1 then 0 else k' + 1
  }

  function RemoveAt<T>(s: seq<T>, k: nat): seq<T>
    requires k < |s|
  {
    s[..k] + s[k + 1..]
  }

  /** The stable sort puts the first maximal entry first and then sorts the
    * remaining entries, which is what makes ties keep their key order. */
  lemma {:induction false} SortDescHead<K>(s: seq<Entry<K>>)
    requires |s| > 0
    ensures SortDesc(s) == [s[FirstMaxIndex(s)]] + SortDesc(RemoveAt(s, FirstMaxIndex(s)))
  {
    var x, t := s[0], s[1..];
    if t == [] {
      assert RemoveAt(s, 0) == [];
    } else {
      var k' := FirstMaxIndex(t);
      SortDescHead(t);
      var rest := SortDesc(RemoveAt(t, k'));
      assert SortDesc(t) == [t[k']] + rest;
      assert SortDesc(s) == Insert(x, [t[k']] + rest);
      if x.1 >= t[k'].1 {
        assert FirstMaxIndex(s) == 0;
        assert RemoveAt(s, 0) == t;
      } else {
        assert FirstMaxIndex(s) == k' + 1;
        assert ([t[k']] + rest)[1..] == rest;
        assert Insert(x, [t[k']] + rest) == [t[k']] + Insert(x, rest);
        var u := RemoveAt(t, k');
        assert RemoveAt(s, k' + 1) == [x] + u;
        assert ([x] + u)[1..] == u;
        assert SortDesc([x] + u) == Insert(x, rest);
      }
    }
  }


  /** The entries left after removing index `k`, by their old index. */
  lemma RemoveAtIndex<T>(s: seq<T>, k: nat, i: nat)
    requires k < |s| && i < |s| - 1
    ensures |RemoveAt(s, k)| == |s| - 1
    ensures RemoveAt(s, k)[i] == s[if i < k then i else i + 1]
  {
  }

  /** The second entry after sorting is the first maximal entry once the
    * first maximal entry is removed. */
  lemma SortDescSecond<K>(s: seq<Entry<K>>)
    requires |s| >= 2
    ensures SortDesc(s)[1] == RemoveAt(s, FirstMaxIndex(s))[FirstMaxIndex(RemoveAt(s, FirstMaxIndex(s)))]
  {
    var rest := RemoveAt(s, FirstMaxIndex(s));
    SortDescHead(s);
    SortDescHead(rest);
    assert SortDesc(s)[1] == SortDesc(rest)[0];
  }
}
