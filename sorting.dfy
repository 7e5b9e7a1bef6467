/** `[...list].sort(compare)`. ECMAScript requires `Array.prototype.sort` to be
    stable, so it is modelled as a stable insertion sort driven by the view's
    own comparator. With a comparator that is not a consistent ordering (one
    that returns NaN, say) the specification leaves the order to the engine, and
    any permutation is an admissible result; the model returns one of them. */
module Sorting {
  import opened Seqs

  /** The comparator behaves as a total preorder on the values in `d`: its sign
      flips when the arguments are swapped, and "not after" is transitive. */
  ghost predicate OrderingOn<T>(cmp: (T, T) -> int, d: set<T>)
  {
    && (forall a, b :: a in d && b in d ==> (cmp(a, b) < 0 <==> cmp(b, a) > 0))
    && (forall a, b, c :: a in d && b in d && c in d && cmp(a, b) <= 0 && cmp(b, c) <= 0 ==> cmp(a, c) <= 0)
  }

  /** Every element of `s` is in `d`. */
  ghost predicate Within<T>(s: seq<T>, d: set<T>)
  {
    forall i :: 0 <= i < |s| ==> s[i] in d
  }

  /** No element is placed after one that the comparator puts behind it. */
  ghost predicate SortedBy<T>(s: seq<T>, cmp: (T, T) -> int)
  {
    forall i, j :: 0 <= i < j < |s| ==> cmp(s[i], s[j]) <= 0
  }

  /** The elements the comparator cannot tell apart from `x`, in their order. */
  function Tied<T>(s: seq<T>, cmp: (T, T) -> int, x: T): seq<T>
  {
    Filter(s, y => cmp(x, y) == 0)
  }

  /** Places `x`, which came before every element of `r` in the input, in front
      of the first element that is not strictly before it. */
  function InsertFirst<T>(x: T, r: seq<T>, cmp: (T, T) -> int): seq<T>
  {
    if r == [] then [x]
    else if cmp(r[0], x) < 0 then [r[0]] + InsertFirst(x, r[1..], cmp)
    else [x] + r
  }

  function SortBy<T>(s: seq<T>, cmp: (T, T) -> int): seq<T>
  {
    if s == [] then [] else InsertFirst(s[0], SortBy(s[1..], cmp), cmp)
  }

  lemma {:induction false} InsertPerm<T>(x: T, r: seq<T>, cmp: (T, T) -> int)
    ensures multiset(InsertFirst(x, r, cmp)) == multiset(r) + multiset{x}
  {
    if r != [] && cmp(r[0], x) < 0 {
      InsertPerm(x, r[1..], cmp);
      assert r == [r[0]] + r[1..];
    }
  }

  /** The sorted list is a permutation of its input. */
  lemma {:induction false} SortPerm<T>(s: seq<T>, cmp: (T, T) -> int)
    ensures multiset(SortBy(s, cmp)) == multiset(s)
    ensures |SortBy(s, cmp)| == |s|
  {
    if s != [] {
      SortPerm(s[1..], cmp);
      InsertPerm(s[0], SortBy(s[1..], cmp), cmp);
      assert s == [s[0]] + s[1..];
    }
    assert |multiset(SortBy(s, cmp))| == |SortBy(s, cmp)|;
  }

  lemma WithinPerm<T>(a: seq<T>, b: seq<T>, d: set<T>)
    requires Within(b, d) && multiset(a) <= multiset(b)
    ensures Within(a, d)
  {
    forall i | 0 <= i < |a| ensures a[i] in d {
      assert a[i] in multiset(b);
    }
  }

  lemma ConsSorted<T>(a: T, t: seq<T>, cmp: (T, T) -> int)
    requires SortedBy(t, cmp)
    requires forall j :: 0 <= j < |t| ==> cmp(a, t[j]) <= 0
    ensures SortedBy([a] + t, cmp)
  {
    var u := [a] + t;
    forall i, j | 0 <= i < j < |u| ensures cmp(u[i], u[j]) <= 0 {
      if i > 0 {
        assert u[i] == t[i - 1] && u[j] == t[j - 1];
      } else {
        assert u[j] == t[j - 1];
      }
    }
  }

  lemma {:induction false} InsertSorted<T>(x: T, r: seq<T>, cmp: (T, T) -> int, d: set<T>)
    requires OrderingOn(cmp, d) && x in d && Within(r, d) && SortedBy(r, cmp)
    ensures SortedBy(InsertFirst(x, r, cmp), cmp)
  {
    if r == [] {
    } else if cmp(r[0], x) < 0 {
      var t := InsertFirst(x, r[1..], cmp);
      assert SortedBy(r[1..], cmp);
      InsertSorted(x, r[1..], cmp, d);
      InsertPerm(x, r[1..], cmp);
      forall j | 0 <= j < |t| ensures cmp(r[0], t[j]) <= 0 {
        assert t[j] in multiset(r[1..]) + multiset{x};
        if t[j] != x {
          assert t[j] in r[1..];
          var k :| 0 <= k < |r[1..]| && r[1..][k] == t[j];
          assert r[k + 1] == t[j];
        }
      }
      ConsSorted(r[0], t, cmp);
    } else {
      forall j | 0 <= j < |r| ensures cmp(x, r[j]) <= 0 {
        assert r[0] in d && r[j] in d;
        assert cmp(x, r[0]) <= 0;
        assert cmp(r[0], r[j]) <= 0 || j == 0;
      }
      ConsSorted(x, r, cmp);
    }
  }

  /** Sorting by a consistent comparator puts the list in order. */
  lemma {:induction false} SortSorted<T>(s: seq<T>, cmp: (T, T) -> int, d: set<T>)
    requires OrderingOn(cmp, d) && Within(s, d)
    ensures SortedBy(SortBy(s, cmp), cmp)
  {
    if s != [] {
      SortSorted(s[1..], cmp, d);
      SortPerm(s[1..], cmp);
      WithinPerm(SortBy(s[1..], cmp), s[1..], d);
      InsertSorted(s[0], SortBy(s[1..], cmp), cmp, d);
    }
  }

  lemma {:induction false} InsertTied<T>(z: T, r: seq<T>, cmp: (T, T) -> int, x: T, d: set<T>)
    requires OrderingOn(cmp, d) && x in d && z in d && Within(r, d)
    ensures Tied(InsertFirst(z, r, cmp), cmp, x) == (if cmp(x, z) == 0 then [z] else []) + Tied(r, cmp, x)
  {
    if r == [] {
    } else if cmp(r[0], z) < 0 {
      InsertTied(z, r[1..], cmp, x, d);
      assert r == [r[0]] + r[1..];
      if cmp(x, z) == 0 {
        assert cmp(x, r[0]) != 0;
      }
    } else {
      assert [z] + r == [z] + r;
    }
  }

  /** The sort is stable: elements that compare equal keep their input order. */
  lemma {:induction false} SortStable<T>(s: seq<T>, cmp: (T, T) -> int, x: T, d: set<T>)
    requires OrderingOn(cmp, d) && x in d && Within(s, d)
    ensures Tied(SortBy(s, cmp), cmp, x) == Tied(s, cmp, x)
  {
    if s != [] {
      SortStable(s[1..], cmp, x, d);
      SortPerm(s[1..], cmp);
      WithinPerm(SortBy(s[1..], cmp), s[1..], d);
      InsertTied(s[0], SortBy(s[1..], cmp), cmp, x, d);
    }
  }

  /** A comparator that ties every pair (a `return 0` branch) leaves the list
      as it was. */
  lemma {:induction false} SortAllTied<T>(s: seq<T>, cmp: (T, T) -> int)
    requires forall i, j :: 0 <= i < |s| && 0 <= j < |s| ==> cmp(s[i], s[j]) == 0
    ensures SortBy(s, cmp) == s
  {
    if s != [] {
      SortAllTied(s[1..], cmp);
      if |s| > 1 {
        assert cmp(s[1], s[0]) == 0;
      }
      assert s == [s[0]] + s[1..];
    }
  }
}
