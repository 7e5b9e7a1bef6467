/** `Array.prototype.filter`, order-preserving subsequences and counting, the
    sequence vocabulary that every list view of the tracker is written in. */
module Seqs {

  /** `s.filter(p)` */
  function Filter<T>(s: seq<T>, p: T -> bool): (r: seq<T>)
    ensures |r| <= |s|
  {
    if s == [] then [] else if p(s[0]) then [s[0]] + Filter(s[1..], p) else Filter(s[1..], p)
  }

  /** `s.map(f)` */
  function Map<T, U>(s: seq<T>, f: T -> U): (r: seq<U>)
    ensures |r| == |s|
    ensures forall i :: 0 <= i < |s| ==> r[i] == f(s[i])
  {
    if s == [] then [] else [f(s[0])] + Map(s[1..], f)
  }

  /** `s.filter(p).length` */
  function Count<T>(s: seq<T>, p: T -> bool): nat
  {
    |Filter(s, p)|
  }

  /** `a` is `b` with some elements left out and the rest in their order. */
  predicate IsSubseq<T(==)>(a: seq<T>, b: seq<T>)
    decreases |b|
  {
    a == [] || (b != [] && ((a[0] == b[0] && IsSubseq(a[1..], b[1..])) || IsSubseq(a, b[1..])))
  }

  /** The filtered list keeps exactly the elements that pass, in their order. */
  lemma {:induction false} FilterSpec<T>(s: seq<T>, p: T -> bool)
    ensures IsSubseq(Filter(s, p), s)
    ensures forall x :: x in Filter(s, p) <==> x in s && p(x)
    ensures multiset(Filter(s, p)) <= multiset(s)
  {
    if s != [] {
      FilterSpec(s[1..], p);
      assert s == [s[0]] + s[1..];
      if p(s[0]) {
        assert Filter(s, p)[1..] == Filter(s[1..], p);
      } else {
        SubseqSkip(Filter(s, p), s);
      }
    }
  }

  lemma {:induction false} SubseqSkip<T>(a: seq<T>, b: seq<T>)
    requires b != [] && IsSubseq(a, b[1..])
    ensures IsSubseq(a, b)
  {
  }

  /** A filter that passes everything returns the list unchanged. */
  lemma {:induction false} FilterAll<T>(s: seq<T>, p: T -> bool)
    requires forall i :: 0 <= i < |s| ==> p(s[i])
    ensures Filter(s, p) == s
  {
    if s != [] {
      FilterAll(s[1..], p);
      assert s == [s[0]] + s[1..];
    }
  }

  /** Filtering a list with one more element at the end. */
  lemma {:induction false} FilterSnoc<T>(s: seq<T>, x: T, p: T -> bool)
    ensures Filter(s + [x], p) == Filter(s, p) + (if p(x) then [x] else [])
  {
    if s != [] {
      assert (s + [x])[1..] == s[1..] + [x];
      FilterSnoc(s[1..], x, p);
    } else {
      assert [] + [x] == [x];
    }
  }

  /** Filtering distributes over concatenation. */
  lemma {:induction false} FilterConcat<T>(a: seq<T>, b: seq<T>, p: T -> bool)
    ensures Filter(a + b, p) == Filter(a, p) + Filter(b, p)
  {
    if a != [] {
      assert (a + b)[1..] == a[1..] + b;
      FilterConcat(a[1..], b, p);
    } else {
      assert a + b == b;
    }
  }

  /** Being a subsequence is transitive, so a chain of filters is a
      subsequence of the list it started from. */
  lemma {:induction false} SubseqTrans<T>(a: seq<T>, b: seq<T>, c: seq<T>)
    requires IsSubseq(a, b) && IsSubseq(b, c)
    ensures IsSubseq(a, c)
    decreases |c|
  {
    if a != [] {
      assert b != [] && c != [];
      if IsSubseq(b, c[1..]) {
        SubseqTrans(a, b, c[1..]);
      } else {
        assert b[0] == c[0] && IsSubseq(b[1..], c[1..]);
        if a[0] == b[0] && IsSubseq(a[1..], b[1..]) {
          SubseqTrans(a[1..], b[1..], c[1..]);
        } else {
          SubseqTrans(a, b[1..], c[1..]);
        }
      }
    }
  }

  /** Elements of a subsequence come from the list. */
  lemma {:induction false} SubseqMembers<T>(a: seq<T>, b: seq<T>, x: T)
    requires IsSubseq(a, b) && x in a
    ensures x in b
    decreases |b|
  {
    if a[0] == b[0] && IsSubseq(a[1..], b[1..]) {
      if x != a[0] {
        assert x in a[1..] by { assert a == [a[0]] + a[1..]; }
        SubseqMembers(a[1..], b[1..], x);
      }
    } else {
      SubseqMembers(a, b[1..], x);
    }
  }

  /** Counting by two disjoint, jointly exhaustive conditions splits the list. */
  lemma {:induction false} CountSplit<T>(s: seq<T>, p: T -> bool, q: T -> bool)
    requires forall i :: 0 <= i < |s| ==> (p(s[i]) <==> !q(s[i]))
    ensures Count(s, p) + Count(s, q) == |s|
  {
    if s != [] {
      CountSplit(s[1..], p, q);
    }
  }

  /** Counting by a stronger condition never exceeds counting by a weaker one. */
  lemma {:induction false} CountMono<T>(s: seq<T>, p: T -> bool, q: T -> bool)
    requires forall i :: 0 <= i < |s| ==> (p(s[i]) ==> q(s[i]))
    ensures Count(s, p) <= Count(s, q)
  {
    if s != [] {
      CountMono(s[1..], p, q);
    }
  }

  /** Counting depends only on the multiset of elements. */
  lemma {:induction false} CountPerm<T>(a: seq<T>, b: seq<T>, p: T -> bool)
    requires multiset(a) == multiset(b)
    ensures Count(a, p) == Count(b, p)
    decreases |a|
  {
    if a == [] {
      assert |b| == |multiset(b)| == 0;
    } else {
      var x := a[0];
      assert x in multiset(b);
      var k :| 0 <= k < |b| && b[k] == x;
      var b' := b[..k] + b[k + 1..];
      assert b == b[..k] + ([x] + b[k + 1..]);
      assert multiset(b) == multiset(b[..k]) + multiset{x} + multiset(b[k + 1..]);
      assert multiset(b') == multiset(b[..k]) + multiset(b[k + 1..]);
      assert a == [x] + a[1..];
      assert multiset(a) == multiset{x} + multiset(a[1..]);
      assert multiset(a[1..]) == multiset(a) - multiset{x};
      assert multiset(b') == multiset(b) - multiset{x};
      CountPerm(a[1..], b', p);
      FilterConcat(b[..k], [x] + b[k + 1..], p);
      FilterConcat([x], b[k + 1..], p);
      FilterConcat(b[..k], b[k + 1..], p);
      assert Filter([x], p) == if p(x) then [x] else [];
    }
  }

  function NotEqual<T(==)>(x: T): T -> bool
  {
    (y: T) => y != x
  }

  /** `s.includes(x) ? s.filter(y => y !== x) : [...s, x]`, the selection and
      favourite toggles. */
  function Toggle<T(==)>(s: seq<T>, x: T): seq<T>
  {
    if x in s then Filter(s, NotEqual(x)) else s + [x]
  }

  /** A toggle flips the membership of one element; toggling an absent element
      twice restores the list exactly, and toggling a present one twice keeps
      the same members (now with that element last). */
  lemma ToggleSpec<T>(s: seq<T>, x: T)
    ensures forall y :: y in Toggle(s, x) <==> (if y == x then x !in s else y in s)
    ensures x !in s ==> Toggle(Toggle(s, x), x) == s
    ensures forall y :: y in Toggle(Toggle(s, x), x) <==> y in s
  {
    FilterSpec(s, NotEqual(x));
    if x !in s {
      FilterSnoc(s, x, NotEqual(x));
      FilterAll(s, NotEqual(x));
    }
  }
}
