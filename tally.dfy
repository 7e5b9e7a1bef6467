/** Count dictionaries built with `acc[k] = (acc[k] || 0) + 1`, as the
    analytics of the bug and project pages fill them. A JavaScript object keeps
    its (non-numeric) keys in insertion order, so the dictionary is an
    association list: the first occurrence of a key appends its entry, later
    occurrences bump the count in place. */
module Tally {

  datatype Entry<K> = Entry(key: K, count: nat)

  /** `acc[k] || 0` */
  function Get<K(==)>(t: seq<Entry<K>>, k: K): nat
  {
    if t == [] then 0 else if t[0].key == k then t[0].count else Get(t[1..], k)
  }

  /** `acc[k] = (acc[k] || 0) + 1` */
  function Bump<K(==)>(t: seq<Entry<K>>, k: K): seq<Entry<K>>
  {
    if t == [] then [Entry(k, 1)]
    else if t[0].key == k then [Entry(k, t[0].count + 1)] + t[1..]
    else [t[0]] + Bump(t[1..], k)
  }

  /** The dictionary after one bump per key, in order. */
  function Tally<K(==)>(keys: seq<K>): seq<Entry<K>>
  {
    if keys == [] then [] else Bump(Tally(keys[..|keys| - 1]), keys[|keys| - 1])
  }

  /** `Object.values(acc).reduce((a, b) => a + b, 0)` */
  function Total<K>(t: seq<Entry<K>>): nat
  {
    if t == [] then 0 else t[0].count + Total(t[1..])
  }

  /** The keys of the dictionary, as a set. */
  ghost function KeySet<K>(t: seq<Entry<K>>): set<K>
  {
    set i | 0 <= i < |t| :: t[i].key
  }

  ghost predicate DistinctKeys<K>(t: seq<Entry<K>>)
  {
    forall i, j :: 0 <= i < j < |t| ==> t[i].key != t[j].key
  }

  lemma {:induction false} BumpGet<K>(t: seq<Entry<K>>, k: K, k': K)
    ensures Get(Bump(t, k), k') == Get(t, k') + (if k' == k then 1 else 0)
  {
    if t != [] && t[0].key != k {
      BumpGet(t[1..], k, k');
    }
  }

  lemma {:induction false} BumpTotal<K>(t: seq<Entry<K>>, k: K)
    ensures Total(Bump(t, k)) == Total(t) + 1
  {
    if t != [] && t[0].key != k {
      BumpTotal(t[1..], k);
      assert ([t[0]] + Bump(t[1..], k))[1..] == Bump(t[1..], k);
    } else if t != [] {
      assert ([Entry(k, t[0].count + 1)] + t[1..])[1..] == t[1..];
    }
  }

  lemma KeySetCons<K>(t: seq<Entry<K>>)
    requires t != []
    ensures KeySet(t) == {t[0].key} + KeySet(t[1..])
  {
    forall x | x in KeySet(t) ensures x in {t[0].key} + KeySet(t[1..]) {
      var i :| 0 <= i < |t| && t[i].key == x;
      if i > 0 { assert t[1..][i - 1] == t[i]; }
    }
    forall x | x in KeySet(t[1..]) ensures x in KeySet(t) {
      var i :| 0 <= i < |t[1..]| && t[1..][i].key == x;
      assert t[i + 1] == t[1..][i];
    }
  }

  lemma {:induction false} BumpKeys<K>(t: seq<Entry<K>>, k: K)
    requires DistinctKeys(t)
    ensures DistinctKeys(Bump(t, k))
    ensures KeySet(Bump(t, k)) == KeySet(t) + {k}
  {
    var b := Bump(t, k);
    if t == [] {
      assert b[0].key == k;
    } else if t[0].key == k {
      assert forall i :: 0 <= i < |t| ==> b[i].key == t[i].key;
      KeySetCons(t);
      KeySetCons(b);
      assert b[1..] == t[1..];
    } else {
      var rest := Bump(t[1..], k);
      assert DistinctKeys(t[1..]);
      BumpKeys(t[1..], k);
      assert b[1..] == rest;
      KeySetCons(t);
      KeySetCons(b);
      assert t[0].key !in KeySet(t[1..]);
      forall i, j | 0 <= i < j < |b| ensures b[i].key != b[j].key {
        if i == 0 {
          assert b[j] == rest[j - 1];
          assert rest[j - 1].key in KeySet(rest);
        } else {
          assert b[i] == rest[i - 1] && b[j] == rest[j - 1];
        }
      }
    }
  }

  /** The tally maps every key to the number of times it occurs, has one entry
      per distinct key and no other, and its counts add up to the number of
      keys. */
  lemma {:induction false} TallySpec<K>(keys: seq<K>)
    ensures DistinctKeys(Tally(keys))
    ensures KeySet(Tally(keys)) == set k | k in keys
    ensures Total(Tally(keys)) == |keys|
    ensures forall k :: Get(Tally(keys), k) == multiset(keys)[k]
  {
    if keys != [] {
      var init, last := keys[..|keys| - 1], keys[|keys| - 1];
      TallySpec(init);
      BumpKeys(Tally(init), last);
      BumpTotal(Tally(init), last);
      assert keys == init + [last];
      assert Tally(keys) == Bump(Tally(init), last);
      assert multiset(keys) == multiset(init) + multiset{last};
      forall k ensures Get(Tally(keys), k) == multiset(keys)[k] {
        BumpGet(Tally(init), last, k);
      }
      assert (set k | k in keys) == (set k | k in init) + {last};
    }
  }

  /** Every entry's count is the number of occurrences of its key. */
  lemma EntryCounts<K>(keys: seq<K>, i: int)
    requires 0 <= i < |Tally(keys)|
    ensures Tally(keys)[i].count == multiset(keys)[Tally(keys)[i].key]
  {
    var t := Tally(keys);
    TallySpec(keys);
    GetDistinct(t, i);
    assert Get(t, t[i].key) == multiset(keys)[t[i].key];
  }

  lemma {:induction false} GetDistinct<K>(t: seq<Entry<K>>, i: int)
    requires DistinctKeys(t) && 0 <= i < |t|
    ensures Get(t, t[i].key) == t[i].count
  {
    if i > 0 {
      assert t[0].key != t[i].key;
      GetDistinct(t[1..], i - 1);
    }
  }

  /** The loop that fills a count dictionary one key at a time. */
  method CountKeys<K(==)>(keys: seq<K>) returns (counts: seq<Entry<K>>)
    ensures counts == Tally(keys)
    ensures Total(counts) == |keys|
    ensures forall k :: Get(counts, k) == multiset(keys)[k]
  {
    counts := [];
    var i := 0;
    while i < |keys|
      invariant 0 <= i <= |keys|
      invariant counts == Tally(keys[..i])
    {
      assert keys[..i + 1][..i] == keys[..i];
      counts := Bump(counts, keys[i]);
      i := i + 1;
    }
    assert keys[..i] == keys;
    TallySpec(keys);
  }
}
