/** Plain JavaScript objects with string keys: their own properties in
    insertion order, property reads and writes, and `{ ...a, ...b }`. */
module Objects {
  import opened Js

  type Obj = seq<(string, Value)>

  /** `Object.keys(o)` */
  function Keys(o: Obj): (r: seq<string>)
    ensures |r| == |o|
    ensures forall i :: 0 <= i < |o| ==> r[i] == o[i].0
  {
    if o == [] then [] else [o[0].0] + Keys(o[1..])
  }

  /** `Object.values(o)` */
  function Values(o: Obj): (r: seq<Value>)
    ensures |r| == |o|
    ensures forall i :: 0 <= i < |o| ==> r[i] == o[i].1
  {
    if o == [] then [] else [o[0].1] + Values(o[1..])
  }

  /** An object never has the same key twice. */
  ghost predicate WellFormed(o: Obj)
  {
    forall i, j :: 0 <= i < j < |o| ==> o[i].0 != o[j].0
  }

  /** `o[k]`: `undefined` for a key the object does not have. */
  function Get(o: Obj, k: string): Value
  {
    if o == [] then Undefined else if o[0].0 == k then o[0].1 else Get(o[1..], k)
  }

  /** `o[k] = v`: an existing key keeps its place, a new one goes last. */
  function Set(o: Obj, k: string, v: Value): Obj
  {
    if o == [] then [(k, v)]
    else if o[0].0 == k then [(k, v)] + o[1..]
    else [o[0]] + Set(o[1..], k, v)
  }

  /** `{ ...o, ...p }`: the properties of `p` assigned in order onto a copy of `o`. */
  function Spread(o: Obj, p: Obj): Obj
  {
    if p == [] then o else Set(Spread(o, p[..|p| - 1]), p[|p| - 1].0, p[|p| - 1].1)
  }

  /** Reading a key gives the value of its first occurrence. */
  lemma {:induction false} GetFirst(o: Obj, i: nat)
    requires i < |o|
    requires forall j :: 0 <= j < i ==> o[j].0 != o[i].0
    ensures Get(o, o[i].0) == o[i].1
  {
    if i > 0 {
      GetFirst(o[1..], i - 1);
    }
  }

  /** A key the object does not have reads as `undefined`. */
  lemma {:induction false} GetAbsent(o: Obj, k: string)
    ensures k !in Keys(o) ==> Get(o, k) == Undefined
  {
    if o != [] {
      GetAbsent(o[1..], k);
    }
  }

  /** A write changes the one property it names. */
  lemma {:induction false} SetGet(o: Obj, k: string, v: Value, k': string)
    ensures Get(Set(o, k, v), k') == if k' == k then v else Get(o, k')
  {
    if o != [] && o[0].0 != k {
      SetGet(o[1..], k, v, k');
    }
  }

  /** A write keeps the key order and appends a new key. */
  lemma {:induction false} SetKeys(o: Obj, k: string, v: Value)
    ensures Keys(Set(o, k, v)) == if k in Keys(o) then Keys(o) else Keys(o) + [k]
  {
    if o != [] && o[0].0 != k {
      SetKeys(o[1..], k, v);
      assert Keys(o) == [o[0].0] + Keys(o[1..]);
    }
  }

  lemma SetWellFormed(o: Obj, k: string, v: Value)
    requires WellFormed(o)
    ensures WellFormed(Set(o, k, v))
  {
    SetKeys(o, k, v);
    var r := Set(o, k, v);
    forall i, j | 0 <= i < j < |r| ensures r[i].0 != r[j].0 {
      assert Keys(r)[i] == r[i].0 && Keys(r)[j] == r[j].0;
    }
  }

  /** Reading from an object with one more property at the end. */
  lemma {:induction false} GetSnoc(o: Obj, k: string, v: Value, k': string)
    ensures Get(o + [(k, v)], k') == if k' in Keys(o) then Get(o, k') else if k' == k then v else Undefined
  {
    if o != [] {
      assert (o + [(k, v)])[1..] == o[1..] + [(k, v)];
      GetSnoc(o[1..], k, v, k');
    }
  }

  /** The properties of `p` win over those of `o`; the rest come from `o`. */
  lemma {:induction false} SpreadGet(o: Obj, p: Obj, k: string)
    requires WellFormed(p)
    ensures Get(Spread(o, p), k) == if k in Keys(p) then Get(p, k) else Get(o, k)
  {
    if p != [] {
      var n := |p| - 1;
      var init, last := p[..n], p[n];
      assert WellFormed(init);
      SpreadGet(o, init, k);
      SetGet(Spread(o, init), last.0, last.1, k);
      assert p == init + [(last.0, last.1)];
      GetSnoc(init, last.0, last.1, k);
      assert Keys(p) == Keys(init) + [last.0];
      forall i | 0 <= i < |init| ensures Keys(init)[i] != last.0 {
        assert p[i].0 != p[n].0;
      }
    }
  }

  /** The keys of `o` keep their places at the front of the spread. */
  lemma {:induction false} SpreadKeys(o: Obj, p: Obj)
    ensures |Spread(o, p)| >= |o|
    ensures Keys(Spread(o, p))[..|o|] == Keys(o)
  {
    if p != [] {
      var n := |p| - 1;
      SpreadKeys(o, p[..n]);
      var s := Spread(o, p[..n]);
      SetKeys(s, p[n].0, p[n].1);
      assert |Keys(Set(s, p[n].0, p[n].1))| >= |Keys(s)|;
      assert Keys(Set(s, p[n].0, p[n].1))[..|s|] == Keys(s);
    }
  }
}
