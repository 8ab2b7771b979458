/**
 * Python's `dict` from labels to confidences, as the classification maps
 * use it: a finite map plus the insertion order of its keys.  Equality of
 * two Python dicts ignores the order (compare `vals`); iteration, and hence
 * the tie-break of `max`, follows it.
 */
module Dicts {
  import opened Prelude

  datatype RawDict = RawDict(order: seq<Hashable>, vals: map<Hashable, real>)

  /** Every key occurs once in `order`, and `order` lists exactly the keys. */
  predicate WellFormed(d: RawDict) {
    && (forall i, j | 0 <= i < j < |d.order| :: d.order[i] != d.order[j])
    && (forall k | k in d.order :: k in d.vals)
    && (forall k | k in d.vals :: k in d.order)
  }

  type Dict = d: RawDict | WellFormed(d) witness RawDict([], map[])

  const Empty: Dict := RawDict([], map[])

  /** `not d` in Python. */
  predicate IsEmpty(d: Dict) {
    d.order == []
  }

  lemma EmptyHasNoKeys(d: Dict)
    ensures IsEmpty(d) <==> d.vals == map[]
  {
    if !IsEmpty(d) {
      assert d.order[0] in d.vals;
    }
  }

  /** The dict literal `{k: v}`. */
  function Singleton(k: Hashable, v: real): (r: Dict)
    ensures r.vals == map[k := v] && r.order == [k]
  {
    RawDict([k], map[k := v])
  }

  /** The assignment `d[k] = v`: a new key goes last, an existing key keeps its place. */
  function Set(d: Dict, k: Hashable, v: real): (r: Dict)
    ensures r.vals == d.vals[k := v]
    ensures r.order == if k in d.vals then d.order else d.order + [k]
  {
    if k in d.vals then
      RawDict(d.order, d.vals[k := v])
    else
      var r := RawDict(d.order + [k], d.vals[k := v]);
      assert k !in d.order;
      r
  }

  /** The entries of `src` whose keys are listed in `ks`. */
  function Restrict(src: map<Hashable, real>, ks: seq<Hashable>): (m: map<Hashable, real>)
    requires forall k | k in ks :: k in src
  {
    map k | k in ks :: src[k]
  }

  predicate Distinct(ks: seq<Hashable>) {
    forall i, j | 0 <= i < j < |ks| :: ks[i] != ks[j]
  }

  /** `for k in ks: d[k] = src[k]`, the loop inside `dict.update`. */
  function SetAll(d: Dict, ks: seq<Hashable>, src: map<Hashable, real>): Dict
    requires forall k | k in ks :: k in src
    decreases |ks|
  {
    if ks == [] then d else SetAll(Set(d, ks[0], src[ks[0]]), ks[1..], src)
  }

  lemma RestrictCons(m: map<Hashable, real>, ks: seq<Hashable>, src: map<Hashable, real>)
    requires forall k | k in ks :: k in src
    requires ks != []
    ensures m[ks[0] := src[ks[0]]] + Restrict(src, ks[1..]) == m + Restrict(src, ks)
  {
    var lhs := m[ks[0] := src[ks[0]]] + Restrict(src, ks[1..]);
    var rhs := m + Restrict(src, ks);
    assert ks == [ks[0]] + ks[1..];
    assert forall k :: k in ks <==> k == ks[0] || k in ks[1..];
    assert lhs.Keys == rhs.Keys;
  }

  lemma {:induction false} SetAllVals(d: Dict, ks: seq<Hashable>, src: map<Hashable, real>)
    requires forall k | k in ks :: k in src
    ensures SetAll(d, ks, src).vals == d.vals + Restrict(src, ks)
    decreases |ks|
  {
    if ks != [] {
      SetAllVals(Set(d, ks[0], src[ks[0]]), ks[1..], src);
      RestrictCons(d.vals, ks, src);
    }
  }

  lemma {:induction false} SetAllKeepsOrder(d: Dict, ks: seq<Hashable>, src: map<Hashable, real>)
    requires forall k | k in ks :: k in src
    ensures |d.order| <= |SetAll(d, ks, src).order|
    ensures SetAll(d, ks, src).order[..|d.order|] == d.order
    decreases |ks|
  {
    if ks != [] {
      var d' := Set(d, ks[0], src[ks[0]]);
      SetAllKeepsOrder(d', ks[1..], src);
      assert SetAll(d, ks, src).order[..|d.order|] == d'.order[..|d.order|];
    }
  }

  lemma AppendCons(a: seq<Hashable>, ks: seq<Hashable>)
    requires ks != []
    ensures a + ks == a + [ks[0]] + ks[1..]
  {
    assert ks == [ks[0]] + ks[1..];
  }

  lemma DistinctTail(ks: seq<Hashable>)
    requires ks != [] && Distinct(ks)
    ensures Distinct(ks[1..]) && ks[0] !in ks[1..]
  {
    forall i, j | 0 <= i < j < |ks[1..]| ensures ks[1..][i] != ks[1..][j] {
      assert ks[1..][i] == ks[i + 1] && ks[1..][j] == ks[j + 1];
    }
    forall j | 0 <= j < |ks[1..]| ensures ks[1..][j] != ks[0] {
      assert ks[1..][j] == ks[j + 1];
    }
  }

  lemma FreshTail(d: Dict, ks: seq<Hashable>, src: map<Hashable, real>)
    requires forall k | k in ks :: k in src
    requires ks != [] && ks[0] !in ks[1..] && forall k | k in ks :: k !in d.vals
    ensures forall k | k in ks[1..] :: k !in Set(d, ks[0], src[ks[0]]).vals
  {
    forall k | k in ks[1..] ensures k !in Set(d, ks[0], src[ks[0]]).vals {
      assert k in ks;
    }
  }

  /** Keys that are all new are appended in the order given. */
  lemma {:induction false} SetAllAppends(d: Dict, ks: seq<Hashable>, src: map<Hashable, real>)
    requires forall k | k in ks :: k in src
    requires Distinct(ks) && forall k | k in ks :: k !in d.vals
    ensures SetAll(d, ks, src).order == d.order + ks
    decreases |ks|
  {
    if ks != [] {
      DistinctTail(ks);
      var d' := Set(d, ks[0], src[ks[0]]);
      assert d'.order == d.order + [ks[0]];
      FreshTail(d, ks, src);
      SetAllAppends(d', ks[1..], src);
      AppendCons(d.order, ks);
    }
  }

  /** `d.update(e)`: the entries of `e` overwrite or extend those of `d`. */
  function Update(d: Dict, e: Dict): (r: Dict)
    ensures r.vals == d.vals + e.vals
    ensures |d.order| <= |r.order| && r.order[..|d.order|] == d.order
  {
    SetAllVals(d, e.order, e.vals);
    SetAllKeepsOrder(d, e.order, e.vals);
    RestrictAll(e);
    SetAll(d, e.order, e.vals)
  }

  /** A dict's entries restricted to its own keys are all of them. */
  lemma RestrictAll(e: Dict)
    ensures Restrict(e.vals, e.order) == e.vals
  {
    var m := Restrict(e.vals, e.order);
    assert m.Keys == e.vals.Keys;
  }

  /** Copying a dict into an empty one (`dict(e)`) preserves its contents and its order. */
  lemma UpdateEmpty(e: Dict)
    ensures Update(Empty, e) == e
  {
    SetAllAppends(Empty, e.order, e.vals);
    PlusEmpty(e.vals);
  }

  lemma PlusEmpty(m: map<Hashable, real>)
    ensures map[] + m == m
  {
    assert (map[] + m).Keys == m.Keys;
  }

  /** Updating with an empty dict changes nothing. */
  lemma UpdateWithEmpty(e: Dict)
    ensures Update(e, Empty) == e
  {
    assert SetAll(e, [], Empty.vals) == e;
  }

  /** The keys of `d` scanned left to right: the index of the first key of largest value. */
  function MaxIndex(ks: seq<Hashable>, vals: map<Hashable, real>): (i: nat)
    requires |ks| > 0 && forall k | k in ks :: k in vals
    ensures i < |ks|
    ensures forall j | 0 <= j < |ks| :: vals[ks[j]] <= vals[ks[i]]
    ensures forall j | 0 <= j < i :: vals[ks[j]] < vals[ks[i]]
  {
    if |ks| == 1 then
      0
    else
      var last := |ks| - 1;
      var i := MaxIndex(ks[..last], vals);
      assert forall j | 0 <= j < last :: ks[..last][j] == ks[j];
      if vals[ks[last]] > vals[ks[i]] then last else i
  }
}
