/**
 * The `DummyClassifier` of the interface tests: three stand-ins for the
 * per-array classification routine.  Each is a loop over the vectors that
 * yields one `{'test': ...}` dict per step; each is proved against a
 * function that gives its whole output, and that function is what the
 * pipeline is given as its routine.
 */
module DummyClassifier {
  import opened Prelude
  import opened Exceptions
  import opened Dicts
  import opened ClassificationElements
  import opened ClassifyDescriptor

  /** The one label every dummy dict carries. */
  const TestLabel: Hashable := Str("test")

  /** `v[0]`: the first element of a vector. */
  function FirstValue(v: NdArray): real {
    if |v.flat| > 0 then v.flat[0] else 0.0
  }

  /** What `_classify_arrays` yields: `{'test': v[0]}` for each vector `v`, in order. */
  function FirstValueMaps(vs: seq<NdArray>): (r: seq<Dict>)
    ensures |r| == |vs|
    ensures forall i | 0 <= i < |vs| :: r[i].order == [TestLabel] && r[i].vals == map[TestLabel := FirstValue(vs[i])]
  {
    seq(|vs|, i requires 0 <= i < |vs| => Singleton(TestLabel, FirstValue(vs[i])))
  }

  /** `{'test': 0}, {'test': 1}, ..., {'test': n - 1}`. */
  function CountingMaps(n: nat): (r: seq<Dict>)
    ensures |r| == n
    ensures forall i | 0 <= i < n :: r[i].order == [TestLabel] && r[i].vals == map[TestLabel := i as real]
  {
    seq(n, i requires 0 <= i < n => Singleton(TestLabel, i as real))
  }

  /** The value of the loop counter after `for i, v in enumerate(vs)`; it starts at 0. */
  function LastIndex(vs: seq<NdArray>): nat {
    if |vs| == 0 then 0 else |vs| - 1
  }

  /** What `_classify_too_few` yields: the counting dicts for all vectors but the last. */
  function TooFewMaps(vs: seq<NdArray>): (r: seq<Dict>)
    ensures |r| == LastIndex(vs)
    ensures |vs| > 0 ==> |r| + 1 == |vs|
  {
    CountingMaps(LastIndex(vs))
  }

  /** What `_classify_too_many` yields: a counting dict per vector, then two more. */
  function TooManyMaps(vs: seq<NdArray>): (r: seq<Dict>)
    ensures |r| == |vs| + 2
    ensures r[..|vs|] == CountingMaps(|vs|)
    ensures r[|vs|].vals == map[TestLabel := (LastIndex(vs) + 1) as real]
    ensures r[|vs| + 1].vals == map[TestLabel := (LastIndex(vs) + 2) as real]
  {
    var i := LastIndex(vs);
    var r := CountingMaps(|vs|) + [Singleton(TestLabel, (i + 1) as real), Singleton(TestLabel, (i + 2) as real)];
    assert r[..|vs|] == CountingMaps(|vs|);
    r
  }

  /** `_classify_arrays`: the loop yielding `{'test': v[0]}` per vector. */
  method ClassifyFirstValue(vs: seq<NdArray>) returns (out: seq<Dict>)
    ensures out == FirstValueMaps(vs)
  {
    out := [];
    var k := 0;
    while k < |vs|
      invariant k <= |vs|
      invariant |out| == k
      invariant forall j | 0 <= j < k :: out[j] == Singleton(TestLabel, FirstValue(vs[j]))
    {
      out := out + [Singleton(TestLabel, FirstValue(vs[k]))];
      k := k + 1;
    }
  }

  /** `_classify_too_few`: materialise the input, then yield `{'test': i}` for all but the last vector. */
  method ClassifyTooFew(vs: seq<NdArray>) returns (out: seq<Dict>)
    ensures out == TooFewMaps(vs)
  {
    var arrayList := vs;
    var front := if |arrayList| == 0 then [] else arrayList[..|arrayList| - 1];
    out := [];
    var i := 0;
    while i < |front|
      invariant i <= |front|
      invariant |out| == i
      invariant forall j | 0 <= j < i :: out[j] == Singleton(TestLabel, j as real)
    {
      out := out + [Singleton(TestLabel, i as real)];
      i := i + 1;
    }
  }

  /** `_classify_too_many`: `{'test': i}` per vector, then `{'test': i+1}` and `{'test': i+2}`. */
  method ClassifyTooMany(vs: seq<NdArray>) returns (out: seq<Dict>)
    ensures out == TooManyMaps(vs)
  {
    out := [];
    var i := 0;
    var k := 0;
    while k < |vs|
      invariant k <= |vs|
      invariant i == LastIndex(vs[..k])
      invariant |out| == k
      invariant forall j | 0 <= j < k :: out[j] == Singleton(TestLabel, j as real)
    {
      i := k;
      out := out + [Singleton(TestLabel, i as real)];
      k := k + 1;
    }
    assert vs[..k] == vs;
    out := out + [Singleton(TestLabel, (i + 1) as real)];
    out := out + [Singleton(TestLabel, (i + 2) as real)];
    assert out[..|vs|] == CountingMaps(|vs|);
  }

  // ---------------------------------------------------------------------
  // How `classify_elements` ends with each routine
  // ---------------------------------------------------------------------

  /** `_classify_arrays` answers every vector with a non-empty dict: nothing is raised and all are set. */
  lemma FirstValueAligned(vs: seq<NdArray>)
    ensures Reconcile(FirstValueMaps(vs), |vs|) == Reconciled(None, |vs|, true)
  {
    var maps := FirstValueMaps(vs);
    forall m | 0 <= m < |maps| ensures !IsEmpty(maps[m]) {
      assert maps[m].order == [TestLabel];
    }
    ReconcileAllSet(maps, |vs|);
  }

  /**
   * `_classify_too_few` on a non-empty input: every dict it yields is set,
   * then IndexError "under-produced"; it ran to its end.  On an empty input
   * it yields nothing and nothing is raised.
   */
  lemma TooFewUnderProduces(vs: seq<NdArray>)
    ensures |vs| > 0 ==> Reconcile(TooFewMaps(vs), |vs|) == Reconciled(Some(UnderProduced), |vs| - 1, true)
    ensures |vs| == 0 ==> Reconcile(TooFewMaps(vs), |vs|) == Reconciled(None, 0, true)
  {
    var maps := TooFewMaps(vs);
    forall m | 0 <= m < |maps| ensures !IsEmpty(maps[m]) {
      assert maps[m].order == [TestLabel];
    }
    ReconcileAllSet(maps, |vs|);
  }

  /**
   * `_classify_too_many`: every vector's dict is set, then IndexError
   * "over-produced" once the first extra dict has been pulled.
   */
  lemma TooManyOverProduces(vs: seq<NdArray>)
    ensures Reconcile(TooManyMaps(vs), |vs|) == Reconciled(Some(OverProduced), |vs|, false)
  {
    var maps := TooManyMaps(vs);
    forall m | 0 <= m < |vs| ensures !IsEmpty(maps[m]) {
      assert maps[m] == maps[..|vs|][m] == CountingMaps(|vs|)[m];
    }
    ReconcileAllSet(maps, |vs|);
  }

  /**
   * `classify_elements` with `_classify_arrays`, on distinct elements that
   * passed validation: an element that needs classifying receives exactly
   * one dict, `{'test': v[0]}` for its own handle's vector `v`; any other
   * element receives none.
   */
  lemma FirstValueSetsOwnVector(all: seq<ClassificationElement>, stored: seq<Option<NdArray>>, need: seq<bool>,
                                vecs: seq<NdArray>, j: nat)
    requires |all| == |stored| == |need| && DistinctElements(all) && j < |all|
    requires CheckStream(Select(stored, need)) == Ok(vecs)
    ensures var maps := FirstValueMaps(vecs);
            var calls := CallsOn(all[j], Select(all, need), maps, Reconcile(maps, |vecs|).calls);
            && (need[j] ==> stored[j].Some? && calls == [Singleton(TestLabel, FirstValue(stored[j].value))])
            && (!need[j] ==> calls == [])
  {
    var sel, maps := Select(all, need), FirstValueMaps(vecs);
    FirstValueAligned(vecs);
    assert |sel| == |vecs|;
    if need[j] {
      var k := CountTrue(need, j);
      NthSetOfRank(need, |all|, j);
      SelectAt(all, need, |all|, k);
      SelectAt(stored, need, |all|, k);
      SelectDistinct(all, need);
      CallsOnDistinct(sel, maps, |vecs|, k);
      assert maps[k] == Singleton(TestLabel, FirstValue(vecs[k]));
    } else {
      NotSelected(all, need, j);
      CallsOnAbsent(all[j], sel, maps, |vecs|);
    }
  }

  // ---------------------------------------------------------------------
  // classify_arrays with `_classify_arrays`
  // ---------------------------------------------------------------------

  /** An empty input yields no dicts, and the routine still runs to its end. */
  lemma ClassifyArraysEmpty()
    ensures ClassifyArrays(Items([]), FirstValueMaps) == ArraysRun(Ok([]), true)
  {
  }

  /** Vectors of lengths 3, 2 and 4 raise ValueError on the second; the routine never finishes. */
  lemma ClassifyArraysInconsistent()
    ensures var run := ClassifyArrays(Items([Vector([1.0, 2.0, 3.0]), Vector([1.0, 2.0]), Vector([1.0, 2.0, 3.0, 4.0])]), FirstValueMaps);
            run.result == Err(DimensionInconsistent) && !run.routineCompleted
  {
    var vs := [Vector([1.0, 2.0, 3.0]), Vector([1.0, 2.0]), Vector([1.0, 2.0, 3.0, 4.0])];
    assert !Consistent(vs) by {
      assert Length(vs[1]) != Length(vs[0]);
    }
    assert CheckItems(vs[..1]) == Ok(vs[..1]) by {
      assert Consistent(vs[..1]);
    }
    assert vs[..2][..1] == vs[..1];
    assert CheckItems(vs[..2]) == Err(DimensionInconsistent);
    assert vs[..3] == vs;
  }

  /** A 3x3 matrix goes straight to the routine: one dict per row, holding the row's first value. */
  lemma ClassifyArraysMatrix()
    ensures var run := ClassifyArrays(Matrix([[1.0, 2.0, 3.0], [4.0, 5.0, 6.0], [7.0, 8.0, 9.0]]), FirstValueMaps);
            && run.routineCompleted
            && run.result.Ok?
            && |run.result.value| == 3
            && run.result.value[0].vals == map[TestLabel := 1.0]
            && run.result.value[1].vals == map[TestLabel := 4.0]
            && run.result.value[2].vals == map[TestLabel := 7.0]
  {
  }
}
