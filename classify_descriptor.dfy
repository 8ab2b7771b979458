/**
 * The batched descriptor-classification pipeline of `ClassifyDescriptor`:
 * the dimension-consistency validator, `classify_arrays` and
 * `classify_elements`.
 *
 * The Python implementation is built from generators that pull lazily; the
 * model runs in two eager phases: it first walks the handles, validating the
 * vectors to classify in stream order, and only then hands them to the
 * routine and writes the routine's dicts back.  It returns the result or an
 * exception.  The per-array classification routine is an opaque function from
 * the vectors to one dict per vector; its output may have the wrong length.
 */
module ClassifyDescriptor {
  import opened Prelude
  import opened Exceptions
  import opened Dicts
  import opened ClassificationElements

  function Min(a: nat, b: nat): nat {
    if a <= b then a else b
  }

  // ---------------------------------------------------------------------
  // Vectors and the dimension-consistency validator
  // ---------------------------------------------------------------------

  /** A shape and a sequence of elements in row-major order. */
  datatype ArrayData = ArrayData(shape: seq<nat>, flat: seq<real>)

  /** The number of elements an array of this shape holds. */
  function Product(shape: seq<nat>): nat {
    if shape == [] then 1 else shape[0] * Product(shape[1..])
  }

  /** A numpy array: as many elements as its shape calls for. */
  type NdArray = a: ArrayData | |a.flat| == Product(a.shape) witness ArrayData([], [0.0])

  predicate Is1D(v: NdArray) {
    |v.shape| == 1
  }

  /** The 1-D array holding `xs`. */
  function Vector(xs: seq<real>): (v: NdArray)
    ensures Is1D(v) && v.flat == xs && Length(v) == |xs|
  {
    assert [|xs|][1..] == [];
    assert Product([|xs|]) == |xs| * Product([]) == |xs|;
    ArrayData([|xs|], xs)
  }

  /** `len(v)`, the extent of the first axis. */
  function Length(v: NdArray): nat {
    if |v.shape| > 0 then v.shape[0] else 0
  }

  /** The rows of a 2-D array, all of one length. */
  type Rows = rows: seq<seq<real>> | forall i | 0 <= i < |rows| :: |rows[i]| == |rows[0]|

  /** What `classify_arrays` accepts. */
  datatype ArrayInput =
    | Matrix(rows: Rows)             // a 2-D ndarray of a numeric dtype
    | Items(vectors: seq<NdArray>)   // any other iterable of arrays

  /** The vectors iterating the input yields: a matrix yields its rows. */
  function Vectors(a: ArrayInput): (vs: seq<NdArray>)
    ensures a.Items? ==> vs == a.vectors
    ensures a.Matrix? ==> |vs| == |a.rows|
    ensures a.Matrix? ==>
              forall i | 0 <= i < |vs| :: Is1D(vs[i]) && vs[i].flat == a.rows[i] && Length(vs[i]) == |a.rows[i]|
  {
    match a
    case Matrix(rows) => seq(|rows|, i requires 0 <= i < |rows| => Vector(rows[i]))
    case Items(vs) => vs
  }

  /** The length every vector must share: that of the first vector seen. */
  function Reference(seen: seq<NdArray>): Option<nat> {
    if seen == [] then None else Some(Length(seen[0]))
  }

  /** The check made on one vector as it is pulled, given the reference length so far. */
  function ItemError(v: NdArray, ref: Option<nat>): Option<Error> {
    if !Is1D(v) then Some(MoreThanOneDimension)
    else if ref.Some? && Length(v) != ref.value then Some(DimensionInconsistent)
    else None
  }

  /** All vectors are 1-D and as long as the first. */
  predicate Consistent(vs: seq<NdArray>) {
    forall i | 0 <= i < |vs| :: Is1D(vs[i]) && Length(vs[i]) == Length(vs[0])
  }

  /**
   * The generator of `_assert_array_dim_consistency` over a sequence of
   * vectors, consumed to the end: the vectors unchanged and in order when
   * they are consistent, otherwise the error of the first vector that breaks
   * consistency.
   */
  function CheckItems(vs: seq<NdArray>): (r: Result<seq<NdArray>>)
    ensures r.Ok? <==> Consistent(vs)
    ensures r.Ok? ==> r.value == vs
    ensures r.Err? ==> exists p | 0 <= p < |vs| ::
                         && Consistent(vs[..p])
                         && ItemError(vs[p], Reference(vs[..p])) == Some(r.error)
  {
    if vs == [] then
      Ok([])
    else
      var last := |vs| - 1;
      ConsistentSnoc(vs);
      match CheckItems(vs[..last])
      case Err(e) =>
        assert forall p | 0 <= p < last :: vs[..last][..p] == vs[..p] && vs[..last][p] == vs[p];
        Err(e)
      case Ok(seen) =>
        match ItemError(vs[last], Reference(seen))
        case Some(e) => Err(e)
        case None => Ok(vs)
  }

  /** A non-empty sequence is consistent exactly when all but its last vector are and the last passes the check. */
  lemma ConsistentSnoc(vs: seq<NdArray>)
    requires vs != []
    ensures Consistent(vs) <==> Consistent(vs[..|vs| - 1]) && ItemError(vs[|vs| - 1], Reference(vs[..|vs| - 1])) == None
  {
    var init := vs[..|vs| - 1];
    assert forall i | 0 <= i < |init| :: init[i] == vs[i];
  }

  /**
   * `_assert_array_dim_consistency(array_iter)`: a 2-D matrix is returned as
   * it is, unchecked; anything else is checked vector by vector.
   */
  function AssertArrayDimConsistency(input: ArrayInput): (r: Result<ArrayInput>)
    ensures input.Matrix? ==> r == Ok(input)
    ensures input.Items? ==> (r.Ok? <==> Consistent(input.vectors))
    ensures r.Ok? ==> r.value == input
    ensures r.Err? ==> r.error == MoreThanOneDimension || r.error == DimensionInconsistent
  {
    match input
    case Matrix(_) => Ok(input)
    case Items(vs) =>
      match CheckItems(vs)
      case Ok(_) => Ok(input)
      case Err(e) => Err(e)
  }

  /** The rows of a matrix are consistent, so skipping the check loses nothing. */
  lemma MatrixRowsConsistent(rows: Rows)
    ensures Consistent(Vectors(Matrix(rows)))
  {
  }

  // ---------------------------------------------------------------------
  // classify_arrays
  // ---------------------------------------------------------------------

  /** What consuming a classification stream gives, and whether the routine ran to its end. */
  datatype ArraysRun = ArraysRun(result: Result<seq<Dict>>, routineCompleted: bool)

  /**
   * `classify_arrays(array_iter)`: the routine's dicts for the validated
   * vectors.  A validation error aborts the stream, so the routine does not
   * reach its end.
   */
  function ClassifyArrays(input: ArrayInput, routine: seq<NdArray> -> seq<Dict>): (r: ArraysRun)
    ensures r.result.Ok? <==> AssertArrayDimConsistency(input).Ok?
    ensures r.result.Ok? ==> r.result.value == routine(Vectors(input))
    ensures r.result.Err? ==> r.result.error.IsValueError()
    ensures r.routineCompleted <==> r.result.Ok?
  {
    match AssertArrayDimConsistency(input)
    case Ok(checked) => ArraysRun(Ok(routine(Vectors(checked))), true)
    case Err(e) => ArraysRun(Err(e), false)
  }

  // ---------------------------------------------------------------------
  // Descriptor handles and fetch batches
  // ---------------------------------------------------------------------

  /** A descriptor element: its uid and the vector stored for it, if any. */
  datatype DescriptorHandle = DescriptorHandle(uid: Hashable, stored: Option<NdArray>)

  /** `DescriptorElement.get_many_vectors(handles)`: one optional vector per handle, same order. */
  function GetManyVectors(hs: seq<DescriptorHandle>): (r: seq<Option<NdArray>>)
    ensures |r| == |hs| && forall i | 0 <= i < |hs| :: r[i] == hs[i].stored
  {
    seq(|hs|, i requires 0 <= i < |hs| => hs[i].stored)
  }

  /** The consecutive slices of `hs` of `size` handles each, from `start` on; the last may be shorter. */
  function BatchesFrom(hs: seq<DescriptorHandle>, size: nat, start: nat): seq<seq<DescriptorHandle>>
    requires size > 0
    decreases |hs| - start
  {
    if start >= |hs| then [] else [hs[start..Min(start + size, |hs|)]] + BatchesFrom(hs, size, start + size)
  }

  /** The argument lists of the bulk fetches for input `hs` and `d_elem_batch == size`. */
  function Batches(hs: seq<DescriptorHandle>, size: nat): (r: seq<seq<DescriptorHandle>>)
    requires size > 0
    ensures forall b | b in r :: 0 < |b| <= size
    ensures r == [] <==> hs == []
  {
    BatchSizes(hs, size, 0);
    BatchesFrom(hs, size, 0)
  }

  /** Every batch holds at least one handle and at most `size`; there are batches exactly when handles remain. */
  lemma {:induction false} BatchSizes(hs: seq<DescriptorHandle>, size: nat, start: nat)
    requires size > 0
    ensures forall b | b in BatchesFrom(hs, size, start) :: 0 < |b| <= size
    ensures BatchesFrom(hs, size, start) == [] <==> start >= |hs|
    decreases |hs| - start
  {
    if start < |hs| {
      BatchSizes(hs, size, start + size);
    }
  }

  function Concat<T>(xss: seq<seq<T>>): seq<T> {
    if xss == [] then [] else xss[0] + Concat(xss[1..])
  }

  lemma {:induction false} BatchesFromConcat(hs: seq<DescriptorHandle>, size: nat, start: nat)
    requires size > 0 && start <= |hs|
    ensures Concat(BatchesFrom(hs, size, start)) == hs[start..]
    decreases |hs| - start
  {
    if start < |hs| {
      var next := Min(start + size, |hs|);
      var bs := BatchesFrom(hs, size, start);
      if next < |hs| {
        BatchesFromConcat(hs, size, next);
      }
      assert bs[1..] == BatchesFrom(hs, size, start + size);
      assert hs[start..] == hs[start..next] + hs[next..];
    }
  }

  lemma {:induction false} BatchesFromCount(hs: seq<DescriptorHandle>, size: nat, start: nat)
    requires size > 0 && start <= |hs|
    ensures |hs| - start <= |BatchesFrom(hs, size, start)| * size
    ensures |BatchesFrom(hs, size, start)| > 0 ==> (|BatchesFrom(hs, size, start)| - 1) * size < |hs| - start
    decreases |hs| - start
  {
    if start < |hs| {
      var n := |BatchesFrom(hs, size, start)|;
      if start + size < |hs| {
        BatchesFromCount(hs, size, start + size);
        assert (n - 1) * size + size == n * size;
        assert (n - 2) * size + size == (n - 1) * size;
      } else {
        assert n == 1;
      }
    }
  }

  lemma {:induction false} BatchesFromSlice(hs: seq<DescriptorHandle>, size: nat, start: nat, j: nat)
    requires size > 0 && j < |BatchesFrom(hs, size, start)|
    ensures start + j * size < |hs|
    ensures BatchesFrom(hs, size, start)[j] == hs[start + j * size .. Min(start + j * size + size, |hs|)]
    decreases j
  {
    if j > 0 {
      var next := start + size;
      assert BatchesFrom(hs, size, start)[j] == BatchesFrom(hs, size, next)[j - 1];
      BatchesFromSlice(hs, size, next, j - 1);
      assert (j - 1) * size + size == j * size;
    }
  }

  /** One fetch step: the next batch starts where the previous one ended. */
  lemma BatchesFromStep(hs: seq<DescriptorHandle>, size: nat, start: nat)
    requires size > 0 && start < |hs|
    ensures BatchesFrom(hs, size, start) ==
              [hs[start..Min(start + size, |hs|)]] + BatchesFrom(hs, size, Min(start + size, |hs|))
  {
  }

  /**
   * With N handles and batch size B there are ceil(N/B) fetches (the least
   * count whose B-fold covers N); together
   * they cover the input exactly once, in order; fetch j takes the slice
   * `[j*B : (j+1)*B]`, clamped to the input as a slice is.
   */
  lemma BatchesPartition(hs: seq<DescriptorHandle>, size: nat)
    requires size > 0
    ensures Concat(Batches(hs, size)) == hs
    ensures |hs| <= |Batches(hs, size)| * size
    ensures |Batches(hs, size)| > 0 ==> (|Batches(hs, size)| - 1) * size < |hs|
    ensures forall j | 0 <= j < |Batches(hs, size)| :: j * size < |hs|
    ensures forall j | 0 <= j < |Batches(hs, size)| ::
              Batches(hs, size)[j] == hs[Min(j * size, |hs|) .. Min(j * size + size, |hs|)]
  {
    BatchesFromConcat(hs, size, 0);
    BatchesFromCount(hs, size, 0);
    BatchSlices(hs, size);
    assert hs[0..] == hs;
  }

  /** Fetch j takes the slice `[j*B : (j+1)*B]` of the input. */
  lemma BatchSlices(hs: seq<DescriptorHandle>, size: nat)
    requires size > 0
    ensures forall j | 0 <= j < |Batches(hs, size)| :: j * size < |hs|
    ensures forall j | 0 <= j < |Batches(hs, size)| ::
              Batches(hs, size)[j] == hs[Min(j * size, |hs|) .. Min(j * size + size, |hs|)]
  {
    forall j | 0 <= j < |Batches(hs, size)|
      ensures j * size < |hs|
      ensures Batches(hs, size)[j] == hs[Min(j * size, |hs|) .. Min(j * size + size, |hs|)]
    {
      BatchesFromSlice(hs, size, 0, j);
      var lo := j * size;
      assert Min(lo, |hs|) == 0 + lo;
    }
  }

  /** 29 handles: one fetch of all at B = 100, `[:20]` and `[20:]` at B = 20, one per handle at B = 1. */
  lemma TwentyNineHandles(hs: seq<DescriptorHandle>)
    requires |hs| == 29
    ensures Batches(hs, 100) == [hs]
    ensures Batches(hs, 20) == [hs[..20], hs[20..]]
    ensures |Batches(hs, 1)| == 29 && forall j | 0 <= j < 29 :: Batches(hs, 1)[j] == [hs[j]]
  {
    BatchesPartition(hs, 100);
    BatchesPartition(hs, 20);
    BatchesPartition(hs, 1);
    assert hs[0..29] == hs;
    var b1 := Batches(hs, 1);
    forall j | 0 <= j < 29 ensures b1[j] == [hs[j]] {
      assert b1[j] == hs[j .. j + 1];
    }
  }

  // ---------------------------------------------------------------------
  // The stream of vectors to classify
  // ---------------------------------------------------------------------

  /** How many of the first `n` flags are set. */
  function CountTrue(flags: seq<bool>, n: nat): nat
    requires n <= |flags|
  {
    if n == 0 then 0 else CountTrue(flags, n - 1) + if flags[n - 1] then 1 else 0
  }

  /** The entries among the first `n` of `xs` whose flag is set, in order. */
  function SelectUpTo<T>(xs: seq<T>, flags: seq<bool>, n: nat): (r: seq<T>)
    requires |flags| == |xs| && n <= |xs|
    ensures |r| == CountTrue(flags, n)
  {
    if n == 0 then [] else SelectUpTo(xs, flags, n - 1) + if flags[n - 1] then [xs[n - 1]] else []
  }

  /** The entries of `xs` whose flag is set, in order. */
  function Select<T>(xs: seq<T>, flags: seq<bool>): (r: seq<T>)
    requires |flags| == |xs|
    ensures |r| == CountTrue(flags, |xs|)
  {
    SelectUpTo(xs, flags, |xs|)
  }

  lemma {:induction false} SelectSubset<T>(xs: seq<T>, flags: seq<bool>, n: nat)
    requires |flags| == |xs| && n <= |xs|
    ensures forall x | x in SelectUpTo(xs, flags, n) :: x in xs
  {
    if n > 0 {
      SelectSubset(xs, flags, n - 1);
    }
  }

  lemma SelectSnoc<T>(xs: seq<T>, flags: seq<bool>, n: nat)
    requires |flags| == |xs| && n < |xs|
    ensures flags[n] ==> SelectUpTo(xs, flags, n + 1) == SelectUpTo(xs, flags, n) + [xs[n]]
    ensures !flags[n] ==> SelectUpTo(xs, flags, n + 1) == SelectUpTo(xs, flags, n)
  {
    var front := SelectUpTo(xs, flags, n);
    assert front + [] == front;
  }

  lemma {:induction false} SelectPrefix<T>(xs: seq<T>, flags: seq<bool>, j: nat, n: nat)
    requires |flags| == |xs| && j <= n <= |xs|
    ensures SelectUpTo(xs, flags, j) <= SelectUpTo(xs, flags, n)
    decreases n
  {
    if j < n {
      SelectPrefix(xs, flags, j, n - 1);
    }
  }

  /** The index, among the first `n`, of the k-th set flag (counting from 0). */
  function NthSet(flags: seq<bool>, n: nat, k: nat): (j: nat)
    requires n <= |flags| && k < CountTrue(flags, n)
    ensures j < n && flags[j]
  {
    if flags[n - 1] && k == CountTrue(flags, n - 1) then n - 1 else NthSet(flags, n - 1, k)
  }

  /**
   * The k-th selected entry is the entry at the k-th set flag, whatever the
   * sequence: the k-th element to set and the k-th vector to classify come
   * from the same handle.
   */
  lemma {:induction false} SelectAt<T>(xs: seq<T>, flags: seq<bool>, n: nat, k: nat)
    requires |flags| == |xs| && n <= |xs| && k < CountTrue(flags, n)
    ensures SelectUpTo(xs, flags, n)[k] == xs[NthSet(flags, n, k)]
  {
    if !(flags[n - 1] && k == CountTrue(flags, n - 1)) {
      SelectAt(xs, flags, n - 1, k);
    }
  }

  /** Later selected entries come from later handles. */
  lemma {:induction false} NthSetIncreasing(flags: seq<bool>, n: nat, a: nat, b: nat)
    requires n <= |flags| && a < b < CountTrue(flags, n)
    ensures NthSet(flags, n, a) < NthSet(flags, n, b)
  {
    if !(flags[n - 1] && b == CountTrue(flags, n - 1)) {
      NthSetIncreasing(flags, n - 1, a, b);
    }
  }

  /** Every handle whose flag is set is selected, at its rank among the set flags. */
  lemma {:induction false} NthSetOfRank(flags: seq<bool>, n: nat, j: nat)
    requires n <= |flags| && j < n && flags[j]
    ensures CountTrue(flags, j) < CountTrue(flags, n)
    ensures NthSet(flags, n, CountTrue(flags, j)) == j
  {
    if j < n - 1 {
      NthSetOfRank(flags, n - 1, j);
    }
  }

  /** Selecting from distinct elements keeps them distinct. */
  lemma SelectDistinct(es: seq<ClassificationElement>, flags: seq<bool>)
    requires |flags| == |es| && DistinctElements(es)
    ensures DistinctElements(Select(es, flags))
  {
    var sel := Select(es, flags);
    forall a, b | 0 <= a < b < |sel| ensures sel[a] != sel[b] {
      SelectAt(es, flags, |es|, a);
      SelectAt(es, flags, |es|, b);
      NthSetIncreasing(flags, |es|, a, b);
    }
  }

  /** An element whose flag is clear is not selected, when the elements are distinct. */
  lemma NotSelected(es: seq<ClassificationElement>, flags: seq<bool>, j: nat)
    requires |flags| == |es| && DistinctElements(es) && j < |es| && !flags[j]
    ensures es[j] !in Select(es, flags)
  {
    var sel := Select(es, flags);
    forall k | 0 <= k < |sel| ensures sel[k] != es[j] {
      SelectAt(es, flags, |es|, k);
    }
  }

  /**
   * Pulling one more item from the validated stream, given the vectors
   * already yielded: a handle without a stored vector raises "no vector
   * stored", otherwise the vector is checked as
   * `_assert_array_dim_consistency` checks it.
   */
  function Pull(seen: seq<NdArray>, x: Option<NdArray>): (r: Result<seq<NdArray>>)
    ensures r.Ok? ==> x.Some? && r.value == seen + [x.value]
    ensures r.Err? ==> r.error.IsValueError()
  {
    match x
    case None => Err(NoVectorStored)
    case Some(v) =>
      match ItemError(v, Reference(seen))
      case Some(e) => Err(e)
      case None => Ok(seen + [v])
  }

  /** Consuming the whole validated stream of fetched vectors. */
  function CheckStream(s: seq<Option<NdArray>>): (r: Result<seq<NdArray>>)
    ensures r.Ok? ==> |r.value| == |s| && forall i | 0 <= i < |s| :: s[i] == Some(r.value[i])
    ensures r.Err? ==> r.error.IsValueError()
  {
    if s == [] then
      Ok([])
    else
      match CheckStream(s[..|s| - 1])
      case Err(e) => Err(e)
      case Ok(seen) => Pull(seen, s[|s| - 1])
  }

  lemma CheckStreamSnoc(s: seq<Option<NdArray>>, x: Option<NdArray>)
    requires CheckStream(s).Ok?
    ensures CheckStream(s + [x]) == Pull(CheckStream(s).value, x)
  {
    assert (s + [x])[..|s|] == s;
  }

  /** Once the stream has raised, later items change nothing. */
  lemma {:induction false} CheckStreamErrorSticks(s: seq<Option<NdArray>>, t: seq<Option<NdArray>>)
    requires CheckStream(s).Err?
    ensures CheckStream(s + t) == CheckStream(s)
    decreases |t|
  {
    if t != [] {
      var u := s + t;
      var front := t[..|t| - 1];
      CheckStreamErrorSticks(s, front);
      assert u[..|u| - 1] == s + front;
      assert CheckStream(u[..|u| - 1]).Err?;
      assert CheckStream(u) == CheckStream(u[..|u| - 1]);
    } else {
      assert s + t == s;
    }
  }

  /**
   * When every handle has a vector, the stream raises exactly what the
   * validator raises for those vectors: inconsistent element vectors give the
   * same ValueError as `classify_arrays`.
   */
  lemma {:induction false} CheckStreamAllStored(vs: seq<NdArray>)
    ensures CheckStream(Stored(vs)) == CheckItems(vs)
  {
    if vs != [] {
      var last := |vs| - 1;
      var s := Stored(vs);
      CheckStreamAllStored(vs[..last]);
      StoredPrefix(vs, last);
      var front := CheckItems(vs[..last]);
      assert CheckStream(s[..last]) == front;
      if front.Ok? {
        assert CheckStream(s) == Pull(vs[..last], Some(vs[last]));
        assert vs[..last] + [vs[last]] == vs;
      } else {
        assert CheckStream(s) == front;
      }
    }
  }

  /** Every handle has its vector: `Some(v)` for each `v` of `vs`. */
  function Stored(vs: seq<NdArray>): (s: seq<Option<NdArray>>)
    ensures |s| == |vs| && forall i | 0 <= i < |vs| :: s[i] == Some(vs[i])
  {
    seq(|vs|, i requires 0 <= i < |vs| => Some(vs[i]))
  }

  lemma StoredPrefix(vs: seq<NdArray>, k: nat)
    requires k <= |vs|
    ensures Stored(vs)[..k] == Stored(vs[..k])
  {
  }

  /**
   * A handle that needs classifying and has no stored vector raises "no
   * vector stored" unless an earlier vector already failed validation.
   */
  lemma MissingVectorRaises(s: seq<Option<NdArray>>, m: nat)
    requires m < |s| && s[m].None?
    requires CheckStream(s[..m]).Ok?
    ensures CheckStream(s) == Err(NoVectorStored)
  {
    assert s[..m + 1][..m] == s[..m];
    assert CheckStream(s[..m + 1]) == Err(NoVectorStored);
    CheckStreamErrorSticks(s[..m + 1], s[m + 1..]);
    assert s[..m + 1] + s[m + 1..] == s;
  }

  // ---------------------------------------------------------------------
  // Matching the routine's output with the elements to set
  // ---------------------------------------------------------------------

  /** The first index below `lim` holding an empty dict, or `lim`. */
  function FirstEmpty(maps: seq<Dict>, lim: nat): (q: nat)
    requires lim <= |maps|
    ensures q <= lim
    ensures forall k | 0 <= k < q :: !IsEmpty(maps[k])
    ensures q < lim ==> IsEmpty(maps[q])
  {
    if lim == 0 then 0
    else
      var q := FirstEmpty(maps, lim - 1);
      if q < lim - 1 then q else if IsEmpty(maps[lim - 1]) then lim - 1 else lim
  }

  /**
   * How consuming `classify_elements` ends when `n` elements need setting and
   * the routine produced `maps`: the exception raised (if any), the number of
   * `set_classification` calls made, and whether the routine ran to its end.
   * Under-production is found when the routine ends, so its finalizer has
   * run; over-production is found by pulling one dict too many, and a refused
   * empty dict ends the stream, both leaving the routine unfinished.
   */
  datatype Reconciled = Reconciled(error: Option<Error>, calls: nat, drained: bool)

  function Reconcile(maps: seq<Dict>, n: nat): (r: Reconciled)
    ensures r.calls <= |maps| && r.calls <= n
    ensures r.error.None? <==> |maps| == n && forall k | 0 <= k < n :: !IsEmpty(maps[k])
    ensures r.error == Some(NoLabelsGiven) <==> exists k | 0 <= k < Min(|maps|, n) :: IsEmpty(maps[k])
    ensures r.error == Some(UnderProduced) <==> |maps| < n && forall k | 0 <= k < |maps| :: !IsEmpty(maps[k])
    ensures r.error == Some(OverProduced) <==> |maps| > n && forall k | 0 <= k < n :: !IsEmpty(maps[k])
    ensures r.error != Some(NoLabelsGiven) ==> r.calls == Min(|maps|, n)
    ensures r.error == Some(NoLabelsGiven) ==>
              0 < r.calls && IsEmpty(maps[r.calls - 1]) && forall k | 0 <= k < r.calls - 1 :: !IsEmpty(maps[k])
    ensures r.drained <==> r.error.None? || r.error == Some(UnderProduced)
  {
    var lim := Min(|maps|, n);
    var q := FirstEmpty(maps, lim);
    if q < lim then Reconciled(Some(NoLabelsGiven), q + 1, false)
    else if |maps| < n then Reconciled(Some(UnderProduced), lim, true)
    else if |maps| > n then Reconciled(Some(OverProduced), lim, false)
    else Reconciled(None, lim, true)
  }

  /** The stream ends at the first empty dict, after the call that refused it. */
  lemma ReconcileStopsAtEmpty(maps: seq<Dict>, n: nat, k: nat)
    requires 0 < k <= |maps| && k <= n
    requires IsEmpty(maps[k - 1]) && forall m | 0 <= m < k - 1 :: !IsEmpty(maps[m])
    ensures Reconcile(maps, n) == Reconciled(Some(NoLabelsGiven), k, false)
  {
    assert FirstEmpty(maps, Min(|maps|, n)) == k - 1;
  }

  /** With no empty dict among the ones written, only the lengths decide. */
  lemma ReconcileAllSet(maps: seq<Dict>, n: nat)
    requires forall m | 0 <= m < Min(|maps|, n) :: !IsEmpty(maps[m])
    ensures Reconcile(maps, n) ==
              if |maps| < n then Reconciled(Some(UnderProduced), |maps|, true)
              else if |maps| > n then Reconciled(Some(OverProduced), n, false)
              else Reconciled(None, n, true)
  {
  }

  /** How many times `o` occurs among the first `n` entries of `es`. */
  function Count(o: ClassificationElement, es: seq<ClassificationElement>, n: nat): nat
    requires n <= |es|
  {
    if n == 0 then 0 else Count(o, es, n - 1) + if es[n - 1] == o then 1 else 0
  }

  /** The dicts given to `o` by the first `k` calls, call m setting `targets[m]` to `maps[m]`. */
  function CallsOn(o: ClassificationElement, targets: seq<ClassificationElement>, maps: seq<Dict>, k: nat): seq<Dict>
    requires k <= |targets| && k <= |maps|
  {
    if k == 0 then [] else CallsOn(o, targets, maps, k - 1) + if targets[k - 1] == o then [maps[k - 1]] else []
  }

  /** The stored classification after `set_classification` calls with `calls`: an empty dict is refused. */
  function AfterCalls(c: Option<Dict>, calls: seq<Dict>): Option<Dict> {
    if calls == [] then c
    else
      var last := calls[|calls| - 1];
      if IsEmpty(last) then AfterCalls(c, calls[..|calls| - 1]) else Some(last)
  }

  lemma AfterCallsStep(c: Option<Dict>, calls: seq<Dict>, m: Dict)
    ensures AfterCalls(c, calls + [m]) == if IsEmpty(m) then AfterCalls(c, calls) else Some(m)
  {
    assert (calls + [m])[..|calls|] == calls;
  }

  /** `new_classification(type_name, uid)` for each handle, in input order. */
  function Paired(name: string, hs: seq<DescriptorHandle>, factory: (string, Hashable) -> ClassificationElement): (r: seq<ClassificationElement>)
    ensures |r| == |hs| && forall i | 0 <= i < |hs| :: r[i] == factory(name, hs[i].uid)
  {
    seq<ClassificationElement>(|hs|, i requires 0 <= i < |hs| => factory(name, hs[i].uid))
  }

  /** Which elements need classifying: all with `overwrite`, else those without a classification. */
  function NeedFlags(es: seq<ClassificationElement>, overwrite: bool): (r: seq<bool>)
    reads es
    ensures |r| == |es| && forall i | 0 <= i < |es| :: r[i] == (overwrite || !es[i].Classified())
  {
    seq(|es|, i reads es requires 0 <= i < |es| => overwrite || !es[i].Classified())
  }

  // ---------------------------------------------------------------------
  // classify_elements
  // ---------------------------------------------------------------------

  /** No call touches an element that is not a target. */
  lemma {:induction false} CallsOnAbsent(o: ClassificationElement, targets: seq<ClassificationElement>, maps: seq<Dict>, k: nat)
    requires k <= |targets| && k <= |maps|
    requires o !in targets
    ensures CallsOn(o, targets, maps, k) == []
  {
    if k > 0 {
      CallsOnAbsent(o, targets, maps, k - 1);
    }
  }

  /** No element occurs twice. */
  predicate DistinctElements(es: seq<ClassificationElement>) {
    forall i, j | 0 <= i < j < |es| :: es[i] != es[j]
  }

  /** With distinct elements, each of the first `n` occurs once among them, and the others not at all. */
  lemma {:induction false} CountDistinct(es: seq<ClassificationElement>, n: nat, p: nat)
    requires DistinctElements(es) && n <= |es| && p < |es|
    ensures Count(es[p], es, n) == if p < n then 1 else 0
  {
    if n > 0 {
      CountDistinct(es, n - 1, p);
    }
  }

  /** With distinct targets, each target receives exactly its own dict, once, if the stream reached it. */
  lemma {:induction false} CallsOnDistinct(targets: seq<ClassificationElement>, maps: seq<Dict>, k: nat, p: nat)
    requires DistinctElements(targets) && k <= |targets| && k <= |maps| && p < |targets|
    ensures CallsOn(targets[p], targets, maps, k) == if p < k then [maps[p]] else []
  {
    if k > 0 {
      CallsOnDistinct(targets, maps, k - 1, p);
    }
  }

  /**
   * The first phase of `classify_elements`: walk the handles batch by batch,
   * fetch each batch's vectors with one bulk call, pair each handle with its
   * element, and keep the elements to set together with their validated
   * vectors.  It ends as `FirstPhase` says: on an error, every handle of the
   * failing batch has been asked, and the batches fetched are exactly those
   * up to and including it.
   */
  method CollectToCompute(
    name: string,
    handles: seq<DescriptorHandle>,
    factory: (string, Hashable) -> ClassificationElement,
    overwrite: bool,
    batchSize: nat)
    returns (err: Option<Error>, pending: seq<ClassificationElement>, vecs: seq<NdArray>, fetches: seq<seq<DescriptorHandle>>)
    requires batchSize > 0
    requires forall o | o in Paired(name, handles, factory) :: allocated(o)
    modifies Paired(name, handles, factory)`hasCalls
    ensures var all := Paired(name, handles, factory);
            var phase := FirstPhase(GetManyVectors(handles), old(NeedFlags(all, overwrite)), batchSize);
            && err == phase.error
            && fetches <= Batches(handles, batchSize)
            && Concat(fetches) == handles[..phase.asked]
    ensures var all := Paired(name, handles, factory);
            var need := old(NeedFlags(all, overwrite));
            var check := CheckStream(Select(GetManyVectors(handles), need));
            check.Ok? ==>
              && vecs == check.value
              && pending == Select(all, need)
              && fetches == Batches(handles, batchSize)
    // Each element was asked once per occurrence among the handles asked.
    ensures var all := Paired(name, handles, factory);
            var phase := FirstPhase(GetManyVectors(handles), old(NeedFlags(all, overwrite)), batchSize);
            forall j | 0 <= j < |all| ::
              all[j].hasCalls == old(all[j].hasCalls) + (if overwrite then 0 else Count(all[j], all, phase.asked))
  {
    ghost var all := Paired(name, handles, factory);
    ghost var need := NeedFlags(all, overwrite);
    ghost var stored := GetManyVectors(handles);
    ghost var before := CallCounts(all);
    err, pending, vecs, fetches := WalkBatches(name, handles, factory, overwrite, batchSize, all, need, stored, before);
  }

  /** The outer loop of the first phase, over the fetch batches. */
  method WalkBatches(
    name: string,
    handles: seq<DescriptorHandle>,
    factory: (string, Hashable) -> ClassificationElement,
    overwrite: bool,
    batchSize: nat,
    ghost all: seq<ClassificationElement>,
    ghost need: seq<bool>,
    ghost stored: seq<Option<NdArray>>,
    ghost before: seq<nat>)
    returns (err: Option<Error>, pending: seq<ClassificationElement>, vecs: seq<NdArray>,
             fetches: seq<seq<DescriptorHandle>>)
    requires batchSize > 0
    requires all == Paired(name, handles, factory) && stored == GetManyVectors(handles)
    requires |need| == |all| == |before|
    requires NeedMarked(all, need, overwrite)
    requires CallsCounted(all, before, overwrite, 0)
    modifies all`hasCalls
    ensures err == FirstPhase(stored, need, batchSize).error
    ensures fetches <= Batches(handles, batchSize)
    ensures Concat(fetches) == handles[..FirstPhase(stored, need, batchSize).asked]
    ensures err.None? ==>
              && fetches == Batches(handles, batchSize)
              && pending == Select(all, need)
              && CheckStream(Select(stored, need)) == Ok(vecs)
    ensures CallsCounted(all, before, overwrite, FirstPhase(stored, need, batchSize).asked)
  {
    var n := |handles|;
    err, pending, vecs, fetches := None, [], [], [];
    var batchEnd := 0;
    while batchEnd < n && err.None?
      invariant WalkedUpTo(handles, batchSize, overwrite, all, need, stored, before, batchEnd, err, pending, vecs, fetches)
    {
      err, pending, vecs, fetches, batchEnd := WalkBatch(name, handles, factory, overwrite, batchSize, batchEnd,
                                                         pending, vecs, fetches, all, need, stored, before);
    }
    if err.None? {
      assert batchEnd == n && Select(stored, need) == SelectUpTo(stored, need, n);
      assert FirstPhase(stored, need, batchSize) == Phase(None, n);
      assert handles[..n] == handles;
    }
  }

  /** One step of the outer loop: fetch the batch at `start` and go through it. */
  method WalkBatch(
    name: string,
    handles: seq<DescriptorHandle>,
    factory: (string, Hashable) -> ClassificationElement,
    overwrite: bool,
    batchSize: nat,
    start: nat,
    pending0: seq<ClassificationElement>,
    vecs0: seq<NdArray>,
    fetches0: seq<seq<DescriptorHandle>>,
    ghost all: seq<ClassificationElement>,
    ghost need: seq<bool>,
    ghost stored: seq<Option<NdArray>>,
    ghost before: seq<nat>)
    returns (err: Option<Error>, pending: seq<ClassificationElement>, vecs: seq<NdArray>,
             fetches: seq<seq<DescriptorHandle>>, end: nat)
    requires start < |handles|
    requires all == Paired(name, handles, factory) && stored == GetManyVectors(handles)
    requires WalkedUpTo(handles, batchSize, overwrite, all, need, stored, before, start, None, pending0, vecs0, fetches0)
    modifies all`hasCalls
    ensures start < end
    ensures WalkedUpTo(handles, batchSize, overwrite, all, need, stored, before, end, err, pending, vecs, fetches)
  {
    end := Min(start + batchSize, |handles|);
    var batch := handles[start..end];
    var chunk := GetManyVectors(batch);
    NextBatch(handles, batchSize, fetches0, start, end);
    fetches := fetches0 + [batch];
    err, pending, vecs := CollectBatch(name, handles, factory, overwrite, start, end, chunk,
                                       pending0, vecs0, all, need, stored, before);
    if err.Some? {
      FailingBatch(stored, need, batchSize, start, end);
    }
  }

  /**
   * The first phase has gone through the batches of `handles[..end]`:
   * `fetches` are those batches, and `err`, `pending` and `vecs` are what
   * they produced, with an error only from the last of them.
   */
  ghost predicate WalkedUpTo(
    handles: seq<DescriptorHandle>,
    batchSize: nat,
    overwrite: bool,
    all: seq<ClassificationElement>,
    need: seq<bool>,
    stored: seq<Option<NdArray>>,
    before: seq<nat>,
    end: nat,
    err: Option<Error>,
    pending: seq<ClassificationElement>,
    vecs: seq<NdArray>,
    fetches: seq<seq<DescriptorHandle>>)
    reads all`classification, all`hasCalls
  {
    && batchSize > 0
    && end <= |handles| == |all| == |need| == |stored| == |before|
    && fetches + BatchesFrom(handles, batchSize, end) == Batches(handles, batchSize)
    && Concat(fetches) == handles[..end]
    && OnGrid(batchSize, end, |handles|)
    && NeedMarked(all, need, overwrite)
    && (err.None? ==> pending == SelectUpTo(all, need, end))
    && (err.None? ==> CheckStream(SelectUpTo(stored, need, end)) == Ok(vecs))
    && (err.Some? ==> FirstPhase(stored, need, batchSize) == Phase(err, end))
    && CallsCounted(all, before, overwrite, end)
  }

  /**
   * Each element of `all` has been asked `has_classifications` once per
   * occurrence among the first `n` entries more than `before` says, or not at
   * all with `overwrite`.
   */
  ghost predicate CallsCounted(all: seq<ClassificationElement>, before: seq<nat>, overwrite: bool, n: nat)
    requires n <= |all| == |before|
    reads all`hasCalls
  {
    forall j | 0 <= j < |all| :: all[j].hasCalls == before[j] + (if overwrite then 0 else Count(all[j], all, n))
  }

  /** The `hasCalls` counter of each element, in order. */
  ghost function CallCounts(es: seq<ClassificationElement>): (r: seq<nat>)
    reads es
    ensures |r| == |es| && forall j | 0 <= j < |es| :: r[j] == es[j].hasCalls
  {
    seq(|es|, j reads es requires 0 <= j < |es| => es[j].hasCalls)
  }

  /**
   * One fetched batch `handles[start..end]`, whose vectors are `chunk`, in
   * three passes: pair each handle with its element and ask it whether it
   * needs classifying; raise "no vector stored" if one that does has no
   * vector; then pull the vectors of those that do through the validation.
   */
  method CollectBatch(
    name: string,
    handles: seq<DescriptorHandle>,
    factory: (string, Hashable) -> ClassificationElement,
    overwrite: bool,
    start: nat,
    end: nat,
    chunk: seq<Option<NdArray>>,
    pending0: seq<ClassificationElement>,
    vecs0: seq<NdArray>,
    ghost all: seq<ClassificationElement>,
    ghost need: seq<bool>,
    ghost stored: seq<Option<NdArray>>,
    ghost before: seq<nat>)
    returns (err: Option<Error>, pending: seq<ClassificationElement>, vecs: seq<NdArray>)
    requires start <= end <= |handles|
    requires chunk == GetManyVectors(handles[start..end])
    requires all == Paired(name, handles, factory) && stored == GetManyVectors(handles)
    requires |need| == |all| == |before|
    requires NeedMarked(all, need, overwrite)
    requires pending0 == SelectUpTo(all, need, start)
    requires CheckStream(SelectUpTo(stored, need, start)) == Ok(vecs0)
    requires CallsCounted(all, before, overwrite, start)
    modifies all`hasCalls
    ensures NeedMarked(all, need, overwrite)
    ensures err.None? ==> pending == SelectUpTo(all, need, end)
    ensures err.None? ==> CheckStream(SelectUpTo(stored, need, end)) == Ok(vecs)
    ensures err.Some? ==>
              && CheckStream(SelectUpTo(stored, need, end)).Err?
              && CheckStream(Select(stored, need)).Err?
              && err.value == if MissingIn(stored, need, start, end) then NoVectorStored else CheckStream(Select(stored, need)).error
    ensures CallsCounted(all, before, overwrite, end)
  {
    var flags, chosen := AskBatch(name, handles, factory, overwrite, start, end, all, need, before);
    pending := pending0 + chosen;
    FetchedSlice(handles, start, end);
    err, vecs := CheckBatch(start, end, chunk, flags, vecs0, stored, need);
  }

  /**
   * The vectors of one batch `[start, end)`, once its handles are asked:
   * "no vector stored" if a handle that needs classifying has none, and
   * otherwise the vectors of those that do, pulled through the validation.
   */
  method CheckBatch(start: nat, end: nat, chunk: seq<Option<NdArray>>, flags: seq<bool>, vecs0: seq<NdArray>,
                    ghost stored: seq<Option<NdArray>>, ghost need: seq<bool>)
    returns (err: Option<Error>, vecs: seq<NdArray>)
    requires start <= end <= |stored| == |need|
    requires chunk == stored[start..end] && flags == need[start..end]
    requires CheckStream(SelectUpTo(stored, need, start)) == Ok(vecs0)
    ensures err.None? ==> CheckStream(SelectUpTo(stored, need, end)) == Ok(vecs)
    ensures err.Some? ==>
              && CheckStream(SelectUpTo(stored, need, end)).Err?
              && CheckStream(Select(stored, need)).Err?
              && err.value == if MissingIn(stored, need, start, end) then NoVectorStored else CheckStream(Select(stored, need)).error
  {
    var missing := exists k | 0 <= k < |flags| :: flags[k] && chunk[k].None?;
    MissingInBatch(stored, need, start, end);
    if missing {
      err, vecs := Some(NoVectorStored), vecs0;
      MissingInFails(stored, need, start, end);
      StreamFails(stored, need, end);
    } else {
      err, vecs := ValidateBatch(start, end, chunk, flags, vecs0, stored, need);
    }
  }

  /** `need` marks the elements that need classifying, as `NeedFlags` does. */
  ghost predicate NeedMarked(all: seq<ClassificationElement>, need: seq<bool>, overwrite: bool)
    requires |need| == |all|
    reads all`classification
  {
    forall k | 0 <= k < |all| :: need[k] == (overwrite || !all[k].Classified())
  }

  /**
   * The first pass has asked the handles of `[start, i)`: `flags` holds their
   * answers, `chosen` the elements that need classifying, and each element's
   * counter has grown by the asks made so far.
   */
  ghost predicate AskedUpTo(all: seq<ClassificationElement>, need: seq<bool>, before: seq<nat>, overwrite: bool,
                            start: nat, i: nat, flags: seq<bool>, chosen: seq<ClassificationElement>)
    reads all`classification, all`hasCalls
  {
    && start <= i <= |all| == |need| == |before|
    && NeedMarked(all, need, overwrite)
    && flags == need[start..i]
    && SelectUpTo(all, need, start) + chosen == SelectUpTo(all, need, i)
    && CallsCounted(all, before, overwrite, i)
  }

  /**
   * The first pass over one batch: pair each handle of `handles[start..end]`
   * with its element and ask it whether it needs classifying, before any
   * vector of the batch is looked at.  Returns the answers and the elements
   * that need classifying, in order.
   */
  method AskBatch(
    name: string,
    handles: seq<DescriptorHandle>,
    factory: (string, Hashable) -> ClassificationElement,
    overwrite: bool,
    start: nat,
    end: nat,
    ghost all: seq<ClassificationElement>,
    ghost need: seq<bool>,
    ghost before: seq<nat>)
    returns (flags: seq<bool>, chosen: seq<ClassificationElement>)
    requires start <= end <= |handles| == |all|
    requires forall k | start <= k < end :: all[k] == factory(name, handles[k].uid)
    requires AskedUpTo(all, need, before, overwrite, start, start, [], [])
    modifies all`hasCalls
    ensures AskedUpTo(all, need, before, overwrite, start, end, flags, chosen)
  {
    flags, chosen := [], [];
    var i := start;
    while i < end
      invariant i <= end
      invariant AskedUpTo(all, need, before, overwrite, start, i, flags, chosen)
    {
      flags, chosen, i := AskHandle(name, handles, factory, overwrite, start, i, flags, chosen, all, need, before);
    }
  }

  /** One step of the first pass: pair `handles[i]` with its element and ask it. */
  method AskHandle(
    name: string,
    handles: seq<DescriptorHandle>,
    factory: (string, Hashable) -> ClassificationElement,
    overwrite: bool,
    start: nat,
    i: nat,
    flags0: seq<bool>,
    chosen0: seq<ClassificationElement>,
    ghost all: seq<ClassificationElement>,
    ghost need: seq<bool>,
    ghost before: seq<nat>)
    returns (flags: seq<bool>, chosen: seq<ClassificationElement>, next: nat)
    requires i < |handles| == |all| && all[i] == factory(name, handles[i].uid)
    requires AskedUpTo(all, need, before, overwrite, start, i, flags0, chosen0)
    modifies all`hasCalls
    ensures next == i + 1
    ensures AskedUpTo(all, need, before, overwrite, start, next, flags, chosen)
  {
    var c := factory(name, handles[i].uid);
    next := i + 1;
    var needed := NeedsClassifying(c, overwrite, all, i, next, before);
    SelectSnoc(all, need, i);
    SliceSnoc(need, start, i, next);
    flags, chosen := flags0 + [needed], chosen0;
    if needed {
      chosen := chosen + [c];
    }
  }

  /**
   * The last pass over one batch: pull the vector of each handle of
   * `[start, end)` that needs classifying through the validation, stopping
   * at the first that fails.
   */
  method ValidateBatch(start: nat, end: nat, chunk: seq<Option<NdArray>>, flags: seq<bool>, vecs0: seq<NdArray>,
                       ghost stored: seq<Option<NdArray>>, ghost need: seq<bool>)
    returns (err: Option<Error>, vecs: seq<NdArray>)
    requires start <= end <= |stored| == |need|
    requires chunk == stored[start..end] && flags == need[start..end]
    requires CheckStream(SelectUpTo(stored, need, start)) == Ok(vecs0)
    ensures err.None? ==> CheckStream(SelectUpTo(stored, need, end)) == Ok(vecs)
    ensures err.Some? ==> CheckStream(SelectUpTo(stored, need, end)).Err? && CheckStream(Select(stored, need)) == Err(err.value)
  {
    err, vecs := None, vecs0;
    var i := start;
    while i < end && err.None?
      invariant start <= i <= end
      invariant err.None? ==> CheckStream(SelectUpTo(stored, need, i)) == Ok(vecs)
      invariant err.Some? ==> CheckStream(SelectUpTo(stored, need, end)).Err? && CheckStream(Select(stored, need)) == Err(err.value)
    {
      var next := i + 1;
      PullStep(stored, need, i, next, vecs, end);
      if flags[i - start] {
        var pulled := Pull(vecs, chunk[i - start]);
        if pulled.Err? {
          err := Some(pulled.error);
        } else {
          vecs := pulled.value;
        }
      }
      i := next;
    }
  }

  /** The bulk fetch of a batch gives the batch's slice of the stored vectors. */
  lemma FetchedSlice(hs: seq<DescriptorHandle>, start: nat, end: nat)
    requires start <= end <= |hs|
    ensures GetManyVectors(hs[start..end]) == GetManyVectors(hs)[start..end]
  {
  }

  /** Whether a handle of the batch `[start, end)` lacks a needed vector, read off the batch's own flags and vectors. */
  lemma MissingInBatch(stored: seq<Option<NdArray>>, need: seq<bool>, start: nat, end: nat)
    requires start <= end <= |stored| == |need|
    ensures MissingIn(stored, need, start, end) <==>
              exists k | 0 <= k < end - start :: need[start..end][k] && stored[start..end][k].None?
  {
    if MissingIn(stored, need, start, end) {
      var k :| start <= k < end && need[k] && stored[k].None?;
      assert need[start..end][k - start] && stored[start..end][k - start].None?;
    }
  }

  /** Fetching the batch that starts at `start` keeps the fetch list a prefix of all batches. */
  /** Fetching the batch at `start` keeps the fetches the batches so far, in step with the grid. */
  lemma NextBatch(hs: seq<DescriptorHandle>, size: nat, fetches: seq<seq<DescriptorHandle>>, start: nat, end: nat)
    requires size > 0 && start < |hs| && end == Min(start + size, |hs|)
    requires fetches + BatchesFrom(hs, size, start) == Batches(hs, size)
    requires Concat(fetches) == hs[..start]
    requires OnGrid(size, start, |hs|)
    ensures (fetches + [hs[start..end]]) + BatchesFrom(hs, size, end) == Batches(hs, size)
    ensures Concat(fetches + [hs[start..end]]) == hs[..end]
    ensures OnGrid(size, end, |hs|)
    ensures forall i | start <= i < end :: BatchStart(i, size, 0) == start
  {
    FetchStep(hs, size, fetches, start);
    GridStep(size, start, |hs|);
    GridBatch(size, start, |hs|);
    ConcatSnoc(fetches, hs[start..end]);
    assert hs[..start] + hs[start..end] == hs[..end];
  }

  lemma FetchStep(hs: seq<DescriptorHandle>, size: nat, fetches: seq<seq<DescriptorHandle>>, start: nat)
    requires size > 0 && start < |hs|
    requires fetches + BatchesFrom(hs, size, start) == Batches(hs, size)
    ensures (fetches + [hs[start..Min(start + size, |hs|)]]) + BatchesFrom(hs, size, Min(start + size, |hs|)) == Batches(hs, size)
  {
    BatchesFromStep(hs, size, start);
  }

  lemma SliceSnoc<T>(xs: seq<T>, lo: nat, i: nat, next: nat)
    requires lo <= i < |xs| && next == i + 1
    ensures xs[lo..next] == xs[lo..i] + [xs[i]]
  {
  }

  lemma {:induction false} ConcatSnoc<T>(xss: seq<seq<T>>, xs: seq<T>)
    ensures Concat(xss + [xs]) == Concat(xss) + xs
    decreases |xss|
  {
    if xss == [] {
      assert [xs][1..] == [];
    } else {
      assert (xss + [xs])[1..] == xss[1..] + [xs];
      ConcatSnoc(xss[1..], xs);
    }
  }

  /**
   * One handle of the stream: skipped when it needs no classification,
   * otherwise its vector is pulled through the validation; a failure there is
   * the failure of the whole stream.
   */
  lemma PullStep(stored: seq<Option<NdArray>>, need: seq<bool>, i: nat, next: nat, vecs: seq<NdArray>, end: nat)
    requires |stored| == |need| && i < end <= |stored| && next == i + 1
    requires CheckStream(SelectUpTo(stored, need, i)) == Ok(vecs)
    ensures !need[i] ==> CheckStream(SelectUpTo(stored, need, next)) == Ok(vecs)
    ensures need[i] ==> CheckStream(SelectUpTo(stored, need, next)) == Pull(vecs, stored[i])
    ensures need[i] && Pull(vecs, stored[i]).Err? ==>
              && CheckStream(SelectUpTo(stored, need, end)).Err?
              && CheckStream(Select(stored, need)) == Pull(vecs, stored[i])
  {
    SelectSnoc(stored, need, i);
    if need[i] {
      CheckStreamSnoc(SelectUpTo(stored, need, i), stored[i]);
      if Pull(vecs, stored[i]).Err? {
        PrefixFails(stored, need, next, end);
        StreamFails(stored, need, next);
      }
    }
  }

  /**
   * `overwrite or not c.has_classifications()` for the i-th element `c` of
   * `all`: the element is asked only without `overwrite`, which adds one to
   * the number of times each element of `all[..i+1]` has been asked.
   */
  method NeedsClassifying(c: ClassificationElement, overwrite: bool,
                          ghost all: seq<ClassificationElement>, ghost i: nat, ghost next: nat, ghost before: seq<nat>)
    returns (needed: bool)
    requires i < |all| == |before| && c == all[i] && next == i + 1
    requires CallsCounted(all, before, overwrite, i)
    modifies c`hasCalls
    ensures needed == (overwrite || !c.Classified())
    ensures CallsCounted(all, before, overwrite, next)
  {
    needed := true;
    if !overwrite {
      var has := c.HasClassifications();
      needed := !has;
    }
  }

  /** `elem.set_classification(c)` with one positional dict and no keywords. */
  method SetOne(t: ClassificationElement, m: Dict) returns (ok: bool)
    modifies t`classification, t`setLog
    ensures ok <==> !IsEmpty(m)
    ensures t.setLog == old(t.setLog) + [m]
    ensures t.classification == if ok then Some(m) else old(t.classification)
  {
    UpdateEmpty(m);
    if !IsEmpty(m) {
      MergeOneSource(m);
    }
    var res := t.SetClassification(Some(m), Empty);
    ok := res.Ok?;
  }

  /**
   * The second phase of `classify_elements`: write the k-th dict to the k-th
   * element to set, while both last; an empty dict makes
   * `set_classification` raise and ends the stream.
   * Stated for the elements of any sequence `all`: each receives exactly
   * the calls addressed to it, which is none when it is not a target.
   */
  method WriteClassifications(targets: seq<ClassificationElement>, maps: seq<Dict>, ghost all: seq<ClassificationElement>)
    returns (rec: Reconciled)
    modifies targets`classification, targets`setLog
    ensures rec == Reconcile(maps, |targets|)
    ensures forall j {:trigger CallsOn(all[j], targets, maps, rec.calls)} | 0 <= j < |all| ::
              && all[j].setLog == old(all[j].setLog) + CallsOn(all[j], targets, maps, rec.calls)
              && all[j].classification == AfterCalls(old(all[j].classification), CallsOn(all[j], targets, maps, rec.calls))
  {
    var lim := Min(|maps|, |targets|);
    var k := 0;
    while k < lim
      invariant 0 <= k <= lim
      invariant forall m | 0 <= m < k :: !IsEmpty(maps[m])
      invariant forall j {:trigger CallsOn(all[j], targets, maps, k)} | 0 <= j < |all| ::
                  && all[j].setLog == old(all[j].setLog) + CallsOn(all[j], targets, maps, k)
                  && all[j].classification == AfterCalls(old(all[j].classification), CallsOn(all[j], targets, maps, k))
    {
      var t, m := targets[k], maps[k];
      label Before:
      var ok := SetOne(t, m);
      k := k + 1;
      forall j {:trigger CallsOn(all[j], targets, maps, k)} | 0 <= j < |all|
        ensures all[j].setLog == old(all[j].setLog) + CallsOn(all[j], targets, maps, k)
        ensures all[j].classification == AfterCalls(old(all[j].classification), CallsOn(all[j], targets, maps, k))
      {
        var o, calls := all[j], CallsOn(all[j], targets, maps, k - 1);
        assert old@Before(o.setLog) == old(o.setLog) + calls;
        assert old@Before(o.classification) == AfterCalls(old(o.classification), calls);
        if o == t {
          assert CallsOn(o, targets, maps, k) == calls + [m];
          AfterCallsStep(old(o.classification), calls, m);
        } else {
          assert CallsOn(o, targets, maps, k) == calls;
        }
      }
      if !ok {
        rec := Reconciled(Some(NoLabelsGiven), k, false);
        ReconcileStopsAtEmpty(maps, |targets|, k);
        return;
      }
    }
    if |maps| < |targets| {
      rec := Reconciled(Some(UnderProduced), lim, true);
    } else if |maps| > |targets| {
      rec := Reconciled(Some(OverProduced), lim, false);
    } else {
      rec := Reconciled(None, lim, true);
    }
    ReconcileAllSet(maps, |targets|);
  }

  /**
   * `classify_elements(descr_iter, factory, overwrite, d_elem_batch)`,
   * consumed to the end.  Handles are fetched `batchSize` at a time, one
   * `get_many_vectors` call per batch (`fetches` lists their arguments).  Each
   * handle is paired, by uid, with the element `factory` gives; unless
   * `overwrite`, an element that already has a classification is skipped,
   * and with `overwrite` `has_classifications` is never asked.  The vectors of
   * the elements to set are validated in stream order and handed to
   * `routine`; the k-th dict is written to the k-th element to set with
   * `set_classification`.  The result is every element, in input order, or
   * an exception.  `completed` says whether `routine` ran to its end (its
   * finalizer ran).  All vectors are validated before the routine is called,
   * so this is the outcome for a routine that reads all its input before it
   * yields, not an interleaving of pulls and writes.
   */
  method ClassifyElements(
    name: string,
    routine: seq<NdArray> -> seq<Dict>,
    handles: seq<DescriptorHandle>,
    factory: (string, Hashable) -> ClassificationElement,
    overwrite: bool,
    batchSize: nat)
    returns (r: Result<seq<ClassificationElement>>, fetches: seq<seq<DescriptorHandle>>, completed: bool)
    requires batchSize > 0
    requires forall o | o in Paired(name, handles, factory) :: allocated(o)
    modifies Paired(name, handles, factory)`hasCalls, Paired(name, handles, factory)`classification,
             Paired(name, handles, factory)`setLog
    ensures r.Ok? ==> r.value == Paired(name, handles, factory)
    // With `overwrite` no element is asked; without it, each element was
    // asked once per occurrence among the handles asked: all of them unless
    // a vector failed, and then those up to the end of its batch.
    ensures var all := Paired(name, handles, factory);
            var phase := FirstPhase(GetManyVectors(handles), old(NeedFlags(all, overwrite)), batchSize);
            forall j | 0 <= j < |all| ::
              all[j].hasCalls == old(all[j].hasCalls) + (if overwrite then 0 else Count(all[j], all, phase.asked))
    // A missing or malformed vector: the error `FirstPhase` gives, raised
    // before any write, once the batches up to the failing one are fetched.
    ensures var all := Paired(name, handles, factory);
            var phase := FirstPhase(GetManyVectors(handles), old(NeedFlags(all, overwrite)), batchSize);
            phase.error.Some? ==>
              && r == Err(phase.error.value)
              && !completed
              && fetches <= Batches(handles, batchSize)
              && Concat(fetches) == handles[..phase.asked]
              && forall o | o in all :: o.classification == old(o.classification) && o.setLog == old(o.setLog)
    // Otherwise: every batch fetched, and the routine's dicts written in order.
    ensures var all := Paired(name, handles, factory);
            var need := old(NeedFlags(all, overwrite));
            var check := CheckStream(Select(GetManyVectors(handles), need));
            check.Ok? ==>
              var maps := routine(check.value);
              var rec := Reconcile(maps, |check.value|);
              && fetches == Batches(handles, batchSize)
              && r == (if rec.error.None? then Ok(all) else Err(rec.error.value))
              && completed == rec.drained
              && forall j | 0 <= j < |all| ::
                   && all[j].setLog == old(all[j].setLog) + CallsOn(all[j], Select(all, need), maps, rec.calls)
                   && all[j].classification == AfterCalls(old(all[j].classification), CallsOn(all[j], Select(all, need), maps, rec.calls))
  {
    var all := Paired(name, handles, factory);
    ghost var need := NeedFlags(all, overwrite);
    var err, pending, vecs;
    err, pending, vecs, fetches := CollectToCompute(name, handles, factory, overwrite, batchSize);
    if err.Some? {
      r, completed := Err(err.value), false;
      return;
    }
    r, completed := WritePhase(routine, all, need, GetManyVectors(handles), pending, vecs);
  }

  /**
   * The second phase of `classify_elements`: hand the validated vectors to
   * the routine and write its dicts to the elements needing classification,
   * in order.  Returns the elements themselves unless writing raised.
   */
  method WritePhase(
    routine: seq<NdArray> -> seq<Dict>,
    all: seq<ClassificationElement>,
    ghost need: seq<bool>,
    ghost stored: seq<Option<NdArray>>,
    pending: seq<ClassificationElement>,
    vecs: seq<NdArray>)
    returns (r: Result<seq<ClassificationElement>>, completed: bool)
    requires |need| == |all| == |stored|
    requires pending == Select(all, need)
    requires CheckStream(Select(stored, need)) == Ok(vecs)
    modifies all`classification, all`setLog
    ensures var rec := Reconcile(routine(vecs), |vecs|);
            && r == (if rec.error.None? then Ok(all) else Err(rec.error.value))
            && completed == rec.drained
            && forall j | 0 <= j < |all| ::
                 && all[j].setLog == old(all[j].setLog) + CallsOn(all[j], pending, routine(vecs), rec.calls)
                 && all[j].classification == AfterCalls(old(all[j].classification), CallsOn(all[j], pending, routine(vecs), rec.calls))
  {
    assert |pending| == |Select(stored, need)| == |vecs|;
    SelectSubset(all, need, |all|);
    assert forall p | 0 <= p < |pending| :: pending[p] in all;
    var maps := routine(vecs);
    var rec := WriteClassifications(pending, maps, all);
    completed := rec.drained;
    if rec.error.None? {
      r := Ok(all);
    } else {
      r := Err(rec.error.value);
    }
  }
  /** A failure among the first `j` selected entries is the failure of the whole stream. */
  lemma StreamFails(stored: seq<Option<NdArray>>, need: seq<bool>, j: nat)
    requires |need| == |stored| && j <= |stored|
    requires CheckStream(SelectUpTo(stored, need, j)).Err?
    ensures CheckStream(Select(stored, need)) == CheckStream(SelectUpTo(stored, need, j))
  {
    PrefixFails(stored, need, j, |stored|);
  }

  /** A failure among the first `j` selected entries is the failure of the first `n`, for `n >= j`. */
  lemma PrefixFails(stored: seq<Option<NdArray>>, need: seq<bool>, j: nat, n: nat)
    requires |need| == |stored| && j <= n <= |stored|
    requires CheckStream(SelectUpTo(stored, need, j)).Err?
    ensures CheckStream(SelectUpTo(stored, need, n)) == CheckStream(SelectUpTo(stored, need, j))
  {
    var front, whole := SelectUpTo(stored, need, j), SelectUpTo(stored, need, n);
    SelectPrefix(stored, need, j, n);
    assert whole == front + whole[|front|..];
    CheckStreamErrorSticks(front, whole[|front|..]);
  }

  /** The stream raises at the `stop`-th handle (counting from 1): not before it, and there. */
  predicate FailsAt(stored: seq<Option<NdArray>>, need: seq<bool>, stop: nat)
    requires |need| == |stored|
  {
    && 0 < stop <= |stored|
    && CheckStream(SelectUpTo(stored, need, stop - 1)).Ok?
    && CheckStream(SelectUpTo(stored, need, stop)).Err?
  }

  /**
   * How many of the first `n` handles the stream reads: all of them, or
   * those up to and including the first whose vector is missing or
   * malformed.
   */
  function HandlesRead(stored: seq<Option<NdArray>>, need: seq<bool>, n: nat): (r: nat)
    requires |need| == |stored| && n <= |stored|
    ensures r <= n
    ensures 0 < n ==> 0 < r
  {
    if n == 0 || CheckStream(SelectUpTo(stored, need, n)).Ok? then n
    else if CheckStream(SelectUpTo(stored, need, n - 1)).Ok? then n
    else HandlesRead(stored, need, n - 1)
  }

  /** A stream that raises at the `stop`-th handle reads exactly `stop` handles. */
  lemma {:induction false} HandlesReadAtFailure(stored: seq<Option<NdArray>>, need: seq<bool>, stop: nat, n: nat)
    requires |need| == |stored| && stop <= n <= |stored|
    requires FailsAt(stored, need, stop)
    ensures HandlesRead(stored, need, n) == stop
    decreases n
  {
    PrefixFails(stored, need, stop, n);
    if stop < n {
      PrefixFails(stored, need, stop, n - 1);
      HandlesReadAtFailure(stored, need, stop, n - 1);
    }
  }

  // ---------------------------------------------------------------------
  // How the first phase ends
  // ---------------------------------------------------------------------

  /** The start of the batch holding handle `i`, for batches of `size` handles from `lo` on. */
  function BatchStart(i: nat, size: nat, lo: nat): (b: nat)
    requires size > 0 && lo <= i
    ensures lo <= b <= i < b + size
    decreases i - lo
  {
    if i < lo + size then lo else BatchStart(i, size, lo + size)
  }

  /** Two handles of one batch have the same batch start. */
  lemma {:induction false} BatchStartSame(i: nat, j: nat, size: nat, lo: nat)
    requires size > 0 && lo <= i && lo <= j
    requires BatchStart(j, size, lo) <= i < BatchStart(j, size, lo) + size
    ensures BatchStart(i, size, lo) == BatchStart(j, size, lo)
    decreases j - lo
  {
    if lo + size <= j {
      BatchStartSame(i, j, size, lo + size);
    }
  }

  /** Every handle of the batch holding handle `m`, which ends at `hi`, has that batch's start. */
  lemma BatchOf(m: nat, size: nat, hi: nat)
    requires size > 0 && BatchStart(m, size, 0) < hi <= BatchStart(m, size, 0) + size
    ensures forall i | BatchStart(m, size, 0) <= i < hi :: BatchStart(i, size, 0) == BatchStart(m, size, 0)
  {
    forall i | BatchStart(m, size, 0) <= i < hi
      ensures BatchStart(i, size, 0) == BatchStart(m, size, 0)
    {
      BatchStartSame(i, m, size, 0);
    }
  }

  /** `lo` is a batch boundary: every later handle's batch is the same counted from 0 or from `lo`. */
  predicate OnGrid(size: nat, lo: nat, n: nat)
    requires size > 0
  {
    forall i | lo <= i < n :: BatchStart(i, size, 0) == BatchStart(i, size, lo)
  }

  /** The end of a batch that starts on the grid is on the grid. */
  lemma GridStep(size: nat, lo: nat, n: nat)
    requires size > 0 && OnGrid(size, lo, n)
    ensures OnGrid(size, Min(lo + size, n), n)
  {
    forall i | Min(lo + size, n) <= i < n
      ensures BatchStart(i, size, 0) == BatchStart(i, size, Min(lo + size, n))
    {
      assert BatchStart(i, size, lo) == BatchStart(i, size, lo + size);
    }
  }

  /** Every handle of the batch starting on the grid at `lo` has its batch start there. */
  lemma GridBatch(size: nat, lo: nat, n: nat)
    requires size > 0 && OnGrid(size, lo, n)
    ensures forall i | lo <= i < Min(lo + size, n) :: BatchStart(i, size, 0) == lo
  {
    forall i | lo <= i < Min(lo + size, n)
      ensures BatchStart(i, size, 0) == lo
    {
      assert BatchStart(i, size, lo) == lo;
    }
  }

  /** A handle in `[lo, hi)` needs classifying and has no stored vector. */
  predicate MissingIn(stored: seq<Option<NdArray>>, need: seq<bool>, lo: nat, hi: nat)
    requires lo <= hi <= |stored| == |need|
  {
    exists k | lo <= k < hi :: need[k] && stored[k].None?
  }

  /** A handle `m` of `[lo, hi)` lacking a needed vector: the stream over the first `hi` handles fails. */
  lemma MissingAt(stored: seq<Option<NdArray>>, need: seq<bool>, lo: nat, hi: nat, m: nat)
    requires lo <= m < hi <= |stored| == |need| && need[m] && stored[m].None?
    ensures MissingIn(stored, need, lo, hi)
    ensures CheckStream(SelectUpTo(stored, need, hi)).Err?
  {
    MissingInFails(stored, need, lo, hi);
  }

  /** A missing vector among the handles `[lo, hi)` makes the stream over the first `hi` handles fail. */
  lemma MissingInFails(stored: seq<Option<NdArray>>, need: seq<bool>, lo: nat, hi: nat)
    requires lo <= hi <= |stored| == |need|
    requires MissingIn(stored, need, lo, hi)
    ensures CheckStream(SelectUpTo(stored, need, hi)).Err?
  {
    var k :| lo <= k < hi && need[k] && stored[k].None?;
    SelectSnoc(stored, need, k);
    if CheckStream(SelectUpTo(stored, need, k)).Ok? {
      CheckStreamSnoc(SelectUpTo(stored, need, k), stored[k]);
    } else {
      PrefixFails(stored, need, k, k + 1);
    }
    PrefixFails(stored, need, k + 1, hi);
  }

  /** Where the stream first fails, given that it succeeds on the first `lo` handles and fails on the first `hi`. */
  lemma {:induction false} FirstFailure(stored: seq<Option<NdArray>>, need: seq<bool>, lo: nat, hi: nat) returns (stop: nat)
    requires |need| == |stored| && lo <= hi <= |stored|
    requires CheckStream(SelectUpTo(stored, need, lo)).Ok? && CheckStream(SelectUpTo(stored, need, hi)).Err?
    ensures lo < stop <= hi && FailsAt(stored, need, stop)
    decreases hi
  {
    assert lo < hi;
    if CheckStream(SelectUpTo(stored, need, hi - 1)).Ok? {
      stop := hi;
    } else {
      stop := FirstFailure(stored, need, lo, hi - 1);
    }
  }

  /** How the first phase ends: the exception raised, if any, and how many handles were asked. */
  datatype Phase = Phase(error: Option<Error>, asked: nat)

  /**
   * The outcome of the first phase for batches of `size` handles.  Every
   * handle of a batch is asked before the batch's vectors are looked at, and
   * a missing vector is caught before the batch's vectors are validated.  So
   * the phase stops after the whole batch in which the stream first fails,
   * raising "no vector stored" if a handle of that batch lacks its vector,
   * and the stream's own error otherwise.
   */
  function FirstPhase(stored: seq<Option<NdArray>>, need: seq<bool>, size: nat): (r: Phase)
    requires size > 0 && |need| == |stored|
    ensures r.asked <= |stored|
    ensures r.error.None? <==> CheckStream(Select(stored, need)).Ok?
    ensures r.error.None? ==> r.asked == |stored|
    ensures r.error.Some? ==> r.error.value.IsValueError() && 0 < r.asked
  {
    var check := CheckStream(Select(stored, need));
    if check.Ok? then
      Phase(None, |stored|)
    else
      var stop := HandlesRead(stored, need, |stored|);
      var lo := BatchStart(stop - 1, size, 0);
      var hi := Min(lo + size, |stored|);
      Phase(Some(if MissingIn(stored, need, lo, hi) then NoVectorStored else check.error), hi)
  }

  /**
   * The batch `[lo, hi)` is where the stream first fails: the phase stops at
   * its end, with "no vector stored" if one of its handles lacks a vector,
   * and the stream's own error otherwise.
   */
  lemma FailingBatch(stored: seq<Option<NdArray>>, need: seq<bool>, size: nat, lo: nat, hi: nat)
    requires size > 0 && |need| == |stored| && lo <= hi == Min(lo + size, |stored|)
    requires forall i | lo <= i < hi :: BatchStart(i, size, 0) == lo
    requires CheckStream(SelectUpTo(stored, need, lo)).Ok? && CheckStream(SelectUpTo(stored, need, hi)).Err?
    ensures CheckStream(Select(stored, need)).Err?
    ensures FirstPhase(stored, need, size) ==
              Phase(Some(if MissingIn(stored, need, lo, hi) then NoVectorStored else CheckStream(Select(stored, need)).error), hi)
  {
    StreamFails(stored, need, hi);
    var stop := FirstFailure(stored, need, lo, hi);
    HandlesReadAtFailure(stored, need, stop, |stored|);
    assert BatchStart(stop - 1, size, 0) == lo;
  }

  /**
   * A handle `m` needing classification whose vector is missing raises "no
   * vector stored" unless the stream failed in an earlier batch, even when a
   * malformed vector comes before it in its own batch `[lo, hi)`; every
   * handle of that batch has then been asked.
   */
  lemma MissingVectorInBatch(stored: seq<Option<NdArray>>, need: seq<bool>, size: nat, m: nat, lo: nat, hi: nat)
    requires size > 0 && |need| == |stored| && m < |stored| && need[m] && stored[m].None?
    requires lo == BatchStart(m, size, 0) && hi == Min(lo + size, |stored|)
    requires CheckStream(SelectUpTo(stored, need, lo)).Ok?
    ensures FirstPhase(stored, need, size) == Phase(Some(NoVectorStored), hi)
  {
    MissingAt(stored, need, lo, hi, m);
    BatchOf(m, size, hi);
    FailingBatch(stored, need, size, lo, hi);
  }

  /** With every needed vector present, the phase raises exactly what the stream raises. */
  lemma NoMissingVector(stored: seq<Option<NdArray>>, need: seq<bool>, size: nat)
    requires size > 0 && |need| == |stored|
    requires forall k | 0 <= k < |stored| :: need[k] ==> stored[k].Some?
    ensures CheckStream(Select(stored, need)).Err? ==> FirstPhase(stored, need, size).error == Some(CheckStream(Select(stored, need)).error)
  {
  }
}
