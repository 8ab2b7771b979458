# Batched descriptor classification, modelled in Dafny

This project models two pieces of a descriptor-classification library.

**`ClassifyDescriptor`: the batched classification pipeline.**
- The dimension-consistency validator. A genuine 2-D array passes through unchanged. Any other sequence of vectors is checked one item at a time: each item must be 1-D and as long as the first.
- `classify_arrays`. It runs the validator and hands the vectors to a per-array classification routine.
- `classify_elements`:
  - Descriptor handles are taken in batches of `d_elem_batch`, with one bulk `get_many_vectors` fetch per batch.
  - The factory pairs each handle with a result element by uid.
  - Elements that already hold a classification are skipped, unless `overwrite` is set. With `overwrite`, `has_classifications` is never asked.
  - The vectors of the remaining elements are validated and given to the routine.
  - Each returned dict is written back with `set_classification`.
  - Every element is returned in input order.
  - A missing vector, inconsistent dimensions, and a routine that gives too few or too many dicts are errors.
- The test suite's `DummyClassifier` routines are modelled too.

**`ClassificationElement`: the classification result value object.**
- An identity `(type_name, uuid)`, with the hash taken from the identity alone.
- Content-based equality, item lookup, the bool cast and `max_label`.
- State capture and restore of the identity only.
- `set_classification`, which merges a positional dict with keyword entries and refuses an empty result.
- The configuration rule: the runtime `type_name` and `uuid` override same-named config keys.

The implementation modules are not part of this model. The behaviour modelled is what the interface tests assert of them, so every source reference below is a test file.

Files:
- `prelude.dfy`: `Option` and the hashable key type.
- `exceptions.dfy`: the raised exceptions as values, and `Result`.
- `dicts.dfy`: an insertion-ordered Python dict with `d[k] = v`, `update` and the scan behind `max`.
- `classification_element.dfy`: `ClassificationElement`.
- `classify_descriptor.dfy`: the pipeline.
- `dummy_classifier.dfy`: the three dummy routines and how the pipeline ends with each.

How the pipeline is modelled:
- The pipeline runs eagerly, in two phases:
  - first it goes through the handles batch by batch. For each batch it fetches the vectors, asks every handle of the batch whether its element needs classifying, raises "no vector stored" if a handle that does has no vector, and only then validates that batch's needed vectors in order;
  - only then does it call the routine and write the routine's dicts back.
- So the first phase stops at the end of the batch in which the element stream first fails. A missing vector in that batch wins over a malformed vector before it in the same batch. `FirstPhase` states this outcome as a function.
- This is the outcome for a routine that reads its whole input before it yields. How it differs from the lazy generators is listed under "## Left out".
- `classify_elements` is a method (`ClassifyElements`). Its first phase (`CollectToCompute`) has an outer loop over batches (`WalkBatches`, one step per `WalkBatch`). Each batch (`CollectBatch`) goes through three passes:
  - a loop that asks each handle (`AskBatch`, one step per `AskHandle`);
  - the missing-vector check (`CheckBatch`);
  - a validation loop (`ValidateBatch`).
- The second phase (`WritePhase`) calls the routine on the validated vectors, and a loop (`WriteClassifications`) writes its dicts.
- Result elements are objects of the class `ClassificationElement`:
  - `has_classifications` adds to a ghost counter `hasCalls`;
  - `set_classification` appends its argument to a ghost log `setLog` and updates the stored dict.
- The list of `get_many_vectors` arguments is returned as `fetches`.
- Whether the routine ran to its end, which is when `post_iterator_check` fires, is returned as `completed`.

## Model

| member | source | states |
|---|---|---|
| Dicts.Update | tests/interfaces/test_classification_element.py:386-423 | `d.update(e)`: the entries are those of `d` overlaid by `e`, and `d`'s keys keep their positions at the front |
| Dicts.UpdateEmpty | tests/interfaces/test_classification_element.py:386-396 | copying a dict into an empty one reproduces its entries and its key order |
| Dicts.UpdateWithEmpty | tests/interfaces/test_classification_element.py:386-396 | updating with an empty dict changes nothing |
| Dicts.SetAllAppends | tests/interfaces/test_classification_element.py:410-423 | setting keys that are all new appends them in the order given |
| Dicts.MaxIndex | tests/interfaces/test_classification_element.py:346-358 | the index of a key whose value no key exceeds; every earlier key is strictly smaller, so ties go to the first key |
| ClassificationElements.Combine | tests/interfaces/test_classification_element.py:398-423 | `dict(m or {}, **kwds)`: the positional entries overlaid by the keyword ones, with the positional keys first |
| ClassificationElements.MergeClassification | tests/interfaces/test_classification_element.py:360-441 | success exactly when the positional dict or the keywords give a label; the stored dict is their union; otherwise ValueError "No classification labels/values given." |
| ClassificationElements.MergeDisjoint | tests/interfaces/test_classification_element.py:410-423 | with disjoint labels, the positional and keyword entries are united, positional first |
| ClassificationElements.MergeOneSource | tests/interfaces/test_classification_element.py:386-409 | a dict given alone, positionally or as keywords, is stored unchanged |
| ClassificationElements.GetItem | tests/interfaces/test_classification_element.py:129-139 | `e[label]` is the label's confidence; an absent label raises KeyError; an unset element raises NoClassificationError |
| ClassificationElements.MaxLabel | tests/interfaces/test_classification_element.py:207-229 | succeeds exactly when a non-empty dict is stored; the label it returns is present, no confidence exceeds it, and every label before it is strictly lower; otherwise NoClassificationError |
| ClassificationElements.MaxLabelIsLargestItem | tests/interfaces/test_classification_element.py:346-358 | the label `max_label` returns can be looked up, and no lookup returns more |
| ClassificationElements.Eq | tests/interfaces/test_classification_element.py:59-127 | `==` holds only against another element; an element equals anything with the same contents, whatever its identity; an unset element equals exactly the elements with no labels |
| ClassificationElements.Ne | tests/interfaces/test_classification_element.py:59-127 | `!=` holds against any non-element, and never between two elements with the same contents |
| ClassificationElements.EqualityTable | tests/interfaces/test_classification_element.py:59-127 | both unset are equal; exactly one unset are unequal in both directions; two set elements are equal exactly when their dicts are; a non-element is never equal; `!=` negates `==` |
| ClassificationElements.DefaultConfig | tests/interfaces/test_classification_element.py:231-241 | the default config holds every constructor default except `type_name` and `uuid` |
| ClassificationElements.FromConfigCall | tests/interfaces/test_classification_element.py:243-344 | the config passed on is the given one with `type_name` and `uuid` set to the runtime arguments, every other key unchanged, and `merge_default` passed through |
| ClassificationElements.RuntimeIdentityPrevails | tests/interfaces/test_classification_element.py:293-344 | whatever the config holds and whatever `merge_default` is, the element is built with the runtime `type_name` and `uuid` |
| ClassificationElements.ClassificationElement.constructor | tests/interfaces/test_classification_element.py:50-53 | stores `type_name` and `uuid`, with no classification yet |
| ClassificationElements.ClassificationElement.GetClassification | tests/interfaces/test_classification_element.py:85-127 | returns the stored dict exactly when a non-empty one is stored |
| ClassificationElements.ClassificationElement.HasClassifications | tests/interfaces/test_classification_element.py:141-156 | answers whether a non-empty dict is stored, and counts the call |
| ClassificationElements.ClassificationElement.HashKey | tests/interfaces/test_classification_element.py:55-57 | the hashed key is `(type_name, uuid)`, and its reads frame leaves out the stored dict |
| ClassificationElements.ClassificationElement.GetState | tests/interfaces/test_classification_element.py:158-172 | the captured state is exactly `(type_name, uuid)` |
| ClassificationElements.ClassificationElement.SetState | tests/interfaces/test_classification_element.py:174-188 | restoring sets exactly `type_name` and `uuid` to the given state |
| ClassificationElements.ClassificationElement.SetClassification | tests/interfaces/test_classification_element.py:360-441 | returns the merge result and logs the call; on success stores the merged dict, on ValueError keeps the old one |
| ClassificationElements.ClassificationElement.Truthy | tests/interfaces/test_classification_element.py:141-156 | `bool(e)` holds exactly when `get_classification` returns a dict rather than raising |
| ClassificationElements.TruthyIffMaxLabel | tests/interfaces/test_classification_element.py:141-156 | `bool(e)` holds exactly when a classification is stored, which is exactly when `max_label` succeeds |
| ClassificationElements.PickleRoundTrip | tests/interfaces/test_classification_element.py:190-205 | the copy is a fresh instance with the same `(type_name, uuid)` and no classification |
| ClassifyDescriptor.Vectors | tests/interfaces/test_classify_descriptor.py:102-108 | iterating a matrix yields its rows as 1-D vectors; any other input yields its items unchanged |
| ClassifyDescriptor.CheckItems | tests/interfaces/test_classify_descriptor.py:75-108 | succeeds exactly when every item is 1-D and as long as the first, and then yields the items unchanged; otherwise the error is that of the first item breaking consistency ("more than one dimension" or "violated dimension consistency") |
| ClassifyDescriptor.ConsistentSnoc | tests/interfaces/test_classify_descriptor.py:75-108 | a sequence of vectors is consistent exactly when all but the last are and the last passes the per-item check against the first |
| ClassifyDescriptor.AssertArrayDimConsistency | tests/interfaces/test_classify_descriptor.py:68-108 | a 2-D matrix is returned as it is, unchecked; other input succeeds exactly when consistent, and returns itself |
| ClassifyDescriptor.MatrixRowsConsistent | tests/interfaces/test_classify_descriptor.py:68-73 | a matrix input has rows of one length by construction, so its row vectors always pass the per-item check and skipping it loses nothing |
| ClassifyDescriptor.ClassifyArrays | tests/interfaces/test_classify_descriptor.py:110-132 | succeeds exactly when validation does, giving the routine's dicts for the vectors; a validation error is a ValueError, and then the routine does not reach its end |
| ClassifyDescriptor.Batches | tests/interfaces/test_classify_descriptor.py:360-417 | every fetch batch holds at least one handle and at most B, and there is no fetch exactly when there are no handles |
| ClassifyDescriptor.BatchSizes | tests/interfaces/test_classify_descriptor.py:360-417 | from any start, each batch holds between 1 and B handles, and batches remain exactly while handles do |
| ClassifyDescriptor.BatchesFromCount | tests/interfaces/test_classify_descriptor.py:360-417 | the number of batches from a start index is the ceiling of the remaining handles over the batch size |
| ClassifyDescriptor.BatchesPartition | tests/interfaces/test_classify_descriptor.py:360-417 | the batches concatenate back to the handles, they number ⌈N/B⌉, and batch j is the slice from j·B up to the smaller of (j+1)·B and N |
| ClassifyDescriptor.TwentyNineHandles | tests/interfaces/test_classify_descriptor.py:360-417 | 29 handles give one batch of all 29 with B=100, `[:20]` and `[20:]` with B=20, and one batch per handle with B=1 |
| ClassifyDescriptor.Pull | tests/interfaces/test_classify_descriptor.py:146-165 | one more item of the validated element stream: a missing vector raises ValueError, and a present one is validated against the first |
| ClassifyDescriptor.CheckStream | tests/interfaces/test_classify_descriptor.py:146-165 | on success yields one vector per stored handle, in order; every failure is a ValueError |
| ClassifyDescriptor.CheckStreamErrorSticks | tests/interfaces/test_classify_descriptor.py:146-165 | once the stream has raised, later handles change nothing |
| ClassifyDescriptor.CheckStreamAllStored | tests/interfaces/test_classify_descriptor.py:146-155 | when every handle has a vector, elements raise exactly what `classify_arrays` raises for those vectors |
| ClassifyDescriptor.MissingVectorRaises | tests/interfaces/test_classify_descriptor.py:157-165 | a handle with no stored vector raises "no vector stored", unless an earlier vector already failed |
| ClassifyDescriptor.Reconcile | tests/interfaces/test_classify_descriptor.py:167-196 | how writing ends. Nothing is raised exactly when the routine gives as many dicts as elements, all non-empty. "Under-produced" means too few, all non-empty; "over-produced" means too many with the first n non-empty; ValueError means an empty dict among those written. Also gives how many `set_classification` calls were made, and whether the routine ran to its end: it did exactly when nothing is raised or on under-production; over-production is found by pulling one dict too many, and an empty dict ends the stream, both leaving it unfinished |
| ClassifyDescriptor.ReconcileStopsAtEmpty | tests/interfaces/test_classify_descriptor.py:167-196 | the stream ends at the first empty dict, after the call that refused it |
| ClassifyDescriptor.ReconcileAllSet | tests/interfaces/test_classify_descriptor.py:167-196 | with no empty dict among those written, only the two lengths decide the outcome |
| ClassifyDescriptor.SelectSubset | tests/interfaces/test_classify_descriptor.py:300-358 | the elements chosen for classification are among the paired elements |
| ClassifyDescriptor.SelectPrefix | tests/interfaces/test_classify_descriptor.py:300-358 | choosing from a prefix of the handles gives a prefix of the choice from all of them |
| ClassifyDescriptor.CallsOnAbsent | tests/interfaces/test_classify_descriptor.py:233-262 | an element that is not a target receives no `set_classification` call |
| ClassifyDescriptor.CountDistinct | tests/interfaces/test_classify_descriptor.py:300-358 | with distinct elements, each element among the first n occurs once there, so it is asked `has_classifications` exactly once |
| ClassifyDescriptor.CallsOnDistinct | tests/interfaces/test_classify_descriptor.py:300-358 | with distinct targets, each target reached receives exactly one call, with its own dict, and the rest receive none |
| ClassifyDescriptor.Paired | tests/interfaces/test_classify_descriptor.py:198-232 | one element per handle, in order: the factory's element for the handle's uid |
| ClassifyDescriptor.CollectToCompute | tests/interfaces/test_classify_descriptor.py:146-358 | the first phase. It ends as `FirstPhase` says: it fails exactly when the needed vectors do not validate, with the error `FirstPhase` gives, and the batches fetched are exactly those up to and including the failing one. On success: all batches were fetched; the elements to set are the paired elements needing classification, in order; the vectors are theirs. On every path each element was asked `has_classifications` once per occurrence among the handles asked (all of them, or those up to the end of the failing batch), or never with `overwrite` |
| ClassifyDescriptor.WalkBatches | tests/interfaces/test_classify_descriptor.py:146-232 | the outer loop over fetch batches: the error is `FirstPhase`'s; the fetches are the batches in order and concatenate to exactly the handles asked; on success every batch was fetched and the selection and vectors are those of all handles; the call counts match the handles asked |
| ClassifyDescriptor.WalkBatch | tests/interfaces/test_classify_descriptor.py:360-417 | one outer step: fetches the next batch, `handles[start..min(start+B, N)]`, and keeps the loop's account (fetches, selection, vectors, call counts, and `FirstPhase` on an error) up to that batch's end |
| ClassifyDescriptor.CollectBatch | tests/interfaces/test_classify_descriptor.py:146-300 | one batch `[start, end)`: extends the selection, the vectors and the call counts to the batch's end; on failure the stream up to the batch's end fails, and the error is "no vector stored" if a needed vector of the batch is missing, the whole stream's error otherwise |
| ClassifyDescriptor.AskBatch | tests/interfaces/test_classify_descriptor.py:198-300 | the first pass over a batch asks every handle of it: the answers are exactly the batch's need flags, the chosen elements extend the selection to the batch's end, and each element's counter grows by its occurrences in the batch |
| ClassifyDescriptor.AskHandle | tests/interfaces/test_classify_descriptor.py:198-300 | one handle: pairs it with its element by uid, asks it, and extends the answers, the selection and the call counts by that handle |
| ClassifyDescriptor.CheckBatch | tests/interfaces/test_classify_descriptor.py:146-165 | a batch whose needed handles all have vectors is validated; otherwise "no vector stored" is raised, before any of the batch's vectors is validated |
| ClassifyDescriptor.ValidateBatch | tests/interfaces/test_classify_descriptor.py:146-155 | pulls the batch's needed vectors through the validation in order: extends the validated vectors to the batch's end, or returns the whole stream's error |
| ClassifyDescriptor.FirstPhase | tests/interfaces/test_classify_descriptor.py:146-165 | how the first phase ends: it raises exactly when the element stream fails, always a ValueError; with no error every handle was asked, otherwise at least one |
| ClassifyDescriptor.FailingBatch | tests/interfaces/test_classify_descriptor.py:146-165 | if the stream first fails within the batch `[lo, hi)`, the phase stops at `hi` with "no vector stored" when a needed vector of the batch is missing, and the stream's own error otherwise |
| ClassifyDescriptor.MissingVectorInBatch | tests/interfaces/test_classify_descriptor.py:157-165 | a needed handle without a vector raises "no vector stored" unless an earlier batch failed, even after a malformed vector of its own batch, and the phase asks its whole batch |
| ClassifyDescriptor.NoMissingVector | tests/interfaces/test_classify_descriptor.py:146-155 | with every needed vector stored, the phase raises exactly what the validation raises |
| ClassifyDescriptor.BatchStart | tests/interfaces/test_classify_descriptor.py:360-417 | the start of the batch holding a handle: at most the handle's index, and less than a batch size before it |
| ClassifyDescriptor.BatchStartSame | tests/interfaces/test_classify_descriptor.py:360-417 | handles of one batch share its start |
| ClassifyDescriptor.BatchOf | tests/interfaces/test_classify_descriptor.py:360-417 | every handle between a batch's start and its end has that start |
| ClassifyDescriptor.GridStep | tests/interfaces/test_classify_descriptor.py:360-417 | a batch that starts on the grid of multiples of B ends on it |
| ClassifyDescriptor.GridBatch | tests/interfaces/test_classify_descriptor.py:360-417 | each handle of a batch starting on the grid has its batch start there |
| ClassifyDescriptor.NextBatch | tests/interfaces/test_classify_descriptor.py:360-417 | fetching the next batch keeps the fetches equal to the first batches, concatenating to the handles so far, with the new end on the grid |
| ClassifyDescriptor.MissingAt | tests/interfaces/test_classify_descriptor.py:157-165 | a needed handle without a vector makes its range hold a missing vector and the stream up to the range's end fail |
| ClassifyDescriptor.MissingInFails | tests/interfaces/test_classify_descriptor.py:157-165 | a missing needed vector in a range makes the stream up to the range's end fail |
| ClassifyDescriptor.FirstFailure | tests/interfaces/test_classify_descriptor.py:146-165 | a stream that succeeds up to `lo` and fails up to `hi` first fails at some handle in between |
| ClassifyDescriptor.PullStep | tests/interfaces/test_classify_descriptor.py:146-165 | one more handle through the validation: a failure of the handle's pull is the failure of the whole stream |
| ClassifyDescriptor.HandlesReadAtFailure | tests/interfaces/test_classify_descriptor.py:146-165 | a stream that first raises at some handle reads exactly the handles up to and including it |
| ClassifyDescriptor.PrefixFails | tests/interfaces/test_classify_descriptor.py:146-165 | a failure among the first handles is the failure of every longer prefix |
| ClassifyDescriptor.BatchSlices | tests/interfaces/test_classify_descriptor.py:360-417 | batch j starts at j·B, inside the handles, and is the slice from there up to the smaller of (j+1)·B and N |
| ClassifyDescriptor.NthSet | tests/interfaces/test_classify_descriptor.py:300-358 | the handle of the k-th element chosen for classification is a chosen handle among the first n |
| ClassifyDescriptor.SelectAt | tests/interfaces/test_classify_descriptor.py:300-358 | the k-th chosen element is the element of the k-th chosen handle |
| ClassifyDescriptor.NthSetIncreasing | tests/interfaces/test_classify_descriptor.py:300-358 | the chosen handles keep their input order |
| ClassifyDescriptor.NthSetOfRank | tests/interfaces/test_classify_descriptor.py:300-358 | a chosen handle j is the r-th chosen one, with r the number of chosen handles before j |
| ClassifyDescriptor.SelectDistinct | tests/interfaces/test_classify_descriptor.py:300-358 | choosing from distinct elements gives distinct elements |
| ClassifyDescriptor.NotSelected | tests/interfaces/test_classify_descriptor.py:300-358 | with distinct elements, one not needing classification is not among those chosen |
| ClassifyDescriptor.NeedsClassifying | tests/interfaces/test_classify_descriptor.py:233-300 | the element needs classifying exactly when `overwrite` holds or it has no classification; it is asked only without `overwrite` |
| ClassifyDescriptor.SetOne | tests/interfaces/test_classify_descriptor.py:198-232 | `set_classification(m)` succeeds exactly when `m` is non-empty, logs `m`, and then stores it |
| ClassifyDescriptor.WriteClassifications | tests/interfaces/test_classify_descriptor.py:167-232 | the second phase ends as `Reconcile` says; every element received exactly the dicts addressed to it, in call order; its stored dict is the last non-empty one of those |
| ClassifyDescriptor.WritePhase | tests/interfaces/test_classify_descriptor.py:167-232 | calls the routine on the validated vectors and ends as `Reconcile` says; every element receives exactly the routine's dicts addressed to it, in order, and stores the last non-empty one; returns the elements unless writing raised |
| ClassifyDescriptor.ClassifyElements | tests/interfaces/test_classify_descriptor.py:134-417 | changes only the `hasCalls`, `classification` and `setLog` fields of the paired elements, so their identity is kept. On success returns the factory's elements in input order, with every batch fetched. With `overwrite`, `has_classifications` is never called; otherwise once per occurrence among the handles asked, on every path. Each element needing classification receives the routine's dict for it, in order, and the others receive none. A bad vector raises `FirstPhase`'s error before anything is written (both phases are eager here), after exactly the batches up to the failing one are fetched; a routine of the wrong length raises IndexError |
| DummyClassifier.FirstValueMaps | tests/interfaces/test_classify_descriptor.py:33-41 | one dict per vector, in order, holding the label `'test'` with the vector's first value |
| DummyClassifier.CountingMaps | tests/interfaces/test_classify_descriptor.py:43-59 | `{'test': i}` for i from 0 to n-1 |
| DummyClassifier.TooFewMaps | tests/interfaces/test_classify_descriptor.py:43-49 | one dict fewer than vectors, or none for no vectors |
| DummyClassifier.TooManyMaps | tests/interfaces/test_classify_descriptor.py:51-59 | the counting dicts for the vectors, then `{'test': i+1}` and `{'test': i+2}` with `i` the last index, or 0 for no vectors |
| DummyClassifier.ClassifyFirstValue | tests/interfaces/test_classify_descriptor.py:33-41 | the loop of `_classify_arrays` yields exactly `FirstValueMaps` |
| DummyClassifier.ClassifyTooFew | tests/interfaces/test_classify_descriptor.py:43-49 | the loop of `_classify_too_few` yields exactly `TooFewMaps` |
| DummyClassifier.ClassifyTooMany | tests/interfaces/test_classify_descriptor.py:51-59 | the loop of `_classify_too_many` yields exactly `TooManyMaps` |
| DummyClassifier.FirstValueAligned | tests/interfaces/test_classify_descriptor.py:198-231 | with `_classify_arrays` nothing is raised, every element to set is set, and the routine runs to its end |
| DummyClassifier.FirstValueSetsOwnVector | tests/interfaces/test_classify_descriptor.py:300-358 | with `_classify_arrays` and distinct elements whose vectors validate, an element needing classification receives exactly one dict, `{'test': v[0]}` for its own handle's vector `v`; every other element receives none |
| DummyClassifier.TooFewUnderProduces | tests/interfaces/test_classify_descriptor.py:167-180 | with `_classify_too_few` on n > 0 vectors, the n-1 dicts are set and then IndexError "under-produced" is raised; on no vectors nothing is raised |
| DummyClassifier.TooManyOverProduces | tests/interfaces/test_classify_descriptor.py:182-196 | with `_classify_too_many`, every element is set and then IndexError "over-produced" is raised once the first extra dict is pulled; the routine does not finish |
| DummyClassifier.ClassifyArraysEmpty | tests/interfaces/test_classify_descriptor.py:118-123 | an empty input yields no dicts, and the routine still runs to its end |
| DummyClassifier.ClassifyArraysInconsistent | tests/interfaces/test_classify_descriptor.py:110-116 | vectors of lengths 3, 2 and 4 raise "violated dimension consistency", and the routine does not finish |
| DummyClassifier.ClassifyArraysMatrix | tests/interfaces/test_classify_descriptor.py:125-132 | a 3x3 matrix gives the three dicts `{'test': 1}`, `{'test': 4}` and `{'test': 7}`, and the routine runs to its end |

## Left out

- Laziness. Generators and the interleaving of fetches, `has_classifications` calls and writes with the caller's pulls are not modelled. The two phases run one after the other.
- ClassifyDescriptor.ClassifyElements: validates every vector before the routine sees any, which is what a routine that reads all its input before it yields gives. With the lazy `_classify_arrays` of the tests (test_classify_descriptor.py:33-41), which pulls one vector per dict, the Python pipeline differs in three ways:
  - when a later vector is missing or malformed (146-165), the earlier elements have already been written; the model writes nothing;
  - an empty dict for an earlier element raises ValueError before a later bad vector is reached; the model reports the vector's error;
  - an element shared by handles of different batches (the mocked factory at 211-217 hands the same element to every handle) is asked `has_classifications` again after its earlier write; the model takes every answer from the initial state. Within one batch every handle is asked before any write, in both.
- ClassifyDescriptor.Reconcile: on over-production the model pulls one extra dict and leaves the routine unfinished (`completed` false). The tests assert only the IndexError there (182-196), so whether the finalizer runs is a choice they leave open.
- numpy. Arrays are a shape plus a flat sequence of reals. Only 1-D and genuine 2-D numeric arrays are distinguished; 0-d arrays, object arrays and dtypes are not modelled.
- DummyClassifier.FirstValueMaps: `v[0]` of an empty vector raises IndexError in Python; the model gives 0.0, because a routine is a total function here.
- ClassifyDescriptor.ClassifyElements: requires a positive batch size (the source's behaviour for 0 is not shown). It also requires that the factory's elements are allocated objects.
- ClassifyDescriptor.ClassifyElements: calls on the same element are counted per occurrence. The exactly-once statements hold for distinct elements (`CountDistinct`, `CallsOnDistinct`).
- The storage layer behind descriptor handles is a per-handle optional vector.
- The routine and the factory are function parameters: the factory returns the same element for the same uid, and the routine returns a whole sequence.
- `pickle` bytes: only the identity rule of `__getstate__`/`__setstate__` is kept.
- `Configurable.from_config` plugin plumbing: only the config that is handed on is modelled.
- `is_usable`, `get_config`, `get_labels` and the `EXPECTED_LABELS` constant: trivial constants or foreign hooks.
- Confidences are reals; `np.allclose` and random test data are left out.
- Equality treats an unset classification as `{}`, as the base class does (`Content`). `__eq__` on a non-element is modelled by a separate comparand constructor.
