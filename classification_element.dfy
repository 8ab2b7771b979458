/**
 * The classification result value object (`ClassificationElement`): an
 * identity `(type_name, uuid)` and a label-to-confidence dict that may be
 * unset.
 *
 * The base-class operations (`__eq__`, `__getitem__`, `max_label`) only see
 * what `get_classification()` returns, so they are modelled as functions of
 * that outcome: `Some(d)` when it returns `d`, `None` when it raises
 * `NoClassificationError`.  The class `ClassificationElement` is a concrete
 * element that keeps its dict in a field, as the in-memory implementation
 * does; its methods are the operations that write that state.
 */
module ClassificationElements {
  import opened Prelude
  import opened Exceptions
  import opened Dicts

  // ---------------------------------------------------------------------
  // set_classification: merging the positional map and keyword entries
  // ---------------------------------------------------------------------

  /** `dict(m or {}, **kwds)`: the positional entries, then the keyword ones. */
  function Combine(m: Option<Dict>, kwds: Dict): (r: Dict)
    ensures r.vals == m.GetOr(Empty).vals + kwds.vals
    ensures |m.GetOr(Empty).order| <= |r.order|
    ensures r.order[..|m.GetOr(Empty).order|] == m.GetOr(Empty).order
  {
    Update(m.GetOr(Empty), kwds)
  }

  /**
   * The dict `set_classification(m, **kwds)` stores and returns, or the
   * ValueError it raises when no label was given at all.  Confidences are
   * kept as given: nothing requires them to sum to one.
   */
  function MergeClassification(m: Option<Dict>, kwds: Dict): (r: Result<Dict>)
    ensures r.Ok? <==> (m.Some? && !IsEmpty(m.value)) || !IsEmpty(kwds)
    ensures r.Ok? ==> r.value.vals == m.GetOr(Empty).vals + kwds.vals
    ensures r.Err? ==> r.error == NoLabelsGiven
  {
    var c := Combine(m, kwds);
    EmptyHasNoKeys(c);
    EmptyHasNoKeys(m.GetOr(Empty));
    EmptyHasNoKeys(kwds);
    if IsEmpty(c) then Err(NoLabelsGiven) else Ok(c)
  }

  /**
   * Positional and keyword entries with disjoint labels are united, the
   * positional ones first: `set_classification({'a': .25, 1: .25}, b=.25,
   * d=.25)` stores all four.
   */
  lemma MergeDisjoint(m: Dict, kwds: Dict)
    requires !IsEmpty(m) || !IsEmpty(kwds)
    requires forall k | k in kwds.vals :: k !in m.vals
    ensures MergeClassification(Some(m), kwds) == Ok(RawDict(m.order + kwds.order, m.vals + kwds.vals))
  {
    SetAllAppends(m, kwds.order, kwds.vals);
  }

  /** A positional map alone, or keyword entries alone, are stored unchanged. */
  lemma MergeOneSource(d: Dict)
    requires !IsEmpty(d)
    ensures MergeClassification(Some(d), Empty) == Ok(d)
    ensures MergeClassification(None, d) == Ok(d)
  {
    UpdateEmpty(d);
  }

  // ---------------------------------------------------------------------
  // Operations of the abstract base class over get_classification()
  // ---------------------------------------------------------------------

  /** `e[label]`: the label's confidence; KeyError for an absent label. */
  function GetItem(got: Option<Dict>, key: Hashable): (r: Result<real>)
    ensures got.None? ==> r == Err(NoClassification)
    ensures got.Some? && key in got.value.vals ==> r == Ok(got.value.vals[key])
    ensures got.Some? && key !in got.value.vals ==> r == Err(KeyMissing(key))
  {
    match got
    case None => Err(NoClassification)
    case Some(d) => if key in d.vals then Ok(d.vals[key]) else Err(KeyMissing(key))
  }

  /**
   * `max_label()`: the label of largest confidence, the first such label in
   * insertion order when several tie (Python's `max` keeps the first).
   * NoClassificationError when the dict is unset or empty.
   */
  function MaxLabel(got: Option<Dict>): (r: Result<Hashable>)
    ensures r.Ok? <==> got.Some? && !IsEmpty(got.value)
    ensures r.Err? ==> r.error == NoClassification
    ensures r.Ok? ==> r.value in got.value.vals
    ensures r.Ok? ==> forall k | k in got.value.vals :: got.value.vals[k] <= got.value.vals[r.value]
    ensures r.Ok? ==> exists i | 0 <= i < |got.value.order| ::
                        && got.value.order[i] == r.value
                        && forall j | 0 <= j < i :: got.value.vals[got.value.order[j]] < got.value.vals[r.value]
  {
    if got.None? || IsEmpty(got.value) then
      Err(NoClassification)
    else
      var d := got.value;
      var i := MaxIndex(d.order, d.vals);
      assert forall k | k in d.vals :: exists j | 0 <= j < |d.order| :: d.order[j] == k;
      Ok(d.order[i])
  }

  /** The label `max_label` returns can be looked up, and no lookup gives more. */
  lemma MaxLabelIsLargestItem(got: Option<Dict>, key: Hashable)
    requires MaxLabel(got).Ok? && GetItem(got, key).Ok?
    ensures GetItem(got, MaxLabel(got).value).Ok?
    ensures GetItem(got, key).value <= GetItem(got, MaxLabel(got).value).value
  {
  }

  /** The right-hand side of `==`: another element (by what its get_classification gives) or any other value. */
  datatype Comparand = AnElement(got: Option<Dict>) | NotAnElement

  /** The dict an element compares by: an unset classification counts as `{}`. */
  function Content(got: Option<Dict>): map<Hashable, real> {
    if got.Some? then got.value.vals else map[]
  }

  /** `__eq__`: equal contents, whatever the identities. */
  predicate Eq(got: Option<Dict>, other: Comparand): (r: bool)
    ensures r ==> other.AnElement?
    ensures other == AnElement(got) ==> r
    ensures other == AnElement(None) ==> (r <==> got.None? || got.value.vals == map[])
  {
    match other
    case NotAnElement => false
    case AnElement(g) => Content(got) == Content(g)
  }

  /** `__ne__`, Python's default negation of `__eq__`. */
  predicate Ne(got: Option<Dict>, other: Comparand): (r: bool)
    ensures other.NotAnElement? ==> r
    ensures other == AnElement(got) ==> !r
  {
    !Eq(got, other)
  }

  /**
   * The equality table: both unset are equal; exactly one unset are unequal
   * in both directions; two set elements are equal exactly when their dicts
   * hold the same entries; a non-element is never equal; `!=` negates `==`.
   * get_classification never returns an empty dict, as `set_classification`
   * refuses to store one.
   */
  lemma EqualityTable(a: Option<Dict>, b: Option<Dict>)
    requires a.Some? ==> !IsEmpty(a.value)
    requires b.Some? ==> !IsEmpty(b.value)
    ensures a.None? && b.None? ==> Eq(a, AnElement(b))
    ensures a.None? != b.None? ==> !Eq(a, AnElement(b)) && !Eq(b, AnElement(a))
    ensures a.Some? && b.Some? ==> (Eq(a, AnElement(b)) <==> a.value.vals == b.value.vals)
    ensures Eq(a, AnElement(b)) <==> Eq(b, AnElement(a))
    ensures !Eq(a, NotAnElement)
    ensures Ne(a, AnElement(b)) <==> !Eq(a, AnElement(b))
  {
    if a.Some? {
      EmptyHasNoKeys(a.value);
    }
    if b.Some? {
      EmptyHasNoKeys(b.value);
    }
  }

  // ---------------------------------------------------------------------
  // Configuration
  // ---------------------------------------------------------------------

  const TypeNameKey: string := "type_name"
  const UuidKey: string := "uuid"

  type Config = map<string, Hashable>

  /**
   * `get_default_config()`: the defaults of the constructor's parameters,
   * without the two runtime parameters.
   */
  function DefaultConfig(initDefaults: Config): (r: Config)
    ensures TypeNameKey !in r && UuidKey !in r
    ensures r.Keys == initDefaults.Keys - {TypeNameKey, UuidKey}
    ensures forall k | k in r :: r[k] == initDefaults[k]
  {
    initDefaults - {TypeNameKey, UuidKey}
  }

  /** The arguments `from_config` hands to `Configurable.from_config`. */
  datatype ConfigCall = ConfigCall(config: Config, mergeDefault: bool)

  /**
   * `from_config(config, type_name, uuid, merge_default)`: a copy of the
   * given config in which the runtime `type_name` and `uuid` replace any
   * entries of the same name; `merge_default` is passed on unchanged.
   */
  function FromConfigCall(config: Config, typeName: string, uuid: Hashable, mergeDefault: bool): (r: ConfigCall)
    ensures r.mergeDefault == mergeDefault
    ensures r.config.Keys == config.Keys + {TypeNameKey, UuidKey}
    ensures r.config[TypeNameKey] == Str(typeName) && r.config[UuidKey] == uuid
    ensures forall k | k in config && k != TypeNameKey && k != UuidKey :: r.config[k] == config[k]
  {
    ConfigCall(config[TypeNameKey := Str(typeName)][UuidKey := uuid], mergeDefault)
  }

  /**
   * The keyword arguments the element is finally built with: when
   * `merge_default` is set, `Configurable.from_config` lays the call's config
   * over the default config.  Either way the runtime identity prevails.
   */
  function ConstructorArgs(initDefaults: Config, call: ConfigCall): Config {
    if call.mergeDefault then DefaultConfig(initDefaults) + call.config else call.config
  }

  lemma RuntimeIdentityPrevails(initDefaults: Config, config: Config, typeName: string, uuid: Hashable, mergeDefault: bool)
    ensures var args := ConstructorArgs(initDefaults, FromConfigCall(config, typeName, uuid, mergeDefault));
            TypeNameKey in args && args[TypeNameKey] == Str(typeName) &&
            UuidKey in args && args[UuidKey] == uuid
  {
  }

  // ---------------------------------------------------------------------
  // A concrete element
  // ---------------------------------------------------------------------

  class ClassificationElement {
    var typeName: string
    var uuid: Hashable
    /** The stored dict; `None` until `set_classification` succeeds. */
    var classification: Option<Dict>
    /** Number of `has_classifications()` calls made on this element. */
    ghost var hasCalls: nat
    /** The dict given to each `set_classification` call, in call order. */
    ghost var setLog: seq<Dict>

    /** `ClassificationElement(type_name, uuid)`: an identity and no classification. */
    constructor (typeName: string, uuid: Hashable)
      ensures this.typeName == typeName && this.uuid == uuid
      ensures classification == None && hasCalls == 0 && setLog == []
    {
      this.typeName := typeName;
      this.uuid := uuid;
      classification := None;
      hasCalls := 0;
      setLog := [];
    }

    /** A non-empty dict is stored. */
    predicate Classified()
      reads this`classification
    {
      classification.Some? && !IsEmpty(classification.value)
    }

    /** `get_classification()`: the stored dict, or `None` for NoClassificationError. */
    function GetClassification(): (r: Option<Dict>)
      reads this`classification
      ensures r.Some? <==> Classified()
      ensures r.Some? ==> r == classification
    {
      if Classified() then classification else None
    }

    /** `has_classifications()`, counting the call. */
    method HasClassifications() returns (b: bool)
      modifies this`hasCalls
      ensures b == Classified()
      ensures hasCalls == old(hasCalls) + 1
    {
      b := Classified();
      hasCalls := hasCalls + 1;
    }

    /** `bool(e)`: true exactly when `get_classification` does not raise. */
    predicate Truthy()
      reads this`classification
      ensures Truthy() <==> GetClassification().Some?
    {
      Classified()
    }

    /**
     * `hash(e) == hash((type_name, uuid))`: the key hashed is the identity
     * pair, and the reads frame leaves out the classification, so the hash
     * cannot depend on it.
     */
    function HashKey(): (r: (string, Hashable))
      reads this`typeName, this`uuid
      ensures r.0 == typeName && r.1 == uuid
    {
      GetState()
    }

    /** `__getstate__`: exactly the identity pair, no payload. */
    function GetState(): (r: (string, Hashable))
      reads this`typeName, this`uuid
      ensures r.0 == typeName && r.1 == uuid
    {
      (typeName, uuid)
    }

    /** `__setstate__`: sets the identity, touches nothing else. */
    method SetState(state: (string, Hashable))
      modifies this`typeName, this`uuid
      ensures GetState() == state
    {
      typeName, uuid := state.0, state.1;
    }

    /**
     * `set_classification(m, **kwds)`: stores and returns the merged dict;
     * when it would be empty, raises ValueError and keeps the old dict.
     */
    method SetClassification(m: Option<Dict>, kwds: Dict) returns (r: Result<Dict>)
      modifies this`classification, this`setLog
      ensures r == MergeClassification(m, kwds)
      ensures setLog == old(setLog) + [Combine(m, kwds)]
      ensures classification == if r.Ok? then Some(r.value) else old(classification)
    {
      r := MergeClassification(m, kwds);
      setLog := setLog + [Combine(m, kwds)];
      if r.Ok? {
        classification := Some(r.value);
      }
    }
  }

  /** `bool(e)` is true exactly when `max_label()` succeeds, and then the label can be looked up. */
  lemma TruthyIffMaxLabel(e: ClassificationElement)
    ensures e.Truthy() <==> MaxLabel(e.GetClassification()).Ok?
    ensures e.Truthy() ==> GetItem(e.GetClassification(), MaxLabel(e.GetClassification()).value).Ok?
  {
  }

  /**
   * `pickle.loads(pickle.dumps(e))`: a new instance built from the state
   * alone, so it has the same identity and no classification.
   */
  method PickleRoundTrip(e: ClassificationElement) returns (copy: ClassificationElement)
    ensures fresh(copy)
    ensures copy.GetState() == e.GetState()
    ensures copy.classification == None
  {
    var state := e.GetState();
    copy := new ClassificationElement("", Str(""));
    copy.SetState(state);
  }
}
