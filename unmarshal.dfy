/** The unmarshal pipeline: `Unmarshal`, `unmarshalOne`,
    `unmarshalMany`, `unmarshalResourceObject` and
    `unmarshalRelationships`, acting on targets that the caller owns
    and that the pipeline changes in place. */
module UnmarshalPipeline {
  import opened Outcomes
  import opened DocumentModel
  import opened Projection

  /** A target implementing `UnmarshalResourceIdentifier` (and
      `UnmarshalRelationships` when `behaviour.hasRelationships`). */
  class Resource {
    const behaviour: Behaviour
    var attributes: string
    var id: string
    var typ: string
    var relationships: map<string, RelationshipValue>
    ghost var calls: seq<Call>

    ghost function State(): ResourceState
      reads this
    {
      ResourceState(attributes, id, typ, relationships, calls)
    }

    /** A zero value of the target's type. */
    constructor (behaviour: Behaviour)
      ensures this.behaviour == behaviour && State() == Zero
    {
      this.behaviour := behaviour;
      attributes, id, typ, relationships := "", "", "", map[];
      calls := [];
    }

    /** `json.Unmarshal(ro.Attributes, ui)`: the generic decoder fills
        the target's fields from the attributes payload. */
    method DecodeAttributes(payload: string) returns (err: Option<string>)
      modifies this
      ensures Step(State(), err) == Perform(old(State()), behaviour, DecodeAttributesCall(payload))
    {
      err := behaviour.outcome(DecodeAttributesCall(payload));
      if err.None? {
        attributes := payload;
      }
      calls := calls + [DecodeAttributesCall(payload)];
    }

    method SetID(id: string) returns (err: Option<string>)
      modifies this
      ensures Step(State(), err) == Perform(old(State()), behaviour, SetIDCall(id))
    {
      err := behaviour.outcome(SetIDCall(id));
      if err.None? {
        this.id := id;
      }
      calls := calls + [SetIDCall(id)];
    }

    method SetType(typ: string) returns (err: Option<string>)
      modifies this
      ensures Step(State(), err) == Perform(old(State()), behaviour, SetTypeCall(typ))
    {
      err := behaviour.outcome(SetTypeCall(typ));
      if err.None? {
        this.typ := typ;
      }
      calls := calls + [SetTypeCall(typ)];
    }

    method SetRelationships(values: map<string, RelationshipValue>) returns (err: Option<string>)
      requires behaviour.hasRelationships
      modifies this
      ensures Step(State(), err) == Perform(old(State()), behaviour, SetRelationshipsCall(values))
    {
      err := behaviour.outcome(SetRelationshipsCall(values));
      if err.None? {
        relationships := values;
      }
      calls := calls + [SetRelationshipsCall(values)];
    }
  }

  /** A pointer to a slice of targets; `elementBehaviour` is the
      behaviour of its element type, which `reflect.New` allocates. */
  class Collection {
    const elementBehaviour: Behaviour
    var elements: seq<Resource>

    constructor (elementBehaviour: Behaviour, elements: seq<Resource>)
      ensures this.elementBehaviour == elementBehaviour && this.elements == elements
    {
      this.elementBehaviour := elementBehaviour;
      this.elements := elements;
    }
  }

  /** The value handed to `Unmarshal`. `acceptsData` and `acceptsErrors`
      say whether it implements `UnmarshalData` and `UnmarshalErrors`.
      Its `SetData` forwards the projector to a destination of its own
      choosing (`return to(dest)`): `single` for one resource and
      `collection` for a list. */
  class Envelope {
    const acceptsData: bool
    const acceptsErrors: bool
    const single: Resource?
    const collection: Collection?
    const errorsOutcome: seq<ErrorObject> -> Option<string>
    var errors: Option<seq<ErrorObject>>
    ghost var deliveries: seq<seq<ErrorObject>>

    constructor (acceptsData: bool, acceptsErrors: bool, single: Resource?, collection: Collection?,
                 errorsOutcome: seq<ErrorObject> -> Option<string>)
      ensures this.acceptsData == acceptsData && this.acceptsErrors == acceptsErrors
      ensures this.single == single && this.collection == collection && this.errorsOutcome == errorsOutcome
      ensures errors.None? && deliveries == []
    {
      this.acceptsData, this.acceptsErrors := acceptsData, acceptsErrors;
      this.single, this.collection := single, collection;
      this.errorsOutcome := errorsOutcome;
      errors := None;
      deliveries := [];
    }

    /** `SetErrors`: keeps the list when it accepts it. */
    method SetErrors(errs: seq<ErrorObject>) returns (err: Option<string>)
      requires acceptsErrors
      modifies this
      ensures deliveries == old(deliveries) + [errs]
      ensures err == errorsOutcome(errs)
      ensures errors == if err.None? then Some(errs) else old(errors)
    {
      err := errorsOutcome(errs);
      if err.None? {
        errors := Some(errs);
      }
      deliveries := deliveries + [errs];
    }
  }

  /** `unmarshalRelationships`, first half: the map handed to
      `SetRelationships`, built one entry at a time in whatever order
      the map is walked. */
  method CollectRelationships(relationships: map<string, Option<Relationship>>)
    returns (values: map<string, RelationshipValue>)
    requires NoNilRelationships(relationships)
    ensures values == RelationshipValues(relationships)
  {
    values := map[];
    var todo := relationships.Keys;
    while todo != {}
      invariant todo <= relationships.Keys
      invariant forall name :: name in values <==>
                  name in relationships && name !in todo && CarriesData(relationships[name].value)
      invariant forall name :: name in values ==> values[name] == ValueOf(relationships[name].value)
      decreases todo
    {
      var name :| name in todo;
      var data := relationships[name].value.data;
      if data.Some? {
        if data.value.one.Some? {
          values := values[name := ToOne(data.value.one.value)];
        }
        if data.value.many.Some? {
          values := values[name := ToMany(data.value.many.value)];
        }
      }
      todo := todo - {name};
    }
    assert values.Keys == RelationshipValues(relationships).Keys;
  }

  /** `unmarshalResourceObject`: decode the attributes when non-empty,
      then `SetID`, `SetType` and, when the target implements it,
      `SetRelationships`, stopping at the first error. */
  method UnmarshalResourceObject(ro: ResourceObject, target: Resource) returns (err: Option<string>)
    requires target.behaviour.hasRelationships ==> NoNilRelationships(ro.relationships)
    modifies target
    ensures Step(target.State(), err) == Project(old(target.State()), ro, target.behaviour)
  {
    if |ro.attributes| > 0 {
      err := target.DecodeAttributes(ro.attributes);
      if err.Some? {
        return;
      }
    }
    err := target.SetID(ro.ident.id);
    if err.Some? {
      return;
    }
    err := target.SetType(ro.ident.typ);
    if err.Some? {
      return;
    }
    if target.behaviour.hasRelationships {
      var values := CollectRelationships(ro.relationships);
      err := target.SetRelationships(values);
    }
  }

  /** `unmarshalOne`: the projector handed to `SetData` for a single
      resource. */
  method UnmarshalOne(one: ResourceObject, target: Resource) returns (err: Option<string>)
    requires target.behaviour.hasRelationships ==> NoNilRelationships(one.relationships)
    modifies target
    ensures Step(target.State(), err) == Project(old(target.State()), one, target.behaviour)
    ensures err == ProjectionError(one, target.behaviour)
  {
    err := UnmarshalResourceObject(one, target);
    ProjectionErrorOfAnyState(old(target.State()), one, target.behaviour);
  }

  /** Every resource of a list can be projected onto a target of
      behaviour `b` without a panic. */
  predicate ProjectableAll(many: seq<ResourceObject>, b: Behaviour) {
    b.hasRelationships ==> forall i :: 0 <= i < |many| ==> NoNilRelationships(many[i].relationships)
  }

  /** The error of projecting the first `n` resources of a list, as
      `unmarshalMany` does: in order, stopping at the first error. */
  function ListError(many: seq<ResourceObject>, b: Behaviour, n: nat): Option<string>
    requires ProjectableAll(many, b) && n <= |many|
    decreases n
  {
    if n == 0 then None
    else
      var prior := ListError(many, b, n - 1);
      if prior.Some? then prior else ProjectionError(many[n - 1], b)
  }

  /** A list projects without error exactly when every resource does;
      otherwise its error is that of the first resource that fails. */
  lemma {:induction false} ListErrorIsFirstFailure(many: seq<ResourceObject>, b: Behaviour, n: nat)
    requires ProjectableAll(many, b) && n <= |many|
    ensures ListError(many, b, n).None? <==> forall i :: 0 <= i < n ==> ProjectionError(many[i], b).None?
    ensures forall k :: 0 <= k < n && ProjectionError(many[k], b).Some? &&
                        (forall i :: 0 <= i < k ==> ProjectionError(many[i], b).None?) ==>
              ListError(many, b, n) == ProjectionError(many[k], b)
    decreases n
  {
    if n > 0 {
      ListErrorIsFirstFailure(many, b, n - 1);
      forall k | 0 <= k < n && ProjectionError(many[k], b).Some? &&
                 (forall i :: 0 <= i < k ==> ProjectionError(many[i], b).None?)
        ensures ListError(many, b, n) == ProjectionError(many[k], b)
      {
        if k == n - 1 {
          assert ListError(many, b, n - 1).None?;
        }
      }
    }
  }

  /** Once the first `k` resources fail, a longer prefix fails with the
      same error: later resources are never projected. */
  lemma {:induction false} ListErrorPrefix(many: seq<ResourceObject>, b: Behaviour, k: nat, n: nat)
    requires ProjectableAll(many, b) && k <= n <= |many|
    requires ListError(many, b, k).Some?
    ensures ListError(many, b, n) == ListError(many, b, k)
    decreases n
  {
    if k < n {
      ListErrorPrefix(many, b, k, n - 1);
    }
  }

  /** `elements` hold, in order, one target per resource among the
      first `|elements|` of `many`, each of behaviour `b` and in the
      state projecting that resource onto a zero value leaves. */
  ghost predicate ProjectedFrom(elements: seq<Resource>, many: seq<ResourceObject>, b: Behaviour)
    requires ProjectableAll(many, b) && |elements| <= |many|
    reads elements
    decreases |elements|
  {
    elements != [] ==>
      var n := |elements| - 1;
      && ProjectedFrom(elements[..n], many, b)
      && elements[n].behaviour == b
      && elements[n].State() == Project(Zero, many[n], b).state
  }

  /** `ProjectedFrom`, element by element. */
  lemma {:induction false} ProjectedFromPointwise(elements: seq<Resource>, many: seq<ResourceObject>, b: Behaviour)
    requires ProjectableAll(many, b) && |elements| <= |many|
    ensures ProjectedFrom(elements, many, b) <==>
              forall i :: 0 <= i < |elements| ==>
                elements[i].behaviour == b && elements[i].State() == Project(Zero, many[i], b).state
    decreases |elements|
  {
    if elements != [] {
      var n := |elements| - 1;
      ProjectedFromPointwise(elements[..n], many, b);
      assert forall i :: 0 <= i < n ==> elements[..n][i] == elements[i];
    }
  }

  /** `unmarshalMany`: a fresh zero element per resource, projected and
      appended in document order after the existing elements; the
      target is assigned only when every element succeeded, so a
      failure leaves it as it was and returns the first error. */
  method UnmarshalMany(many: seq<ResourceObject>, target: Collection) returns (err: Option<string>)
    requires ProjectableAll(many, target.elementBehaviour)
    modifies target
    ensures err == ListError(many, target.elementBehaviour, |many|)
    ensures err.Some? ==> unchanged(target)
    ensures err.None? ==>
              && |target.elements| == |old(target.elements)| + |many|
              && target.elements[..|old(target.elements)|] == old(target.elements)
              && ProjectedFrom(target.elements[|old(target.elements)|..], many, target.elementBehaviour)
              && forall i :: |old(target.elements)| <= i < |target.elements| ==> fresh(target.elements[i])
  {
    var added;
    added, err := ProjectAll(many, target.elementBehaviour);
    if err.None? {
      ghost var before := target.elements;
      target.elements := target.elements + added;
      assert target.elements[|before|..] == added;
    }
  }

  /** The loop of `unmarshalMany`: one fresh element per resource, in
      document order, stopping at the first error. */
  method ProjectAll(many: seq<ResourceObject>, b: Behaviour) returns (added: seq<Resource>, err: Option<string>)
    requires ProjectableAll(many, b)
    ensures err == ListError(many, b, |many|)
    ensures err.None? ==> |added| == |many| && ProjectedFrom(added, many, b) && forall i :: 0 <= i < |added| ==> fresh(added[i])
  {
    added := [];
    for i := 0 to |many|
      invariant |added| == i
      invariant ListError(many, b, i).None?
      invariant ProjectedFrom(added, many, b)
      invariant forall j :: 0 <= j < i ==> fresh(added[j])
    {
      var e;
      e, err := ProjectFresh(many[i], b);
      if err.Some? {
        ListErrorPrefix(many, b, i + 1, |many|);
        return;
      }
      ghost var prior := added;
      added := added + [e];
      assert added[..i] == prior;
    }
    err := None;
  }

  /** One iteration of `unmarshalMany`: `reflect.New` allocates a zero
      element, and the resource is projected onto it. */
  method ProjectFresh(ro: ResourceObject, b: Behaviour) returns (e: Resource, err: Option<string>)
    requires b.hasRelationships ==> NoNilRelationships(ro.relationships)
    ensures fresh(e) && e.behaviour == b
    ensures e.State() == Project(Zero, ro, b).state
    ensures err == ProjectionError(ro, b)
  {
    e := new Resource(b);
    err := UnmarshalResourceObject(ro, e);
    ProjectionErrorOfAnyState(Zero, ro, b);
  }

  /** The decoded document can be projected onto the target without a
      panic: `SetData` hands a single resource to a resource target and
      a list to a slice target, and a target that takes relationships
      meets no null entry. */
  predicate Projectable(doc: Document, target: Envelope) {
    target.acceptsData && doc.data.Some? ==>
      && (doc.data.value.one.Some? ==>
            && target.single != null
            && (target.single.behaviour.hasRelationships ==> NoNilRelationships(doc.data.value.one.value.relationships)))
      && (doc.data.value.many.Some? ==>
            && target.collection != null
            && ProjectableAll(doc.data.value.many.value, target.collection.elementBehaviour))
  }

  /** Whether `SetData` receives the single-resource projector. */
  predicate DeliversOne(doc: Document, target: Envelope) {
    target.acceptsData && doc.data.Some? && doc.data.value.one.Some?
  }

  /** The error of the single-resource projection, if it runs. */
  function OneError(doc: Document, target: Envelope): Option<string>
    requires Projectable(doc, target)
  {
    if DeliversOne(doc, target) then ProjectionError(doc.data.value.one.value, target.single.behaviour) else None
  }

  /** Whether `SetData` receives the list projector: only after the
      single-resource projection, if any, succeeded. */
  predicate DeliversMany(doc: Document, target: Envelope)
    requires Projectable(doc, target)
  {
    target.acceptsData && doc.data.Some? && doc.data.value.many.Some? && OneError(doc, target).None?
  }

  /** The error `Unmarshal` returns for a document that decoded. */
  function DataError(doc: Document, target: Envelope): Option<string>
    requires Projectable(doc, target)
  {
    if OneError(doc, target).Some? then OneError(doc, target)
    else if DeliversMany(doc, target) then ListError(doc.data.value.many.value, target.collection.elementBehaviour, |doc.data.value.many.value|)
    else None
  }

  /** Whether the list projection runs and succeeds, so that the
      collection is assigned. */
  predicate StoresMany(doc: Document, target: Envelope)
    requires Projectable(doc, target)
  {
    DeliversMany(doc, target) && ListError(doc.data.value.many.value, target.collection.elementBehaviour, |doc.data.value.many.value|).None?
  }

  /** The `UnmarshalData` step of `Unmarshal`: `SetData` with the
      single-resource projector, then with the list projector, stopping
      at the first error. */
  method UnmarshalData(doc: Document, target: Envelope) returns (err: Option<string>)
    requires Projectable(doc, target)
    modifies target.single, target.collection
    ensures err == DataError(doc, target)
    ensures DeliversOne(doc, target) ==>
              target.single.State() == Project(old(target.single.State()), doc.data.value.one.value, target.single.behaviour).state
    ensures !DeliversOne(doc, target) && target.single != null ==> unchanged(target.single)
    ensures StoresMany(doc, target) ==>
              var old_elements := old(target.collection.elements);
              var elements := target.collection.elements;
              && |elements| == |old_elements| + |doc.data.value.many.value|
              && elements[..|old_elements|] == old_elements
              && ProjectedFrom(elements[|old_elements|..], doc.data.value.many.value, target.collection.elementBehaviour)
              && forall i :: |old_elements| <= i < |elements| ==> fresh(elements[i])
    ensures !StoresMany(doc, target) && target.collection != null ==> unchanged(target.collection)
  {
    err := None;
    if target.acceptsData && doc.data.Some? {
      if doc.data.value.one.Some? {
        // SetData(func(t) { return unmarshalOne(one, t) }), forwarded to `single`.
        err := UnmarshalOne(doc.data.value.one.value, target.single);
        if err.Some? {
          return;
        }
      }
      if doc.data.value.many.Some? {
        // SetData(func(t) { return unmarshalMany(many, t) }), forwarded to `collection`.
        err := UnmarshalMany(doc.data.value.many.value, target.collection);
      }
    }
  }

  /** `Unmarshal`. The generic decoder (the parameter `decode`, which
      calls the one-or-many hooks) yields a document and maybe an
      error, and the document is returned either way. A decoding error
      ends the call before any target is touched. Otherwise, when the
      target implements `UnmarshalData`, a single resource is
      projected and then a list, stopping at the first error; only
      after that are the document's errors handed to `SetErrors`,
      whose own error is dropped. */
  method Unmarshal(payload: string, target: Envelope, decode: string -> (Document, Option<string>))
    returns (doc: Document, err: Option<string>)
    requires decode(payload).1.None? ==> Projectable(decode(payload).0, target)
    modifies target, target.single, target.collection
    ensures doc == decode(payload).0
    ensures decode(payload).1.Some? ==> err == decode(payload).1
    ensures decode(payload).1.None? ==> err == DataError(doc, target)
    ensures decode(payload).1.None? && DeliversOne(doc, target) ==>
              target.single.State() == Project(old(target.single.State()), doc.data.value.one.value, target.single.behaviour).state
    ensures (decode(payload).1.Some? || !DeliversOne(doc, target)) && target.single != null ==>
              unchanged(target.single)
    ensures decode(payload).1.None? && StoresMany(doc, target) ==>
              var old_elements := old(target.collection.elements);
              var elements := target.collection.elements;
              && |elements| == |old_elements| + |doc.data.value.many.value|
              && elements[..|old_elements|] == old_elements
              && ProjectedFrom(elements[|old_elements|..], doc.data.value.many.value, target.collection.elementBehaviour)
              && forall i :: |old_elements| <= i < |elements| ==> fresh(elements[i])
    ensures target.collection != null && !(decode(payload).1.None? && StoresMany(doc, target)) ==>
              unchanged(target.collection)
    ensures var delivered := err.None? && target.acceptsErrors && doc.errors.Some?;
            && target.deliveries == old(target.deliveries) + (if delivered then [doc.errors.value] else [])
            && target.errors == if delivered && target.errorsOutcome(doc.errors.value).None?
                                then doc.errors else old(target.errors)
  {
    var decoded := decode(payload);
    doc := decoded.0;
    err := decoded.1;
    if err.Some? {
      return;
    }
    err := UnmarshalData(doc, target);
    if err.None? && target.acceptsErrors && doc.errors.Some? {
      var ignored := target.SetErrors(doc.errors.value);
    }
  }
}
