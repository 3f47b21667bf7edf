/** The specification of projecting one resource object onto a target
    (`unmarshalResourceObject` and `unmarshalRelationships`), as pure
    functions over a snapshot of the target. A target type is described
    by its `Behaviour`: whether it implements `UnmarshalRelationships`,
    and what each of its setters returns. */
module Projection {
  import opened Outcomes
  import opened DocumentModel

  /** A value of the map handed to `SetRelationships`: a single
      identifier for a to-one relationship, a list for a to-many one. */
  datatype RelationshipValue = ToOne(identifier: Identifier) | ToMany(identifiers: seq<Identifier>)

  /** One call the pipeline makes on a target: decoding the attributes
      into it with the generic decoder, or one of its setters. */
  datatype Call =
    | DecodeAttributesCall(payload: string)
    | SetIDCall(id: string)
    | SetTypeCall(typ: string)
    | SetRelationshipsCall(values: map<string, RelationshipValue>)

  /** `outcome` is the error a call returns (None when it succeeds). */
  datatype Behaviour = Behaviour(hasRelationships: bool, outcome: Call -> Option<string>)

  /** A snapshot of a target: the attributes payload last decoded into
      it, the id, type and relationships it was given, and the calls it
      has received, oldest first. */
  datatype ResourceState = ResourceState(
    attributes: string,
    id: string,
    typ: string,
    relationships: map<string, RelationshipValue>,
    calls: seq<Call>)

  /** A freshly allocated target (`reflect.New`). */
  const Zero: ResourceState := ResourceState("", "", "", map[], [])

  /** The result of one or more calls: the new snapshot and the error
      that stopped them, if any. */
  datatype Step = Step(state: ResourceState, error: Option<string>)

  /** `unmarshalRelationships` dereferences every entry, so a nil
      `*relationship` (the wire value null) panics. */
  predicate NoNilRelationships(relationships: map<string, Option<Relationship>>) {
    forall name :: name in relationships ==> relationships[name].Some?
  }

  /** Whether an entry carries identifiers after decoding. */
  predicate CarriesData(rel: Relationship) {
    rel.data.Some? && (rel.data.value.one.Some? || rel.data.value.many.Some?)
  }

  /** The value an entry contributes; the list wins when both halves
      were set, because it is stored second. */
  function ValueOf(rel: Relationship): (v: RelationshipValue)
    requires CarriesData(rel)
    ensures rel.data.value.many.Some? ==> v == ToMany(rel.data.value.many.value)
    ensures rel.data.value.many.None? ==> v == ToOne(rel.data.value.one.value)
  {
    if rel.data.value.many.Some? then ToMany(rel.data.value.many.value) else ToOne(rel.data.value.one.value)
  }

  /** The map `unmarshalRelationships` passes to `SetRelationships`:
      no key for an entry whose data is null or carries neither half;
      otherwise the identifier list when one was decoded, else the
      single identifier. */
  function RelationshipValues(relationships: map<string, Option<Relationship>>): (values: map<string, RelationshipValue>)
    requires NoNilRelationships(relationships)
    ensures forall name :: name in values <==> name in relationships && CarriesData(relationships[name].value)
    ensures forall name :: name in relationships && CarriesData(relationships[name].value) ==>
              name in values && values[name] == ValueOf(relationships[name].value)
  {
    map name | name in relationships && CarriesData(relationships[name].value) :: ValueOf(relationships[name].value)
  }

  /** The effect of a call the target accepts. */
  function Apply(s: ResourceState, c: Call): ResourceState {
    match c
    case DecodeAttributesCall(payload) => s.(attributes := payload)
    case SetIDCall(id) => s.(id := id)
    case SetTypeCall(typ) => s.(typ := typ)
    case SetRelationshipsCall(values) => s.(relationships := values)
  }

  /** One call: it is always recorded; it changes the target only when
      it succeeds. */
  function Perform(s: ResourceState, b: Behaviour, c: Call): (step: Step)
    ensures step.state.calls == s.calls + [c]
    ensures step.error == b.outcome(c)
    ensures step.error.Some? ==> step.state == s.(calls := s.calls + [c])
  {
    var error := b.outcome(c);
    var next := if error.None? then Apply(s, c) else s;
    Step(next.(calls := s.calls + [c]), error)
  }

  /** Calls in order, stopping after the first one that fails. */
  function Run(s: ResourceState, b: Behaviour, calls: seq<Call>): (step: Step)
    ensures |s.calls| <= |step.state.calls| && step.state.calls[..|s.calls|] == s.calls
    decreases |calls|
  {
    if calls == [] then Step(s, None)
    else
      var step := Perform(s, b, calls[0]);
      if step.error.Some? then step else Run(step.state, b, calls[1..])
  }

  /** The position of the first call that fails, or `|calls|`. */
  function FirstRejected(b: Behaviour, calls: seq<Call>): (n: nat)
    ensures n <= |calls|
    ensures forall i :: 0 <= i < n ==> b.outcome(calls[i]).None?
    ensures n < |calls| ==> b.outcome(calls[n]).Some?
  {
    if calls == [] then 0
    else if b.outcome(calls[0]).Some? then 0
    else 1 + FirstRejected(b, calls[1..])
  }

  /** Running calls records exactly those up to and including the
      first failing one, and returns that call's error; with no failing
      call every call is recorded and there is no error. */
  lemma {:induction false} RunStopsAtFirstRejection(s: ResourceState, b: Behaviour, calls: seq<Call>)
    ensures var n := FirstRejected(b, calls);
            var made := if n < |calls| then n + 1 else n;
            Run(s, b, calls).state.calls == s.calls + calls[..made]
    ensures var n := FirstRejected(b, calls);
            Run(s, b, calls).error == if n < |calls| then b.outcome(calls[n]) else None
    decreases |calls|
  {
    if calls != [] {
      var step := Perform(s, b, calls[0]);
      if step.error.None? {
        RunStopsAtFirstRejection(step.state, b, calls[1..]);
        var n := FirstRejected(b, calls[1..]);
        var made := if n < |calls| - 1 then n + 1 else n;
        assert s.calls + [calls[0]] + calls[1..][..made] == s.calls + calls[..made + 1];
      }
    }
  }

  /** The calls `unmarshalResourceObject` makes when none fails:
      attributes are decoded only when non-empty, then `SetID` and
      `SetType`, then `SetRelationships` once if the target implements
      it. */
  function PlannedCalls(ro: ResourceObject, b: Behaviour): seq<Call>
    requires b.hasRelationships ==> NoNilRelationships(ro.relationships)
  {
    (if |ro.attributes| > 0 then [DecodeAttributesCall(ro.attributes)] else [])
    + [SetIDCall(ro.ident.id), SetTypeCall(ro.ident.typ)]
    + (if b.hasRelationships then [SetRelationshipsCall(RelationshipValues(ro.relationships))] else [])
  }

  /** `unmarshalResourceObject` on a target in state `s`: decode the
      attributes when non-empty, then `SetID`, then `SetType`, then
      `SetRelationships` when the target implements it, returning at
      the first error. */
  function Project(s: ResourceState, ro: ResourceObject, b: Behaviour): Step
    requires b.hasRelationships ==> NoNilRelationships(ro.relationships)
  {
    var attributes := if |ro.attributes| > 0 then Perform(s, b, DecodeAttributesCall(ro.attributes)) else Step(s, None);
    if attributes.error.Some? then attributes
    else
      var id := Perform(attributes.state, b, SetIDCall(ro.ident.id));
      if id.error.Some? then id
      else
        var typ := Perform(id.state, b, SetTypeCall(ro.ident.typ));
        if typ.error.Some? || !b.hasRelationships then typ
        else Perform(typ.state, b, SetRelationshipsCall(RelationshipValues(ro.relationships)))
  }

  /** The error of projecting `ro` onto a target of behaviour `b`: the
      outcome of the first planned call that fails. */
  function ProjectionError(ro: ResourceObject, b: Behaviour): Option<string>
    requires b.hasRelationships ==> NoNilRelationships(ro.relationships)
  {
    var attributes := if |ro.attributes| > 0 then b.outcome(DecodeAttributesCall(ro.attributes)) else None;
    if attributes.Some? then attributes
    else if b.outcome(SetIDCall(ro.ident.id)).Some? then b.outcome(SetIDCall(ro.ident.id))
    else if b.outcome(SetTypeCall(ro.ident.typ)).Some? then b.outcome(SetTypeCall(ro.ident.typ))
    else if b.hasRelationships then b.outcome(SetRelationshipsCall(RelationshipValues(ro.relationships)))
    else None
  }

  /** Whether a projection fails, and with which error, does not
      depend on the state of the target. */
  lemma ProjectionErrorOfAnyState(s: ResourceState, ro: ResourceObject, b: Behaviour)
    requires b.hasRelationships ==> NoNilRelationships(ro.relationships)
    ensures Project(s, ro, b).error == ProjectionError(ro, b)
  {
  }

  /** The projection is the planned calls run in order. */
  lemma ProjectIsRun(s: ResourceState, ro: ResourceObject, b: Behaviour)
    requires b.hasRelationships ==> NoNilRelationships(ro.relationships)
    ensures Project(s, ro, b) == Run(s, b, PlannedCalls(ro, b))
  {
    var tail := if b.hasRelationships then [SetRelationshipsCall(RelationshipValues(ro.relationships))] else [];
    var rest := [SetIDCall(ro.ident.id)] + ([SetTypeCall(ro.ident.typ)] + tail);
    var s1 := s;
    if |ro.attributes| > 0 {
      assert PlannedCalls(ro, b) == [DecodeAttributesCall(ro.attributes)] + rest;
      RunCons(s, b, DecodeAttributesCall(ro.attributes), rest);
      if Perform(s, b, DecodeAttributesCall(ro.attributes)).error.Some? {
        return;
      }
      s1 := Perform(s, b, DecodeAttributesCall(ro.attributes)).state;
    } else {
      assert PlannedCalls(ro, b) == rest;
    }
    RunCons(s1, b, SetIDCall(ro.ident.id), [SetTypeCall(ro.ident.typ)] + tail);
    var s2 := Perform(s1, b, SetIDCall(ro.ident.id));
    if s2.error.Some? {
      return;
    }
    RunCons(s2.state, b, SetTypeCall(ro.ident.typ), tail);
    var s3 := Perform(s2.state, b, SetTypeCall(ro.ident.typ));
    if s3.error.Some? || !b.hasRelationships {
      return;
    }
    RunCons(s3.state, b, SetRelationshipsCall(RelationshipValues(ro.relationships)), []);
  }

  /** The order of a projection: the calls made are a prefix of the
      planned ones; each call but the last succeeded; the projection
      fails exactly when some planned call fails, with that call's
      error, and then the failing call is the last one made. */
  lemma ProjectionCallOrder(s: ResourceState, ro: ResourceObject, b: Behaviour)
    requires b.hasRelationships ==> NoNilRelationships(ro.relationships)
    ensures var step := Project(s, ro, b);
            && |s.calls| <= |step.state.calls|
            && step.state.calls[..|s.calls|] == s.calls
            && var made := step.state.calls[|s.calls|..];
            && made <= PlannedCalls(ro, b)
            && (forall i :: 0 <= i < |made| - 1 ==> b.outcome(made[i]).None?)
            && step.error == ProjectionError(ro, b)
            && (step.error.None? <==> made == PlannedCalls(ro, b) && forall i :: 0 <= i < |made| ==> b.outcome(made[i]).None?)
            && (step.error.Some? ==> |made| > 0 && step.error == b.outcome(made[|made| - 1]))
  {
    ProjectIsRun(s, ro, b);
    RunOrder(s, b, PlannedCalls(ro, b));
    ProjectionErrorOfAnyState(s, ro, b);
  }

  /** The order of any run of calls: the calls made are a prefix of
      those given; each call but the last succeeded; the run fails
      exactly when a call fails, with the error of the last call made. */
  lemma RunOrder(s: ResourceState, b: Behaviour, calls: seq<Call>)
    ensures var step := Run(s, b, calls);
            var made := step.state.calls[|s.calls|..];
            && made <= calls
            && (forall i :: 0 <= i < |made| - 1 ==> b.outcome(made[i]).None?)
            && (step.error.None? <==> made == calls && forall i :: 0 <= i < |made| ==> b.outcome(made[i]).None?)
            && (step.error.Some? ==> |made| > 0 && step.error == b.outcome(made[|made| - 1]))
  {
    RunStopsAtFirstRejection(s, b, calls);
    var step := Run(s, b, calls);
    var n := FirstRejected(b, calls);
    var count := if n < |calls| then n + 1 else n;
    assert step.state.calls[|s.calls|..] == calls[..count];
  }

  /** `SetRelationships` is called at most once, as the last call,
      and it is called exactly when the target implements it and the
      calls before it succeeded. */
  lemma SetRelationshipsCalledOnce(s: ResourceState, ro: ResourceObject, b: Behaviour)
    requires b.hasRelationships ==> NoNilRelationships(ro.relationships)
    ensures var made := Project(s, ro, b).state.calls[|s.calls|..];
            && (forall i :: 0 <= i < |made| && made[i].SetRelationshipsCall? ==> i == |made| - 1)
            && ((|made| > 0 && made[|made| - 1].SetRelationshipsCall?) <==>
                  b.hasRelationships && forall i :: 0 <= i < |PlannedCalls(ro, b)| - 1 ==> b.outcome(PlannedCalls(ro, b)[i]).None?)
  {
    var calls := PlannedCalls(ro, b);
    ProjectIsRun(s, ro, b);
    assert forall i :: 0 <= i < |calls| - 1 ==> !calls[i].SetRelationshipsCall?;
    assert calls[|calls| - 1].SetRelationshipsCall? <==> b.hasRelationships;
    RunSetsRelationshipsLast(s, b, calls);
  }

  /** A run of calls among which only the last may be a
      `SetRelationships` call makes that call at most once, last, and
      exactly when every call before it succeeded. */
  lemma RunSetsRelationshipsLast(s: ResourceState, b: Behaviour, calls: seq<Call>)
    requires forall i :: 0 <= i < |calls| - 1 ==> !calls[i].SetRelationshipsCall?
    ensures var made := Run(s, b, calls).state.calls[|s.calls|..];
            && (forall i :: 0 <= i < |made| && made[i].SetRelationshipsCall? ==> i == |made| - 1)
            && ((|made| > 0 && made[|made| - 1].SetRelationshipsCall?) <==>
                  |calls| > 0 && calls[|calls| - 1].SetRelationshipsCall? &&
                  forall i :: 0 <= i < |calls| - 1 ==> b.outcome(calls[i]).None?)
  {
    RunMakesPlannedCalls(s, b, calls);
    var n := FirstRejected(b, calls);
    if |calls| > 0 && forall i :: 0 <= i < |calls| - 1 ==> b.outcome(calls[i]).None? {
      assert n >= |calls| - 1;
    }
  }

  /** The calls a run makes are those given, up to and including the
      first one that fails. */
  lemma RunMakesPlannedCalls(s: ResourceState, b: Behaviour, calls: seq<Call>)
    ensures var n := FirstRejected(b, calls);
            Run(s, b, calls).state.calls[|s.calls|..] == calls[..if n < |calls| then n + 1 else n]
  {
    RunStopsAtFirstRejection(s, b, calls);
  }

  /** A projection that succeeds leaves the target with the resource's
      id, type and relationship map, and with its attributes when they
      were non-empty. */
  lemma ProjectionResult(s: ResourceState, ro: ResourceObject, b: Behaviour)
    requires b.hasRelationships ==> NoNilRelationships(ro.relationships)
    requires Project(s, ro, b).error.None?
    ensures var t := Project(s, ro, b).state;
            && t.id == ro.ident.id
            && t.typ == ro.ident.typ
            && t.attributes == (if |ro.attributes| > 0 then ro.attributes else s.attributes)
            && t.relationships == (if b.hasRelationships then RelationshipValues(ro.relationships) else s.relationships)
  {
  }

  /** Running a call followed by others. */
  lemma RunCons(s: ResourceState, b: Behaviour, c: Call, rest: seq<Call>)
    ensures var step := Perform(s, b, c);
            Run(s, b, [c] + rest) == if step.error.Some? then step else Run(step.state, b, rest)
  {
  }
}
