/** The marshal pipeline: `Marshal`, `marshalDocument`,
    `marshalResourceObject(s)`, `marshalRelationship(s)`,
    `marshalRelationshipStruct/Slice`, `marshalIncluded` and
    `marshalMeta`. A Go value is described by its reflected kind and
    by the optional capabilities (interfaces) it implements; the
    generic encoder is the parameter `encode`. */
module MarshalPipeline {
  import opened Outcomes
  import opened DocumentModel

  /** The reflected kind of a value. Only struct, slice and pointer
      matter to the pipeline; every other kind is `Other`. */
  datatype Kind = Struct | Slice(elements: seq<Value>) | Pointer(target: Value) | Other

  /** A Go value with the results of the capability methods it
      implements (None where it does not implement the interface):
      `GetID`/`GetType`, `GetData`, `GetErrors`, `GetIncluded`,
      `GetMeta` and `GetRelationships`. */
  datatype Value = Value(
    kind: Kind,
    identifier: Option<Identifier>,
    data: Option<Value>,
    errors: Option<seq<ErrorObject>>,
    included: Option<seq<Value>>,
    meta: Option<Value>,
    relationships: Option<map<string, Value>>)

  /** A relationship value the pipeline can use without a failing type
      assertion: a struct or every element of a slice implements
      `MarshalResourceIdentifier`. */
  predicate RelationshipMarshalable(v: Value) {
    match v.kind
    case Struct => v.identifier.Some?
    case Slice(elements) => forall i :: 0 <= i < |elements| ==> elements[i].identifier.Some?
    case _ => true
  }

  /** A value `marshalResourceObject` accepts without panicking. */
  predicate ResourceMarshalable(v: Value) {
    && v.identifier.Some?
    && (v.relationships.Some? ==>
          forall name :: name in v.relationships.value ==> RelationshipMarshalable(v.relationships.value[name]))
  }

  predicate AllResourceMarshalable(values: seq<Value>) {
    forall i :: 0 <= i < |values| ==> ResourceMarshalable(values[i])
  }

  /** A payload `marshalDocument` accepts without panicking. */
  predicate DocumentMarshalable(payload: Value) {
    && (payload.data.Some? ==>
          match payload.data.value.kind
          case Struct => ResourceMarshalable(payload.data.value)
          case Slice(elements) => AllResourceMarshalable(elements)
          case _ => true)
    && (payload.included.Some? ==> AllResourceMarshalable(payload.included.value))
  }

  /** `marshalRelationshipSlice`: the identifiers of a slice, in order. */
  function IdentifiersOf(elements: seq<Value>): (ids: seq<Identifier>)
    requires forall i :: 0 <= i < |elements| ==> elements[i].identifier.Some?
    ensures |ids| == |elements|
    ensures forall i :: 0 <= i < |elements| ==> ids[i] == elements[i].identifier.value
  {
    seq(|elements|, i requires 0 <= i < |elements| => elements[i].identifier.value)
  }

  /** `marshalRelationship`: a struct becomes a to-one relationship, a
      slice a to-many one whose list is never nil, and any other kind a
      nil relationship. */
  function MarshalRelationship(v: Value): (r: Option<Relationship>)
    requires RelationshipMarshalable(v)
    ensures r.Some? <==> v.kind.Struct? || v.kind.Slice?
    ensures r.Some? ==> r.value.data.Some?
    ensures v.kind.Struct? ==> r.value.data.value.one == Some(v.identifier.value) && r.value.data.value.many.None?
    ensures v.kind.Slice? ==>
              && r.value.data.value.one.None?
              && r.value.data.value.many.Some?
              && |r.value.data.value.many.value| == |v.kind.elements|
              && forall i :: 0 <= i < |v.kind.elements| ==>
                   r.value.data.value.many.value[i] == v.kind.elements[i].identifier.value
  {
    match v.kind
    case Struct => Some(Relationship(Some(OneOrMany(Some(v.identifier.value), None))))
    case Slice(elements) => Some(Relationship(Some(OneOrMany(None, Some(IdentifiersOf(elements))))))
    case _ => None
  }

  /** `marshalRelationships`: every entry of `GetRelationships()`. */
  function MarshalRelationships(relationships: map<string, Value>): (r: map<string, Option<Relationship>>)
    requires forall name :: name in relationships ==> RelationshipMarshalable(relationships[name])
    ensures r.Keys == relationships.Keys
    ensures forall name :: name in r ==> r[name] == MarshalRelationship(relationships[name])
  {
    map name | name in relationships :: MarshalRelationship(relationships[name])
  }

  /** `marshalMeta` followed by the empty-object test of its callers. */
  function MarshalMeta(meta: Option<Value>, encode: Value -> Result<string>): (r: Result<string>)
    ensures meta.None? ==> r == Ok("")
    ensures meta.Some? ==> (r.Err? <==> encode(meta.value).Err?)
    ensures meta.Some? && r.Err? ==> r.error == encode(meta.value).error
    ensures meta.Some? && r.Ok? ==> r.value == OmitEmptyObject(encode(meta.value).value)
  {
    match meta
    case None => Ok("")
    case Some(m) =>
      var encoded :- encode(m);
      Ok(OmitEmptyObject(encoded))
  }

  /** `marshalResourceObject`: the identifier, the whole value's
      encoding as attributes, its meta, and its relationships. The
      attributes are encoded first, so their failure wins over a meta
      failure. */
  function MarshalResourceObject(v: Value, encode: Value -> Result<string>): (r: Result<ResourceObject>)
    requires ResourceMarshalable(v)
    ensures r.Ok? <==> encode(v).Ok? && (v.meta.Some? ==> encode(v.meta.value).Ok?)
    ensures encode(v).Err? ==> r == Err(encode(v).error)
    ensures encode(v).Ok? && v.meta.Some? && encode(v.meta.value).Err? ==> r == Err(encode(v.meta.value).error)
    ensures r.Ok? ==> r.value.ident == v.identifier.value
    ensures r.Ok? ==> (r.value.attributes == "" <==> encode(v).value in {"", EmptyObject})
    ensures r.Ok? && r.value.attributes != "" ==> r.value.attributes == encode(v).value
    ensures r.Ok? && v.meta.None? ==> r.value.meta == ""
    ensures r.Ok? && v.meta.Some? ==> r.value.meta == OmitEmptyObject(encode(v.meta.value).value)
    ensures r.Ok? && v.relationships.None? ==> r.value.relationships == map[]
    ensures r.Ok? && v.relationships.Some? ==>
              r.value.relationships == MarshalRelationships(v.relationships.value)
  {
    var attributes :- encode(v);
    var meta :- MarshalMeta(v.meta, encode);
    var relationships := if v.relationships.Some? then MarshalRelationships(v.relationships.value) else map[];
    Ok(ResourceObject(v.identifier.value, OmitEmptyObject(attributes), meta, relationships))
  }

  /** `marshalResourceObjects` and `marshalIncluded`: one resource
      object per value, in order, stopping at the first failure. */
  function MarshalResourceObjects(values: seq<Value>, encode: Value -> Result<string>): (r: Result<seq<ResourceObject>>)
    requires AllResourceMarshalable(values)
    ensures r.Ok? <==> forall i :: 0 <= i < |values| ==> MarshalResourceObject(values[i], encode).Ok?
    ensures r.Ok? ==> |r.value| == |values|
    ensures r.Ok? ==> forall i :: 0 <= i < |values| ==> MarshalResourceObject(values[i], encode) == Ok(r.value[i])
    ensures r.Err? ==> exists k :: 0 <= k < |values|
                          && (forall i :: 0 <= i < k ==> MarshalResourceObject(values[i], encode).Ok?)
                          && MarshalResourceObject(values[k], encode) == Err(r.error)
  {
    if values == [] then Ok([])
    else
      var first :- MarshalResourceObject(values[0], encode);
      var rest :- MarshalResourceObjects(values[1..], encode);
      Ok([first] + rest)
  }

  /** The `MarshalData` branch of `marshalDocument`: a struct gives a
      single resource, a slice a list that is never nil (so an empty
      slice is written `[]`), and any other kind neither. */
  function MarshalData(data: Value, encode: Value -> Result<string>): (r: Result<OneOrMany<ResourceObject>>)
    requires data.kind.Struct? ==> ResourceMarshalable(data)
    requires data.kind.Slice? ==> AllResourceMarshalable(data.kind.elements)
    ensures data.kind.Struct? ==>
              match MarshalResourceObject(data, encode)
              case Ok(one) => r == Ok(OneOrMany(Some(one), None))
              case Err(e) => r == Err(e)
    ensures data.kind.Slice? ==>
              match MarshalResourceObjects(data.kind.elements, encode)
              case Ok(many) => r == Ok(OneOrMany(None, Some(many)))
              case Err(e) => r == Err(e)
    ensures !data.kind.Struct? && !data.kind.Slice? ==> r == Ok(OneOrMany(None, None))
  {
    match data.kind
    case Struct =>
      var one :- MarshalResourceObject(data, encode);
      Ok(OneOrMany(Some(one), None))
    case Slice(elements) =>
      var many :- MarshalResourceObjects(elements, encode);
      Ok(OneOrMany(None, Some(many)))
    case _ =>
      Ok(OneOrMany(None, None))
  }

  /** `marshalDocument`. `MarshalData` is tested before `MarshalErrors`,
      so errors are written only for a payload without `GetData`.
      Included resources and document meta come from the payload
      itself, never from the elements of its data. The first failure
      (data, then included, then meta) aborts with no document. */
  function MarshalDocument(payload: Value, encode: Value -> Result<string>): (r: Result<Document>)
    requires DocumentMarshalable(payload)
    ensures payload.data.Some? && r.Ok? ==>
              r.value.errors.None? && r.value.data.Some? && MarshalData(payload.data.value, encode) == Ok(r.value.data.value)
    ensures payload.data.None? && r.Ok? ==> r.value.data.None? && r.value.errors == payload.errors
    ensures payload.included.Some? && r.Ok? ==>
              MarshalResourceObjects(payload.included.value, encode) == Ok(r.value.included)
    ensures payload.included.None? && r.Ok? ==> r.value.included == []
    ensures r.Ok? ==> MarshalMeta(payload.meta, encode) == Ok(r.value.meta)
    ensures r.Err? <==>
              || (payload.data.Some? && MarshalData(payload.data.value, encode).Err?)
              || (payload.included.Some? && MarshalResourceObjects(payload.included.value, encode).Err?)
              || MarshalMeta(payload.meta, encode).Err?
    ensures payload.data.Some? && MarshalData(payload.data.value, encode).Err? ==>
              r == Err(MarshalData(payload.data.value, encode).error)
    ensures (payload.data.None? || MarshalData(payload.data.value, encode).Ok?)
            && payload.included.Some? && MarshalResourceObjects(payload.included.value, encode).Err? ==>
              r == Err(MarshalResourceObjects(payload.included.value, encode).error)
    ensures (payload.data.None? || MarshalData(payload.data.value, encode).Ok?)
            && (payload.included.None? || MarshalResourceObjects(payload.included.value, encode).Ok?)
            && MarshalMeta(payload.meta, encode).Err? ==>
              r == Err(MarshalMeta(payload.meta, encode).error)
  {
    var data :- if payload.data.Some? then
                  var d :- MarshalData(payload.data.value, encode);
                  Ok(Some(d))
                else Ok(None);
    var errors := if payload.data.Some? then None else payload.errors;
    var included :- if payload.included.Some? then MarshalResourceObjects(payload.included.value, encode) else Ok([]);
    var meta :- MarshalMeta(payload.meta, encode);
    Ok(Document(data, errors, included, meta))
  }

  /** `Marshal`: a pointer is dereferenced once, the document is built,
      and the generic encoder (the parameter `encodeDocument`, which
      calls the one-or-many hooks) writes it. */
  function Marshal(payload: Value, encode: Value -> Result<string>, encodeDocument: Document -> Result<string>): (r: Result<string>)
    requires DocumentMarshalable(if payload.kind.Pointer? then payload.kind.target else payload)
    ensures var v := if payload.kind.Pointer? then payload.kind.target else payload;
            match MarshalDocument(v, encode)
            case Ok(doc) => r == encodeDocument(doc)
            case Err(e) => r == Err(e)
  {
    var v := if payload.kind.Pointer? then payload.kind.target else payload;
    var doc :- MarshalDocument(v, encode);
    encodeDocument(doc)
  }
}
