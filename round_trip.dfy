/** A resource written by `Marshal` and read back by `Unmarshal`: the
    document built by `marshalDocument`, the wire text of its `data`
    member, the decoding hooks, and the projection onto a target. The
    generic `encoding/json` layer is a parameter with premises about the
    values it actually carries. */
module RoundTrip {
  import opened Outcomes
  import opened DocumentModel
  import opened OneOrManyCodec
  import opened MarshalPipeline
  import opened Projection

  /** The relationship data that `relationshipData.MarshalJSON` writes
      for an entry produced from `v`. */
  function WrittenRelationshipData(v: Value): Emitted<Identifier>
    requires RelationshipMarshalable(v)
    requires v.kind.Struct? || v.kind.Slice?
  {
    MarshalRelationshipData(MarshalRelationship(v).value.data.value)
  }

  /** A relationship value the round trip can carry: a struct or a
      slice (any other kind is written as a nil entry, which
      `unmarshalRelationships` dereferences), whose identifiers the
      generic layer writes with their shape and reads back unchanged. */
  ghost predicate Carried(v: Value, identifiers: JsonLayer<Identifier>) {
    && RelationshipMarshalable(v)
    && (v.kind.Struct? || v.kind.Slice?)
    && RoundTrips(identifiers, WrittenRelationshipData(v))
  }

  ghost predicate AllCarried(relationships: map<string, Value>, identifiers: JsonLayer<Identifier>) {
    forall name :: name in relationships ==> Carried(relationships[name], identifiers)
  }

  /** The entries of a resource object whose data the relationship
      hooks write and read. */
  ghost predicate EntriesRoundTrip(ro: ResourceObject, identifiers: JsonLayer<Identifier>) {
    forall name :: name in ro.relationships && ro.relationships[name].Some? && ro.relationships[name].value.data.Some? ==>
      RoundTrips(identifiers, MarshalRelationshipData(ro.relationships[name].value.data.value))
  }

  /** One entry through the generic codec. A nil entry, or nil data, is
      written null and read back nil. Otherwise the relationship hook
      writes the data; a null it writes leaves the data nil on reading,
      because the generic decoder sets a nil pointer for null without
      calling the hook, and any other text goes through the decoding
      hook. */
  function EntryTrip(entry: Option<Relationship>, identifiers: JsonLayer<Identifier>): (back: Option<Relationship>)
    requires entry.Some? && entry.value.data.Some? ==>
               RoundTrips(identifiers, MarshalRelationshipData(entry.value.data.value))
    ensures back.Some? <==> entry.Some?
  {
    match entry
    case None => None
    case Some(rel) =>
      if rel.data.None? then Some(Relationship(None))
      else
        var e := MarshalRelationshipData(rel.data.value);
        if e.EmitNull? then Some(Relationship(None))
        else
          RelationshipDataRoundTrip(rel.data.value, identifiers);
          Some(Relationship(Some(UnmarshalOneOrMany(Render(e, identifiers), OneOrMany(None, None), identifiers).value)))
  }

  /** A raw JSON fragment (`json.RawMessage`) written and read back: an
      empty fragment is omitted and stays empty; any other is written as
      `compact` renders it (the generic encoder compacts a raw fragment,
      dropping the newline that `enc.Encode` appended), and decoding
      gives back exactly the text written. */
  function RawTrip(fragment: string, compact: string -> string): string {
    if fragment == "" then "" else compact(fragment)
  }

  /** A resource object as the generic decoder reads it back: the
      identifier is copied, attributes and meta come back as written,
      and every entry of the relationship map makes its own trip. This
      is how `encoding/json` composes: it encodes and decodes a struct
      field by field, calling each field's own hooks. */
  function ResourceTrip(ro: ResourceObject, compact: string -> string, identifiers: JsonLayer<Identifier>): (back: ResourceObject)
    requires EntriesRoundTrip(ro, identifiers)
    ensures back.ident == ro.ident
    ensures back.attributes == RawTrip(ro.attributes, compact) && back.meta == RawTrip(ro.meta, compact)
    ensures back.relationships.Keys == ro.relationships.Keys
  {
    ResourceObject(ro.ident, RawTrip(ro.attributes, compact), RawTrip(ro.meta, compact),
                   map name | name in ro.relationships :: EntryTrip(ro.relationships[name], identifiers))
  }

  /** The premise on the generic layer for the one resource it
      carries: written as an object, read back as `ResourceTrip`. */
  ghost predicate Transmits(resources: JsonLayer<ResourceObject>, compact: string -> string,
                            identifiers: JsonLayer<Identifier>, ro: ResourceObject) {
    && EntriesRoundTrip(ro, identifiers)
    && Shaped(resources, EmitObject(ro))
    && resources.decodeObject(resources.encodeObject(ro)) == Ok(ResourceTrip(ro, compact, identifiers))
  }

  /** What a relationship value is meant to arrive as: a to-one
      relationship as its identifier, a to-many one as the identifiers
      of its elements in order. */
  function Intended(v: Value): (r: RelationshipValue)
    requires RelationshipMarshalable(v)
    requires v.kind.Struct? || v.kind.Slice?
    ensures v.kind.Struct? ==> r == ToOne(v.identifier.value)
    ensures v.kind.Slice? ==>
              && r.ToMany?
              && |r.identifiers| == |v.kind.elements|
              && forall i :: 0 <= i < |v.kind.elements| ==> r.identifiers[i] == v.kind.elements[i].identifier.value
  {
    if v.kind.Struct? then ToOne(v.identifier.value) else ToMany(IdentifiersOf(v.kind.elements))
  }

  /** A to-one relationship whose id is empty is written as null, so it
      does not arrive. */
  predicate Arrives(v: Value)
    requires RelationshipMarshalable(v)
  {
    v.kind.Slice? || (v.kind.Struct? && v.identifier.value.id != "")
  }

  /** One relationship value through marshalling, the wire and the
      decoding hook: it carries data after decoding exactly when it
      arrives, and then its value is the intended one. */
  lemma EntryArrives(v: Value, identifiers: JsonLayer<Identifier>)
    requires Carried(v, identifiers)
    ensures var back := EntryTrip(MarshalRelationship(v), identifiers);
            && back.Some?
            && (CarriesData(back.value) <==> Arrives(v))
            && (Arrives(v) ==> ValueOf(back.value) == Intended(v))
  {
    var d := MarshalRelationship(v).value.data.value;
    RelationshipDataRoundTrip(d, identifiers);
    if v.kind.Slice? {
      assert d.many.value == IdentifiersOf(v.kind.elements);
    }
  }

  /** The relationship map of a marshalled resource, after its trip,
      holds no nil entry, and the map handed to `SetRelationships` holds
      the intended value of exactly the relationships that arrive. */
  lemma RelationshipsArrive(rels: map<string, Value>, identifiers: JsonLayer<Identifier>)
    requires AllCarried(rels, identifiers)
    ensures var entries := MarshalRelationships(rels);
            && (forall name :: name in entries && entries[name].Some? && entries[name].value.data.Some? ==>
                  RoundTrips(identifiers, MarshalRelationshipData(entries[name].value.data.value)))
            && var back := map name | name in entries :: EntryTrip(entries[name], identifiers);
            && NoNilRelationships(back)
            && var values := RelationshipValues(back);
            && (forall name :: name in values <==> name in rels && Arrives(rels[name]))
            && (forall name :: name in values ==> values[name] == Intended(rels[name]))
  {
    var entries := MarshalRelationships(rels);
    var back := map name | name in entries :: EntryTrip(entries[name], identifiers);
    forall name | name in rels
      ensures back[name].Some?
      ensures CarriesData(back[name].value) <==> Arrives(rels[name])
      ensures Arrives(rels[name]) ==> ValueOf(back[name].value) == Intended(rels[name])
    {
      EntryArrives(rels[name], identifiers);
    }
  }

  /** A target that accepts every call takes the whole projection. */
  lemma AcceptedProjection(s: ResourceState, ro: ResourceObject, b: Behaviour)
    requires b.hasRelationships ==> NoNilRelationships(ro.relationships)
    requires forall c :: b.outcome(c).None?
    ensures Project(s, ro, b).error.None?
  {
    ProjectionErrorOfAnyState(s, ro, b);
  }

  /** The `data` text of a document built from a struct resource
      decodes to that single resource as the generic decoder reads it
      back. */
  lemma DataArrives(v: Value, encode: Value -> Result<string>,
                    resources: JsonLayer<ResourceObject>, compact: string -> string,
                    identifiers: JsonLayer<Identifier>)
    requires DocumentMarshalable(v)
    requires v.data.Some? && v.data.value.kind.Struct?
    requires MarshalDocument(v, encode).Ok?
    requires Transmits(resources, compact, identifiers, MarshalResourceObject(v.data.value, encode).value)
    ensures var doc := MarshalDocument(v, encode).value;
            var ro := MarshalResourceObject(v.data.value, encode).value;
            UnmarshalOneOrMany(Render(MarshalDocumentData(doc.data.value), resources), OneOrMany(None, None), resources)
              == Ok(OneOrMany(Some(ResourceTrip(ro, compact, identifiers)), None))
  {
    var doc := MarshalDocument(v, encode).value;
    var ro := MarshalResourceObject(v.data.value, encode).value;
    assert doc.data.value == OneOrMany(Some(ro), None);
    RenderedShape(EmitObject(ro), resources);
  }

  /** A marshalled resource object, read back and projected onto a
      target that accepts every call, sets the resource's id and type,
      its attributes as written on the wire (compacted) when not
      omitted, and a relationship map holding the intended value of
      every relationship except the to-one ones with an empty id. */
  lemma ResourceArrives(d: Value, encode: Value -> Result<string>, compact: string -> string,
                        identifiers: JsonLayer<Identifier>,
                        b: Behaviour, s: ResourceState)
    requires ResourceMarshalable(d)
    requires MarshalResourceObject(d, encode).Ok?
    requires d.relationships.Some? ==> AllCarried(d.relationships.value, identifiers)
    requires b.hasRelationships
    requires forall c :: b.outcome(c).None?
    ensures var ro := MarshalResourceObject(d, encode).value;
            && EntriesRoundTrip(ro, identifiers)
            && NoNilRelationships(ResourceTrip(ro, compact, identifiers).relationships)
    ensures var ro := MarshalResourceObject(d, encode).value;
            var rels := if d.relationships.Some? then d.relationships.value else map[];
            var t := Project(s, ResourceTrip(ro, compact, identifiers), b);
            && t.error.None?
            && t.state.id == d.identifier.value.id
            && t.state.typ == d.identifier.value.typ
            && t.state.attributes == (if encode(d).value in {"", EmptyObject} || compact(encode(d).value) == ""
                                      then s.attributes else compact(encode(d).value))
            && (forall name :: name in t.state.relationships <==> name in rels && Arrives(rels[name]))
            && (forall name :: name in t.state.relationships ==> t.state.relationships[name] == Intended(rels[name]))
  {
    var ro := MarshalResourceObject(d, encode).value;
    var rels := if d.relationships.Some? then d.relationships.value else map[];
    assert ro.relationships == MarshalRelationships(rels);
    RelationshipsArrive(rels, identifiers);
    var trip := ResourceTrip(ro, compact, identifiers);
    AcceptedProjection(s, trip, b);
    ProjectionResult(s, trip, b);
  }

  /** A struct resource marshalled by `Marshal` and unmarshalled onto a
      target that accepts every call: the `data` text decodes to that
      single resource, and projecting it sets the resource's id and type,
      its attributes as written on the wire (compacted) when not
      omitted, and a relationship map holding the intended value of
      every relationship except the to-one ones with an empty id. */
  lemma MarshalThenUnmarshal(v: Value, encode: Value -> Result<string>,
                             resources: JsonLayer<ResourceObject>, compact: string -> string,
                             identifiers: JsonLayer<Identifier>,
                             b: Behaviour, s: ResourceState)
    requires DocumentMarshalable(v)
    requires v.data.Some? && v.data.value.kind.Struct?
    requires MarshalDocument(v, encode).Ok?
    requires v.data.value.relationships.Some? ==> AllCarried(v.data.value.relationships.value, identifiers)
    requires Transmits(resources, compact, identifiers, MarshalResourceObject(v.data.value, encode).value)
    requires b.hasRelationships
    requires forall c :: b.outcome(c).None?
    ensures var doc := MarshalDocument(v, encode).value;
            var ro := MarshalResourceObject(v.data.value, encode).value;
            && UnmarshalOneOrMany(Render(MarshalDocumentData(doc.data.value), resources), OneOrMany(None, None), resources)
                 == Ok(OneOrMany(Some(ResourceTrip(ro, compact, identifiers)), None))
            && NoNilRelationships(ResourceTrip(ro, compact, identifiers).relationships)
    ensures var d := v.data.value;
            var ro := MarshalResourceObject(d, encode).value;
            var rels := if d.relationships.Some? then d.relationships.value else map[];
            var t := Project(s, ResourceTrip(ro, compact, identifiers), b);
            && t.error.None?
            && t.state.id == d.identifier.value.id
            && t.state.typ == d.identifier.value.typ
            && t.state.attributes == (if encode(d).value in {"", EmptyObject} || compact(encode(d).value) == ""
                                      then s.attributes else compact(encode(d).value))
            && (forall name :: name in t.state.relationships <==> name in rels && Arrives(rels[name]))
            && (forall name :: name in t.state.relationships ==> t.state.relationships[name] == Intended(rels[name]))
  {
    DataArrives(v, encode, resources, compact, identifiers);
    ResourceArrives(v.data.value, encode, compact, identifiers, b, s);
  }
}
