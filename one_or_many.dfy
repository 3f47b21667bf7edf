/** The custom JSON hooks of the two one-or-many fields: the
    `MarshalJSON` and `UnmarshalJSON` methods of `documentData` and
    `relationshipData`. The generic encoder and decoder they delegate
    to are a `JsonLayer` parameter. */
module OneOrManyCodec {
  import opened Outcomes
  import opened DocumentModel

  /** The Go value a `MarshalJSON` hook hands to the generic encoder:
      a pointer to a struct (an object), a non-nil slice (an array), or
      a nil slice (the literal null). */
  datatype Emitted<T> = EmitObject(item: T) | EmitArray(items: seq<T>) | EmitNull

  /** A slice field as the encoder sees it: nil is null, anything
      else, the empty slice included, is an array. */
  function EmitList<T>(many: Option<seq<T>>): (e: Emitted<T>)
    ensures many.Some? ==> e == EmitArray(many.value)
    ensures many.None? ==> e == EmitNull
  {
    match many
    case Some(items) => EmitArray(items)
    case None => EmitNull
  }

  /** `documentData.MarshalJSON`: the single resource when it is set,
      otherwise the list, which is null when nil. */
  function MarshalDocumentData(d: OneOrMany<ResourceObject>): (e: Emitted<ResourceObject>)
    ensures d.one.Some? ==> e == EmitObject(d.one.value)
    ensures d.one.None? ==> e == EmitList(d.many)
  {
    if d.one.Some? then EmitObject(d.one.value) else EmitList(d.many)
  }

  /** `relationshipData.MarshalJSON`: a single identifier is written
      only when its id is non-empty; otherwise the list is written, and
      a nil list is null. */
  function MarshalRelationshipData(d: OneOrMany<Identifier>): (e: Emitted<Identifier>)
    ensures e.EmitObject? <==> d.one.Some? && d.one.value.id != ""
    ensures e.EmitObject? ==> e.item == d.one.value
    ensures !e.EmitObject? ==> e == EmitList(d.many)
  {
    if d.one.Some? && |d.one.value.id| > 0 then EmitObject(d.one.value) else EmitList(d.many)
  }

  /** What the first byte of a raw JSON value says about its shape. */
  datatype Shape = ObjectShape | ArrayShape | OtherShape

  function Sniff(payload: string): (s: Shape)
    ensures s == ObjectShape <==> |payload| > 0 && payload[0] == '{'
    ensures s == ArrayShape <==> |payload| > 0 && payload[0] == '['
  {
    if |payload| > 0 && payload[0] == '{' then ObjectShape
    else if |payload| > 0 && payload[0] == '[' then ArrayShape
    else OtherShape
  }

  /** The generic JSON layer as far as the hooks use it: encoding a
      struct or a non-nil slice, and decoding a raw value into a
      struct or a slice. */
  datatype JsonLayer<!T> = JsonLayer(
    encodeObject: T -> string,
    encodeArray: seq<T> -> string,
    decodeObject: string -> Result<T>,
    decodeArray: string -> Result<seq<T>>)

  /** What the decoding hook needs of the text written for one emitted
      value: a struct is written as an object and a slice as an array.
      It is a premise about that value only. */
  predicate Shaped<T>(json: JsonLayer<T>, e: Emitted<T>) {
    match e
    case EmitObject(x) => |json.encodeObject(x)| > 0 && json.encodeObject(x)[0] == '{'
    case EmitArray(s) => |json.encodeArray(s)| > 0 && json.encodeArray(s)[0] == '['
    case EmitNull => true
  }

  /** The emitted value is written with the right shape and the generic
      decoder reads back exactly that value. */
  ghost predicate RoundTrips<T>(json: JsonLayer<T>, e: Emitted<T>) {
    && Shaped(json, e)
    && match e
       case EmitObject(x) => json.decodeObject(json.encodeObject(x)) == Ok(x)
       case EmitArray(s) => json.decodeArray(json.encodeArray(s)) == Ok(s)
       case EmitNull => true
  }

  /** The text the generic encoder writes for what a hook emitted. */
  function Render<T>(e: Emitted<T>, json: JsonLayer<T>): string {
    match e
    case EmitObject(x) => json.encodeObject(x)
    case EmitArray(s) => json.encodeArray(s)
    case EmitNull => "null"
  }

  /** `documentData.UnmarshalJSON` and `relationshipData.UnmarshalJSON`
      (the two are the same code): a payload starting with `{` is
      decoded into `one`, one starting with `[` into `many`, and any
      other payload leaves both untouched and is not an error. */
  function UnmarshalOneOrMany<T>(payload: string, d: OneOrMany<T>, json: JsonLayer<T>): (r: Result<OneOrMany<T>>)
    ensures Sniff(payload) == OtherShape ==> r.Ok? && r.value.one == d.one && r.value.many == d.many
    ensures Sniff(payload) == ObjectShape ==>
              match json.decodeObject(payload)
              case Ok(x) => r.Ok? && r.value.one == Some(x) && r.value.many == d.many
              case Err(e) => r.Err? && r.error == e
    ensures Sniff(payload) == ArrayShape ==>
              match json.decodeArray(payload)
              case Ok(s) => r.Ok? && r.value.many == Some(s) && r.value.one == d.one
              case Err(e) => r.Err? && r.error == e
  {
    match Sniff(payload)
    case ObjectShape =>
      var x :- json.decodeObject(payload);
      Ok(d.(one := Some(x)))
    case ArrayShape =>
      var s :- json.decodeArray(payload);
      Ok(d.(many := Some(s)))
    case OtherShape =>
      Ok(d)
  }

  /** When the emitted value is written with its shape, the text starts
      with the byte that the decoding hook dispatches on. The literal
      null written for a nil list is neither object- nor array-shaped. */
  lemma RenderedShape<T>(e: Emitted<T>, json: JsonLayer<T>)
    requires Shaped(json, e)
    ensures e.EmitObject? ==> Sniff(Render(e, json)) == ObjectShape
    ensures e.EmitArray? ==> Sniff(Render(e, json)) == ArrayShape
    ensures e.EmitNull? ==> Sniff(Render(e, json)) == OtherShape
  {
    match e
    case EmitObject(x) =>
    case EmitArray(s) =>
    case EmitNull =>
      assert Render(e, json)[0] == 'n';
  }

  /** Document data survives an encode/decode round trip through the
      hooks, except that a list beside a single resource is lost: the
      encoder writes only the single resource. The premise is about the
      one value the hook writes. A null written for a nil list makes the
      generic decoder leave the field nil without calling the hook; here
      the hook is called and leaves both halves unset, which every reader
      of the field treats the same way. */
  lemma DocumentDataRoundTrip(d: OneOrMany<ResourceObject>, json: JsonLayer<ResourceObject>)
    requires RoundTrips(json, MarshalDocumentData(d))
    ensures UnmarshalOneOrMany(Render(MarshalDocumentData(d), json), OneOrMany(None, None), json)
            == Ok(if d.one.Some? then OneOrMany(d.one, None) else OneOrMany(None, d.many))
  {
    RenderedShape(MarshalDocumentData(d), json);
  }

  /** Relationship data survives the round trip when it is a single
      identifier with a non-empty id or a list; a single identifier
      with an empty id comes back as the list beside it, or as nothing
      when that list is nil. When the hook writes null, the generic
      decoder leaves the `*relationshipData` nil without calling the
      hook, where here both halves are left unset; neither carries
      identifiers, and `RoundTrip.EntryTrip` models the nil pointer. */
  lemma RelationshipDataRoundTrip(d: OneOrMany<Identifier>, json: JsonLayer<Identifier>)
    requires RoundTrips(json, MarshalRelationshipData(d))
    ensures UnmarshalOneOrMany(Render(MarshalRelationshipData(d), json), OneOrMany(None, None), json)
            == Ok(if d.one.Some? && d.one.value.id != "" then OneOrMany(d.one, None) else OneOrMany(None, d.many))
  {
    RenderedShape(MarshalRelationshipData(d), json);
  }
}
