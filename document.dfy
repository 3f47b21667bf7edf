/** The in-memory JSON:API document that both pipelines go through:
    the Go structs `Document`, `ResourceObject`, `relationship`,
    `ResourceObjectIdentifier` and `ErrorObject`. Raw JSON fragments
    (`json.RawMessage`) are strings, and the empty string is a nil
    fragment, which the encoder omits. */
module DocumentModel {
  import opened Outcomes

  /** A resource identifier: the `type` and `id` members. */
  datatype Identifier = Identifier(typ: string, id: string)

  /** A field that holds either a single item or a list of items.
      The Go structs `documentData` and `relationshipData` have two
      independent pointers, so this is a record and not a sum: both
      halves can be set when a payload repeats its `data` key. */
  datatype OneOrMany<T> = OneOrMany(one: Option<T>, many: Option<seq<T>>)

  /** The value of one entry of a resource's `relationships` object.
      `data` is None when the wire value was null or absent. */
  datatype Relationship = Relationship(data: Option<OneOrMany<Identifier>>)

  /** A resource object. `relationships` maps each name to a possibly
      nil `*relationship`. */
  datatype ResourceObject = ResourceObject(
    ident: Identifier,
    attributes: string,
    meta: string,
    relationships: map<string, Option<Relationship>>)

  datatype ErrorSource = ErrorSource(pointer: string)

  datatype ErrorObject = ErrorObject(title: string, code: string, source: ErrorSource)

  /** A top-level document. `data` None is a nil `*documentData` (the
      `data` key is omitted); `errors` None is a nil slice. */
  datatype Document = Document(
    data: Option<OneOrMany<ResourceObject>>,
    errors: Option<seq<ErrorObject>>,
    included: seq<ResourceObject>,
    meta: string)

  /** What the generic encoder produces for a struct with no exported
      fields or a map with no entries: an empty object and a newline. */
  const EmptyObject: string := "{}\n"

  /** Attributes, resource meta and document meta are dropped exactly
      when their encoding is the empty object, and kept verbatim
      otherwise. */
  function OmitEmptyObject(encoded: string): (kept: string)
    ensures encoded == EmptyObject ==> kept == ""
    ensures encoded != EmptyObject ==> kept == encoded
  {
    if encoded == EmptyObject then "" else encoded
  }
}
