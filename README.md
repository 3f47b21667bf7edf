# jsonapi-go: a Dafny model of the JSON:API codec

This project models the codec of `jsonapi.go`. The codec translates between Go values and JSON:API documents (jsonapi.org, version 1.0: top level, resource objects, relationships, error objects).

- **Document model** (`document.dfy`, `one_or_many.dfy`). The document, resource object, relationship, identifier and error object types. Also the two one-or-many fields, `documentData` and `relationshipData`, each with its custom `MarshalJSON`/`UnmarshalJSON` hook. On decode, the hook looks at the first byte of the raw value: `{` fills `One`, `[` fills `Many`, and anything else fills neither.
- **Marshal pipeline** (`marshal.dfy`, `marshal_properties.dfy`). This part is pure functions. A Go value is a `Value`: its reflected kind, plus the results of the capability methods it implements (`GetID`/`GetType`, `GetData`, `GetErrors`, `GetIncluded`, `GetMeta`, `GetRelationships`). The generic `encoding/json` encoder is the parameter `encode`.
- **Unmarshal pipeline** (`projection.dfy`, `unmarshal.dfy`). `projection.dfy` specifies how one resource is projected onto a target: the ordered setter calls, which stop at the first error. `unmarshal.dfy` holds the imperative part:
  - `Resource`, `Collection` and `Envelope` are classes whose fields the pipeline changes in place.
  - The pipeline methods are proved against the projection specification.
  - The generic decoder is the parameter `decode`. A target's setter results come from its `Behaviour`.

Where the code and descriptions of this library disagree, the model follows the code:

- Included resources are neither deduplicated nor sorted (`IncludedKeepsDuplicates`).
- `GetIncluded` of the elements of a data slice is never consulted. Included resources come from the top-level payload only.
- Errors are written only for a payload without `GetData`. On decode, errors are delivered *after* data projection, and only when it succeeded; they do not short-circuit it. A `SetErrors` failure is dropped.
- A to-one relationship whose id is empty is written as `null`.

## Model

| member | source | states |
|---|---|---|
| `DocumentModel.OmitEmptyObject` | jsonapi.go:450-454 | an encoding equal to `{}\n` is dropped; any other encoding is kept verbatim |
| `OneOrManyCodec.MarshalDocumentData` | jsonapi.go:305-321 | document data is written as the single resource when it is set; otherwise as the list, which is null when nil |
| `OneOrManyCodec.MarshalRelationshipData` | jsonapi.go:335-340 | relationship data is written as a single identifier exactly when one is set with a non-empty id; otherwise as the list, null when nil |
| `OneOrManyCodec.Sniff` | jsonapi.go:343-349 | a payload is object-shaped iff its first byte is `{`, and array-shaped iff it is `[` |
| `OneOrManyCodec.UnmarshalOneOrMany` | jsonapi.go:323-333 | a `{` payload sets only `One` (or fails with the decoder's error); a `[` payload sets only `Many`; any other payload changes nothing and is not an error |
| `OneOrManyCodec.RenderedShape` | jsonapi.go:323-349 | when the generic layer writes a struct as an object and a slice as an array, the decoding hook dispatches the text of a single value to `One`, of a list to `Many`, and of the null written for a nil list to neither |
| `OneOrManyCodec.DocumentDataRoundTrip` | jsonapi.go:305-333 | when the generic layer writes the one value the hook emits with its shape and reads it back unchanged, decoding the encoded document data gives back the single resource if set, else the list (nil stays nil) |
| `OneOrManyCodec.RelationshipDataRoundTrip` | jsonapi.go:335-352 | when the generic layer writes the emitted identifier or list with its shape and reads it back unchanged, relationship data round-trips as the single identifier when its id is non-empty, else as the list beside it, or as nothing |
| `MarshalPipeline.IdentifiersOf` | jsonapi.go:524-539 | a to-many relationship lists one identifier per slice element, in slice order, with only type and id |
| `MarshalPipeline.MarshalRelationship` | jsonapi.go:500-539 | a struct or slice value gives a relationship whose data is always present: for a struct, its identifier alone; for a slice, one identifier per element, in order; any other kind gives a nil relationship |
| `MarshalPipeline.MarshalRelationships` | jsonapi.go:490-498 | every name returned by `GetRelationships` is kept, each mapped through `marshalRelationship` |
| `MarshalPipeline.MarshalMeta` | jsonapi.go:556-566 | no meta capability gives no meta; an encoding failure is returned; otherwise the encoding is kept unless it is `{}\n` |
| `MarshalPipeline.MarshalResourceObject` | jsonapi.go:436-471 | fails exactly when the attribute or meta encoding fails, returning the attribute encoder's error if it failed and otherwise the meta encoder's; type/id come from the identifier; attributes are omitted exactly when encoded as `{}\n` (or empty), otherwise kept verbatim; meta likewise; relationships map every name |
| `MarshalPipeline.MarshalResourceObjects` | jsonapi.go:473-488 | on success, one resource object per value, in order; on failure, the error of the first value that fails, every earlier value having succeeded |
| `MarshalPipeline.MarshalData` | jsonapi.go:388-406 | struct data gives `One`, slice data gives a non-nil `Many` (so an empty slice is `[]`), any other kind gives neither; a resource failure is returned |
| `MarshalPipeline.MarshalDocument` | jsonapi.go:384-430 | with `GetData` there are data and no errors; without it, errors are `GetErrors`; included come from the payload's own `GetIncluded` only, in order; meta is omitted when encoded as `{}\n`; the call fails exactly when data, included or meta fails, with the error of the first of them to fail in that order |
| `MarshalPipeline.Marshal` | jsonapi.go:356-382 | a pointer payload is dereferenced before the document is built; a document failure is returned with no output, otherwise the document's encoding is |
| `MarshalProperties.RelationshipWireShape` | jsonapi.go:500-539 | a struct relationship is written as `{type,id}` iff its id is non-empty, else null; a slice is always an array of identifiers in order (`[]` when empty); any other kind gives a nil relationship |
| `MarshalProperties.DocumentDataWireShape` | jsonapi.go:384-409 | `data` is absent exactly for payloads without `GetData`; struct data is written as one object; slice data as an array in input order, `[]` when empty; other kinds as null |
| `MarshalProperties.IncludedKeepsDuplicates` | jsonapi.go:541-554 | the same included value listed twice yields two equal entries: no deduplication |
| `MarshalProperties.MarshalDereferencesOnce` | jsonapi.go:362-368 | a pointer to a non-pointer value marshals exactly as that value |
| `Projection.ValueOf` | jsonapi.go:668-674 | an entry's value is its identifier list when one was decoded (the list wins over a single identifier), else its single identifier |
| `Projection.RelationshipValues` | jsonapi.go:661-677 | the map handed to `SetRelationships` has a key exactly for each entry whose data is non-null and carries one or many identifiers |
| `Projection.Perform` | jsonapi.go:59-62 | a setter call is always received, returns the target's outcome, and changes the target only when it succeeds |
| `Projection.Run` | jsonapi.go:637-659 | running calls in order only ever appends to the calls a target has received |
| `Projection.RunStopsAtFirstRejection` | jsonapi.go:644-656 | exactly the calls up to and including the first failing one are made, and that call's error is returned; with none failing, all are made and there is no error |
| `Projection.ProjectionCallOrder` | jsonapi.go:637-659 | the calls made are a prefix of: decode attributes (only when non-empty), `SetID`, `SetType`, `SetRelationships` (only when implemented); every call but the last succeeded; the projection fails exactly when a planned call fails, with that call's error |
| `Projection.SetRelationshipsCalledOnce` | jsonapi.go:652-656 | `SetRelationships` is called at most once, and only as the last call; it is called exactly when the target implements it and every earlier call succeeded |
| `Projection.ProjectionResult` | jsonapi.go:637-659 | a successful projection leaves the resource's id, type and relationship map on the target, and its attributes when non-empty |
| `Projection.ProjectionErrorOfAnyState` | jsonapi.go:637-659 | in this model, where a setter's outcome is a function of the call (see `Behaviour` under Left out), the error of a projection is the outcome of the first planned call that fails, whatever the target's state before it |
| `Projection.ProjectIsRun` | jsonapi.go:637-659 | the projection, written as straight-line code with early returns, equals the planned calls run in order, stopping at the first error |
| `UnmarshalPipeline.Resource.constructor` | jsonapi.go:619 | a newly allocated target is the zero value and has received no calls |
| `UnmarshalPipeline.Resource.DecodeAttributes` | jsonapi.go:638-642 | decoding attributes into the target is one recorded call that takes effect only when it succeeds |
| `UnmarshalPipeline.Resource.SetID` | jsonapi.go:644-646 | `SetID` is one recorded call that takes effect only when it succeeds |
| `UnmarshalPipeline.Resource.SetType` | jsonapi.go:648-650 | `SetType` is one recorded call that takes effect only when it succeeds |
| `UnmarshalPipeline.Resource.SetRelationships` | jsonapi.go:678-680 | `SetRelationships` is one recorded call that takes effect only when it succeeds |
| `UnmarshalPipeline.Envelope.SetErrors` | jsonapi.go:596-598 | each delivery of the error list is recorded, and the list is kept when the target accepts it |
| `UnmarshalPipeline.CollectRelationships` | jsonapi.go:661-677 | the map built entry by entry, in any walk order, is the relationship map specified above |
| `UnmarshalPipeline.UnmarshalResourceObject` | jsonapi.go:637-659 | the target ends in the state, and the call returns the error, of the specified projection |
| `UnmarshalPipeline.UnmarshalOne` | jsonapi.go:603-605 | the single-resource projector projects the resource onto the target it is given and returns the projection's error |
| `UnmarshalPipeline.ListErrorIsFirstFailure` | jsonapi.go:618-623 | a list projects with no error exactly when every resource does; otherwise the error is that of the first failing resource |
| `UnmarshalPipeline.ListErrorPrefix` | jsonapi.go:618-623 | once a resource fails, the resources after it do not change the error: the loop has returned |
| `UnmarshalPipeline.ProjectedFromPointwise` | jsonapi.go:618-629 | the projected elements hold, position by position, the state that projecting the resource at that position onto a zero value leaves |
| `UnmarshalPipeline.ProjectAll` | jsonapi.go:618-629 | the loop yields one fresh element per resource, in document order, each in its projected state, or the error of the first failing resource |
| `UnmarshalPipeline.ProjectFresh` | jsonapi.go:619-623 | each element is a fresh zero target, left in the projected state, with the projection's error |
| `UnmarshalPipeline.UnmarshalMany` | jsonapi.go:607-635 | on success, one fresh element per resource is appended after the existing ones, in document order; on failure the collection is unchanged and the first element's error is returned |
| `UnmarshalPipeline.UnmarshalData` | jsonapi.go:576-592 | `One` is projected onto the single-resource target, then `Many` onto the collection only if that succeeded; the error is the first one met; a target not reached is unchanged |
| `UnmarshalPipeline.Unmarshal` | jsonapi.go:570-601 | the decoded document is returned whatever happens; a decode error touches no target, whatever partial document it leaves; with `UnmarshalData`, `One` is projected, then `Many`, stopping at the first error; errors go to `SetErrors` only after data succeeded, and its error is dropped |
| `RoundTrip.EntryArrives` | jsonapi.go:335-352 | a struct or slice relationship, written and read back, keeps non-null data exactly when it is a slice or a struct with a non-empty id, and then holds the same single identifier or the same identifiers in order |
| `RoundTrip.RelationshipsArrive` | jsonapi.go:661-677 | after the trip, no entry of a marshalled relationship map is nil, and the map handed to `SetRelationships` has exactly the relationships that arrive, each with its intended value |
| `RoundTrip.AcceptedProjection` | jsonapi.go:637-659 | a target none of whose calls fails takes the whole projection |
| `RoundTrip.DataArrives` | jsonapi.go:305-333 | the `data` text of a document built from a struct resource decodes to that single resource as read back (attributes and meta compacted), with no list |
| `RoundTrip.ResourceArrives` | jsonapi.go:436-471 | a marshalled resource, read back and projected onto a target accepting every call, gives the target the resource's id, type, the attributes as written on the wire (the compacted encoding, when not omitted) and its relationships except to-one ones with an empty id |
| `RoundTrip.MarshalThenUnmarshal` | jsonapi.go:384-409 | a struct payload marshalled into a document and unmarshalled onto an accepting target arrives as one resource whose projection sets id, type, the compacted attributes and the intended relationship map |

## Left out

- The `encoding/json` encoder and decoder. Byte-level output, HTML escaping and tag-driven field names are not modelled. They appear only as the parameters `encode`, `encodeDocument`, `decode`, `compact` and `JsonLayer`. The lemmas about the hooks take, as premises, facts about the particular values the layer carries (`Shaped`, `RoundTrips`, `Transmits`); no law is assumed for every value.
- RoundTrip.ResourceTrip is an assumption about how the generic layer composes: it writes and reads a resource object field by field, copying the identifier, writing each non-empty raw fragment (attributes, meta) as `compact` renders it and reading that text back, and sending each relationship entry through its own hooks. `compact` is Go's compaction of a `json.RawMessage`, which drops the trailing newline `enc.Encode` appended; its exact output is not modelled.
- Attribute decoding into a target's fields is done by the generic decoder. The model records only which attributes payload was decoded.
- Reflection. Kinds are the `Kind` datatype. `reflect.New` is a fresh zero `Resource`. The model does not capture:
  - whether a slice holds elements by value or by pointer;
  - the aliasing that `reflect.Append` can cause with the caller's backing array.
- Panics are preconditions, not behaviour:
  - a data, included or relationship element without `GetID`/`GetType`;
  - a projection target that cannot take the shape it receives;
  - a nil relationship entry met by `unmarshalRelationships` (so a relationship of a kind other than struct or slice, which is written as null, cannot be read back);
  - a `null` element in a `data` array, which `unmarshalResourceObject` dereferences.
  - A nil `GetData()` is not representable.
- Resource.DecodeAttributes, Resource.SetID, Resource.SetType, Resource.SetRelationships: a failing call is modelled as leaving the target unchanged. User setters, and the generic decoder, may instead change it partly before failing.
- UnmarshalOneOrMany: on a decoding error, a partial value that the generic decoder may have stored in `One` or `Many` is not modelled.
- Envelope.SetErrors: it stands for a target whose `SetErrors` keeps the list. Other user implementations are not modelled.
- Envelope: `SetData` is modelled as forwarding the single-resource projector to `single` and the list projector to `collection`. The documented form `return to(s)` hands both projectors the same object. With that form, a document whose data has the shape the target was not written for (an array for a single struct, an object for a slice type) panics inside `unmarshalMany` or `unmarshalOne`. When a document sets both halves (a repeated `data` key), that object receives both projectors and one of them panics. The model has no such panic: it projects `One` onto `single` and `Many` onto `collection`, and a shape whose target is missing is excluded by `Projectable`.
- Behaviour: a setter's outcome is modelled as a function of the call alone. A user setter that reads the target's own fields, for example one that rejects a second `SetID`, is not modelled. `Projection.ProjectionErrorOfAnyState`, the error clause of `UnmarshalPipeline.UnmarshalOne`, and `OneError`/`DataError` rely on this.
- UnmarshalOneOrMany: for a repeated `data` key the hook runs again on the value already decoded, and the generic decoder merges the new object into the existing `One` (or decodes the array into the existing `Many`). The model replaces the half with the decoded value instead, so fields set only by the earlier occurrence are not kept.
- A nil slice returned by `GetErrors` is not distinguished from an empty one. The encoder omits both.
- The `ContentType` constant: it has no behaviour.
- The example and test files. They print, or they are written against an older interface.
