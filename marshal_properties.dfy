/** What the marshal pipeline writes on the wire, stated through the
    one-or-many hooks. */
module MarshalProperties {
  import opened Outcomes
  import opened DocumentModel
  import opened OneOrManyCodec
  import opened MarshalPipeline

  /** A to-one relationship is written as its single identifier only
      when the id is non-empty, and as null otherwise; a to-many one is
      always an array (empty when the slice is empty) of the elements'
      identifiers in slice order; any other kind gives a nil
      relationship. */
  lemma RelationshipWireShape(v: Value)
    requires RelationshipMarshalable(v)
    ensures v.kind.Struct? ==>
              var r := MarshalRelationship(v);
              && r.Some? && r.value.data.Some?
              && MarshalRelationshipData(r.value.data.value)
                 == (if v.identifier.value.id != "" then EmitObject(v.identifier.value) else EmitNull)
    ensures v.kind.Slice? ==>
              var r := MarshalRelationship(v);
              && r.Some? && r.value.data.Some?
              && var e := MarshalRelationshipData(r.value.data.value);
              && e.EmitArray?
              && |e.items| == |v.kind.elements|
              && forall i :: 0 <= i < |e.items| ==> e.items[i] == v.kind.elements[i].identifier.value
    ensures !v.kind.Struct? && !v.kind.Slice? ==> MarshalRelationship(v).None?
  {
  }

  /** The `data` member of a marshalled document: a struct is written
      as one object, a slice as an array with one resource per element
      in slice order (`[]` for an empty slice, never null), any other
      kind as null; and an error document has no `data` member. */
  lemma DocumentDataWireShape(payload: Value, encode: Value -> Result<string>)
    requires DocumentMarshalable(payload)
    requires MarshalDocument(payload, encode).Ok?
    ensures var doc := MarshalDocument(payload, encode).value;
            payload.data.None? <==> doc.data.None?
    ensures var doc := MarshalDocument(payload, encode).value;
            payload.data.Some? && payload.data.value.kind.Struct? ==>
              MarshalDocumentData(doc.data.value) == EmitObject(MarshalResourceObject(payload.data.value, encode).value)
    ensures var doc := MarshalDocument(payload, encode).value;
            payload.data.Some? && payload.data.value.kind.Slice? ==>
              var e := MarshalDocumentData(doc.data.value);
              var elements := payload.data.value.kind.elements;
              && e.EmitArray?
              && |e.items| == |elements|
              && forall i :: 0 <= i < |elements| ==> Ok(e.items[i]) == MarshalResourceObject(elements[i], encode)
    ensures var doc := MarshalDocument(payload, encode).value;
            payload.data.Some? && !payload.data.value.kind.Struct? && !payload.data.value.kind.Slice? ==>
              MarshalDocumentData(doc.data.value) == EmitNull
  {
  }

  /** Included resources are neither deduplicated nor sorted: listing
      the same value twice gives two equal entries, in place. */
  lemma IncludedKeepsDuplicates(payload: Value, v: Value, encode: Value -> Result<string>)
    requires DocumentMarshalable(payload)
    requires payload.included == Some([v, v])
    requires MarshalDocument(payload, encode).Ok?
    ensures var included := MarshalDocument(payload, encode).value.included;
            |included| == 2 && included[0] == included[1] && Ok(included[0]) == MarshalResourceObject(v, encode)
  {
    var included := MarshalDocument(payload, encode).value.included;
    assert MarshalResourceObjects([v, v], encode) == Ok(included);
    assert Ok(included[0]) == MarshalResourceObject([v, v][0], encode);
    assert Ok(included[1]) == MarshalResourceObject([v, v][1], encode);
  }

  /** `Marshal` dereferences exactly one pointer: a pointer to a
      non-pointer value marshals as that value, whatever capabilities
      the pointer itself has. */
  lemma MarshalDereferencesOnce(pointer: Value, v: Value, encode: Value -> Result<string>,
                                encodeDocument: Document -> Result<string>)
    requires pointer.kind == Pointer(v) && !v.kind.Pointer?
    requires DocumentMarshalable(v)
    ensures Marshal(pointer, encode, encodeDocument) == Marshal(v, encode, encodeDocument)
  {
  }
}
