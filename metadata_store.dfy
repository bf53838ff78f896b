/**
 * The `File` collection: a sequence of documents in insertion order that
 * `save` appends to.  `save` validates the document against the schema and
 * refuses it when the `_id` or the `publicShareToken` index would be broken;
 * a refused save throws in the source, which the route handlers catch.
 */
module MetadataStore {
  import opened Basics
  import opened FileModel

  class Store {
    const schema: Schema
    var records: seq<FileRecord>

    /** Every stored document passed validation and the two unique indexes hold. */
    ghost predicate Valid()
      reads this
    {
      && (forall k :: 0 <= k < |records| ==> Conforms(schema, records[k]))
      && IdsUnique(records)
      && ShareTokensUnique(records)
    }

    constructor (schema: Schema)
      ensures Valid()
      ensures this.schema == schema && records == []
    {
      this.schema := schema;
      records := [];
    }

    /** Whether `save` would accept `r` in the current state. */
    predicate Accepts(r: FileRecord)
      reads this
    {
      Conforms(schema, r) && IdFree(records, r.id) && TokenFree(records, r)
    }

    /** `doc.save()` for a new document: appends it when it is accepted, otherwise leaves the collection alone. */
    method Save(r: FileRecord) returns (ok: bool)
      requires Valid()
      modifies this
      ensures Valid()
      ensures ok == old(Accepts(r))
      ensures records == if ok then old(records) + [r] else old(records)
    {
      ok := Accepts(r);
      if ok {
        AppendKeepsIndexes(records, r);
        records := records + [r];
      }
    }
  }
}
