/**
 * The `File` document of the metadata store: its fields, the defaults the
 * schema fills in when a document is created, the schema's `required`
 * check that `save` runs, and the sparse unique index on `publicShareToken`.
 */
module FileModel {
  import opened Basics

  /** A stored `File` document.  Fields the schema gives no default stay optional;
      `id` is the document's `_id`, `uploadDate` a timestamp in milliseconds. */
  datatype FileRecord = FileRecord(
    id: nat,
    originalFilename: Option<string>,
    originalFileSize: Option<int>,
    telegramMessageId: Option<int>,
    telegramFileId: Option<string>,
    isChunked: bool,
    uploadSessionId: Option<string>,
    chunkIndex: Option<int>,
    totalChunks: Option<int>,
    telegramMessageIdForChunk: Option<int>,
    uploadDate: int,
    parentFolderId: Option<string>,
    isPublic: bool,
    publicShareToken: Option<string>)

  /** The object handed to `new File({...})`: any field may be left out.
      A `parentFolderId` of `null` and a missing one are both `None`. */
  datatype FileDoc = FileDoc(
    originalFilename: Option<string> := None,
    originalFileSize: Option<int> := None,
    telegramMessageId: Option<int> := None,
    telegramFileId: Option<string> := None,
    isChunked: Option<bool> := None,
    uploadSessionId: Option<string> := None,
    chunkIndex: Option<int> := None,
    totalChunks: Option<int> := None,
    telegramMessageIdForChunk: Option<int> := None,
    uploadDate: Option<int> := None,
    parentFolderId: Option<string> := None,
    isPublic: Option<bool> := None,
    publicShareToken: Option<string> := None)

  function OrElse<T>(o: Option<T>, default: T): T {
    if o.Some? then o.value else default
  }

  /** `new File(doc)` with `_id` `id` at time `now`: the schema defaults are
      `isChunked: false`, `uploadDate: Date.now`, `parentFolderId: null`, `isPublic: false`.
      Every field the document gives is stored as given. */
  function NewFile(doc: FileDoc, id: nat, now: int): (r: FileRecord)
    ensures r.id == id
    ensures r.originalFilename == doc.originalFilename && r.originalFileSize == doc.originalFileSize
    ensures r.telegramMessageId == doc.telegramMessageId && r.telegramFileId == doc.telegramFileId
    ensures r.uploadSessionId == doc.uploadSessionId && r.chunkIndex == doc.chunkIndex
    ensures r.totalChunks == doc.totalChunks && r.telegramMessageIdForChunk == doc.telegramMessageIdForChunk
    ensures r.parentFolderId == doc.parentFolderId && r.publicShareToken == doc.publicShareToken
    ensures doc.isChunked.Some? ==> r.isChunked == doc.isChunked.value
    ensures doc.uploadDate.Some? ==> r.uploadDate == doc.uploadDate.value
    ensures doc.isPublic.Some? ==> r.isPublic == doc.isPublic.value
  {
    FileRecord(
      id := id,
      originalFilename := doc.originalFilename,
      originalFileSize := doc.originalFileSize,
      telegramMessageId := doc.telegramMessageId,
      telegramFileId := doc.telegramFileId,
      isChunked := OrElse(doc.isChunked, false),
      uploadSessionId := doc.uploadSessionId,
      chunkIndex := doc.chunkIndex,
      totalChunks := doc.totalChunks,
      telegramMessageIdForChunk := doc.telegramMessageIdForChunk,
      uploadDate := OrElse(doc.uploadDate, now),
      parentFolderId := doc.parentFolderId,
      isPublic := OrElse(doc.isPublic, false),
      publicShareToken := doc.publicShareToken)
  }

  /** A document that leaves the defaulted fields out gets the defaults; a value that is given is kept,
      and so is every field without a default. */
  lemma NewFileDefaults(doc: FileDoc, id: nat, now: int)
    ensures var r := NewFile(doc, id, now);
      && r.id == id
      && (doc.isChunked.None? ==> !r.isChunked)
      && (doc.isPublic.None? ==> !r.isPublic)
      && (doc.uploadDate.None? ==> r.uploadDate == now)
      && (doc.parentFolderId.None? ==> r.parentFolderId.None?)
      && (doc.isChunked.Some? ==> r.isChunked == doc.isChunked.value)
      && (doc.isPublic.Some? ==> r.isPublic == doc.isPublic.value)
      && (doc.uploadDate.Some? ==> r.uploadDate == doc.uploadDate.value)
      && (doc.parentFolderId.Some? ==> r.parentFolderId == doc.parentFolderId)
      && r.originalFilename == doc.originalFilename
      && r.originalFileSize == doc.originalFileSize
      && r.telegramMessageId == doc.telegramMessageId
      && r.telegramFileId == doc.telegramFileId
      && r.uploadSessionId == doc.uploadSessionId
      && r.chunkIndex == doc.chunkIndex
      && r.totalChunks == doc.totalChunks
      && r.telegramMessageIdForChunk == doc.telegramMessageIdForChunk
      && r.publicShareToken == doc.publicShareToken
  {
  }

  /** Which `required` rule `save` applies.  `AsWritten` is the schema as the
      repository declares it: `telegramFileId` is required of every document.
      `ChunkAware` requires it only of non-chunked documents, whose Telegram
      message is a single document; a chunk fragment is located by
      `telegramMessageIdForChunk` instead. */
  datatype Schema = AsWritten | ChunkAware

  /** Mongoose's `required` check for a string: present and not empty. */
  predicate HasRequiredString(f: Option<string>) {
    f.Some? && f.value != ""
  }

  /** The document passes the schema's `required` validators. */
  predicate Conforms(schema: Schema, r: FileRecord) {
    && HasRequiredString(r.originalFilename)
    && r.originalFileSize.Some?
    && r.telegramMessageId.Some?
    && ((schema == AsWritten || !r.isChunked) ==> HasRequiredString(r.telegramFileId))
  }

  /** The required validators one by one: a document missing any of the four required fields, or with an
      empty name, is refused by the schema as written, and one that has all four is accepted; the chunk-aware
      schema lets a chunk document through without `telegramFileId`. */
  lemma RequiredFieldsChecked(r: FileRecord)
    ensures r.originalFilename.None? || r.originalFilename == Some("") ==> !Conforms(AsWritten, r) && !Conforms(ChunkAware, r)
    ensures r.originalFileSize.None? || r.telegramMessageId.None? ==> !Conforms(AsWritten, r) && !Conforms(ChunkAware, r)
    ensures r.telegramFileId.None? || r.telegramFileId == Some("") ==> !Conforms(AsWritten, r)
    ensures (&& r.originalFilename.Some? && r.originalFilename.value != "" && r.originalFileSize.Some?
             && r.telegramMessageId.Some? && r.telegramFileId.Some? && r.telegramFileId.value != "")
            ==> Conforms(AsWritten, r)
    ensures (&& r.isChunked && r.originalFilename.Some? && r.originalFilename.value != ""
             && r.originalFileSize.Some? && r.telegramMessageId.Some?) ==> Conforms(ChunkAware, r)
  {
  }

  /** The two schemas agree on every non-chunked document, and `ChunkAware` accepts everything `AsWritten` does. */
  lemma SchemasAgreeOffChunks(r: FileRecord)
    ensures !r.isChunked ==> (Conforms(AsWritten, r) <==> Conforms(ChunkAware, r))
    ensures Conforms(AsWritten, r) ==> Conforms(ChunkAware, r)
  {
  }

  /** The sparse unique index: no two documents that carry a token carry the same one.
      Documents without a token are not indexed, so any number of them may coexist. */
  predicate ShareTokensUnique(rs: seq<FileRecord>) {
    forall i, j :: 0 <= i < j < |rs| && rs[i].publicShareToken.Some? ==> rs[i].publicShareToken != rs[j].publicShareToken
  }

  /** The `_id` index: identifiers are distinct. */
  predicate IdsUnique(rs: seq<FileRecord>) {
    forall i, j :: 0 <= i < j < |rs| ==> rs[i].id != rs[j].id
  }

  /** Inserting `r` into `rs` would not break the share-token index. */
  predicate TokenFree(rs: seq<FileRecord>, r: FileRecord) {
    r.publicShareToken.None? || forall k :: 0 <= k < |rs| ==> rs[k].publicShareToken != r.publicShareToken
  }

  /** Inserting `r` into `rs` would not break the `_id` index. */
  predicate IdFree(rs: seq<FileRecord>, id: nat) {
    forall k :: 0 <= k < |rs| ==> rs[k].id != id
  }

  lemma AppendKeepsIndexes(rs: seq<FileRecord>, r: FileRecord)
    requires ShareTokensUnique(rs) && IdsUnique(rs)
    requires TokenFree(rs, r) && IdFree(rs, r.id)
    ensures ShareTokensUnique(rs + [r]) && IdsUnique(rs + [r])
  {
    var rs' := rs + [r];
    forall i, j | 0 <= i < j < |rs'| && rs'[i].publicShareToken.Some?
      ensures rs'[i].publicShareToken != rs'[j].publicShareToken
    {
      if j == |rs| {
        assert rs'[i] == rs[i];
        assert r.publicShareToken.Some? ==> rs[i].publicShareToken != r.publicShareToken;
      }
    }
  }

  /** Sparseness: documents without a token never conflict, however many there are. */
  lemma TokenlessRecordsAreUnique(rs: seq<FileRecord>)
    requires forall k :: 0 <= k < |rs| ==> rs[k].publicShareToken.None?
    ensures ShareTokensUnique(rs)
  {
  }

  /** Two documents with the same token cannot both be in an indexed store. */
  lemma DuplicateTokenViolatesIndex(rs: seq<FileRecord>, i: nat, j: nat)
    requires i < j < |rs| && rs[i].publicShareToken.Some? && rs[i].publicShareToken == rs[j].publicShareToken
    ensures !ShareTokensUnique(rs)
  {
  }
}
