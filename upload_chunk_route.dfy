/**
 * `POST /api/upload-chunk`: validate one chunk's metadata, send the chunk to
 * Telegram labelled `<originalFilename>_chunk_<chunkIndex>`, and insert a
 * chunk-fragment `File` document.
 */
module UploadChunkRoute {
  import opened Basics
  import opened JsText
  import opened FileModel
  import opened MetadataStore
  import opened Telegram

  const INVALID_METADATA := "Invalid chunk data or metadata"
  const TELEGRAM_FAILED := "Failed to upload chunk to Telegram"
  const INTERNAL_ERROR := "Internal Server Error during chunk upload"

  /** The multipart body; each text field is `None` when the entry is missing. */
  datatype ChunkForm = ChunkForm(
    chunk: Option<FormValue>,
    originalFilename: Option<string>,
    uploadSessionId: Option<string>,
    chunkIndex: Option<string>,
    totalChunks: Option<string>,
    parentFolderId: Option<string>)

  /** Metadata that passed validation, with the two numbers parsed. */
  datatype ChunkMeta = ChunkMeta(
    chunk: FormValue,
    originalFilename: string,
    uploadSessionId: string,
    chunkIndex: int,
    totalChunks: int)

  datatype ChunkResponse =
    | ChunkSaved(chunkId: nat, telegramMessageIdForChunk: Option<int>)
    | ChunkFailed(status: int, error: string)

  /** JavaScript truthiness of a form entry: a missing entry and an empty text are falsy, a file never is. */
  predicate Truthy(v: Option<FormValue>) {
    v.Some? && v.value != Text("")
  }

  predicate NonEmpty(v: Option<string>) {
    v.Some? && v.value != ""
  }

  /** The one validation step.  It checks presence and that both numbers parse; it does not
      check that `0 <= chunkIndex < totalChunks`, nor that either is positive. */
  function ValidateChunk(form: ChunkForm): (r: Result<ChunkMeta>)
    ensures r.Success? <==>
      && Truthy(form.chunk) && NonEmpty(form.originalFilename) && NonEmpty(form.uploadSessionId)
      && ParseInt(form.chunkIndex).Some? && ParseInt(form.totalChunks).Some?
    ensures r.Failure? ==> r.error == INVALID_METADATA
    ensures r.Success? ==> r.value == ChunkMeta(form.chunk.value, form.originalFilename.value,
      form.uploadSessionId.value, ParseInt(form.chunkIndex).value, ParseInt(form.totalChunks).value)
  {
    var index := ParseInt(form.chunkIndex);
    var total := ParseInt(form.totalChunks);
    if !Truthy(form.chunk) || !NonEmpty(form.originalFilename) || !NonEmpty(form.uploadSessionId)
       || index.None? || total.None?
    then Failure(INVALID_METADATA)
    else Success(ChunkMeta(form.chunk.value, form.originalFilename.value, form.uploadSessionId.value,
                           index.value, total.value))
  }

  /** Any numbers pass: a negative index, an index past the total, and a zero or negative total are all accepted. */
  lemma ValidationIgnoresRange(chunk: seq<byte>, name: string, session: string, index: int, total: int)
    requires name != "" && session != ""
    ensures var form := ChunkForm(Some(Blob("blob", chunk)), Some(name), Some(session),
                                  Some(IntToString(index)), Some(IntToString(total)), None);
      ValidateChunk(form) == Success(ChunkMeta(Blob("blob", chunk), name, session, index, total))
  {
    ParseIntOfIntToString(index);
    ParseIntOfIntToString(total);
  }

  /** The file name the chunk gets in Telegram: `${originalFilename}_chunk_${chunkIndex}`, with the parsed index. */
  function ChunkLabel(originalFilename: string, chunkIndex: int): (tag: string)
    ensures |tag| > |originalFilename| + 7
    ensures tag[..|originalFilename|] == originalFilename
    ensures tag[|originalFilename|..|originalFilename| + 7] == "_chunk_"
    ensures ParseInt(Some(tag[|originalFilename| + 7..])) == Some(chunkIndex)
    ensures var d := tag[|originalFilename| + 7..];
      if chunkIndex >= 0 then IsCanonicalNumeral(d) else |d| > 1 && d[0] == '-' && IsCanonicalNumeral(d[1..])
  {
    ParseIntOfIntToString(chunkIndex);
    NatToStringShape(if chunkIndex < 0 then -chunkIndex else chunkIndex);
    originalFilename + "_chunk_" + IntToString(chunkIndex)
  }

  /** `parentFolderId ? (parentFolderId === 'root' ? null : parentFolderId) : null`. */
  function NormaliseFolder(p: Option<string>): (r: Option<string>)
    ensures r.None? <==> p.None? || p.value == "" || p.value == "root"
    ensures r.Some? ==> r == p
  {
    if p.None? || p.value == "" || p.value == "root" then None else p
  }

  /** The chunk-fragment document: size and message id are stored as 0, `telegramFileId` is not set. */
  function ChunkRecord(meta: ChunkMeta, messageIdForChunk: Option<int>, parentFolderId: Option<string>,
                       id: nat, now: int): (r: FileRecord)
    ensures r.id == id && r.isChunked && r.uploadDate == now
    ensures r.originalFilename == Some(meta.originalFilename)
    ensures r.originalFileSize == Some(0) && r.telegramMessageId == Some(0) && r.telegramFileId.None?
    ensures r.uploadSessionId == Some(meta.uploadSessionId)
    ensures r.chunkIndex == Some(meta.chunkIndex) && r.totalChunks == Some(meta.totalChunks)
    ensures r.telegramMessageIdForChunk == messageIdForChunk
    ensures r.parentFolderId == NormaliseFolder(parentFolderId) && !r.isPublic && r.publicShareToken.None?
  {
    NewFile(FileDoc(
      originalFilename := Some(meta.originalFilename),
      originalFileSize := Some(0),
      telegramMessageId := Some(0),
      isChunked := Some(true),
      uploadSessionId := Some(meta.uploadSessionId),
      chunkIndex := Some(meta.chunkIndex),
      totalChunks := Some(meta.totalChunks),
      telegramMessageIdForChunk := messageIdForChunk,
      parentFolderId := NormaliseFolder(parentFolderId)), id, now)
  }

  /** What the chunk document records, and the two schemas' verdicts on it: the schema as written
      rejects every chunk document, the chunk-aware schema accepts every one that passed validation. */
  lemma ChunkRecordShape(meta: ChunkMeta, messageIdForChunk: Option<int>, parentFolderId: Option<string>,
                         id: nat, now: int)
    requires meta.originalFilename != ""
    ensures var r := ChunkRecord(meta, messageIdForChunk, parentFolderId, id, now);
      && r.isChunked && r.originalFileSize == Some(0) && r.telegramMessageId == Some(0)
      && r.telegramFileId.None? && r.originalFilename == Some(meta.originalFilename)
      && r.uploadSessionId == Some(meta.uploadSessionId)
      && r.chunkIndex == Some(meta.chunkIndex) && r.totalChunks == Some(meta.totalChunks)
      && r.telegramMessageIdForChunk == messageIdForChunk
      && r.parentFolderId == NormaliseFolder(parentFolderId)
      && !r.isPublic && r.publicShareToken.None? && r.uploadDate == now
      && !Conforms(AsWritten, r)
      && Conforms(ChunkAware, r)
  {
  }

  /** The handler; parameters as for `POST /api/upload`. */
  method Post(store: Store, connected: bool, form: ChunkForm, telegram: SendDocument -> TelegramReply,
              newId: nat, now: int)
    returns (resp: ChunkResponse, sent: Option<SendDocument>)
    requires store.Valid()
    modifies store
    ensures store.Valid()
    ensures resp.ChunkSaved? <==> store.records != old(store.records)
    ensures resp.ChunkFailed? ==> store.records == old(store.records)
    // 400 exactly when validation fails, and then nothing is sent
    ensures !connected ==> resp == ChunkFailed(500, INTERNAL_ERROR) && sent.None?
    ensures resp == ChunkFailed(400, INVALID_METADATA) <==> connected && ValidateChunk(form).Failure?
    ensures resp.ChunkFailed? && resp.status == 400 ==> sent.None?
    // the transport call carries the chunk's bytes under its label; a text chunk makes building the request throw
    ensures sent.Some? <==> connected && ValidateChunk(form).Success? && form.chunk.value.Blob?
    ensures sent.Some? ==>
      sent.value == SendDocument(ChunkLabel(form.originalFilename.value, ParseInt(form.chunkIndex).value),
                                 form.chunk.value.data)
    ensures connected && ValidateChunk(form).Success? && form.chunk.value.Text? ==> resp == ChunkFailed(500, INTERNAL_ERROR)
    ensures sent.Some? && !telegram(sent.value).ok ==> resp == ChunkFailed(500, TELEGRAM_FAILED)
    // success: acknowledged by Telegram, one chunk document appended
    ensures resp.ChunkSaved? ==>
      && sent.Some? && telegram(sent.value).ok && telegram(sent.value).result.Some?
      && resp.chunkId == newId
      && resp.telegramMessageIdForChunk == telegram(sent.value).result.value.messageId
      && store.records == old(store.records) +
           [ChunkRecord(ValidateChunk(form).value, resp.telegramMessageIdForChunk, form.parentFolderId, newId, now)]
    // every other failure, the catch-all included, is a 500
    ensures resp.ChunkFailed? && resp.status != 400 ==> resp.status == 500
    ensures (sent.Some? && telegram(sent.value).ok && telegram(sent.value).result.None?) ==> resp == ChunkFailed(500, INTERNAL_ERROR)
    ensures (sent.Some? && telegram(sent.value).ok && telegram(sent.value).result.Some? &&
             !old(store.Accepts(ChunkRecord(ValidateChunk(form).value, telegram(sent.value).result.value.messageId,
                                            form.parentFolderId, newId, now))))
            ==> resp == ChunkFailed(500, INTERNAL_ERROR)
    // under the schema as written the save always fails: the chunk is in Telegram, the answer is 500
    ensures store.schema == AsWritten ==> resp.ChunkFailed?
    ensures (store.schema == AsWritten && sent.Some? && telegram(sent.value).ok) ==> resp == ChunkFailed(500, INTERNAL_ERROR)
    // under the chunk-aware schema every acknowledged chunk with a fresh id is saved
    ensures (store.schema == ChunkAware && sent.Some? && telegram(sent.value).ok &&
             telegram(sent.value).result.Some? && old(IdFree(store.records, newId))) ==> resp.ChunkSaved?
  {
    sent := None;
    if !connected {
      return ChunkFailed(500, INTERNAL_ERROR), sent;
    }
    var checked := ValidateChunk(form);
    if checked.Failure? {
      return ChunkFailed(400, checked.error), sent;
    }
    var meta := checked.value;
    if meta.chunk.Text? {
      // `FormData.append(name, value, filename)` only takes a Blob: it throws on a string
      return ChunkFailed(500, INTERNAL_ERROR), sent;
    }
    var request := SendDocument(ChunkLabel(meta.originalFilename, meta.chunkIndex), meta.chunk.data);
    sent := Some(request);
    var reply := telegram(request);
    if !reply.ok {
      return ChunkFailed(500, TELEGRAM_FAILED), sent;
    }
    if reply.result.None? {
      // reading `result.message_id` throws
      return ChunkFailed(500, INTERNAL_ERROR), sent;
    }
    var messageIdForChunk := reply.result.value.messageId;
    var record := ChunkRecord(meta, messageIdForChunk, form.parentFolderId, newId, now);
    ChunkRecordShape(meta, messageIdForChunk, form.parentFolderId, newId, now);
    var saved := store.Save(record);
    if !saved {
      return ChunkFailed(500, INTERNAL_ERROR), sent;
    }
    resp := ChunkSaved(newId, messageIdForChunk);
  }
}
