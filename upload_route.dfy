/**
 * `POST /api/upload`: validate the uploaded file, send it to Telegram as one
 * document, pick the file id out of the reply, and insert one non-chunked
 * `File` document.  Every early return of the handler is a branch here.
 */
module UploadRoute {
  import opened Basics
  import opened JsText
  import opened FileModel
  import opened MetadataStore
  import opened Telegram

  /** The per-file ceiling, 2 GiB. */
  const MAX_FILE_SIZE: nat := 2 * 1024 * 1024 * 1024

  const NO_FILE := "No file provided or invalid file type"
  const TELEGRAM_FAILED := "Failed to upload to Telegram"
  const NO_FILE_ID := "No file_id found in Telegram response"
  const INTERNAL_ERROR := "Internal Server Error during upload"

  /** The multipart body: the `file` entry and the `parentFolderId` entry the client also sends. */
  datatype UploadForm = UploadForm(file: Option<FormValue>, parentFolderId: Option<string>)

  /** A file that passed validation. */
  datatype Upload = Upload(name: string, data: seq<byte>)

  datatype UploadResponse =
    | Uploaded(fileId: nat, telegramMessageId: int, telegramFileId: string)
    | Failed(status: int, error: string)

  /** `!file || typeof file === 'string'`: no entry, or a text entry instead of a file. */
  predicate NoFile(form: UploadForm) {
    form.file.None? || form.file.value.Text?
  }

  predicate Oversized(form: UploadForm) {
    !NoFile(form) && |form.file.value.data| > MAX_FILE_SIZE
  }

  function SizeError(size: nat): string {
    "File size exceeds 2GB limit. Got " + NatToString(size) + " bytes."
  }

  /** The two validation checks, in the handler's order. */
  function ValidateUpload(form: UploadForm): (r: Result<Upload>)
    ensures r.Success? <==> form.file.Some? && form.file.value.Blob? && |form.file.value.data| <= MAX_FILE_SIZE
    ensures r.Success? ==> r.value == Upload(form.file.value.name, form.file.value.data)
    ensures NoFile(form) ==> r == Failure(NO_FILE)
    ensures Oversized(form) ==> r == Failure(SizeError(|form.file.value.data|))
  {
    if NoFile(form) then Failure(NO_FILE)
    else if Oversized(form) then Failure(SizeError(|form.file.value.data|))
    else Success(Upload(form.file.value.name, form.file.value.data))
  }

  /** The size limit is inclusive: a file of exactly 2 GiB passes, one byte more does not. */
  lemma SizeLimitInclusive(name: string, data: seq<byte>, parentFolderId: Option<string>)
    ensures ValidateUpload(UploadForm(Some(Blob(name, data)), parentFolderId)).Success? <==> |data| <= 2147483648
  {
  }

  /** How the file id is looked up in the reply. */
  datatype FileIdLookup =
    | Found(fileId: string)
    | Missing  // no usable `file_id` (undefined or empty)
    | Throws   // `photos[photos.length - 1]` is undefined, so reading `.file_id` throws

  function UsableId(f: Option<string>): FileIdLookup {
    if f.Some? && f.value != "" then Found(f.value) else Missing
  }

  /** `result.document.file_id` when there is a document, otherwise the `file_id` of the last (largest) photo. */
  function ExtractFileId(m: SentMessage): (r: FileIdLookup)
    ensures r.Found? ==> r.fileId != ""
    ensures m.document.Some? ==> (r.Found? <==> HasRequiredString(m.document.value.fileId))
    ensures m.document.Some? && r.Found? ==> m.document.value.fileId == Some(r.fileId)
    ensures m.document.None? && r.Found? ==>
      m.photo.Some? && |m.photo.value| > 0 && m.photo.value[|m.photo.value| - 1].fileId == Some(r.fileId)
    ensures m.document.None? && m.photo.Some? && |m.photo.value| > 0 ==>
      (r.Found? <==> HasRequiredString(m.photo.value[|m.photo.value| - 1].fileId))
    ensures r.Throws? <==> m.document.None? && m.photo == Some([])
    ensures m.document.None? && m.photo.None? ==> r == Missing
  {
    if m.document.Some? then UsableId(m.document.value.fileId)
    else if m.photo.Some? then
      var photos := m.photo.value;
      if |photos| == 0 then Throws else UsableId(photos[|photos| - 1].fileId)
    else Missing
  }

  /** The document the handler creates; `parentFolderId` is not passed, so the schema default (root) applies. */
  function UploadRecord(u: Upload, messageId: Option<int>, fileId: string, id: nat, now: int): (r: FileRecord)
    ensures r.id == id && !r.isChunked && r.uploadDate == now
    ensures r.originalFilename == Some(u.name) && r.originalFileSize == Some(|u.data|)
    ensures r.telegramMessageId == messageId && r.telegramFileId == Some(fileId)
    ensures r.parentFolderId.None? && !r.isPublic && r.publicShareToken.None?
    ensures r.uploadSessionId.None? && r.chunkIndex.None? && r.totalChunks.None? && r.telegramMessageIdForChunk.None?
  {
    NewFile(FileDoc(
      originalFilename := Some(u.name),
      originalFileSize := Some(|u.data|),
      telegramMessageId := messageId,
      telegramFileId := Some(fileId),
      isChunked := Some(false)), id, now)
  }

  /** The created document is a single non-chunked blob in the root folder, not shared, dated `now`;
      it passes validation exactly when the name is non-empty and the reply carried a message id. */
  lemma UploadRecordShape(schema: Schema, u: Upload, messageId: Option<int>, fileId: string, id: nat, now: int)
    requires fileId != ""
    ensures var r := UploadRecord(u, messageId, fileId, id, now);
      && !r.isChunked && r.parentFolderId.None? && !r.isPublic && r.publicShareToken.None?
      && r.originalFileSize == Some(|u.data|) && r.telegramFileId == Some(fileId)
      && r.telegramMessageId == messageId && r.uploadDate == now && r.id == id
      && (Conforms(schema, r) <==> u.name != "" && messageId.Some?)
  {
  }

  /** The handler.  `connected` is whether `connectToDatabase` succeeds, `telegram`
      answers the `sendDocument` call, `newId` is the `_id` the new document gets
      and `now` the creation time.  `sent` is the call made to Telegram, if any. */
  method Post(store: Store, connected: bool, form: UploadForm, telegram: SendDocument -> TelegramReply,
              newId: nat, now: int)
    returns (resp: UploadResponse, sent: Option<SendDocument>)
    requires store.Valid()
    modifies store
    ensures store.Valid()
    // the store is written only on success, and then by exactly one document
    ensures resp.Uploaded? <==> store.records != old(store.records)
    ensures resp.Failed? ==> store.records == old(store.records)
    // failures before the transport: no call is made
    ensures !connected ==> resp == Failed(500, INTERNAL_ERROR) && sent.None?
    ensures connected && NoFile(form) ==> resp == Failed(400, NO_FILE) && sent.None?
    ensures connected && Oversized(form) ==> resp == Failed(400, SizeError(|form.file.value.data|)) && sent.None?
    ensures resp.Failed? && resp.status == 400 <==> connected && (NoFile(form) || Oversized(form))
    // the transport call
    ensures sent.Some? <==> connected && !NoFile(form) && !Oversized(form)
    ensures sent.Some? ==> sent.value == SendDocument(form.file.value.name, form.file.value.data)
    ensures sent.Some? && !telegram(sent.value).ok ==> resp == Failed(500, TELEGRAM_FAILED)
    ensures (sent.Some? && telegram(sent.value).ok && telegram(sent.value).result.Some? &&
             ExtractFileId(telegram(sent.value).result.value) == Missing) ==> resp == Failed(500, NO_FILE_ID)
    // every other failure, the catch-all included, is a 500
    ensures resp.Failed? && resp.status != 400 ==> resp.status == 500
    ensures (sent.Some? && telegram(sent.value).ok && telegram(sent.value).result.None?) ==> resp == Failed(500, INTERNAL_ERROR)
    ensures (sent.Some? && telegram(sent.value).ok && telegram(sent.value).result.Some? &&
             ExtractFileId(telegram(sent.value).result.value) == Throws) ==> resp == Failed(500, INTERNAL_ERROR)
    ensures (sent.Some? && telegram(sent.value).ok && telegram(sent.value).result.Some? &&
             ExtractFileId(telegram(sent.value).result.value).Found? &&
             !old(store.Accepts(UploadRecord(Upload(form.file.value.name, form.file.value.data),
                 telegram(sent.value).result.value.messageId,
                 ExtractFileId(telegram(sent.value).result.value).fileId, newId, now))))
            ==> resp == Failed(500, INTERNAL_ERROR)
    // success: the reply was acknowledged and the saved document is the one the response describes
    ensures resp.Uploaded? ==>
      && sent.Some? && telegram(sent.value).ok && telegram(sent.value).result.Some?
      && var m := telegram(sent.value).result.value;
      && m.messageId == Some(resp.telegramMessageId)
      && ExtractFileId(m) == Found(resp.telegramFileId)
      && resp.fileId == newId
      && store.records == old(store.records) +
           [UploadRecord(Upload(form.file.value.name, form.file.value.data), m.messageId, resp.telegramFileId, newId, now)]
    // and, in the model, where neither the transport nor the write can throw, it succeeds whenever every step can
    ensures (sent.Some? && telegram(sent.value).ok && telegram(sent.value).result.Some? &&
             ExtractFileId(telegram(sent.value).result.value).Found? &&
             old(store.Accepts(UploadRecord(Upload(form.file.value.name, form.file.value.data),
                 telegram(sent.value).result.value.messageId,
                 ExtractFileId(telegram(sent.value).result.value).fileId, newId, now))))
            ==> resp.Uploaded?
  {
    sent := None;
    if !connected {
      return Failed(500, INTERNAL_ERROR), sent;
    }
    var checked := ValidateUpload(form);
    if checked.Failure? {
      return Failed(400, checked.error), sent;
    }
    var upload := checked.value;
    var request := SendDocument(upload.name, upload.data);
    sent := Some(request);
    var reply := telegram(request);
    if !reply.ok {
      return Failed(500, TELEGRAM_FAILED), sent;
    }
    if reply.result.None? {
      // reading `result.message_id` throws
      return Failed(500, INTERNAL_ERROR), sent;
    }
    var message := reply.result.value;
    var lookup := ExtractFileId(message);
    if lookup.Throws? {
      return Failed(500, INTERNAL_ERROR), sent;
    }
    if lookup.Missing? {
      return Failed(500, NO_FILE_ID), sent;
    }
    var record := UploadRecord(upload, message.messageId, lookup.fileId, newId, now);
    var saved := store.Save(record);
    if !saved {
      // the validation or index error thrown by `save` lands in the catch-all
      return Failed(500, INTERNAL_ERROR), sent;
    }
    resp := Uploaded(newId, message.messageId.value, lookup.fileId);
  }
}
