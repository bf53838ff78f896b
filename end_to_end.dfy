/**
 * How what the home page sends meets what the two upload routes accept: the
 * client's size threshold against the direct route's limit, and the chunk
 * requests of a run against the chunk route's validation, labelling and folder
 * handling.
 */
module EndToEnd {
  import opened Basics
  import opened JsText
  import opened ChunkPlanner
  import opened HomePage
  import UploadRoute
  import UploadChunkRoute

  /** The multipart body the direct route receives from `handleUpload`. */
  function DirectForm(req: DirectRequest): UploadRoute.UploadForm {
    UploadRoute.UploadForm(Some(Blob(req.file.name, req.file.data)), Some(req.parentFolderId))
  }

  /** The multipart body the chunk route receives: a `Blob` appended without a file name arrives named "blob". */
  function ChunkFormOf(req: ChunkRequest): UploadChunkRoute.ChunkForm {
    UploadChunkRoute.ChunkForm(Some(Blob("blob", req.chunk)), Some(req.originalFilename), Some(req.uploadSessionId),
                               Some(req.chunkIndex), Some(req.totalChunks), Some(req.parentFolderId))
  }

  /** The client's threshold and the server's limit are the same number, so every file sent directly passes
      the size check, and every file the client would chunk is one the direct route would refuse. */
  lemma DirectPathWithinLimit(file: LocalFile, currentFolderId: Option<string>)
    ensures var v := UploadRoute.ValidateUpload(DirectForm(DirectRequest(file, FolderField(currentFolderId))));
      && (PathFor(|file.data|) == Direct <==> v.Success?)
      && (v.Success? ==> v.value == UploadRoute.Upload(file.name, file.data))
      && (v.Failure? ==> v.error == UploadRoute.SizeError(|file.data|))
  {
  }

  /** Every chunk request of a run passes the chunk route's validation exactly when the file name is
      non-empty (a session id is never empty), and then parses back to its own index and the run's total. */
  lemma ChunkRequestsValidate(file: LocalFile, parentFolderId: Option<string>, uploadSessionId: string, i: nat)
    requires uploadSessionId != ""
    requires i < TotalChunks(|file.data|)
    ensures var req := PlanRequests(file, parentFolderId, uploadSessionId)[i];
      var v := UploadChunkRoute.ValidateChunk(ChunkFormOf(req));
      && (v.Success? <==> file.name != "")
      && (v.Success? ==> v.value == UploadChunkRoute.ChunkMeta(Blob("blob", req.chunk), file.name, uploadSessionId,
                                                             i, TotalChunks(|file.data|)))
  {
    PlanFields(file, parentFolderId, uploadSessionId, i);
  }

  /** The label the server gives chunk i is the file name, "_chunk_" and the decimal index the client sent. */
  lemma ChunkLabelEchoesIndex(file: LocalFile, parentFolderId: Option<string>, uploadSessionId: string, i: nat)
    requires i < TotalChunks(|file.data|)
    ensures var req := PlanRequests(file, parentFolderId, uploadSessionId)[i];
      && ParseInt(Some(req.chunkIndex)) == Some(i)
      && UploadChunkRoute.ChunkLabel(file.name, i) == file.name + "_chunk_" + req.chunkIndex
  {
    PlanFields(file, parentFolderId, uploadSessionId, i);
  }

  /** The client sends the root folder as "root" and the server maps "root" back to none: the folder the
      server records is the client's current folder, except that a folder whose id is "" or "root" is lost. */
  lemma FolderRoundTrip(currentFolderId: Option<string>)
    ensures UploadChunkRoute.NormaliseFolder(Some(FolderField(currentFolderId))) ==
      (if currentFolderId == Some("") || currentFolderId == Some("root") then None else currentFolderId)
  {
  }
}
