/**
 * The upload logic of the home page: `handleUpload` sends each selected file
 * either directly (`/api/upload`) or, above 2 GiB, through `splitFileAndUpload`,
 * which posts the file's 1 GiB chunks to `/api/upload-chunk` one after
 * another, counts the chunks that succeed, updates the progress percentage,
 * and gives up at the first chunk that fails.
 */
module HomePage {
  import opened Basics
  import opened JsText
  import opened ChunkPlanner

  /** Files above this size take the chunked path. */
  const CHUNKING_THRESHOLD: nat := 2 * 1024 * 1024 * 1024

  /** A file picked in the browser. */
  datatype LocalFile = LocalFile(name: string, data: seq<byte>)

  /** The form posted for one chunk; every field is text except the chunk's bytes. */
  datatype ChunkRequest = ChunkRequest(
    chunk: seq<byte>,
    originalFilename: string,
    uploadSessionId: string,
    chunkIndex: string,
    totalChunks: string,
    parentFolderId: string)

  /** The form posted for a direct upload. */
  datatype DirectRequest = DirectRequest(file: LocalFile, parentFolderId: string)

  /** `parentFolderId || 'root'`: the root folder (null), and an empty id, are sent as "root". */
  function FolderField(current: Option<string>): (f: string)
    ensures f == "root" <==> current.None? || current.value == "" || current.value == "root"
    ensures f != "root" ==> current == Some(f)
  {
    if current.None? || current.value == "" then "root" else current.value
  }

  /** The requests `splitFileAndUpload` would send if every chunk succeeded, in loop order. */
  function PlanRequests(file: LocalFile, parentFolderId: Option<string>, uploadSessionId: string): (plan: seq<ChunkRequest>)
    ensures |plan| == TotalChunks(|file.data|)
  {
    var n := TotalChunks(|file.data|);
    var slices := Slices(file.data);
    seq(n, i requires 0 <= i < n =>
      ChunkRequest(slices[i], file.name, uploadSessionId, NatToString(i), NatToString(n), FolderField(parentFolderId)))
  }

  /** The plan's requests all carry the file's name, the one session id, the one total and the one
      folder field; request i carries index i and a chunk of at most CHUNK_SIZE bytes. */
  lemma PlanFields(file: LocalFile, parentFolderId: Option<string>, uploadSessionId: string, i: nat)
    requires i < TotalChunks(|file.data|)
    ensures var plan := PlanRequests(file, parentFolderId, uploadSessionId);
      && plan[i].originalFilename == file.name
      && plan[i].uploadSessionId == uploadSessionId
      && ParseInt(Some(plan[i].chunkIndex)) == Some(i)
      && ParseInt(Some(plan[i].totalChunks)) == Some(|plan|)
      && plan[i].parentFolderId == FolderField(parentFolderId)
      && 0 < |plan[i].chunk| <= CHUNK_SIZE
  {
    ParseIntOfNatToString(i);
    ParseIntOfNatToString(TotalChunks(|file.data|));
    ChunkRange(|file.data|, i);
  }

  /** The plan's chunks, concatenated in order, are the file. */
  lemma PlanReassembles(file: LocalFile, parentFolderId: Option<string>, uploadSessionId: string)
    ensures var plan := PlanRequests(file, parentFolderId, uploadSessionId);
      Concat(seq(|plan|, i requires 0 <= i < |plan| => plan[i].chunk)) == file.data
  {
    var plan := PlanRequests(file, parentFolderId, uploadSessionId);
    assert seq(|plan|, i requires 0 <= i < |plan| => plan[i].chunk) == Slices(file.data);
    SlicesReassemble(file.data);
  }

  /** `Math.round((uploaded / total) * 100)`, with exact arithmetic: the integer nearest to
      100 * uploaded / total, halves rounded up. */
  function Progress(uploaded: nat, total: nat): (p: int)
    requires total > 0
    ensures 2 * total * p <= 200 * uploaded + total < 2 * total * (p + 1)
  {
    (200 * uploaded + total) / (2 * total)
  }

  lemma ProgressBounds(uploaded: nat, total: nat)
    requires 0 < total && uploaded <= total
    ensures 0 <= Progress(uploaded, total) <= 100
    ensures uploaded == 0 ==> Progress(uploaded, total) == 0
    ensures uploaded == total ==> Progress(uploaded, total) == 100
  {
    var p := Progress(uploaded, total);
    if p < 0 {
      MulPositive(2 * total, -(p + 1));
    }
    if p > 100 {
      MulMonotone(2 * total, 101, p);
    }
    if uploaded == 0 && p > 0 {
      MulMonotone(2 * total, 1, p);
    }
    if uploaded == total && p < 100 {
      MulMonotone(2 * total, p + 1, 100);
    }
  }

  lemma ProgressMonotone(a: nat, b: nat, total: nat)
    requires 0 < total && a <= b
    ensures Progress(a, total) <= Progress(b, total)
  {
    var pa, pb := Progress(a, total), Progress(b, total);
    if pa > pb {
      MulMonotone(2 * total, pb + 1, pa);
    }
  }

  lemma MulMonotone(k: nat, x: int, y: int)
    requires x <= y
    ensures k * x <= k * y
  {
  }

  lemma MulPositive(k: nat, x: int)
    requires x >= 0
    ensures k * x >= 0
  {
  }

  /** What `splitFileAndUpload` did. */
  datatype SplitOutcome = AllUploaded | AbortedAt(chunk: nat)

  datatype SplitResult = SplitResult(
    sent: seq<ChunkRequest>,     // the requests posted, in order
    uploadedChunks: nat,         // the final value of the counter
    progressLog: seq<int>,       // every number passed to `setUploadProgress`, the initial 0 first
    outcome: SplitOutcome)

  /** The specification of one run: `accept` is the server's verdict on a request (`response.ok`). */
  predicate SplitSpec(file: LocalFile, parentFolderId: Option<string>, uploadSessionId: string,
                      accept: ChunkRequest -> bool, r: SplitResult)
  {
    var plan := PlanRequests(file, parentFolderId, uploadSessionId);
    var n := |plan|;
    && r.uploadedChunks <= n
    // the chunks before the counter succeeded, in order
    && (forall j :: 0 <= j < r.uploadedChunks ==> accept(plan[j]))
    // the loop ran to the end, or stopped at the first chunk that failed, having sent it
    && (if r.uploadedChunks == n
        then r.outcome == AllUploaded && r.sent == plan
        else r.outcome == AbortedAt(r.uploadedChunks) && !accept(plan[r.uploadedChunks])
             && r.sent == plan[..r.uploadedChunks + 1])
    // one progress value per success
    && |r.progressLog| == r.uploadedChunks + 1
    && r.progressLog[0] == 0
    && (forall j :: 0 < j < |r.progressLog| ==> n > 0 && r.progressLog[j] == Progress(j, n))
  }

  /** `splitFileAndUpload(file, parentFolderId)` with the session id given. */
  method SplitFileAndUpload(file: LocalFile, parentFolderId: Option<string>, uploadSessionId: string,
                            accept: ChunkRequest -> bool)
    returns (r: SplitResult)
    ensures SplitSpec(file, parentFolderId, uploadSessionId, accept, r)
  {
    ghost var plan := PlanRequests(file, parentFolderId, uploadSessionId);
    var totalChunks := TotalChunks(|file.data|);
    var uploadedChunks := 0;
    var progressLog := [0];
    var sent := [];
    for i := 0 to totalChunks
      invariant uploadedChunks == i
      invariant sent == plan[..i]
      invariant forall j :: 0 <= j < i ==> accept(plan[j])
      invariant |progressLog| == i + 1 && progressLog[0] == 0
      invariant forall j :: 0 < j < |progressLog| ==> progressLog[j] == Progress(j, totalChunks)
    {
      var start := i * CHUNK_SIZE;
      var end := Min(start + CHUNK_SIZE, |file.data|);
      ChunkRange(|file.data|, i);
      var request := ChunkRequest(file.data[start..end], file.name, uploadSessionId,
                                  NatToString(i), NatToString(totalChunks), FolderField(parentFolderId));
      assert end == ChunkEnd(i, |file.data|);
      assert Slices(file.data)[i] == file.data[start..end];
      assert request == plan[i];
      sent := sent + [request];
      if !accept(request) {
        return SplitResult(sent, uploadedChunks, progressLog, AbortedAt(i));
      }
      uploadedChunks := uploadedChunks + 1;
      progressLog := progressLog + [Progress(uploadedChunks, totalChunks)];
    }
    assert sent == plan;
    r := SplitResult(sent, uploadedChunks, progressLog, AllUploaded);
  }

  /** The requests of a run are issued in strictly increasing chunk order, request j as chunk j,
      all with one session id and the one total. */
  lemma SentRequestsInOrder(file: LocalFile, parentFolderId: Option<string>, uploadSessionId: string,
                            accept: ChunkRequest -> bool, r: SplitResult)
    requires SplitSpec(file, parentFolderId, uploadSessionId, accept, r)
    ensures forall j :: 0 <= j < |r.sent| ==>
      && ParseInt(Some(r.sent[j].chunkIndex)) == Some(j)
      && r.sent[j].uploadSessionId == uploadSessionId
      && ParseInt(Some(r.sent[j].totalChunks)) == Some(TotalChunks(|file.data|))
  {
    var plan := PlanRequests(file, parentFolderId, uploadSessionId);
    assert |r.sent| <= |plan|;
    forall j | 0 <= j < |r.sent|
      ensures r.sent[j] == plan[j]
      ensures ParseInt(Some(r.sent[j].chunkIndex)) == Some(j)
      ensures r.sent[j].uploadSessionId == uploadSessionId
      ensures ParseInt(Some(r.sent[j].totalChunks)) == Some(TotalChunks(|file.data|))
    {
      PlanFields(file, parentFolderId, uploadSessionId, j);
    }
  }

  /** After an abort at chunk k, exactly chunks 0..k-1 succeeded, chunk k was the one rejected and
      nothing after it was sent; a complete run sent every chunk and every one succeeded. */
  lemma SentRequestsVerdicts(file: LocalFile, parentFolderId: Option<string>, uploadSessionId: string,
                             accept: ChunkRequest -> bool, r: SplitResult)
    requires SplitSpec(file, parentFolderId, uploadSessionId, accept, r)
    ensures r.outcome.AbortedAt? ==>
      && |r.sent| == r.outcome.chunk + 1 < TotalChunks(|file.data|) + 1
      && (forall j :: 0 <= j < |r.sent| ==> (accept(r.sent[j]) <==> j < r.outcome.chunk))
    ensures r.outcome.AllUploaded? ==>
      && |r.sent| == TotalChunks(|file.data|)
      && forall j :: 0 <= j < |r.sent| ==> accept(r.sent[j])
  {
  }

  /** The progress shown never goes down, stays within 0..100, and reaches 100 when every chunk succeeded. */
  lemma ProgressLogMonotone(file: LocalFile, parentFolderId: Option<string>, uploadSessionId: string,
                            accept: ChunkRequest -> bool, r: SplitResult)
    requires SplitSpec(file, parentFolderId, uploadSessionId, accept, r)
    ensures forall i, j :: 0 <= i <= j < |r.progressLog| ==> r.progressLog[i] <= r.progressLog[j]
    ensures forall j :: 0 <= j < |r.progressLog| ==> 0 <= r.progressLog[j] <= 100
    ensures r.outcome.AllUploaded? && |file.data| > 0 ==> r.progressLog[|r.progressLog| - 1] == 100
  {
    var n := TotalChunks(|file.data|);
    forall i, j | 0 <= i <= j < |r.progressLog| ensures r.progressLog[i] <= r.progressLog[j] {
      if 0 < i {
        ProgressMonotone(i, j, n);
      } else if 0 < j {
        ProgressBounds(j, n);
      }
    }
    forall j | 0 < j < |r.progressLog| ensures 0 <= r.progressLog[j] <= 100 {
      ProgressBounds(j, n);
    }
    if r.outcome.AllUploaded? && |file.data| > 0 {
      ProgressBounds(n, n);
    }
  }

  /** The run is determined by the file, the session and the server's verdicts. */
  lemma SplitSpecDeterministic(file: LocalFile, parentFolderId: Option<string>, uploadSessionId: string,
                               accept: ChunkRequest -> bool, r1: SplitResult, r2: SplitResult)
    requires SplitSpec(file, parentFolderId, uploadSessionId, accept, r1)
    requires SplitSpec(file, parentFolderId, uploadSessionId, accept, r2)
    ensures r1 == r2
  {
    assert r1.progressLog == r2.progressLog;
  }

  /** `file.size > 2 * 1024 * 1024 * 1024` picks the path. */
  datatype UploadPath = Direct | Chunked

  function PathFor(size: nat): (p: UploadPath)
    ensures p == Chunked <==> TotalChunks(size) >= 3
  {
    if size > CHUNKING_THRESHOLD then Chunked else Direct
  }

  /** A chunked upload always has at least three chunks. */
  lemma ChunkedHasThreeChunks(size: nat)
    requires PathFor(size) == Chunked
    ensures TotalChunks(size) >= 3
  {
  }

  /** What happened to one selected file. */
  datatype FileAttempt = DirectAttempt(request: DirectRequest) | ChunkedAttempt(run: SplitResult)

  datatype HandleOutcome = NoFileSelected | Attempted(attempts: seq<FileAttempt>)

  /** The attempt made for `file`: the direct form, or a chunked run meeting its specification. */
  predicate AttemptFor(file: LocalFile, currentFolderId: Option<string>, uploadSessionId: string,
                       accept: ChunkRequest -> bool, a: FileAttempt)
  {
    match PathFor(|file.data|)
    case Direct => a == DirectAttempt(DirectRequest(file, FolderField(currentFolderId)))
    case Chunked => a.ChunkedAttempt? && SplitSpec(file, currentFolderId, uploadSessionId, accept, a.run)
  }

  /** `handleUpload`: every selected file in turn, on the path its size selects.  A failure of one file
      is reported and the loop moves on to the next.  `sessionIdFor(k)` is the session id generated
      for the k-th file; `accept` is the chunk route's verdict. */
  method HandleUpload(selected: Option<seq<LocalFile>>, currentFolderId: Option<string>,
                      sessionIdFor: nat -> string, accept: ChunkRequest -> bool)
    returns (outcome: HandleOutcome)
    ensures outcome.NoFileSelected? <==> selected.None? || selected.value == []
    ensures outcome.Attempted? ==>
      && |outcome.attempts| == |selected.value|
      && forall k :: 0 <= k < |selected.value| ==>
           AttemptFor(selected.value[k], currentFolderId, sessionIdFor(k), accept, outcome.attempts[k])
  {
    if selected.None? || selected.value == [] {
      return NoFileSelected;
    }
    var files := selected.value;
    var attempts := [];
    for k := 0 to |files|
      invariant |attempts| == k
      invariant forall m :: 0 <= m < k ==> AttemptFor(files[m], currentFolderId, sessionIdFor(m), accept, attempts[m])
    {
      var file := files[k];
      if |file.data| > CHUNKING_THRESHOLD {
        var run := SplitFileAndUpload(file, currentFolderId, sessionIdFor(k), accept);
        attempts := attempts + [ChunkedAttempt(run)];
      } else {
        attempts := attempts + [DirectAttempt(DirectRequest(file, FolderField(currentFolderId)))];
      }
    }
    outcome := Attempted(attempts);
  }
}
