/**
 * `GET /api/files`: the non-chunked documents, newest first, each reduced to
 * four fields.  The query is `find({ isChunked: false })`, `sort({ uploadDate: -1 })`,
 * `select('originalFilename originalFileSize uploadDate telegramMessageId -_id')`.
 * The route takes no folder argument: every non-chunked file is listed.
 */
module FilesRoute {
  import opened Basics
  import opened FileModel

  /** A listed entry: exactly the four selected fields, no `_id`. */
  datatype FileSummary = FileSummary(
    originalFilename: Option<string>,
    originalFileSize: Option<int>,
    uploadDate: int,
    telegramMessageId: Option<int>)

  datatype ListResponse = Files(files: seq<FileSummary>) | ListFailed(status: int, error: string)

  const FETCH_FAILED := "Failed to fetch files"

  function Project(r: FileRecord): FileSummary {
    FileSummary(r.originalFilename, r.originalFileSize, r.uploadDate, r.telegramMessageId)
  }

  /** The `isChunked: false` filter, keeping store order. */
  function Unchunked(rs: seq<FileRecord>): (out: seq<FileRecord>)
    ensures forall r :: r in out <==> r in rs && !r.isChunked
    ensures |out| <= |rs|
  {
    if rs == [] then []
    else (if rs[0].isChunked then [] else [rs[0]]) + Unchunked(rs[1..])
  }

  /** The filter keeps every non-chunked document as many times as the store holds it, and no chunk fragment. */
  lemma {:induction false} UnchunkedCounts(rs: seq<FileRecord>, r: FileRecord)
    ensures multiset(Unchunked(rs))[r] == if r.isChunked then 0 else multiset(rs)[r]
  {
    if rs != [] {
      UnchunkedCounts(rs[1..], r);
      assert rs == [rs[0]] + rs[1..];
    }
  }

  function Summaries(rs: seq<FileRecord>): (out: seq<FileSummary>)
    ensures |out| == |rs|
  {
    seq(|rs|, k requires 0 <= k < |rs| => Project(rs[k]))
  }

  /** Descending by upload date. */
  predicate NewestFirst(s: seq<FileSummary>) {
    forall i, j :: 0 <= i < j < |s| ==> s[i].uploadDate >= s[j].uploadDate
  }

  /** Insert into a list sorted newest first, before any entry of the same date. */
  function Insert(x: FileSummary, s: seq<FileSummary>): (out: seq<FileSummary>)
    requires NewestFirst(s)
    ensures multiset(out) == multiset(s) + multiset{x}
    ensures forall e :: e in out ==> e == x || e in s
    ensures NewestFirst(out)
  {
    if s == [] || x.uploadDate >= s[0].uploadDate then [x] + s
    else
      var rest := Insert(x, s[1..]);
      assert s == [s[0]] + s[1..];
      assert forall e :: e in rest ==> e.uploadDate <= s[0].uploadDate;
      [s[0]] + rest
  }

  /** `sort({ uploadDate: -1 })`.  Entries with equal dates keep their store order. */
  function SortNewestFirst(s: seq<FileSummary>): (out: seq<FileSummary>)
    ensures NewestFirst(out)
    ensures multiset(out) == multiset(s)
    ensures |out| == |s|
  {
    if s == [] then []
    else
      assert s == [s[0]] + s[1..];
      Insert(s[0], SortNewestFirst(s[1..]))
  }

  /** The listing over the store's documents. */
  function ListFiles(rs: seq<FileRecord>): (out: seq<FileSummary>)
    ensures NewestFirst(out)
    ensures |out| == |Unchunked(rs)|
  {
    SortNewestFirst(Summaries(Unchunked(rs)))
  }

  /** The handler; `connected` is whether the connection and the query succeed. */
  function Get(connected: bool, rs: seq<FileRecord>): (resp: ListResponse)
    ensures !connected <==> resp == ListFailed(500, FETCH_FAILED)
    ensures connected ==> resp == Files(ListFiles(rs))
  {
    if connected then Files(ListFiles(rs)) else ListFailed(500, FETCH_FAILED)
  }

  /** The listing is a permutation of the non-chunked documents' summaries, ordered newest first. */
  lemma ListingIsSortedPermutation(rs: seq<FileRecord>)
    ensures multiset(ListFiles(rs)) == multiset(Summaries(Unchunked(rs)))
    ensures NewestFirst(ListFiles(rs))
  {
  }

  /** Every listed entry is the summary of a non-chunked document of the store, and every
      non-chunked document is listed: chunk fragments never are. */
  lemma ListingMembership(rs: seq<FileRecord>)
    ensures forall s :: s in ListFiles(rs) ==> exists r :: r in rs && !r.isChunked && Project(r) == s
    ensures forall r :: r in rs && !r.isChunked ==> Project(r) in ListFiles(rs)
  {
    var u := Unchunked(rs);
    var listed := ListFiles(rs);
    assert multiset(listed) == multiset(Summaries(u));
    forall s | s in listed ensures exists r :: r in rs && !r.isChunked && Project(r) == s {
      assert s in multiset(Summaries(u));
      var k :| 0 <= k < |u| && Summaries(u)[k] == s;
      assert u[k] in u;
    }
    forall r | r in rs && !r.isChunked ensures Project(r) in listed {
      assert r in u;
      var k :| 0 <= k < |u| && u[k] == r;
      assert Summaries(u)[k] == Project(r);
      assert Project(r) in multiset(Summaries(u));
    }
  }
}
