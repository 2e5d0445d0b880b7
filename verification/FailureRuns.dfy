/** Runs from the empty store after which GET does not answer what the requests were promised. */
module FailureRuns {
  import opened Basics
  import opened ContentIndex
  import opened DedupStore
  import opened StoreSafety
  import opened Refinement
  import opened RequestRuns

  // ---- Plain and chunked objects at one key ----

  function PlainState(k: ObjKey, data: Blob): State {
    Init().(manifests := map[k := []], heads := map[k := PlainHead(|data|)], plain := map[k := data])
  }

  lemma FirstPlainPut(h: Blob -> string, k: ObjKey, data: Blob)
    ensures ValidRun(h, Init(), FirstPlainPutRun(0, k, data)) && Final(h, Init(), FirstPlainPutRun(0, k, data)) == PlainState(k, data)
  {
    FirstPlainPutRuns(h, Init(), 0, k, data);
  }

  /** A plain PUT whose body has the wrong length is refused after its blob was written. */
  function RejectedPut(k: ObjKey, first: Blob, data: Blob): seq<Step> {
    FirstPlainPutRun(0, k, first) + [RejectedPlainPut(k, data)]
  }

  /** What GET answers once `data` lies where `first` was written and declared. */
  function Overwritten(first: Blob, data: Blob): Answer {
    if Fits(data, |first|) then Found(data) else Torn
  }

  /** The refused bytes are served if the old length is theirs or zero; otherwise the object cannot be served at all. */
  lemma RejectedPutOverwrites(h: Blob -> string, k: ObjKey, first: Blob, data: Blob)
    ensures ValidRun(h, Init(), FirstPlainPutRun(0, k, first)) && ValidRun(h, Init(), RejectedPut(k, first, data))
    ensures Get(h, Final(h, Init(), FirstPlainPutRun(0, k, first)), k) == Found(first)
    ensures Get(h, Final(h, Init(), RejectedPut(k, first, data)), k) == Overwritten(first, data)
  {
    FirstPlainPut(h, k, first);
    RunSnoc(h, Init(), FirstPlainPutRun(0, k, first), RejectedPlainPut(k, data));
  }

  /** A plain PUT over a plain object writes its blob; its head row is still the old one. */
  function OverwriteBegins(k: ObjKey, first: Blob, data: Blob): seq<Step> {
    FirstPlainPutRun(0, k, first) + [Begin(1, k, PlainWrite(data, Fits(data, |first|)))]
  }

  lemma OverwriteBeginStep(h: Blob -> string, k: ObjKey, first: Blob, data: Blob)
    ensures var job, s := PlainWrite(data, Fits(data, |first|)), PlainState(k, first);
      && Enabled(h, s, Begin(1, k, job))
      && Next(h, s, Begin(1, k, job)) == s.(txns := map[1 := Txn(k, job, false, Begun, [])], plain := map[k := data])
  {
    BeginStep(h, PlainState(k, first), 1, k, PlainWrite(data, Fits(data, |first|)));
  }

  lemma OverwrittenAnswer(h: Blob -> string, s: State, k: ObjKey, first: Blob, data: Blob)
    requires s.heads == map[k := PlainHead(|first|)] && s.plain == map[k := data]
    ensures Get(h, s, k) == Overwritten(first, data)
  {
  }

  /**
   A plain overwrite of another length: as soon as its blob is written GET can serve neither object, and if its head
   upsert fails, which the client is told, it stays that way.
   */
  lemma FailedOverwriteIsTorn(h: Blob -> string, k: ObjKey, first: Blob, data: Blob)
    ensures var run := OverwriteBegins(k, first, data);
      && ValidRun(h, Init(), run) && Get(h, Final(h, Init(), run), k) == Overwritten(first, data)
      && ValidRun(h, Init(), run + [Abort(1)]) && Final(h, Init(), run + [Abort(1)]).txns == map[]
      && Get(h, Final(h, Init(), run + [Abort(1)]), k) == Overwritten(first, data)
  {
    var run := OverwriteBegins(k, first, data);
    FirstPlainPut(h, k, first);
    OverwriteBeginStep(h, k, first, data);
    RunSnoc(h, Init(), FirstPlainPutRun(0, k, first), Begin(1, k, PlainWrite(data, Fits(data, |first|))));
    var s := Final(h, Init(), run);
    OverwrittenAnswer(h, s, k, first, data);
    AbortStep(h, s, 1);
    RunSnoc(h, Init(), run, Abort(1));
    OverwrittenAnswer(h, s.(txns := s.txns - {1}), k, first, data);
  }

  lemma AbortStep(h: Blob -> string, s: State, t: nat)
    requires t in s.txns
    ensures Enabled(h, s, Abort(t)) && Next(h, s, Abort(t)) == s.(txns := s.txns - {t})
  {
  }

  /** An object is written whole, then chunked; the delete of the old blob fails, which is only logged. */
  function PutOverPlain(k: ObjKey, first: Blob, c: ChunkId, data: Blob): seq<Step> {
    FirstPlainPutRun(0, k, first) + StoreRun(0, c, data) + PutRun(1, k, 0, c, data) + [Cleanup(1, false)]
  }

  function ChunkedOverPlain(k: ObjKey, first: Blob, c: ChunkId, data: Blob): State {
    Init().(index := map[c := Row(1, false)], blobs := map[c := data], manifests := map[k := [c]],
            heads := map[k := ChunkedHead(|data|)], sizes := map[k := |data|], plain := map[k := first])
  }

  lemma PutOverPlainRuns(h: Blob -> string, k: ObjKey, first: Blob, c: ChunkId, data: Blob)
    requires h(data) == c.hash && data != ""
    ensures ValidRun(h, Init(), PutOverPlain(k, first, c, data))
    ensures Final(h, Init(), PutOverPlain(k, first, c, data)) == ChunkedOverPlain(k, first, c, data)
  {
    var s1, s2 := PlainState(k, first), Stored(PlainState(k, first), 0, c, data);
    FirstPlainPut(h, k, first);
    StoreRuns(h, s1, 0, c, data);
    Chain(h, Init(), FirstPlainPutRun(0, k, first), s1, StoreRun(0, c, data));
    PutRuns(h, s2, 1, k, 0, c, data);
    Chain(h, Init(), FirstPlainPutRun(0, k, first) + StoreRun(0, c, data), s2, PutRun(1, k, 0, c, data));
    CleanupFails(h, k, first, c, data);
    RunSnoc(h, Init(), FirstPlainPutRun(0, k, first) + StoreRun(0, c, data) + PutRun(1, k, 0, c, data), Cleanup(1, false));
  }

  lemma CleanupFails(h: Blob -> string, k: ObjKey, first: Blob, c: ChunkId, data: Blob)
    ensures var s := Installed(Stored(PlainState(k, first), 0, c, data), 1, k, 0, c, |data|);
      Enabled(h, s, Cleanup(1, false)) && Next(h, s, Cleanup(1, false)) == ChunkedOverPlain(k, first, c, data)
  {
    var s := Installed(Stored(PlainState(k, first), 0, c, data), 1, k, 0, c, |data|);
    FailedCleanup(h, s, 1);
    OverPlain(k, first, c, data);
  }

  lemma FailedCleanup(h: Blob -> string, s: State, t: nat)
    requires t in s.cleanups
    ensures Enabled(h, s, Cleanup(t, false)) && Next(h, s, Cleanup(t, false)) == s.(cleanups := s.cleanups - {t})
  {
  }

  lemma OverPlain(k: ObjKey, first: Blob, c: ChunkId, data: Blob)
    ensures var s := Installed(Stored(PlainState(k, first), 0, c, data), 1, k, 0, c, |data|);
      s.(cleanups := s.cleanups - {1}) == ChunkedOverPlain(k, first, c, data)
  {
    var s := Installed(Stored(PlainState(k, first), 0, c, data), 1, k, 0, c, |data|);
    assert s.uploads == map[] && s.cleanups - {1} == map[];
  }

  /** After the DELETE the key answers again, with the bytes of the overwritten object. */
  lemma DeletedObjectComesBack(h: Blob -> string, k: ObjKey, first: Blob, c: ChunkId, data: Blob)
    requires h(data) == c.hash && data != ""
    ensures var put := PutOverPlain(k, first, c, data);
      var run := put + (ReleaseRun(2, k) + [DeleteHead(k)]);
      && ValidRun(h, Init(), put) && Get(h, Final(h, Init(), put), k) == Found(data)
      && ValidRun(h, Init(), run) && Get(h, Final(h, Init(), run), k) == Found(first)
  {
    var s := ChunkedOverPlain(k, first, c, data);
    PutOverPlainRuns(h, k, first, c, data);
    ChunkedAnswer(h, k, first, c, data);
    DeleteRemovesUnlessStaleBlob(h, s, 2, k);
    Chain(h, Init(), PutOverPlain(k, first, c, data), s, DeleteRun(s, 2, k));
  }

  lemma OneBody(data: Blob)
    ensures Body([data], |data|) == Some(data)
  {
    assert [data][1..] == [] && data + [] == data;
    AllBytesAreABody([data]);
  }

  lemma ChunkedAnswer(h: Blob -> string, k: ObjKey, first: Blob, c: ChunkId, data: Blob)
    requires h(data) == c.hash && data != ""
    ensures Get(h, ChunkedOverPlain(k, first, c, data), k) == Found(data)
  {
    InstalledAnswers(h, ChunkedOverPlain(k, first, c, data), k, c, data);
  }

  /**
   The old blob of a chunked PUT is deleted after its transaction has committed and its locks are gone. A plain PUT
   that writes the same key in between has answered success by then; the delete takes its blob.
   */
  function LateCleanup(k: ObjKey, c: ChunkId, data: Blob, late: Blob): seq<Step> {
    FirstPut(k, c, data) + PlainPutRun(1, k, late)
  }

  lemma LateCleanupLosesAWrite(h: Blob -> string, k: ObjKey, c: ChunkId, data: Blob, late: Blob)
    requires h(data) == c.hash && data != ""
    ensures var run := LateCleanup(k, c, data, late);
      && ValidRun(h, Init(), run) && Final(h, Init(), run).txns == map[] && Get(h, Final(h, Init(), run), k) == Found(late)
      && ValidRun(h, Init(), run + [Cleanup(0, true)]) && Get(h, Final(h, Init(), run + [Cleanup(0, true)]), k) == NoSuchKey
  {
    var s := AfterFirstPut(k, c, data);
    FirstPutRuns(h, k, c, data);
    PlainPutRuns(h, s, 1, k, late);
    Chain(h, Init(), FirstPut(k, c, data), s, PlainPutRun(1, k, late));
    CleanupTakesBlob(h, PlainOver(s, k, late), k);
    RunSnoc(h, Init(), LateCleanup(k, c, data, late), Cleanup(0, true));
  }

  lemma CleanupTakesBlob(h: Blob -> string, s: State, k: ObjKey)
    requires 0 in s.cleanups && s.cleanups[0] == k && !Chunked(s, k)
    ensures Enabled(h, s, Cleanup(0, true)) && Get(h, Next(h, s, Cleanup(0, true)), k) == NoSuchKey
  {
  }

  // ---- A plain write overtaken between its halves ----

  /** A plain PUT has written its blob. */
  function BlobWritten(k: ObjKey, c: ChunkId, data: Blob, late: Blob): seq<Step> {
    StoreRun(0, c, data) + [Begin(1, k, PlainWrite(late, true))]
  }

  /** Then the chunked PUT of the same key commits, and after it the plain one. */
  function Overtaken(k: ObjKey, c: ChunkId, data: Blob, late: Blob): seq<Step> {
    BlobWritten(k, c, data, late) + PutRun(2, k, 0, c, data)
  }

  function PlainBegun(k: ObjKey, c: ChunkId, data: Blob, late: Blob): State {
    Stored(Init(), 0, c, data).(txns := map[1 := Txn(k, PlainWrite(late, true), false, Begun, [])], plain := map[k := late])
  }

  lemma BlobWrittenRuns(h: Blob -> string, k: ObjKey, c: ChunkId, data: Blob, late: Blob)
    requires h(data) == c.hash && data != ""
    ensures ValidRun(h, Init(), BlobWritten(k, c, data, late))
    ensures Final(h, Init(), BlobWritten(k, c, data, late)) == PlainBegun(k, c, data, late)
    ensures Get(h, PlainBegun(k, c, data, late), k) == Found(late)
  {
    StoreRuns(h, Init(), 0, c, data);
    BeginStep(h, Stored(Init(), 0, c, data), 1, k, PlainWrite(late, true));
    RunSnoc(h, Init(), StoreRun(0, c, data), Begin(1, k, PlainWrite(late, true)));
  }

  lemma InstalledAnswers(h: Blob -> string, s: State, k: ObjKey, c: ChunkId, data: Blob)
    requires h(data) == c.hash && c in s.index && c in s.blobs && s.blobs[c] == data
    requires k in s.manifests && s.manifests[k] == [c] && k in s.heads && s.heads[k] == ChunkedHead(|data|)
    ensures Get(h, s, k) == Found(data)
  {
    OneBody(data);
    assert Contents(s.blobs, [c]) == [data];
  }

  /** A plain write that finds the chunked head row runs to its end, and its blob is what GET answers. */
  lemma PlainFinishes(h: Blob -> string, s: State, k: ObjKey, late: Blob)
    requires s.txns == map[1 := Txn(k, PlainWrite(late, true), false, Begun, [])]
    requires Chunked(s, k) && k in s.plain && s.plain[k] == late
    ensures ValidRun(h, s, [LookHead(1)] + RowsRun(1) + [Commit(1)])
    ensures Get(h, Final(h, s, [LookHead(1)] + RowsRun(1) + [Commit(1)]), k) == Found(late)
  {
    var s1 := s.(txns := map[1 := Txn(k, PlainWrite(late, true), true, Looked, [])]);
    FindsChunkedHead(h, s, k, late);
    OneStep(h, s, LookHead(1));
    PlainEnds(h, s1, k, late);
    Chain(h, s, [LookHead(1)], s1, RowsRun(1) + [Commit(1)]);
    assert [LookHead(1)] + (RowsRun(1) + [Commit(1)]) == [LookHead(1)] + RowsRun(1) + [Commit(1)];
  }

  lemma FindsChunkedHead(h: Blob -> string, s: State, k: ObjKey, late: Blob)
    requires s.txns == map[1 := Txn(k, PlainWrite(late, true), false, Begun, [])] && Chunked(s, k)
    ensures Enabled(h, s, LookHead(1))
    ensures Next(h, s, LookHead(1)) == s.(txns := map[1 := Txn(k, PlainWrite(late, true), true, Looked, [])])
  {
    LookStep(h, s, 1, s.txns[1]);
  }

  lemma PlainEnds(h: Blob -> string, s: State, k: ObjKey, late: Blob)
    requires s.txns == map[1 := Txn(k, PlainWrite(late, true), true, Looked, [])] && k in s.plain && s.plain[k] == late
    ensures ValidRun(h, s, RowsRun(1) + [Commit(1)])
    ensures Get(h, Final(h, s, RowsRun(1) + [Commit(1)]), k) == Found(late)
  {
    RowsRuns(h, s, 1);
    PlainCommitAnswers(h, s.(txns := s.txns[1 := Opened(s, s.txns[1])]), k, late);
    RunSnoc(h, s, RowsRun(1), Commit(1));
  }

  lemma PlainCommitAnswers(h: Blob -> string, s: State, k: ObjKey, late: Blob)
    requires 1 in s.txns && s.txns.Keys == {1} && s.txns[1].k == k && s.txns[1].job == PlainWrite(late, true)
    requires s.txns[1].progress.Deleted? && k in s.plain && s.plain[k] == late
    ensures Enabled(h, s, Commit(1)) && Get(h, Next(h, s, Commit(1)), k) == Found(late)
  {
  }

  /** GET answers the plain PUT's bytes, then the chunked PUT's, then the plain PUT's again. */
  lemma OvertakenWriteTakesEffectTwice(h: Blob -> string, k: ObjKey, c: ChunkId, data: Blob, late: Blob)
    requires h(data) == c.hash && data != ""
    ensures var first, second := BlobWritten(k, c, data, late), Overtaken(k, c, data, late);
      var third := second + ([LookHead(1)] + RowsRun(1) + [Commit(1)]);
      && ValidRun(h, Init(), first) && Get(h, Final(h, Init(), first), k) == Found(late)
      && ValidRun(h, Init(), second) && Get(h, Final(h, Init(), second), k) == Found(data)
      && ValidRun(h, Init(), third) && Get(h, Final(h, Init(), third), k) == Found(late)
  {
    var s := PlainBegun(k, c, data, late);
    var e := Installed(s, 2, k, 0, c, |data|);
    BlobWrittenRuns(h, k, c, data, late);
    PutRuns(h, s, 2, k, 0, c, data);
    Chain(h, Init(), BlobWritten(k, c, data, late), s, PutRun(2, k, 0, c, data));
    InstalledAnswers(h, e, k, c, data);
    PlainFinishes(h, e, k, late);
    Chain(h, Init(), Overtaken(k, c, data, late), e, [LookHead(1)] + RowsRun(1) + [Commit(1)]);
  }

  // ---- A stale copy ----

  function StaleCopyBegins(src: ObjKey, k: ObjKey, c: ChunkId, data: Blob, d: ChunkId, next: Blob): seq<Step> {
    FirstPut(src, c, data) + StoreRun(1, d, next) + [BeginCopy(1, src, k, [data])]
  }

  /** The copy reads the source's manifest; the source is overwritten; the copy reads the size and commits. */
  function StaleCopy(src: ObjKey, k: ObjKey, c: ChunkId, data: Blob, d: ChunkId, next: Blob): seq<Step> {
    StaleCopyBegins(src, k, c, data, d, next) + PutRun(2, src, 1, d, next)
    + ([ReadSize(1, src)] + [LookHead(1)] + RowsRun(1) + [Commit(1)])
  }

  function CopyJob(c: ChunkId, data: Blob, size: Option<nat>): Job {
    CopyManifest([c], [data], |data|, size)
  }

  function CopyBegun(src: ObjKey, k: ObjKey, c: ChunkId, data: Blob, d: ChunkId, next: Blob): State {
    Stored(AfterFirstPut(src, c, data), 1, d, next).(txns := map[1 := Txn(k, CopyJob(c, data, None), false, Begun, [])])
  }

  lemma CopyBegins(h: Blob -> string, src: ObjKey, k: ObjKey, c: ChunkId, data: Blob, d: ChunkId, next: Blob)
    requires src != k && h(data) == c.hash && h(next) == d.hash && data != "" && next != ""
    ensures ValidRun(h, Init(), StaleCopyBegins(src, k, c, data, d, next))
    ensures Final(h, Init(), StaleCopyBegins(src, k, c, data, d, next)) == CopyBegun(src, k, c, data, d, next)
  {
    var s := AfterFirstPut(src, c, data);
    FirstPutRuns(h, src, c, data);
    StoreRuns(h, s, 1, d, next);
    Chain(h, Init(), FirstPut(src, c, data), s, StoreRun(1, d, next));
    CopyBeginStep(h, Stored(s, 1, d, next), src, k, c, data);
    RunSnoc(h, Init(), FirstPut(src, c, data) + StoreRun(1, d, next), BeginCopy(1, src, k, [data]));
  }

  lemma CopyBeginStep(h: Blob -> string, s: State, src: ObjKey, k: ObjKey, c: ChunkId, data: Blob)
    requires src != k && h(data) == c.hash && data != "" && Fresh(s, 1)
    requires src in s.heads && s.heads[src] == ChunkedHead(|data|) && src in s.manifests && s.manifests[src] == [c]
    ensures Enabled(h, s, BeginCopy(1, src, k, [data]))
    ensures Next(h, s, BeginCopy(1, src, k, [data]))
         == s.(txns := s.txns[1 := Txn(k, CopyJob(c, data, None), false, Begun, [])])
  {
    OnePiece(h, c, data);
  }

  function SizeRead(src: ObjKey, k: ObjKey, c: ChunkId, data: Blob, d: ChunkId, next: Blob): State {
    Installed(CopyBegun(src, k, c, data, d, next), 2, src, 1, d, |next|).(
      txns := map[1 := Txn(k, CopyJob(c, data, Some(|next|)), false, Looked, [])])
  }

  lemma SourceOverwritten(h: Blob -> string, src: ObjKey, k: ObjKey, c: ChunkId, data: Blob, d: ChunkId, next: Blob)
    requires h(data) == c.hash && h(next) == d.hash && data != "" && next != "" && src != k && c != d
    ensures ValidRun(h, CopyBegun(src, k, c, data, d, next), PutRun(2, src, 1, d, next))
    ensures Final(h, CopyBegun(src, k, c, data, d, next), PutRun(2, src, 1, d, next))
         == Installed(CopyBegun(src, k, c, data, d, next), 2, src, 1, d, |next|)
  {
    PutRuns(h, CopyBegun(src, k, c, data, d, next), 2, src, 1, d, next);
  }

  lemma ReadThenLook(h: Blob -> string, src: ObjKey, k: ObjKey, c: ChunkId, data: Blob, d: ChunkId, next: Blob)
    requires src != k
    ensures var s := Installed(CopyBegun(src, k, c, data, d, next), 2, src, 1, d, |next|);
      && ValidRun(h, s, [ReadSize(1, src)] + [LookHead(1)])
      && Final(h, s, [ReadSize(1, src)] + [LookHead(1)]) == SizeRead(src, k, c, data, d, next)
  {
    var s := Installed(CopyBegun(src, k, c, data, d, next), 2, src, 1, d, |next|);
    var mid := s.(txns := map[1 := Txn(k, CopyJob(c, data, Some(|next|)), false, Begun, [])]);
    SizeIsRead(h, s, src, k, c, data, |next|);
    SizedLooks(h, mid, k, c, data, |next|);
    TwoSteps(h, s, ReadSize(1, src), mid, LookHead(1));
  }

  lemma SizeIsRead(h: Blob -> string, s: State, src: ObjKey, k: ObjKey, c: ChunkId, data: Blob, n: nat)
    requires s.txns == map[1 := Txn(k, CopyJob(c, data, None), false, Begun, [])]
    requires src in s.sizes && s.sizes[src] == n
    ensures Enabled(h, s, ReadSize(1, src))
    ensures Next(h, s, ReadSize(1, src)) == s.(txns := map[1 := Txn(k, CopyJob(c, data, Some(n)), false, Begun, [])])
  {
  }

  lemma SizedLooks(h: Blob -> string, s: State, k: ObjKey, c: ChunkId, data: Blob, n: nat)
    requires s.txns == map[1 := Txn(k, CopyJob(c, data, Some(n)), false, Begun, [])] && k !in s.heads
    ensures Enabled(h, s, LookHead(1))
    ensures Next(h, s, LookHead(1)) == s.(txns := map[1 := Txn(k, CopyJob(c, data, Some(n)), false, Looked, [])])
  {
  }

  function CopyOpen(src: ObjKey, k: ObjKey, c: ChunkId, data: Blob, d: ChunkId, next: Blob): State {
    SizeRead(src, k, c, data, d, next).(txns := map[1 := Txn(k, CopyJob(c, data, Some(|next|)), false, Deleted(false), [])])
  }

  lemma CopyRowsRun(h: Blob -> string, src: ObjKey, k: ObjKey, c: ChunkId, data: Blob, d: ChunkId, next: Blob)
    requires src != k
    ensures ValidRun(h, SizeRead(src, k, c, data, d, next), RowsRun(1))
    ensures Final(h, SizeRead(src, k, c, data, d, next), RowsRun(1)) == CopyOpen(src, k, c, data, d, next)
  {
    FreshRowsRun(h, SizeRead(src, k, c, data, d, next), k, CopyJob(c, data, Some(|next|)));
  }

  /** The statements on the rows of a key that has none. */
  lemma FreshRowsRun(h: Blob -> string, s: State, k: ObjKey, job: Job)
    requires s.txns == map[1 := Txn(k, job, false, Looked, [])] && k !in s.manifests
    ensures ValidRun(h, s, RowsRun(1))
    ensures Final(h, s, RowsRun(1)) == s.(txns := map[1 := Txn(k, job, false, Deleted(false), [])])
  {
    RowsRuns(h, s, 1);
    assert s.txns[1 := Opened(s, s.txns[1])] == map[1 := Txn(k, job, false, Deleted(false), [])];
  }

  lemma WrongSize(data: Blob, n: nat)
    requires 0 < n != |data|
    ensures Body([data], n) == None
  {
    assert [data][1..] == [];
    if |data| < n {
      assert Body([], n - |data|) == None;
    }
  }

  lemma StaleCommitAnswers(h: Blob -> string, s: State, k: ObjKey, c: ChunkId, data: Blob, n: nat)
    requires s.txns == map[1 := Txn(k, CopyJob(c, data, Some(n)), false, Deleted(false), [])]
    requires k !in s.manifests && c in s.index && c in s.blobs && s.blobs[c] == data && h(data) == c.hash && 0 < n != |data|
    ensures Enabled(h, s, Commit(1)) && Get(h, Next(h, s, Commit(1)), k) == Torn
  {
    WrongSize(data, n);
    StaleRows(s, k, c, data, n);
    CommitStep(h, s, 1);
    TornAnswer(h, CommitTxn(s, 1, s.txns[1]), k, c, data, n);
  }

  lemma StaleRows(s: State, k: ObjKey, c: ChunkId, data: Blob, n: nat)
    requires s.txns == map[1 := Txn(k, CopyJob(c, data, Some(n)), false, Deleted(false), [])] && k !in s.manifests
    requires c in s.index
    ensures CommitReady(s, 1, s.txns[1])
    ensures var e := CommitTxn(s, 1, s.txns[1]);
      RowsAt(e.manifests, k) == [c] && k in e.heads && e.heads[k] == ChunkedHead(n) && e.blobs == s.blobs && c in e.index
  {
    IncrementAllCounts(s.index, [c]);
    DecrementAllDrops(IncrementAll(s.index, [c]), []);
  }

  lemma TornAnswer(h: Blob -> string, s: State, k: ObjKey, c: ChunkId, data: Blob, n: nat)
    requires RowsAt(s.manifests, k) == [c] && k in s.heads && s.heads[k] == ChunkedHead(n) && c in s.index
    requires c in s.blobs && s.blobs[c] == data && h(data) == c.hash && Body([data], n) == None
    ensures Get(h, s, k) == Torn
  {
    assert Contents(s.blobs, [c]) == [data];
  }

  lemma SourceKept(src: ObjKey, k: ObjKey, c: ChunkId, data: Blob, d: ChunkId, next: Blob)
    requires src != k && c != d
    ensures var s := CopyOpen(src, k, c, data, d, next);
      k !in s.manifests && c in s.index && c in s.blobs && s.blobs[c] == data
  {
    DecrementAllDrops(CopyBegun(src, k, c, data, d, next).index, [c]);
  }

  /** A copy whose source is overwritten between its two queries answers neither of the source's versions. */
  lemma StaleCopyIsNeither(h: Blob -> string, src: ObjKey, k: ObjKey, c: ChunkId, data: Blob, d: ChunkId, next: Blob)
    requires src != k && c != d && h(data) == c.hash && h(next) == d.hash && data != "" && next != "" && 0 < |next| != |data|
    ensures ValidRun(h, Init(), StaleCopy(src, k, c, data, d, next))
    ensures Get(h, Final(h, Init(), StaleCopy(src, k, c, data, d, next)), k) == Torn
  {
    var s1 := CopyBegun(src, k, c, data, d, next);
    var s2, s4 := Installed(s1, 2, src, 1, d, |next|), CopyOpen(src, k, c, data, d, next);
    var a, b := StaleCopyBegins(src, k, c, data, d, next), PutRun(2, src, 1, d, next);
    CopyBegins(h, src, k, c, data, d, next);
    SourceOverwritten(h, src, k, c, data, d, next);
    Chain(h, Init(), a, s1, b);
    ReadThenLook(h, src, k, c, data, d, next);
    CopyRowsRun(h, src, k, c, data, d, next);
    Chain(h, s2, [ReadSize(1, src)] + [LookHead(1)], SizeRead(src, k, c, data, d, next), RowsRun(1));
    SourceKept(src, k, c, data, d, next);
    StaleCommitAnswers(h, s4, k, c, data, |next|);
    RunSnoc(h, s2, [ReadSize(1, src)] + [LookHead(1)] + RowsRun(1), Commit(1));
    Chain(h, Init(), a + b, s2, [ReadSize(1, src)] + [LookHead(1)] + RowsRun(1) + [Commit(1)]);
  }

  // ---- A copy that crashes ----

  /** The source is overwritten whole between the copy's queries: its metadata row is gone when the copy asks for it. */
  function CrashingCopy(src: ObjKey, k: ObjKey, c: ChunkId, data: Blob, late: Blob): seq<Step> {
    FirstPut(src, c, data) + [BeginCopy(1, src, k, [data])] + PlainPutRun(2, src, late) + [CopyCrash(1, src)]
  }

  lemma CrashStep(h: Blob -> string, s: State, src: ObjKey, k: ObjKey, c: ChunkId, data: Blob)
    requires s.txns == map[1 := Txn(k, CopyJob(c, data, None), false, Begun, [])] && src !in s.sizes && src in s.heads
    ensures Enabled(h, s, CopyCrash(1, src)) && Next(h, s, CopyCrash(1, src)) == s.(txns := map[])
  {
    assert s.txns - {1} == map[];
  }

  function CrashBegun(src: ObjKey, k: ObjKey, c: ChunkId, data: Blob): State {
    AfterFirstPut(src, c, data).(txns := map[1 := Txn(k, CopyJob(c, data, None), false, Begun, [])])
  }

  lemma CrashBegins(h: Blob -> string, src: ObjKey, k: ObjKey, c: ChunkId, data: Blob)
    requires src != k && h(data) == c.hash && data != ""
    ensures var begun := FirstPut(src, c, data) + [BeginCopy(1, src, k, [data])];
      ValidRun(h, Init(), begun) && Final(h, Init(), begun) == CrashBegun(src, k, c, data)
  {
    FirstPutRuns(h, src, c, data);
    CopyBeginStep(h, AfterFirstPut(src, c, data), src, k, c, data);
    RunSnoc(h, Init(), FirstPut(src, c, data), BeginCopy(1, src, k, [data]));
  }

  /** The request ends in a nil dereference: nothing is copied, and nothing it had reserved is given back. */
  lemma CopyCrashes(h: Blob -> string, src: ObjKey, k: ObjKey, c: ChunkId, data: Blob, late: Blob)
    requires src != k && h(data) == c.hash && data != ""
    ensures ValidRun(h, Init(), CrashingCopy(src, k, c, data, late))
    ensures var s := Final(h, Init(), CrashingCopy(src, k, c, data, late));
      s.txns == map[] && k !in s.heads && Get(h, s, src) == Found(late)
  {
    var s1, begun := CrashBegun(src, k, c, data), FirstPut(src, c, data) + [BeginCopy(1, src, k, [data])];
    CrashBegins(h, src, k, c, data);
    PlainPutRuns(h, s1, 2, src, late);
    Chain(h, Init(), begun, s1, PlainPutRun(2, src, late));
    CrashStep(h, PlainOver(s1, src, late), src, k, c, data);
    RunSnoc(h, Init(), begun + PlainPutRun(2, src, late), CopyCrash(1, src));
    PlainOverAnswers(h, PlainOver(s1, src, late), src, late);
  }

  lemma PlainOverAnswers(h: Blob -> string, s: State, k: ObjKey, late: Blob)
    requires k in s.heads && s.heads[k] == PlainHead(|late|) && k in s.plain && s.plain[k] == late
    ensures Get(h, s, k) == Found(late) && Get(h, s.(txns := map[]), k) == Found(late)
  {
  }
}
