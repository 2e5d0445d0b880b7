/** Whole requests as runs of the protocol, undisturbed by others on the same object. */
module RequestRuns {
  import opened Basics
  import opened ContentIndex
  import opened DedupStore
  import opened StoreSafety
  import opened Refinement

  lemma {:induction false} RunConcat(h: Blob -> string, s: State, a: seq<Step>, b: seq<Step>)
    requires ValidRun(h, s, a) && ValidRun(h, Final(h, s, a), b)
    ensures ValidRun(h, s, a + b) && Final(h, s, a + b) == Final(h, Final(h, s, a), b)
    decreases |a|
  {
    if a == [] {
      assert a + b == b;
    } else {
      var s1 := Next(h, s, a[0]);
      assert Final(h, s, a) == Final(h, s1, a[1..]);
      RunConcat(h, s1, a[1..], b);
      ConcatCons(h, s, s1, a, b);
    }
  }

  lemma ConcatCons(h: Blob -> string, s: State, s1: State, a: seq<Step>, b: seq<Step>)
    requires a != [] && Enabled(h, s, a[0]) && s1 == Next(h, s, a[0]) && ValidRun(h, s1, a[1..] + b)
    ensures ValidRun(h, s, a + b) && Final(h, s, a + b) == Final(h, s1, a[1..] + b)
  {
    RunCons(h, s, a[0], a[1..] + b);
    assert [a[0]] + (a[1..] + b) == a + b;
  }

  lemma OneStep(h: Blob -> string, s: State, st: Step)
    requires Enabled(h, s, st)
    ensures ValidRun(h, s, [st]) && Final(h, s, [st]) == Next(h, s, st)
  {
    RunCons(h, s, st, []);
    assert [st] + [] == [st];
  }

  /** The run goes on with one more step. */
  lemma RunSnoc(h: Blob -> string, s: State, run: seq<Step>, st: Step)
    requires ValidRun(h, s, run) && Enabled(h, Final(h, s, run), st)
    ensures ValidRun(h, s, run + [st]) && Final(h, s, run + [st]) == Next(h, Final(h, s, run), st)
  {
    OneStep(h, Final(h, s, run), st);
    RunConcat(h, s, run, [st]);
  }

  lemma Chain(h: Blob -> string, s: State, a: seq<Step>, mid: State, b: seq<Step>)
    requires ValidRun(h, s, a) && Final(h, s, a) == mid && ValidRun(h, mid, b)
    ensures ValidRun(h, s, a + b) && Final(h, s, a + b) == Final(h, mid, b)
  {
    RunConcat(h, s, a, b);
  }

  lemma TwoSteps(h: Blob -> string, s: State, a: Step, mid: State, b: Step)
    requires Enabled(h, s, a) && Next(h, s, a) == mid && Enabled(h, mid, b)
    ensures ValidRun(h, s, [a] + [b]) && Final(h, s, [a] + [b]) == Next(h, mid, b)
  {
    OneStep(h, s, a);
    RunSnoc(h, s, [a], b);
  }

  // ---- Uploads of one chunk ----

  /** A chunk is stored under its lock. */
  function StoreRun(u: nat, c: ChunkId, data: Blob): seq<Step> {
    [BeginUpload(u)] + [LockChunk(u, c, data)] + [PutBlob(c)] + [CommitStore(c)]
  }

  function Stored(s: State, u: nat, c: ChunkId, data: Blob): State {
    s.(index := Insert(s.index, c), blobs := s.blobs[c := data], uploads := s.uploads[u := multiset{c}])
  }

  lemma StoreRuns(h: Blob -> string, s: State, u: nat, c: ChunkId, data: Blob)
    requires u !in s.uploads && c !in s.locks && h(data) == c.hash
    ensures ValidRun(h, s, StoreRun(u, c, data)) && Final(h, s, StoreRun(u, c, data)) == Stored(s, u, c, data)
  {
    var s1 := s.(uploads := s.uploads[u := multiset{}]);
    var s2 := s1.(locks := s.locks[c := Storer(u, data, false)]);
    var s3 := s2.(blobs := s.blobs[c := data], locks := s2.locks[c := Storer(u, data, true)]);
    OneStep(h, s, BeginUpload(u));
    RunSnoc(h, s, [BeginUpload(u)], LockChunk(u, c, data));
    RunSnoc(h, s, [BeginUpload(u)] + [LockChunk(u, c, data)], PutBlob(c));
    LastStoreStep(h, s, s3, u, c, data);
    RunSnoc(h, s, [BeginUpload(u)] + [LockChunk(u, c, data)] + [PutBlob(c)], CommitStore(c));
  }

  lemma LastStoreStep(h: Blob -> string, s: State, s3: State, u: nat, c: ChunkId, data: Blob)
    requires u !in s.uploads && c !in s.locks
    requires s3 == s.(uploads := s.uploads[u := multiset{}], blobs := s.blobs[c := data],
                      locks := s.locks[c := Storer(u, data, false)][c := Storer(u, data, true)])
    ensures Enabled(h, s3, CommitStore(c)) && Next(h, s3, CommitStore(c)) == Stored(s, u, c, data)
  {
    assert s3.locks - {c} == s.locks;
    assert multiset{} + multiset{c} == multiset{c};
    assert s3.uploads[u := multiset{c}] == s.uploads[u := multiset{c}];
  }

  /** A chunk is found in the index. */
  function HitRun(u: nat, c: ChunkId): seq<Step> {
    [BeginUpload(u)] + [DedupHit(u, c)]
  }

  function Hit(s: State, u: nat, c: ChunkId): State {
    s.(index := Increment(s.index, c), uploads := s.uploads[u := multiset{c}])
  }

  lemma HitRuns(h: Blob -> string, s: State, u: nat, c: ChunkId)
    requires u !in s.uploads && c in s.index
    ensures ValidRun(h, s, HitRun(u, c)) && Final(h, s, HitRun(u, c)) == Hit(s, u, c)
  {
    OneStep(h, s, BeginUpload(u));
    RunSnoc(h, s, [BeginUpload(u)], DedupHit(u, c));
    assert multiset{} + multiset{c} == multiset{c};
    assert s.uploads[u := multiset{}][u := multiset{c}] == s.uploads[u := multiset{c}];
  }

  // ---- Single statements ----

  lemma BeginStep(h: Blob -> string, s: State, t: nat, k: ObjKey, job: Job)
    requires Fresh(s, t) && JobOpens(h, s, k, job)
    ensures Enabled(h, s, Begin(t, k, job))
    ensures Next(h, s, Begin(t, k, job))
         == s.(txns := s.txns[t := Txn(k, job, false, if job == ReleaseRows then Looked else Begun, [])],
               plain := if job.PlainWrite? then s.plain[k := job.data] else s.plain)
  {
  }

  lemma LookStep(h: Blob -> string, s: State, t: nat, tx: Txn)
    requires t in s.txns && s.txns[t] == tx && tx.progress == Begun && HeadFree(s, t, tx.k)
    requires tx.job.CopyManifest? ==> tx.job.size.Some?
    ensures Enabled(h, s, LookHead(t)) && Next(h, s, LookHead(t)) == s.(txns := s.txns[t := Look(s, tx)])
  {
  }

  lemma SnapStep(h: Blob -> string, s: State, t: nat, tx: Txn)
    requires t in s.txns && s.txns[t] == tx && tx.progress == Looked
    ensures Enabled(h, s, SnapRows(t))
    ensures Next(h, s, SnapRows(t))
         == s.(txns := s.txns[t := tx.(progress := Snapped(Era(s, tx.k), |RowsAt(s.manifests, tx.k)|))])
  {
  }

  lemma ListStep(h: Blob -> string, s: State, t: nat, tx: Txn, rows: seq<ChunkId>)
    requires t in s.txns && s.txns[t] == tx && tx.progress.Snapped? && Survivors(s, tx) == rows
    requires rows != [] ==> RowsFree(s, t, tx.k)
    ensures Enabled(h, s, ListRows(t))
    ensures Next(h, s, ListRows(t)) == s.(txns := s.txns[t := tx.(progress := Listed, listed := rows)])
  {
  }

  lemma DeleteStep(h: Blob -> string, s: State, t: nat, tx: Txn)
    requires t in s.txns && s.txns[t] == tx && tx.progress == Listed && RowsFree(s, t, tx.k)
    ensures Enabled(h, s, DeleteRows(t))
    ensures Next(h, s, DeleteRows(t)) == s.(txns := s.txns[t := tx.(progress := Deleted(RowsAt(s.manifests, tx.k) != []))])
  {
  }

  lemma CommitStep(h: Blob -> string, s: State, t: nat)
    requires t in s.txns && CommitReady(s, t, s.txns[t])
    ensures Enabled(h, s, Commit(t)) && Next(h, s, Commit(t)) == CommitTxn(s, t, s.txns[t])
  {
  }

  // ---- Transactions up to their commit ----

  /** The three statements on the manifest rows. */
  function RowsRun(t: nat): seq<Step> {
    [SnapRows(t)] + [ListRows(t)] + [DeleteRows(t)]
  }

  function Opened(s: State, tx: Txn): Txn {
    tx.(progress := Deleted(RowsAt(s.manifests, tx.k) != []), listed := RowsAt(s.manifests, tx.k))
  }

  lemma RowsRuns(h: Blob -> string, s: State, t: nat)
    requires t in s.txns && s.txns[t].progress == Looked && s.txns[t].listed == [] && RowsFree(s, t, s.txns[t].k)
    ensures ValidRun(h, s, RowsRun(t)) && Final(h, s, RowsRun(t)) == s.(txns := s.txns[t := Opened(s, s.txns[t])])
  {
    var tx := s.txns[t];
    var rows := RowsAt(s.manifests, tx.k);
    var tx1, tx2 := tx.(progress := Snapped(Era(s, tx.k), |rows|)), tx.(progress := Listed, listed := rows);
    SnapStep(h, s, t, tx);
    OneStep(h, s, SnapRows(t));
    Replaced(s.txns, t, tx1, tx2);
    Replaced(s.txns, t, tx2, Opened(s, tx));
    SnappedLists(h, s, t, tx, tx1);
    RunSnoc(h, s, [SnapRows(t)], ListRows(t));
    ListedDeletes(h, s, t, tx, tx2);
    RunSnoc(h, s, [SnapRows(t)] + [ListRows(t)], DeleteRows(t));
  }

  lemma Replaced(m: map<nat, Txn>, t: nat, a: Txn, b: Txn)
    ensures m[t := a][t := b] == m[t := b]
  {
  }

  lemma SnappedLists(h: Blob -> string, s: State, t: nat, tx: Txn, tx1: Txn)
    requires RowsFree(s, t, tx.k) && tx1 == tx.(progress := Snapped(Era(s, tx.k), |RowsAt(s.manifests, tx.k)|))
    ensures var s1 := s.(txns := s.txns[t := tx1]);
      && Enabled(h, s1, ListRows(t))
      && Next(h, s1, ListRows(t))
         == s1.(txns := s1.txns[t := tx.(progress := Listed, listed := RowsAt(s.manifests, tx.k))])
  {
    ListStep(h, s.(txns := s.txns[t := tx1]), t, tx1, RowsAt(s.manifests, tx.k));
  }

  lemma ListedDeletes(h: Blob -> string, s: State, t: nat, tx: Txn, tx2: Txn)
    requires RowsFree(s, t, tx.k) && tx2 == tx.(progress := Listed, listed := RowsAt(s.manifests, tx.k))
    ensures var s2 := s.(txns := s.txns[t := tx2]);
      Enabled(h, s2, DeleteRows(t)) && Next(h, s2, DeleteRows(t)) == s2.(txns := s2.txns[t := Opened(s, tx)])
  {
    DeleteStep(h, s.(txns := s.txns[t := tx2]), t, tx2);
  }

  /** An install, or a plain write over a chunked object, up to its commit. */
  function OpenRun(t: nat, k: ObjKey, job: Job): seq<Step> {
    [Begin(t, k, job)] + [LookHead(t)] + RowsRun(t)
  }

  function Open(s: State, t: nat, k: ObjKey, job: Job): State {
    var rows := RowsAt(s.manifests, k);
    s.(txns := s.txns[t := Txn(k, job, k in s.heads, Deleted(rows != []), rows)],
       plain := if job.PlainWrite? then s.plain[k := job.data] else s.plain)
  }

  predicate Unlocked(s: State, t: nat, k: ObjKey) {
    Fresh(s, t) && RowsFree(s, t, k) && HeadFree(s, t, k)
  }

  lemma BeginAndLook(h: Blob -> string, s: State, t: nat, k: ObjKey, job: Job)
    requires Unlocked(s, t, k) && JobOpens(h, s, k, job) && job != ReleaseRows
    requires Installs(job) || Chunked(s, k)
    ensures ValidRun(h, s, [Begin(t, k, job)] + [LookHead(t)])
    ensures Final(h, s, [Begin(t, k, job)] + [LookHead(t)]) == Looking(s, t, k, job)
  {
    var tx := Txn(k, job, false, Begun, []);
    var s1 := Looking(s, t, k, job).(txns := s.txns[t := tx]);
    BeginStep(h, s, t, k, job);
    OneStep(h, s, Begin(t, k, job));
    BegunLooks(h, s, s1, t, tx);
    RunSnoc(h, s, [Begin(t, k, job)], LookHead(t));
  }

  lemma BegunLooks(h: Blob -> string, s: State, s1: State, t: nat, tx: Txn)
    requires s1 == s.(txns := s.txns[t := tx], plain := s1.plain) && tx.progress == Begun && HeadFree(s, t, tx.k)
    requires !tx.job.CopyManifest?
    ensures Enabled(h, s1, LookHead(t)) && Next(h, s1, LookHead(t)) == s1.(txns := s.txns[t := Look(s, tx)])
  {
    LookStep(h, s1, t, tx);
    Replaced(s.txns, t, tx, Look(s, tx));
  }

  lemma OpenRuns(h: Blob -> string, s: State, t: nat, k: ObjKey, job: Job)
    requires Unlocked(s, t, k) && JobOpens(h, s, k, job) && job != ReleaseRows
    requires Installs(job) || Chunked(s, k)
    ensures ValidRun(h, s, OpenRun(t, k, job)) && Final(h, s, OpenRun(t, k, job)) == Open(s, t, k, job)
  {
    BeginAndLook(h, s, t, k, job);
    RowsOpen(h, s, t, k, job);
    RunConcat(h, s, [Begin(t, k, job)] + [LookHead(t)], RowsRun(t));
  }

  /** The transaction has looked up the head row. */
  function Looking(s: State, t: nat, k: ObjKey, job: Job): State {
    s.(txns := s.txns[t := Txn(k, job, k in s.heads, Looked, [])],
       plain := if job.PlainWrite? then s.plain[k := job.data] else s.plain)
  }

  lemma RowsOpen(h: Blob -> string, s: State, t: nat, k: ObjKey, job: Job)
    requires RowsFree(s, t, k)
    ensures ValidRun(h, Looking(s, t, k, job), RowsRun(t)) && Final(h, Looking(s, t, k, job), RowsRun(t)) == Open(s, t, k, job)
  {
    var s2 := Looking(s, t, k, job);
    assert RowsFree(s2, t, k);
    RowsRuns(h, s2, t);
    OpenedIsOpen(s, s2, t, k, job);
  }

  lemma OpenedIsOpen(s: State, s2: State, t: nat, k: ObjKey, job: Job)
    requires s2 == Looking(s, t, k, job)
    ensures s2.(txns := s2.txns[t := Opened(s2, s2.txns[t])]) == Open(s, t, k, job)
  {
    assert s2.txns[t := Opened(s2, s2.txns[t])] == Open(s, t, k, job).txns;
  }

  // ---- Whole requests ----

  /** The install of an upload of one chunk, up to its commit. */
  function PutRun(t: nat, k: ObjKey, u: nat, c: ChunkId, data: Blob): seq<Step> {
    OpenRun(t, k, PutManifest(u, [c], [data])) + [Commit(t)]
  }

  function NextEras(s: State, k: ObjKey): map<ObjKey, nat> {
    if RowsAt(s.manifests, k) == [] then s.eras else s.eras[k := Era(s, k) + 1]
  }

  function Installed(s: State, t: nat, k: ObjKey, u: nat, c: ChunkId, size: nat): State {
    s.(index := DecrementAll(s.index, RowsAt(s.manifests, k)), manifests := s.manifests[k := [c]], eras := NextEras(s, k),
       heads := s.heads[k := ChunkedHead(size)], sizes := s.sizes[k := size], uploads := s.uploads - {u}, cleanups := s.cleanups[t := k])
  }

  predicate Grants(s: State, u: nat, c: ChunkId) {
    u in s.uploads && Joined(s, u) && s.uploads[u] == multiset{c} && c in s.index
  }

  lemma OnePiece(h: Blob -> string, c: ChunkId, data: Blob)
    requires h(data) == c.hash && data != ""
    ensures Describes(h, [c], [data]) && Flatten([data]) == data && multiset([c]) == multiset{c}
  {
    assert [data][1..] == [];
  }

  lemma PutRuns(h: Blob -> string, s: State, t: nat, k: ObjKey, u: nat, c: ChunkId, data: Blob)
    requires Unlocked(s, t, k) && Grants(s, u, c) && h(data) == c.hash && data != ""
    ensures ValidRun(h, s, PutRun(t, k, u, c, data))
    ensures Final(h, s, PutRun(t, k, u, c, data)) == Installed(s, t, k, u, c, |data|)
  {
    var job := PutManifest(u, [c], [data]);
    OnePiece(h, c, data);
    OpenRuns(h, s, t, k, job);
    PutCommits(s, t, k, u, c, data);
    RunSnoc(h, s, OpenRun(t, k, job), Commit(t));
  }

  lemma PutCommits(s: State, t: nat, k: ObjKey, u: nat, c: ChunkId, data: Blob)
    requires Unlocked(s, t, k) && Grants(s, u, c) && Flatten([data]) == data && multiset([c]) == multiset{c}
    ensures var e, tx := Open(s, t, k, PutManifest(u, [c], [data])), Open(s, t, k, PutManifest(u, [c], [data])).txns[t];
      CommitReady(e, t, tx) && CommitTxn(e, t, tx) == Installed(s, t, k, u, c, |data|)
  {
    var e := Open(s, t, k, PutManifest(u, [c], [data]));
    assert e.txns - {t} == s.txns;
    assert Rest(e, e.txns[t]) == [] && [c] + [] == [c];
  }

  /** A plain PUT over a chunked object. */
  function PlainPutRun(t: nat, k: ObjKey, data: Blob): seq<Step> {
    OpenRun(t, k, PlainWrite(data, false)) + [Commit(t)]
  }

  function PlainOver(s: State, k: ObjKey, data: Blob): State {
    s.(index := DecrementAll(s.index, RowsAt(s.manifests, k)), manifests := s.manifests[k := []], eras := NextEras(s, k),
       heads := s.heads[k := PlainHead(|data|)], plain := s.plain[k := data], sizes := s.sizes - {k})
  }

  lemma PlainPutRuns(h: Blob -> string, s: State, t: nat, k: ObjKey, data: Blob)
    requires Unlocked(s, t, k) && Chunked(s, k)
    ensures ValidRun(h, s, PlainPutRun(t, k, data)) && Final(h, s, PlainPutRun(t, k, data)) == PlainOver(s, k, data)
  {
    OpenRuns(h, s, t, k, PlainWrite(data, false));
    PlainCommits(s, t, k, data);
    RunSnoc(h, s, OpenRun(t, k, PlainWrite(data, false)), Commit(t));
  }

  lemma OverReady(s: State, t: nat, k: ObjKey, data: Blob)
    requires Unlocked(s, t, k) && Chunked(s, k)
    ensures var e, tx := Open(s, t, k, PlainWrite(data, false)), Open(s, t, k, PlainWrite(data, false)).txns[t];
      && CommitReady(e, t, tx) && RowsAfter(e, tx) == [] && SizesAfter(e, tx) == s.sizes - {k}
      && IndexAfter(e, tx) == DecrementAll(s.index, RowsAt(s.manifests, k))
  {
  }

  lemma PlainCommits(s: State, t: nat, k: ObjKey, data: Blob)
    requires Unlocked(s, t, k) && Chunked(s, k)
    ensures var e, tx := Open(s, t, k, PlainWrite(data, false)), Open(s, t, k, PlainWrite(data, false)).txns[t];
      CommitReady(e, t, tx) && CommitTxn(e, t, tx) == PlainOver(s, k, data)
  {
    var e := Open(s, t, k, PlainWrite(data, false));
    OverReady(s, t, k, data);
    assert e.txns - {t} == s.txns;
  }

  /** A plain PUT of a key that has no head row yet. */
  function FirstPlainPutRun(t: nat, k: ObjKey, data: Blob): seq<Step> {
    [Begin(t, k, PlainWrite(data, true))] + [LookHead(t)] + [Commit(t)]
  }

  lemma FirstPlainPutRuns(h: Blob -> string, s: State, t: nat, k: ObjKey, data: Blob)
    requires Unlocked(s, t, k) && k !in s.heads && k !in s.manifests
    ensures ValidRun(h, s, FirstPlainPutRun(t, k, data))
    ensures Final(h, s, FirstPlainPutRun(t, k, data))
         == s.(manifests := s.manifests[k := []], heads := s.heads[k := PlainHead(|data|)], plain := s.plain[k := data])
  {
    var tx := Txn(k, PlainWrite(data, true), false, Begun, []);
    var s1 := s.(txns := s.txns[t := tx], plain := s.plain[k := data]);
    var s2 := s1.(txns := s.txns[t := tx.(progress := Deleted(false))]);
    BeginStep(h, s, t, k, PlainWrite(data, true));
    OneStep(h, s, Begin(t, k, PlainWrite(data, true)));
    BegunLooks(h, s, s1, t, tx);
    RunSnoc(h, s, [Begin(t, k, PlainWrite(data, true))], LookHead(t));
    FirstPlainCommits(s, s2, t, k, data);
    RunSnoc(h, s, [Begin(t, k, PlainWrite(data, true))] + [LookHead(t)], Commit(t));
  }

  lemma FirstPlainCommits(s: State, s2: State, t: nat, k: ObjKey, data: Blob)
    requires Unlocked(s, t, k) && k !in s.manifests
    requires s2 == s.(txns := s.txns[t := Txn(k, PlainWrite(data, true), false, Deleted(false), [])], plain := s.plain[k := data])
    ensures CommitReady(s2, t, s2.txns[t])
    ensures CommitTxn(s2, t, s2.txns[t])
         == s.(manifests := s.manifests[k := []], heads := s.heads[k := PlainHead(|data|)], plain := s.plain[k := data])
  {
    assert s2.txns - {t} == s.txns;
  }

  // ---- DELETE ----

  /** Releasing the rows of a chunked object. */
  function ReleaseRun(t: nat, k: ObjKey): seq<Step> {
    [Begin(t, k, ReleaseRows)] + RowsRun(t) + [Commit(t)]
  }

  function Released(s: State, k: ObjKey): State {
    s.(index := DecrementAll(s.index, RowsAt(s.manifests, k)), manifests := s.manifests[k := []], eras := NextEras(s, k),
       sizes := s.sizes - {k})
  }

  lemma ReleaseRuns(h: Blob -> string, s: State, t: nat, k: ObjKey)
    requires Unlocked(s, t, k)
    ensures ValidRun(h, s, ReleaseRun(t, k)) && Final(h, s, ReleaseRun(t, k)) == Released(s, k)
  {
    var s1 := s.(txns := s.txns[t := Txn(k, ReleaseRows, false, Looked, [])]);
    BeginStep(h, s, t, k, ReleaseRows);
    OneStep(h, s, Begin(t, k, ReleaseRows));
    RowsRuns(h, s1, t);
    RunConcat(h, s, [Begin(t, k, ReleaseRows)], RowsRun(t));
    ReleaseCommits(s, s1, t, k);
    RunSnoc(h, s, [Begin(t, k, ReleaseRows)] + RowsRun(t), Commit(t));
  }

  lemma ReleaseCommits(s: State, s1: State, t: nat, k: ObjKey)
    requires Unlocked(s, t, k) && s1 == s.(txns := s.txns[t := Txn(k, ReleaseRows, false, Looked, [])])
    ensures var e := s1.(txns := s1.txns[t := Opened(s1, s1.txns[t])]);
      CommitReady(e, t, e.txns[t]) && CommitTxn(e, t, e.txns[t]) == Released(s, k)
  {
    var e := s1.(txns := s1.txns[t := Opened(s1, s1.txns[t])]);
    assert e.txns - {t} == s.txns;
    assert Rest(e, e.txns[t]) == [];
  }

  /** HandleDelete: a chunked object's rows are released, another's blob is deleted; then the head row goes. */
  function DeleteRun(s: State, t: nat, k: ObjKey): seq<Step> {
    (if Chunked(s, k) then ReleaseRun(t, k) else [DeletePlainBlob(k)]) + [DeleteHead(k)]
  }

  function Removed(s: State, k: ObjKey): State {
    if Chunked(s, k) then Released(s, k).(heads := s.heads - {k}) else s.(plain := s.plain - {k}, heads := s.heads - {k})
  }

  lemma DeleteRuns(h: Blob -> string, s: State, t: nat, k: ObjKey)
    requires Unlocked(s, t, k) && t !in s.txns
    ensures ValidRun(h, s, DeleteRun(s, t, k)) && Final(h, s, DeleteRun(s, t, k)) == Removed(s, k)
  {
    if Chunked(s, k) {
      ReleaseRuns(h, s, t, k);
      RunSnoc(h, s, ReleaseRun(t, k), DeleteHead(k));
    } else {
      OneStep(h, s, DeletePlainBlob(k));
      RunSnoc(h, s, [DeletePlainBlob(k)], DeleteHead(k));
    }
  }

  /**
   An undisturbed DELETE removes the object and releases each of its references once, if and only if no
   whole-object blob was left under a chunked object. Otherwise GET serves that blob: older bytes come back.
   */
  lemma DeleteRemovesUnlessStaleBlob(h: Blob -> string, s: State, t: nat, k: ObjKey)
    requires Unlocked(s, t, k)
    ensures ValidRun(h, s, DeleteRun(s, t, k))
    ensures var e := Final(h, s, DeleteRun(s, t, k));
      && (Get(h, e, k) == NoSuchKey <==> !(Chunked(s, k) && k in s.plain))
      && (Chunked(s, k) && k in s.plain ==> Get(h, e, k) == Found(s.plain[k]))
      && (Chunked(s, k) ==> RowsAt(e.manifests, k) == [] && e.index == DecrementAll(s.index, RowsAt(s.manifests, k)))
  {
    DeleteRuns(h, s, t, k);
    RemovedAnswers(h, s, k);
  }

  lemma RemovedAnswers(h: Blob -> string, s: State, k: ObjKey)
    ensures Get(h, Removed(s, k), k)
         == if Chunked(s, k) && k in s.plain then Found(s.plain[k]) else NoSuchKey
  {
  }

  // ---- A first object ----

  /** One object of one chunk is uploaded. */
  function FirstPut(k: ObjKey, c: ChunkId, data: Blob): seq<Step> {
    StoreRun(0, c, data) + PutRun(0, k, 0, c, data)
  }

  function AfterFirstPut(k: ObjKey, c: ChunkId, data: Blob): State {
    Init().(index := map[c := Row(1, false)], blobs := map[c := data], manifests := map[k := [c]],
            heads := map[k := ChunkedHead(|data|)], sizes := map[k := |data|], cleanups := map[0 := k])
  }

  lemma FirstPutRuns(h: Blob -> string, k: ObjKey, c: ChunkId, data: Blob)
    requires h(data) == c.hash && data != ""
    ensures ValidRun(h, Init(), FirstPut(k, c, data)) && Final(h, Init(), FirstPut(k, c, data)) == AfterFirstPut(k, c, data)
  {
    var s1 := Stored(Init(), 0, c, data);
    StoreRuns(h, Init(), 0, c, data);
    PutRuns(h, s1, 0, k, 0, c, data);
    Chain(h, Init(), StoreRun(0, c, data), s1, PutRun(0, k, 0, c, data));
    assert s1.uploads - {0} == map[];
  }
}
