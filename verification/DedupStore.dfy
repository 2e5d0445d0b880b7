/**
 The deduplicating chunk store as a protocol: any number of uploads, copies, overwrites, deletes, account
 deletions, reconciles and sweeps take steps, in any order, over shared index rows, chunk blobs, advisory locks,
 manifests and head rows. A step is one statement of a READ COMMITTED transaction, its commit, one backend call,
 or one lock operation. `h` is the chunk hash.
 */
module DedupStore {
  import opened Basics
  import opened MapSums
  import opened ContentIndex

  type Blob = string

  /** Who holds the advisory lock of a chunk, and how far the holder has come. */
  datatype Holder = Storer(upload: nat, data: Blob, put: bool) | Sweeper(rowGone: bool)

  /** A head row: whether the object is chunked, and its logical size. */
  datatype Head = PlainHead(size: nat) | ChunkedHead(size: nat)

  /**
   What a transaction on an object's rows is for. A copy has read its source's manifest `cs` when the source
   declared `was` bytes, and reads the size in a second query; `pieces` are the bytes of `cs`. `shown` is history:
   whether a plain write took effect with its blob.
   */
  datatype Job =
    | PutManifest(u: nat, cs: seq<ChunkId>, pieces: seq<Blob>)
    | CopyManifest(cs: seq<ChunkId>, pieces: seq<Blob>, was: nat, size: Option<nat>)
    | PlainWrite(data: Blob, shown: bool)
    | ReleaseRows

  /**
   How far a transaction has come: the head row looked up, the snapshot of SELECT ... FOR UPDATE on the manifest
   rows taken (`n` rows of the given era), the rows listed and locked, the rows deleted (`gone`: there were any).
   */
  datatype Progress = Begun | Looked | Snapped(era: nat, n: nat) | Listed | Deleted(gone: bool)

  /** `head` says whether the head row was found, and so is locked; `listed` are the rows SELECT returned. */
  datatype Txn = Txn(k: ObjKey, job: Job, head: bool, progress: Progress, listed: seq<ChunkId>)

  /** An account deletion that has counted its tenant's references and not yet committed. */
  datatype Closing = Closing(tenant: string, counted: multiset<ChunkId>)

  /** A reconcile that has counted all manifest rows, and the chunks whose count differed then. */
  datatype Counting = Counting(actual: multiset<ChunkId>, drifted: set<ChunkId>)

  /**
   `uploads` maps each unfinished chunked PUT to the references it has been granted so far. `eras` counts how
   often a key's manifest rows were deleted: a row is the same row only within one era. `cleanups` are requests
   whose manifest is installed and that have yet to delete a whole-object blob; `plain` holds those blobs. `sizes`
   are the rows of `object_metadata`.
   */
  datatype State = State(
    index: Index,
    blobs: map<ChunkId, Blob>,
    locks: map<ChunkId, Holder>,
    uploads: map<nat, multiset<ChunkId>>,
    manifests: Manifests,
    eras: map<ObjKey, nat>,
    heads: map<ObjKey, Head>,
    sizes: map<ObjKey, nat>,
    plain: map<ObjKey, Blob>,
    txns: map<nat, Txn>,
    cleanups: map<nat, ObjKey>,
    closings: map<nat, Closing>,
    counts: map<nat, Counting>)

  function Init(): State {
    State(map[], map[], map[], map[], map[], map[], map[], map[], map[], map[], map[], map[], map[])
  }

  datatype Step =
    // chunked PUT
    | BeginUpload(u: nat)
    | DedupHit(u: nat, c: ChunkId)
    | LockChunk(u: nat, c: ChunkId, data: Blob)
    | PutBlob(c: ChunkId)
    | CommitStore(c: ChunkId)
    | AbandonStore(c: ChunkId)
    | Compensate(u: nat, c: ChunkId)
    | LoseCompensation(u: nat, c: ChunkId)
    | EndUpload(u: nat)
    // transactions on an object's rows
    | Begin(t: nat, k: ObjKey, job: Job)
    | BeginCopy(t: nat, src: ObjKey, k: ObjKey, pieces: seq<Blob>)
    | ReadSize(t: nat, src: ObjKey)
    | CopyCrash(t: nat, src: ObjKey)
    | LookHead(t: nat)
    | SnapRows(t: nat)
    | ListRows(t: nat)
    | DeleteRows(t: nat)
    | Commit(t: nat)
    | Abort(t: nat)
    // single calls and statements
    | Cleanup(t: nat, deleted: bool)
    | RejectedPlainPut(k: ObjKey, data: Blob)
    | DeletePlainBlob(k: ObjKey)
    | DeleteHead(k: ObjKey)
    | CountAccount(a: nat, tenant: string)
    | CloseAccount(a: nat)
    // garbage collection
    | CountRefs(r: nat)
    | ResetRows(r: nat, idle: set<ChunkId>)
    | SweepLock(c: ChunkId)
    | SweepDeleteRow(c: ChunkId)
    | SweepDeleteBlob(c: ChunkId, deleted: bool)

  /** `cs` is a manifest of an object whose consecutive chunks hold `pieces`, none of them empty. */
  predicate Describes(h: Blob -> string, cs: seq<ChunkId>, pieces: seq<Blob>) {
    |cs| == |pieces| > 0 && forall i :: 0 <= i < |cs| ==> pieces[i] != "" && h(pieces[i]) == cs[i].hash
  }

  function Flatten(pieces: seq<Blob>): Blob {
    if pieces == [] then [] else pieces[0] + Flatten(pieces[1..])
  }

  /** No store of this upload is running: the pool has been joined. */
  predicate Joined(s: State, u: nat) {
    forall c :: c in s.locks && s.locks[c].Storer? ==> s.locks[c].upload != u
  }

  /** The foreign key from manifest rows to index rows. */
  predicate ForeignKeys(ix: Index, cs: seq<ChunkId>) {
    forall c :: c in cs ==> c in ix
  }

  predicate Referenced(m: Manifests, c: ChunkId) {
    exists k :: k in m && c in m[k]
  }

  function KeysOf(s: State, tenant: string): set<ObjKey> {
    set k | k in s.manifests && k.tenant == tenant
  }

  function Restrict(m: Manifests, ks: set<ObjKey>): Manifests {
    map k | k in m && k in ks :: m[k]
  }

  function Era(s: State, k: ObjKey): nat {
    if k in s.eras then s.eras[k] else 0
  }

  // ---- What GET declares ----

  predicate Chunked(s: State, k: ObjKey) {
    k in s.heads && s.heads[k].ChunkedHead?
  }

  /** The Content-Length that GET declares for a whole-object blob; 0: none. */
  function Declared(s: State, k: ObjKey): nat {
    if k in s.heads then s.heads[k].size else 0
  }

  /** A blob is answered whole under a declared length that is its own, or under none. */
  predicate Fits(data: Blob, n: nat) {
    n == 0 || |data| == n
  }

  /** A plain write of `data` takes effect with its blob. */
  predicate Shows(s: State, k: ObjKey, data: Blob) {
    !Chunked(s, k) && Fits(data, Declared(s, k))
  }

  // ---- Row locks ----

  /** Rows listed or deleted stay locked until the transaction ends; every lock takes in the first row. */
  predicate HoldsRows(tx: Txn) {
    tx.listed != [] || (tx.progress.Deleted? && tx.progress.gone)
  }

  predicate RowsFree(s: State, t: nat, k: ObjKey) {
    forall o :: o in s.txns && o != t && s.txns[o].k == k ==> !HoldsRows(s.txns[o])
  }

  predicate HeadFree(s: State, t: nat, k: ObjKey) {
    forall o :: o in s.txns && o != t && s.txns[o].k == k ==> !s.txns[o].head
  }

  predicate TenantFree(s: State, tenant: string) {
    forall o :: o in s.txns && s.txns[o].k.tenant == tenant ==> !HoldsRows(s.txns[o]) && !s.txns[o].head
  }

  /** The rows of the snapshot that are still there once SELECT ... FOR UPDATE gets its locks. */
  function Survivors(s: State, tx: Txn): seq<ChunkId>
    requires tx.progress.Snapped?
  {
    if Era(s, tx.k) == tx.progress.era then Overwritten(RowsAt(s.manifests, tx.k), tx.progress.n) else []
  }

  // ---- Committing ----

  predicate Installs(job: Job) {
    job.PutManifest? || job.CopyManifest?
  }

  function NewRows(job: Job): seq<ChunkId> {
    if Installs(job) then job.cs else []
  }

  /** Rows at the key that the transaction did not delete. */
  function Rest(s: State, tx: Txn): seq<ChunkId> {
    if tx.progress == Deleted(true) then [] else RowsAt(s.manifests, tx.k)
  }

  /** Rows that leave the table when the transaction commits. */
  function Lost(s: State, tx: Txn): seq<ChunkId> {
    if tx.progress == Deleted(true) then RowsAt(s.manifests, tx.k)
    else Overwritten(RowsAt(s.manifests, tx.k), |NewRows(tx.job)|)
  }

  function RowsAfter(s: State, tx: Txn): seq<ChunkId> {
    NewRows(tx.job) + Tail(Rest(s, tx), |NewRows(tx.job)|)
  }

  function IndexAfter(s: State, tx: Txn): Index {
    DecrementAll(if tx.job.CopyManifest? then IncrementAll(s.index, tx.job.cs) else s.index, tx.listed)
  }

  function HeadsAfter(s: State, tx: Txn): map<ObjKey, Head> {
    match tx.job
    case PutManifest(_, _, pieces) => s.heads[tx.k := ChunkedHead(|Flatten(pieces)|)]
    case CopyManifest(_, _, _, size) => s.heads[tx.k := ChunkedHead(if size.Some? then size.value else 0)]
    case PlainWrite(data, _) => s.heads[tx.k := PlainHead(|data|)]
    case ReleaseRows => s.heads
  }

  /** A plain write deletes the metadata row with the manifest, if the head row it locked is chunked. */
  function SizesAfter(s: State, tx: Txn): map<ObjKey, nat> {
    match tx.job
    case PutManifest(_, _, pieces) => s.sizes[tx.k := |Flatten(pieces)|]
    case CopyManifest(_, _, _, size) => s.sizes[tx.k := if size.Some? then size.value else 0]
    case PlainWrite(_, _) => if tx.head && Chunked(s, tx.k) then s.sizes - {tx.k} else s.sizes
    case ReleaseRows => s.sizes - {tx.k}
  }

  function CommitTxn(s: State, t: nat, tx: Txn): State {
    s.(index := IndexAfter(s, tx),
       manifests := s.manifests[tx.k := RowsAfter(s, tx)],
       eras := if tx.progress == Deleted(true) then s.eras[tx.k := Era(s, tx.k) + 1] else s.eras,
       heads := HeadsAfter(s, tx),
       sizes := SizesAfter(s, tx),
       uploads := if tx.job.PutManifest? then s.uploads - {tx.job.u} else s.uploads,
       txns := s.txns - {t},
       cleanups := if Installs(tx.job) then s.cleanups[t := tx.k] else s.cleanups)
  }

  predicate JobReady(s: State, job: Job) {
    match job
    case PutManifest(u, cs, _) => u in s.uploads && Joined(s, u) && s.uploads[u] == multiset(cs) && ForeignKeys(s.index, cs)
    case CopyManifest(cs, _, _, size) => ForeignKeys(s.index, cs) && size.Some?
    case _ => true
  }

  predicate CommitReady(s: State, t: nat, tx: Txn) {
    && tx.progress.Deleted? && JobReady(s, tx.job)
    && (Installs(tx.job) && Rest(s, tx) != [] ==> RowsFree(s, t, tx.k))
    && (tx.job != ReleaseRows ==> HeadFree(s, t, tx.k))
  }

  // ---- Steps ----

  predicate Fresh(s: State, t: nat) {
    t !in s.txns && t !in s.cleanups
  }

  predicate ChunkEnabled(h: Blob -> string, s: State, st: Step) {
    match st
    case BeginUpload(u) => u !in s.uploads
    case DedupHit(u, _) => u in s.uploads
    case LockChunk(u, c, data) => u in s.uploads && c !in s.locks && h(data) == c.hash
    case PutBlob(c) => c in s.locks && s.locks[c].Storer? && !s.locks[c].put
    case CommitStore(c) => c in s.locks && s.locks[c].Storer? && s.locks[c].put
    case AbandonStore(c) => c in s.locks && s.locks[c].Storer?
    case Compensate(u, c) => u in s.uploads && Joined(s, u) && c in s.uploads[u]
    case LoseCompensation(u, c) => u in s.uploads && Joined(s, u) && c in s.uploads[u]
    case EndUpload(u) => u in s.uploads && Joined(s, u) && s.uploads[u] == multiset{}
    case SweepLock(c) => c !in s.locks
    case SweepDeleteRow(c) => c in s.locks && s.locks[c] == Sweeper(false)
    case SweepDeleteBlob(c, _) => c in s.locks && s.locks[c] == Sweeper(true)
    case _ => false
  }

  predicate JobOpens(h: Blob -> string, s: State, k: ObjKey, job: Job) {
    match job
    case PutManifest(u, cs, pieces) => u in s.uploads && Joined(s, u) && s.uploads[u] == multiset(cs) && Describes(h, cs, pieces)
    case CopyManifest(_, _, _, _) => false
    case PlainWrite(data, shown) => shown == Shows(s, k, data)
    case ReleaseRows => true
  }

  predicate CopyOpens(h: Blob -> string, s: State, src: ObjKey, pieces: seq<Blob>) {
    Chunked(s, src) && Describes(h, RowsAt(s.manifests, src), pieces)
  }

  predicate AwaitsSize(s: State, t: nat) {
    t in s.txns && s.txns[t].job.CopyManifest? && s.txns[t].job.size == None && s.txns[t].progress == Begun
  }

  predicate TxnEnabled(h: Blob -> string, s: State, st: Step) {
    match st
    case Begin(t, k, job) => Fresh(s, t) && JobOpens(h, s, k, job)
    case BeginCopy(t, src, k, pieces) => Fresh(s, t) && src != k && CopyOpens(h, s, src, pieces)
    case ReadSize(t, src) => AwaitsSize(s, t) && src in s.sizes
    case CopyCrash(t, src) => AwaitsSize(s, t) && src !in s.sizes && src in s.heads
    case LookHead(t) =>
      && t in s.txns && s.txns[t].progress == Begun && (s.txns[t].job.CopyManifest? ==> s.txns[t].job.size.Some?)
      && (s.txns[t].k in s.heads ==> HeadFree(s, t, s.txns[t].k))
    case SnapRows(t) => t in s.txns && s.txns[t].progress == Looked
    case ListRows(t) =>
      && t in s.txns && s.txns[t].progress.Snapped?
      && (Survivors(s, s.txns[t]) != [] ==> RowsFree(s, t, s.txns[t].k))
    case DeleteRows(t) =>
      && t in s.txns && s.txns[t].progress == Listed
      && (RowsAt(s.manifests, s.txns[t].k) != [] ==> RowsFree(s, t, s.txns[t].k))
    case Abort(t) => t in s.txns
    case CountAccount(a, _) => a !in s.closings
    case CountRefs(r) => r !in s.counts
    case _ => false
  }

  predicate ObjectEnabled(s: State, st: Step) {
    match st
    case Commit(t) => t in s.txns && CommitReady(s, t, s.txns[t])
    case Cleanup(t, _) => t in s.cleanups
    case RejectedPlainPut(_, _) => true
    case DeletePlainBlob(_) => true
    case DeleteHead(k) => forall o :: o in s.txns && s.txns[o].k == k ==> !s.txns[o].head
    case CloseAccount(a) => a in s.closings && TenantFree(s, s.closings[a].tenant)
    case _ => false
  }

  /**
   The grace period: taking a reference makes the index row young again, so no upload holds a reference on an idle
   row, and no row naming it was added since the count. Releasing one leaves the row idle.
   */
  ghost predicate ReconcileEnabled(s: State, r: nat, idle: set<ChunkId>) {
    && r in s.counts
    && forall c :: c in idle ==> Total(s.uploads)[c] == 0 && TotalRefs(s.manifests)[c] <= s.counts[r].actual[c]
  }

  /** Steps that only touch chunks, locks, counts and uploads. */
  predicate ChunkStep(st: Step) {
    || st.BeginUpload? || st.DedupHit? || st.LockChunk? || st.PutBlob? || st.CommitStore? || st.AbandonStore?
    || st.Compensate? || st.LoseCompensation? || st.EndUpload?
    || st.SweepLock? || st.SweepDeleteRow? || st.SweepDeleteBlob?
  }

  /** Statements whose effect no other transaction sees yet. */
  predicate TxnStep(st: Step) {
    || st.Begin? || st.BeginCopy? || st.ReadSize? || st.LookHead? || st.SnapRows? || st.ListRows? || st.DeleteRows?
    || st.CopyCrash? || st.Abort? || st.CountAccount? || st.CountRefs?
  }

  ghost predicate Enabled(h: Blob -> string, s: State, st: Step) {
    if st.ResetRows? then ReconcileEnabled(s, st.r, st.idle)
    else if ChunkStep(st) then ChunkEnabled(h, s, st)
    else if TxnStep(st) then TxnEnabled(h, s, st)
    else ObjectEnabled(s, st)
  }

  function ChunkNext(h: Blob -> string, s: State, st: Step): (s': State)
    requires ChunkStep(st) && ChunkEnabled(h, s, st)
    ensures s' == s.(index := s'.index, blobs := s'.blobs, locks := s'.locks, uploads := s'.uploads)
  {
    match st
    case BeginUpload(u) => s.(uploads := s.uploads[u := multiset{}])
    case DedupHit(u, c) =>
      if c !in s.index then s else
        s.(index := Increment(s.index, c), uploads := s.uploads[u := s.uploads[u] + multiset{c}])
    case LockChunk(u, c, data) => s.(locks := s.locks[c := Storer(u, data, false)])
    case PutBlob(c) =>
      s.(blobs := s.blobs[c := s.locks[c].data], locks := s.locks[c := s.locks[c].(put := true)])
    case CommitStore(c) =>
      var u := s.locks[c].upload;
      s.(index := Insert(s.index, c), locks := s.locks - {c},
         uploads := if u in s.uploads then s.uploads[u := s.uploads[u] + multiset{c}] else s.uploads)
    case AbandonStore(c) => s.(locks := s.locks - {c})
    case Compensate(u, c) =>
      s.(index := Decrement(s.index, c), uploads := s.uploads[u := s.uploads[u] - multiset{c}])
    case LoseCompensation(u, c) => s.(uploads := s.uploads[u := s.uploads[u] - multiset{c}])
    case EndUpload(u) => s.(uploads := s.uploads - {u})
    case SweepLock(c) => s.(locks := s.locks[c := Sweeper(false)])
    case SweepDeleteRow(c) =>
      if Sweepable(s.index, c) && !Referenced(s.manifests, c)
      then s.(index := s.index - {c}, locks := s.locks[c := Sweeper(true)])
      else s.(locks := s.locks - {c})
    case SweepDeleteBlob(c, deleted) =>
      s.(blobs := if deleted then s.blobs - {c} else s.blobs, locks := s.locks - {c})
  }

  /** A row transaction's next state; `head` is whether the lock query finds the row. */
  function Look(s: State, tx: Txn): Txn {
    var found := tx.k in s.heads;
    var lists := Installs(tx.job) || (found && s.heads[tx.k].ChunkedHead?);
    tx.(head := found, progress := if lists then Looked else Deleted(false))
  }

  /** Index rows whose count is not the number of manifest rows naming them. */
  ghost function Drifted(s: State): set<ChunkId> {
    set c | c in s.index && s.index[c].count != TotalRefs(s.manifests)[c]
  }

  ghost function TxnNext(h: Blob -> string, s: State, st: Step): (s': State)
    requires TxnStep(st) && TxnEnabled(h, s, st)
    ensures s' == s.(plain := s'.plain, txns := s'.txns, closings := s'.closings, counts := s'.counts)
  {
    match st
    case Begin(t, k, job) =>
      s.(txns := s.txns[t := Txn(k, job, false, if job == ReleaseRows then Looked else Begun, [])],
         plain := if job.PlainWrite? then s.plain[k := job.data] else s.plain)
    case BeginCopy(t, src, k, pieces) =>
      var job := CopyManifest(RowsAt(s.manifests, src), pieces, s.heads[src].size, None);
      s.(txns := s.txns[t := Txn(k, job, false, Begun, [])])
    case ReadSize(t, src) => s.(txns := s.txns[t := s.txns[t].(job := s.txns[t].job.(size := Some(s.sizes[src])))])
    case CopyCrash(t, _) => s.(txns := s.txns - {t})
    case LookHead(t) => s.(txns := s.txns[t := Look(s, s.txns[t])])
    case SnapRows(t) =>
      var k := s.txns[t].k;
      s.(txns := s.txns[t := s.txns[t].(progress := Snapped(Era(s, k), |RowsAt(s.manifests, k)|))])
    case ListRows(t) => s.(txns := s.txns[t := s.txns[t].(progress := Listed, listed := Survivors(s, s.txns[t]))])
    case DeleteRows(t) =>
      s.(txns := s.txns[t := s.txns[t].(progress := Deleted(RowsAt(s.manifests, s.txns[t].k) != []))])
    case Abort(t) => s.(txns := s.txns - {t})
    case CountAccount(a, tenant) =>
      s.(closings := s.closings[a := Closing(tenant, TotalRefs(Restrict(s.manifests, KeysOf(s, tenant))))])
    case CountRefs(r) => s.(counts := s.counts[r := Counting(TotalRefs(s.manifests), Drifted(s))])
  }

  /** Account deletion: the counted references are released, all the tenant's rows are deleted. */
  function Close(s: State, a: nat, tenant: string, counted: multiset<ChunkId>): State {
    s.(index := ReleaseSet(s.index, counted),
       manifests := s.manifests - KeysOf(s, tenant),
       eras := s.eras + (map k | k in KeysOf(s, tenant) :: Era(s, k) + 1),
       heads := map k | k in s.heads && k.tenant != tenant :: s.heads[k],
       sizes := map k | k in s.sizes && k.tenant != tenant :: s.sizes[k],
       closings := s.closings - {a})
  }

  function ObjectNext(s: State, st: Step): (s': State)
    requires ObjectEnabled(s, st)
    ensures s'.blobs == s.blobs && s'.locks == s.locks
    ensures s'.txns == if st.Commit? then s.txns - {st.t} else s.txns
  {
    match st
    case Commit(t) => CommitTxn(s, t, s.txns[t])
    case Cleanup(t, deleted) =>
      s.(plain := if deleted then s.plain - {s.cleanups[t]} else s.plain, cleanups := s.cleanups - {t})
    case RejectedPlainPut(k, data) => s.(plain := s.plain[k := data])
    case DeletePlainBlob(k) => s.(plain := s.plain - {k})
    case DeleteHead(k) => s.(heads := s.heads - {k})
    case CloseAccount(a) => Close(s, a, s.closings[a].tenant, s.closings[a].counted)
  }

  /** Rows that differed when the references were counted, and still do, get the count of then. */
  function ReconcileNext(s: State, r: nat, idle: set<ChunkId>): State
    requires r in s.counts
  {
    s.(index := Reconcile(s.index, s.counts[r].actual, idle * s.counts[r].drifted), counts := s.counts - {r})
  }

  ghost function Next(h: Blob -> string, s: State, st: Step): State
    requires Enabled(h, s, st)
  {
    if st.ResetRows? then ReconcileNext(s, st.r, st.idle)
    else if ChunkStep(st) then ChunkNext(h, s, st)
    else if TxnStep(st) then TxnNext(h, s, st)
    else ObjectNext(s, st)
  }
}
