/** Blobs under chunked objects and manifests without a head row: which steps leave them, and what DELETE makes of them. */
module StaleBlobs {
  import opened Basics
  import opened ContentIndex
  import opened DedupStore
  import opened StoreInvariants
  import opened StoreBooks
  import opened StoreSafety
  import opened Refinement

  /** A whole-object blob lies at the key of a chunked object. */
  predicate Beside(s: State, k: ObjKey) {
    Chunked(s, k) && k in s.plain
  }

  predicate CleanupPending(s: State, k: ObjKey) {
    exists t :: t in s.cleanups && s.cleanups[t] == k
  }

  predicate WritePending(s: State, k: ObjKey) {
    exists t :: t in s.txns && s.txns[t].k == k && s.txns[t].job.PlainWrite?
  }

  /** A request is either in its transaction or past it. */
  predicate IdsApart(s: State) {
    forall t :: t in s.txns ==> t !in s.cleanups
  }

  /** Every such blob is about to be deleted, or belongs to a plain PUT whose head row is still to come. */
  ghost predicate Attended(s: State) {
    && IdsApart(s)
    && (forall k :: Beside(s, k) ==> CleanupPending(s, k) || WritePending(s, k))
  }

  /** A best-effort delete that fails, a plain PUT refused or failing after its blob was written over a chunked object. */
  predicate LeavesBlob(s: State, st: Step) {
    match st
    case Cleanup(t, deleted) => t in s.cleanups && !deleted && Beside(s, s.cleanups[t])
    case RejectedPlainPut(k, _) => Chunked(s, k)
    case Abort(t) => t in s.txns && s.txns[t].job.PlainWrite? && Beside(s, s.txns[t].k)
    case _ => false
  }

  lemma QuietIds(h: Blob -> string, s: State, st: Step)
    requires Enabled(h, s, st) && (ChunkStep(st) || st.ResetRows?)
    ensures Next(h, s, st).txns == s.txns && Next(h, s, st).cleanups == s.cleanups && Next(h, s, st).plain == s.plain
    ensures Next(h, s, st).heads == s.heads
  {
    if ChunkStep(st) {
      assert Next(h, s, st) == ChunkNext(h, s, st);
    }
  }

  lemma ObjectIds(s: State, st: Step)
    requires ObjectEnabled(s, st) && IdsApart(s)
    ensures IdsApart(ObjectNext(s, st))
  {
    if st.Commit? {
      CommitIds(s, st.t);
    } else {
      OtherObjectIds(s, st);
    }
  }

  lemma CommitIds(s: State, t: nat)
    requires t in s.txns && IdsApart(s)
    ensures IdsApart(CommitTxn(s, t, s.txns[t]))
  {
  }

  lemma OtherObjectIds(s: State, st: Step)
    requires ObjectEnabled(s, st) && !st.Commit? && IdsApart(s)
    ensures IdsApart(ObjectNext(s, st))
  {
    match st
    case Cleanup(_, _) =>
    case RejectedPlainPut(_, _) =>
    case DeletePlainBlob(_) =>
    case DeleteHead(_) =>
    case CloseAccount(_) =>
  }

  lemma TxnIds(h: Blob -> string, s: State, st: Step)
    requires TxnStep(st) && TxnEnabled(h, s, st) && IdsApart(s)
    ensures IdsApart(TxnNext(h, s, st))
  {
    match st
    case Begin(_, _, _) =>
    case BeginCopy(_, _, _, _) =>
    case ReadSize(_, _) =>
    case LookHead(_) =>
    case SnapRows(_) =>
    case ListRows(_) =>
    case DeleteRows(_) =>
    case CopyCrash(_, _) =>
    case Abort(_) =>
    case CountAccount(_, _) =>
    case CountRefs(_) =>
  }

  lemma CommitAttends(s: State, t: nat, k: ObjKey)
    requires Attended(s) && t in s.txns && CommitReady(s, t, s.txns[t]) && Beside(CommitTxn(s, t, s.txns[t]), k)
    ensures var s' := CommitTxn(s, t, s.txns[t]); CleanupPending(s', k) || WritePending(s', k)
  {
    var tx, s' := s.txns[t], CommitTxn(s, t, s.txns[t]);
    if Installs(tx.job) && k == tx.k {
      assert s'.cleanups[t] == k;
    } else {
      assert Beside(s, k);
      PendingStays(s, s', k, t);
    }
  }

  /** Pending work of other requests stays pending. */
  lemma PendingStays(s: State, s': State, k: ObjKey, t: nat)
    requires CleanupPending(s, k) || WritePending(s, k)
    requires forall o :: o in s.cleanups && o != t ==> o in s'.cleanups && s'.cleanups[o] == s.cleanups[o]
    requires forall o :: o in s.txns && o != t ==> o in s'.txns && s'.txns[o].k == s.txns[o].k && s'.txns[o].job == s.txns[o].job
    requires t in s.cleanups && s.cleanups[t] == k ==> t in s'.cleanups && s'.cleanups[t] == k
    requires t in s.txns && s.txns[t].k == k && s.txns[t].job.PlainWrite? ==>
      t in s'.txns && s'.txns[t].k == k && s'.txns[t].job.PlainWrite?
    ensures CleanupPending(s', k) || WritePending(s', k)
  {
    if o :| o in s.cleanups && s.cleanups[o] == k {
      assert o in s'.cleanups && s'.cleanups[o] == k;
    } else {
      var o :| o in s.txns && s.txns[o].k == k && s.txns[o].job.PlainWrite?;
      assert o in s'.txns && s'.txns[o].k == k && s'.txns[o].job.PlainWrite?;
    }
  }

  lemma TxnStepAttends(h: Blob -> string, s: State, st: Step, k: ObjKey)
    requires Attended(s) && TxnStep(st) && TxnEnabled(h, s, st) && !LeavesBlob(s, st) && Beside(TxnNext(h, s, st), k)
    ensures var s' := TxnNext(h, s, st); CleanupPending(s', k) || WritePending(s', k)
  {
    var s' := TxnNext(h, s, st);
    if st.Begin? {
      if st.job.PlainWrite? && st.k == k {
        assert s'.txns[st.t].k == k && s'.txns[st.t].job.PlainWrite?;
      } else {
        PendingStays(s, s', k, st.t);
      }
    } else if st.CountAccount? || st.CountRefs? {
      PendingStays(s, s', k, 0);
    } else {
      OwnTxnAttends(h, s, st, k);
    }
  }

  lemma OwnTxnAttends(h: Blob -> string, s: State, st: Step, k: ObjKey)
    requires Attended(s) && TxnStep(st) && TxnEnabled(h, s, st) && !LeavesBlob(s, st) && Beside(s, k)
    requires !st.Begin? && !st.CountAccount? && !st.CountRefs?
    ensures var s' := TxnNext(h, s, st); CleanupPending(s', k) || WritePending(s', k)
  {
    var s' := TxnNext(h, s, st);
    if st.CopyCrash? || st.Abort? {
      PendingStays(s, s', k, st.t);
    } else {
      MovesOwnTxn(h, s, st);
      PendingStays(s, s', k, st.t);
    }
  }

  /** A statement moves its own transaction on, which stays a write of the same key. */
  lemma MovesOwnTxn(h: Blob -> string, s: State, st: Step)
    requires TxnStep(st) && TxnEnabled(h, s, st) && !st.Begin? && !st.CountAccount? && !st.CountRefs? && !st.CopyCrash? && !st.Abort?
    ensures var s' := TxnNext(h, s, st);
      && s'.cleanups == s.cleanups && st.t in s'.txns && s'.txns == s.txns[st.t := s'.txns[st.t]]
      && (st.t in s.txns ==> s'.txns[st.t].k == s.txns[st.t].k && s'.txns[st.t].job.PlainWrite? == s.txns[st.t].job.PlainWrite?)
  {
    match st
    case BeginCopy(_, _, _, _) =>
    case ReadSize(_, _) =>
    case LookHead(_) =>
    case SnapRows(_) =>
    case ListRows(_) =>
    case DeleteRows(_) =>
  }

  lemma OtherObjectStepAttends(h: Blob -> string, s: State, st: Step, k: ObjKey)
    requires Attended(s) && ObjectEnabled(s, st) && !st.Commit? && !LeavesBlob(s, st) && Beside(ObjectNext(s, st), k)
    ensures var s' := ObjectNext(s, st); CleanupPending(s', k) || WritePending(s', k)
  {
    match st
    case Cleanup(t, _) => PendingStays(s, ObjectNext(s, st), k, t);
    case RejectedPlainPut(_, _) => PendingStays(s, ObjectNext(s, st), k, 0);
    case DeletePlainBlob(_) => PendingStays(s, ObjectNext(s, st), k, 0);
    case DeleteHead(_) => PendingStays(s, ObjectNext(s, st), k, 0);
    case CloseAccount(_) => PendingStays(s, ObjectNext(s, st), k, 0);
  }

  lemma ObjectStepAttends(h: Blob -> string, s: State, st: Step, k: ObjKey)
    requires Attended(s) && ObjectEnabled(s, st) && !LeavesBlob(s, st) && Beside(ObjectNext(s, st), k)
    ensures var s' := ObjectNext(s, st); CleanupPending(s', k) || WritePending(s', k)
  {
    if st.Commit? {
      CommitAttends(s, st.t, k);
    } else {
      OtherObjectStepAttends(h, s, st, k);
    }
  }

  lemma TxnKeepsAttended(h: Blob -> string, s: State, st: Step)
    requires Attended(s) && TxnStep(st) && TxnEnabled(h, s, st) && !LeavesBlob(s, st)
    ensures Attended(TxnNext(h, s, st))
  {
    var s' := TxnNext(h, s, st);
    TxnIds(h, s, st);
    forall k | Beside(s', k) ensures CleanupPending(s', k) || WritePending(s', k) {
      TxnStepAttends(h, s, st, k);
    }
  }

  lemma ObjectKeepsAttended(h: Blob -> string, s: State, st: Step)
    requires Attended(s) && ObjectEnabled(s, st) && !LeavesBlob(s, st)
    ensures Attended(ObjectNext(s, st))
  {
    var s' := ObjectNext(s, st);
    ObjectIds(s, st);
    forall k | Beside(s', k) ensures CleanupPending(s', k) || WritePending(s', k) {
      ObjectStepAttends(h, s, st, k);
    }
  }

  lemma QuietKeepsAttended(s: State, s': State)
    requires Attended(s) && s'.txns == s.txns && s'.cleanups == s.cleanups && s'.plain == s.plain && s'.heads == s.heads
    ensures Attended(s')
  {
    forall k | Beside(s', k) ensures CleanupPending(s', k) || WritePending(s', k) {
      assert Beside(s, k);
      PendingStays(s, s', k, 0);
    }
  }

  /** Only those three kinds of step leave a blob under a chunked object that nobody will attend to. */
  lemma StaleBlobOrigin(h: Blob -> string, s: State, st: Step)
    requires Attended(s) && Enabled(h, s, st) && !LeavesBlob(s, st)
    ensures Attended(Next(h, s, st))
  {
    if TxnStep(st) {
      TxnKeepsAttended(h, s, st);
    } else if ChunkStep(st) || st.ResetRows? {
      QuietIds(h, s, st);
      QuietKeepsAttended(s, Next(h, s, st));
    } else {
      ObjectKeepsAttended(h, s, st);
    }
  }

  ghost predicate CleanRun(h: Blob -> string, s: State, run: seq<Step>)
    requires ValidRun(h, s, run)
    decreases |run|
  {
    run == [] || (!LeavesBlob(s, run[0]) && CleanRun(h, Next(h, s, run[0]), run[1..]))
  }

  lemma {:induction false} RunKeepsAttended(h: Blob -> string, s: State, run: seq<Step>)
    requires Attended(s) && ValidRun(h, s, run) && CleanRun(h, s, run)
    ensures Attended(Final(h, s, run))
    decreases |run|
  {
    if run != [] {
      StaleBlobOrigin(h, s, run[0]);
      RunKeepsAttended(h, Next(h, s, run[0]), run[1..]);
    }
  }

  /** So once all requests of such a run have finished, no chunked object has a blob beside it. */
  lemma NoStaleBlobAtRest(h: Blob -> string, run: seq<Step>, k: ObjKey)
    requires ValidRun(h, Init(), run) && CleanRun(h, Init(), run)
    requires var e := Final(h, Init(), run); e.txns == map[] && e.cleanups == map[]
    ensures !Beside(Final(h, Init(), run), k)
  {
    RunKeepsAttended(h, Init(), run);
  }

  // ---- The delete that comes too late ----

  /** Steps after which object `k` is no longer chunked. */
  predicate EndsChunked(s: State, st: Step, k: ObjKey) {
    match st
    case Commit(t) => t in s.txns && s.txns[t].k == k && s.txns[t].job.PlainWrite?
    case DeleteHead(j) => j == k
    case CloseAccount(a) => a in s.closings && s.closings[a].tenant == k.tenant
    case _ => false
  }

  lemma StaysChunked(h: Blob -> string, s: State, st: Step, k: ObjKey)
    requires Enabled(h, s, st) && Chunked(s, k)
    ensures Chunked(Next(h, s, st), k) <==> !EndsChunked(s, st, k)
  {
    if ChunkStep(st) || TxnStep(st) || st.ResetRows? {
      HeadsStay(h, s, st);
    } else {
      assert Next(h, s, st) == ObjectNext(s, st);
      ObjectStaysChunked(s, st, k);
    }
  }

  lemma HeadsStay(h: Blob -> string, s: State, st: Step)
    requires Enabled(h, s, st) && (ChunkStep(st) || TxnStep(st) || st.ResetRows?)
    ensures Next(h, s, st).heads == s.heads && Next(h, s, st).manifests == s.manifests
  {
    if ChunkStep(st) {
      assert Next(h, s, st) == ChunkNext(h, s, st);
    } else if TxnStep(st) {
      assert Next(h, s, st) == TxnNext(h, s, st);
    }
  }

  lemma ObjectStaysChunked(s: State, st: Step, k: ObjKey)
    requires ObjectEnabled(s, st) && Chunked(s, k)
    ensures Chunked(ObjectNext(s, st), k) <==> !EndsChunked(s, st, k)
  {
    match st
    case Commit(t) => CommitStaysChunked(s, t, k);
    case Cleanup(_, _) =>
    case RejectedPlainPut(_, _) =>
    case DeletePlainBlob(_) =>
    case DeleteHead(_) =>
    case CloseAccount(_) =>
  }

  lemma CommitStaysChunked(s: State, t: nat, k: ObjKey)
    requires t in s.txns && Chunked(s, k)
    ensures Chunked(CommitTxn(s, t, s.txns[t]), k) <==> !(s.txns[t].k == k && s.txns[t].job.PlainWrite?)
  {
    if s.txns[t].k != k {
      CommitFrame(s, t, s.txns[t], k);
    }
  }

  ghost predicate NotOvertaken(h: Blob -> string, s: State, run: seq<Step>, k: ObjKey)
    requires ValidRun(h, s, run)
    decreases |run|
  {
    run == [] || (!EndsChunked(s, run[0], k) && NotOvertaken(h, Next(h, s, run[0]), run[1..], k))
  }

  lemma {:induction false} RunStaysChunked(h: Blob -> string, s: State, run: seq<Step>, k: ObjKey)
    requires Chunked(s, k) && ValidRun(h, s, run) && NotOvertaken(h, s, run, k)
    ensures Chunked(Final(h, s, run), k)
    decreases |run|
  {
    if run != [] {
      StaysChunked(h, s, run[0], k);
      RunStaysChunked(h, Next(h, s, run[0]), run[1..], k);
    }
  }

  lemma ChunkedCleanup(h: Blob -> string, s: State, t: nat, deleted: bool)
    requires t in s.cleanups && Chunked(s, s.cleanups[t])
    ensures View(h, ObjectNext(s, Cleanup(t, deleted))) == View(h, s)
  {
    var s' := ObjectNext(s, Cleanup(t, deleted));
    forall k ensures Get(h, s', k) == Get(h, s, k) {
      BlobStepAnswers(h, s, s, k);
      BlobStepAnswers(h, s, s', k);
    }
    forall k ensures k in View(h, s) <==> k in View(h, s') {
      ViewIsGet(h, s, k);
      ViewIsGet(h, s', k);
    }
  }

  /**
   The delete that follows an install is seen by nobody, however late it comes, unless a plain write, a DELETE or an
   account deletion of that object has taken effect in between.
   */
  lemma CleanupIsInvisible(h: Blob -> string, s: State, t: nat, run: seq<Step>, deleted: bool)
    requires t in s.cleanups && Chunked(s, s.cleanups[t])
    requires ValidRun(h, s, run) && NotOvertaken(h, s, run, s.cleanups[t])
    requires var e := Final(h, s, run); t in e.cleanups && e.cleanups[t] == s.cleanups[t]
    ensures View(h, Next(h, Final(h, s, run), Cleanup(t, deleted))) == View(h, Final(h, s, run))
  {
    RunStaysChunked(h, s, run, s.cleanups[t]);
    ChunkedCleanup(h, Final(h, s, run), t, deleted);
  }

  /** An install leaves its object chunked, with that delete to come. */
  lemma InstallLeavesCleanup(s: State, t: nat)
    requires t in s.txns && CommitReady(s, t, s.txns[t]) && Installs(s.txns[t].job)
    ensures var s' := ObjectNext(s, Commit(t));
      t in s'.cleanups && s'.cleanups[t] == s.txns[t].k && Chunked(s', s.txns[t].k)
  {
  }

  // ---- Orphans ----

  /** Manifest rows whose object has no chunked head row: GET, DELETE and overwrites no longer look at them. */
  predicate Orphan(s: State, k: ObjKey) {
    RowsAt(s.manifests, k) != [] && !Chunked(s, k)
  }

  lemma CommitOrphans(s: State, t: nat, k: ObjKey)
    requires t in s.txns && CommitReady(s, t, s.txns[t]) && !Orphan(s, k)
    ensures Orphan(CommitTxn(s, t, s.txns[t]), k)
       <==> s.txns[t].k == k && s.txns[t].job.PlainWrite? && Rest(s, s.txns[t]) != []
  {
    var tx, s' := s.txns[t], CommitTxn(s, t, s.txns[t]);
    if tx.k == k {
      assert RowsAt(s'.manifests, k) == RowsAfter(s, tx);
      assert !Installs(tx.job) ==> RowsAfter(s, tx) == Rest(s, tx);
    } else {
      CommitFrame(s, t, tx, k);
    }
  }

  /** Exactly two steps orphan a manifest: a plain write that deleted none of its rows, and a DELETE's last statement. */
  lemma OrphanOrigin(h: Blob -> string, s: State, st: Step, k: ObjKey)
    requires Enabled(h, s, st) && !Orphan(s, k)
    ensures Orphan(Next(h, s, st), k) <==>
      || (st.Commit? && s.txns[st.t].k == k && s.txns[st.t].job.PlainWrite? && Rest(s, s.txns[st.t]) != [])
      || (st.DeleteHead? && st.k == k && RowsAt(s.manifests, k) != [])
  {
    if st.Commit? {
      CommitOrphans(s, st.t, k);
    } else if ChunkStep(st) || TxnStep(st) || st.ResetRows? {
      HeadsStay(h, s, st);
    } else {
      ObjectOrphans(s, st, k);
    }
  }

  lemma ObjectOrphans(s: State, st: Step, k: ObjKey)
    requires ObjectEnabled(s, st) && !st.Commit? && !Orphan(s, k)
    ensures Orphan(ObjectNext(s, st), k) <==> st.DeleteHead? && st.k == k && RowsAt(s.manifests, k) != []
  {
    match st
    case Cleanup(_, _) =>
    case RejectedPlainPut(_, _) =>
    case DeletePlainBlob(_) =>
    case DeleteHead(_) =>
    case CloseAccount(a) => CloseOrphans(s, a, k);
  }

  lemma CloseOrphans(s: State, a: nat, k: ObjKey)
    requires ObjectEnabled(s, CloseAccount(a)) && !Orphan(s, k)
    ensures !Orphan(ObjectNext(s, CloseAccount(a)), k)
  {
  }
}
