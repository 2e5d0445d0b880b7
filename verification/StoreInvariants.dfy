/** What every step of the protocol keeps, whatever the interleaving and whatever fails. */
module StoreInvariants {
  import opened Basics
  import opened MapSums
  import opened ContentIndex
  import opened DedupStore

  /** Every index row has its blob, and every blob has the hash it is stored under. */
  ghost predicate BlobsSound(h: Blob -> string, s: State) {
    && (forall c :: c in s.index ==> c in s.blobs)
    && (forall c :: c in s.blobs ==> h(s.blobs[c]) == c.hash)
  }

  ghost predicate HolderSound(h: Blob -> string, s: State, c: ChunkId, holder: Holder) {
    match holder
    case Storer(u, data, put) => u in s.uploads && h(data) == c.hash && (put ==> c in s.blobs)
    case Sweeper(rowGone) => rowGone ==> c !in s.index
  }

  ghost predicate LocksSound(h: Blob -> string, s: State) {
    forall c :: c in s.locks ==> HolderSound(h, s, c, s.locks[c])
  }

  /** Whatever a manifest names is indexed. */
  ghost predicate RowsIndexed(s: State) {
    forall k :: k in s.manifests ==> ForeignKeys(s.index, s.manifests[k])
  }

  /** What a transaction has listed is still there and will be deleted with the rest of the rows. */
  ghost predicate TxnSound(s: State, tx: Txn) {
    && (tx.progress.Begun? || tx.progress.Looked? || tx.progress.Snapped? ==> tx.listed == [])
    && (forall c :: multiset(tx.listed)[c] <= multiset(RowsAt(s.manifests, tx.k))[c])
    && (tx.progress.Deleted? && tx.listed != [] ==> tx.progress.gone)
    && (HoldsRows(tx) ==> RowsAt(s.manifests, tx.k) != [])
    && (tx.progress.Snapped? ==> tx.progress.era <= Era(s, tx.k))
    && (tx.progress.Snapped? && tx.progress.era == Era(s, tx.k) ==> tx.progress.n <= |RowsAt(s.manifests, tx.k)|)
  }

  ghost predicate TxnsSound(s: State) {
    forall t :: t in s.txns ==> TxnSound(s, s.txns[t]) && (HoldsRows(s.txns[t]) ==> RowsFree(s, t, s.txns[t].k))
  }

  ghost predicate Inv(h: Blob -> string, s: State) {
    BlobsSound(h, s) && LocksSound(h, s) && RowsIndexed(s) && TxnsSound(s)
  }

  lemma InitInv(h: Blob -> string)
    ensures Inv(h, Init())
  {
  }

  // ---- Chunks, locks and rows ----

  /** Lock holders only depend on which uploads run, which blobs exist and which rows are gone. */
  lemma LocksFrame(h: Blob -> string, s: State, s': State)
    requires LocksSound(h, s) && s'.locks == s.locks
    requires s.blobs.Keys <= s'.blobs.Keys && s'.index.Keys <= s.index.Keys
    requires forall c :: c in s.locks && s.locks[c].Storer? ==> s.locks[c].upload in s'.uploads
    ensures LocksSound(h, s')
  {
    forall c | c in s.locks ensures HolderSound(h, s', c, s.locks[c]) {
      assert HolderSound(h, s, c, s.locks[c]);
    }
  }

  /** Counts and holdings may change as long as no row goes and no upload with a running store ends. */
  lemma HoldingsKeepLocks(h: Blob -> string, s: State, ix: Index, uploads: map<nat, multiset<ChunkId>>)
    requires BlobsSound(h, s) && LocksSound(h, s) && ix.Keys == s.index.Keys
    requires forall c :: c in s.locks && s.locks[c].Storer? ==> s.locks[c].upload in uploads
    ensures BlobsSound(h, s.(index := ix, uploads := uploads)) && LocksSound(h, s.(index := ix, uploads := uploads))
  {
    LocksFrame(h, s, s.(index := ix, uploads := uploads));
  }

  lemma UploadStepKeepsLocks(h: Blob -> string, s: State, st: Step)
    requires BlobsSound(h, s) && LocksSound(h, s) && ChunkEnabled(h, s, st)
    requires st.BeginUpload? || st.DedupHit? || st.Compensate? || st.LoseCompensation? || st.EndUpload?
    ensures BlobsSound(h, ChunkNext(h, s, st)) && LocksSound(h, ChunkNext(h, s, st))
    ensures ChunkNext(h, s, st).index.Keys == s.index.Keys
  {
    StorersRun(h, s);
    match st
    case BeginUpload(u) => HoldingsKeepLocks(h, s, s.index, s.uploads[u := multiset{}]);
    case DedupHit(u, c) =>
      if c in s.index {
        HoldingsKeepLocks(h, s, Increment(s.index, c), s.uploads[u := s.uploads[u] + multiset{c}]);
      }
    case Compensate(u, c) => HoldingsKeepLocks(h, s, Decrement(s.index, c), s.uploads[u := s.uploads[u] - multiset{c}]);
    case LoseCompensation(u, c) => HoldingsKeepLocks(h, s, s.index, s.uploads[u := s.uploads[u] - multiset{c}]);
    case EndUpload(u) => HoldingsKeepLocks(h, s, s.index, s.uploads - {u});
  }

  lemma StorersRun(h: Blob -> string, s: State)
    requires LocksSound(h, s)
    ensures forall c :: c in s.locks && s.locks[c].Storer? ==> s.locks[c].upload in s.uploads
  {
    forall c | c in s.locks && s.locks[c].Storer? ensures s.locks[c].upload in s.uploads {
      assert HolderSound(h, s, c, s.locks[c]);
    }
  }

  /** Under the lock the blob comes before the row. */
  lemma StoreStepKeepsLocks(h: Blob -> string, s: State, st: Step)
    requires BlobsSound(h, s) && LocksSound(h, s) && ChunkEnabled(h, s, st)
    requires st.LockChunk? || st.PutBlob? || st.CommitStore? || st.AbandonStore?
    ensures BlobsSound(h, ChunkNext(h, s, st)) && LocksSound(h, ChunkNext(h, s, st))
    ensures s.index.Keys <= ChunkNext(h, s, st).index.Keys
  {
    var s' := ChunkNext(h, s, st);
    if st.c in s.locks {
      assert HolderSound(h, s, st.c, s.locks[st.c]);
    }
    forall d | d in s'.locks ensures HolderSound(h, s', d, s'.locks[d]) {
      if d != st.c {
        assert HolderSound(h, s, d, s.locks[d]);
      }
    }
  }

  lemma SweepLockKeepsLocks(h: Blob -> string, s: State, c: ChunkId)
    requires BlobsSound(h, s) && LocksSound(h, s) && c !in s.locks
    ensures LocksSound(h, s.(locks := s.locks[c := Sweeper(false)]))
  {
    forall d | d in s.locks ensures HolderSound(h, s, d, s.locks[d]) {
    }
  }

  lemma RowGoneKeepsLocks(h: Blob -> string, s: State, c: ChunkId)
    requires BlobsSound(h, s) && LocksSound(h, s) && c in s.locks
    ensures var s' := s.(index := s.index - {c}, locks := s.locks[c := Sweeper(true)]);
      BlobsSound(h, s') && LocksSound(h, s')
  {
    var s' := s.(index := s.index - {c}, locks := s.locks[c := Sweeper(true)]);
    forall d | d in s'.locks ensures HolderSound(h, s', d, s'.locks[d]) {
      assert d != c ==> HolderSound(h, s, d, s.locks[d]);
    }
  }

  lemma UnlockKeepsLocks(h: Blob -> string, s: State, c: ChunkId)
    requires BlobsSound(h, s) && LocksSound(h, s)
    ensures BlobsSound(h, s.(locks := s.locks - {c})) && LocksSound(h, s.(locks := s.locks - {c}))
  {
    forall d | d in s.locks ensures HolderSound(h, s, d, s.locks[d]) {
    }
  }

  /** Under the lock the row goes before the blob, and only a row no manifest names. */
  lemma SweepRowKeepsLocks(h: Blob -> string, s: State, c: ChunkId)
    requires BlobsSound(h, s) && LocksSound(h, s) && ChunkEnabled(h, s, SweepDeleteRow(c))
    ensures BlobsSound(h, ChunkNext(h, s, SweepDeleteRow(c))) && LocksSound(h, ChunkNext(h, s, SweepDeleteRow(c)))
    ensures forall d :: d in s.index && Referenced(s.manifests, d) ==> d in ChunkNext(h, s, SweepDeleteRow(c)).index
  {
    if Sweepable(s.index, c) && !Referenced(s.manifests, c) {
      RowGoneKeepsLocks(h, s, c);
    } else {
      UnlockKeepsLocks(h, s, c);
    }
  }

  /** A blob deleted under the lock has no row. */
  lemma SweepBlobKeepsLocks(h: Blob -> string, s: State, c: ChunkId, deleted: bool)
    requires BlobsSound(h, s) && LocksSound(h, s) && ChunkEnabled(h, s, SweepDeleteBlob(c, deleted))
    ensures var s' := ChunkNext(h, s, SweepDeleteBlob(c, deleted)); BlobsSound(h, s') && LocksSound(h, s')
  {
    var s' := ChunkNext(h, s, SweepDeleteBlob(c, deleted));
    assert HolderSound(h, s, c, s.locks[c]);
    forall d | d in s'.locks ensures HolderSound(h, s', d, s'.locks[d]) {
      assert HolderSound(h, s, d, s.locks[d]);
    }
  }

  lemma ChunkStepKeepsLocks(h: Blob -> string, s: State, st: Step)
    requires BlobsSound(h, s) && LocksSound(h, s) && ChunkStep(st) && ChunkEnabled(h, s, st)
    ensures BlobsSound(h, ChunkNext(h, s, st)) && LocksSound(h, ChunkNext(h, s, st))
    ensures forall d :: d in s.index && Referenced(s.manifests, d) ==> d in ChunkNext(h, s, st).index
  {
    if st.SweepLock? {
      SweepLockKeepsLocks(h, s, st.c);
    } else if st.SweepDeleteRow? {
      SweepRowKeepsLocks(h, s, st.c);
    } else if st.SweepDeleteBlob? {
      SweepBlobKeepsLocks(h, s, st.c, st.deleted);
    } else if st.LockChunk? || st.PutBlob? || st.CommitStore? || st.AbandonStore? {
      StoreStepKeepsLocks(h, s, st);
    } else {
      UploadStepKeepsLocks(h, s, st);
    }
  }

  lemma ChunkStepKeepsInv(h: Blob -> string, s: State, st: Step)
    requires Inv(h, s) && ChunkStep(st) && ChunkEnabled(h, s, st)
    ensures Inv(h, ChunkNext(h, s, st))
  {
    var s' := ChunkNext(h, s, st);
    ChunkStepKeepsLocks(h, s, st);
    forall k, c | k in s.manifests && c in s.manifests[k] ensures c in s'.index {
      assert c in s.index && Referenced(s.manifests, c);
    }
    SameRowsSameTxns(s, s');
  }

  lemma SameRowsSameTxns(s: State, s': State)
    requires TxnsSound(s) && s'.txns == s.txns && s'.manifests == s.manifests && s'.eras == s.eras
    ensures TxnsSound(s')
  {
    forall t | t in s'.txns
      ensures TxnSound(s', s'.txns[t]) && (HoldsRows(s'.txns[t]) ==> RowsFree(s', t, s'.txns[t].k))
    {
      assert TxnSound(s, s.txns[t]);
    }
  }

  // ---- Transactions ----

  /** One transaction moves on; it takes row locks only when nobody else holds them. */
  lemma MoveKeepsTxns(s: State, t: nat, tx: Txn)
    requires TxnsSound(s) && TxnSound(s, tx) && (HoldsRows(tx) ==> RowsFree(s, t, tx.k))
    ensures TxnsSound(s.(txns := s.txns[t := tx]))
  {
    var s' := s.(txns := s.txns[t := tx]);
    forall o | o in s'.txns
      ensures TxnSound(s', s'.txns[o]) && (HoldsRows(s'.txns[o]) ==> RowsFree(s', o, s'.txns[o].k))
    {
      assert o != t ==> TxnSound(s, s.txns[o]) && (HoldsRows(s.txns[o]) ==> RowsFree(s, o, s.txns[o].k));
    }
  }

  lemma EndKeepsTxns(s: State, t: nat)
    requires TxnsSound(s)
    ensures TxnsSound(s.(txns := s.txns - {t}))
  {
    var s' := s.(txns := s.txns - {t});
    forall o | o in s'.txns
      ensures TxnSound(s', s'.txns[o]) && (HoldsRows(s'.txns[o]) ==> RowsFree(s', o, s'.txns[o].k))
    {
      assert TxnSound(s, s.txns[o]) && (HoldsRows(s.txns[o]) ==> RowsFree(s, o, s.txns[o].k));
    }
  }

  lemma SurvivorsAreThere(s: State, tx: Txn, c: ChunkId)
    requires tx.progress.Snapped?
    ensures multiset(Survivors(s, tx))[c] <= multiset(RowsAt(s.manifests, tx.k))[c]
  {
    RowsSplit(RowsAt(s.manifests, tx.k), tx.progress.n, c);
  }

  lemma ListKeepsTxn(s: State, tx: Txn)
    requires TxnSound(s, tx) && tx.progress.Snapped?
    ensures TxnSound(s, tx.(progress := Listed, listed := Survivors(s, tx)))
  {
    forall c ensures multiset(Survivors(s, tx))[c] <= multiset(RowsAt(s.manifests, tx.k))[c] {
      SurvivorsAreThere(s, tx, c);
    }
  }

  lemma DeleteKeepsTxn(s: State, tx: Txn)
    requires TxnSound(s, tx) && tx.progress == Listed
    ensures TxnSound(s, tx.(progress := Deleted(RowsAt(s.manifests, tx.k) != [])))
  {
    if tx.listed != [] {
      assert HoldsRows(tx);
    }
  }

  /** The one transaction a statement belongs to, after the statement. */
  lemma MovedTxn(h: Blob -> string, s: State, st: Step)
    requires TxnsSound(s) && TxnStep(st) && TxnEnabled(h, s, st)
    requires !st.CopyCrash? && !st.Abort? && !st.CountAccount? && !st.CountRefs?
    ensures var s' := TxnNext(h, s, st);
      && st.t in s'.txns && s'.txns == s.txns[st.t := s'.txns[st.t]]
      && TxnSound(s, s'.txns[st.t]) && (HoldsRows(s'.txns[st.t]) ==> RowsFree(s, st.t, s'.txns[st.t].k))
  {
    if st.t in s.txns {
      assert TxnSound(s, s.txns[st.t]);
    }
    match st
    case Begin(t, k, job) =>
    case BeginCopy(t, src, k, pieces) =>
    case ReadSize(t, src) =>
    case LookHead(t) =>
    case SnapRows(t) =>
    case ListRows(t) => ListKeepsTxn(s, s.txns[t]);
    case DeleteRows(t) => DeleteKeepsTxn(s, s.txns[t]);
  }

  lemma TxnStepKeepsTxns(h: Blob -> string, s: State, st: Step)
    requires TxnsSound(s) && TxnStep(st) && TxnEnabled(h, s, st)
    ensures TxnsSound(TxnNext(h, s, st))
  {
    var s' := TxnNext(h, s, st);
    if st.CountAccount? || st.CountRefs? {
      SameRowsSameTxns(s, s');
    } else if st.CopyCrash? || st.Abort? {
      EndKeepsTxns(s, st.t);
    } else {
      MovedTxn(h, s, st);
      MoveKeepsTxns(s, st.t, s'.txns[st.t]);
      SameRowsSameTxns(s.(txns := s'.txns), s');
    }
  }

  lemma TxnStepKeepsInv(h: Blob -> string, s: State, st: Step)
    requires Inv(h, s) && TxnStep(st) && TxnEnabled(h, s, st)
    ensures Inv(h, TxnNext(h, s, st))
  {
    TxnStepKeepsTxns(h, s, st);
    LocksFrame(h, s, TxnNext(h, s, st));
  }

  // ---- Who moves a transaction ----

  predicate MovesTxn(st: Step, t: nat) {
    (st.ReadSize? || st.LookHead? || st.SnapRows? || st.ListRows? || st.DeleteRows?) && st.t == t
  }

  lemma OtherTxnSteps(h: Blob -> string, s: State, st: Step, t: nat)
    requires TxnStep(st) && TxnEnabled(h, s, st) && t in s.txns && !MovesTxn(st, t)
    ensures t in TxnNext(h, s, st).txns ==> TxnNext(h, s, st).txns[t] == s.txns[t]
  {
    if st.CopyCrash? || st.Abort? {
      assert TxnNext(h, s, st).txns == s.txns - {st.t};
    } else if st.CountAccount? || st.CountRefs? {
      assert TxnNext(h, s, st).txns == s.txns;
    } else {
      OneTxnMoves(h, s, st);
    }
  }

  lemma OneTxnMoves(h: Blob -> string, s: State, st: Step)
    requires TxnStep(st) && TxnEnabled(h, s, st)
    requires !st.CopyCrash? && !st.Abort? && !st.CountAccount? && !st.CountRefs?
    ensures st.t in TxnNext(h, s, st).txns && TxnNext(h, s, st).txns == s.txns[st.t := TxnNext(h, s, st).txns[st.t]]
    ensures (st.Begin? || st.BeginCopy?) ==> st.t !in s.txns
  {
    match st
    case Begin(_, _, _) =>
    case BeginCopy(_, _, _, _) =>
    case ReadSize(_, _) =>
    case LookHead(_) =>
    case SnapRows(_) =>
    case ListRows(_) =>
    case DeleteRows(_) =>
  }

  /** Nobody else writes a transaction's own state. */
  lemma OthersLeaveTxn(h: Blob -> string, s: State, st: Step, t: nat)
    requires Enabled(h, s, st) && t in s.txns && !MovesTxn(st, t)
    ensures t in Next(h, s, st).txns ==> Next(h, s, st).txns[t] == s.txns[t]
  {
    if TxnStep(st) {
      OtherTxnSteps(h, s, st, t);
    } else {
      OnlyCommitEnds(h, s, st);
    }
  }

  /** Outside its own statements a transaction changes only by its commit. */
  lemma OnlyCommitEnds(h: Blob -> string, s: State, st: Step)
    requires Enabled(h, s, st) && !TxnStep(st)
    ensures Next(h, s, st).txns == if st.Commit? then s.txns - {st.t} else s.txns
  {
    if ChunkStep(st) {
      assert Next(h, s, st) == ChunkNext(h, s, st);
    } else if !st.ResetRows? {
      assert Next(h, s, st) == ObjectNext(s, st);
    }
  }

  // ---- Objects ----

  lemma IndexAfterKeys(s: State, tx: Txn)
    ensures IndexAfter(s, tx).Keys == s.index.Keys
  {
    if tx.job.CopyManifest? {
      IncrementAllCounts(s.index, tx.job.cs);
      DecrementAllDrops(IncrementAll(s.index, tx.job.cs), tx.listed);
    } else {
      DecrementAllDrops(s.index, tx.listed);
    }
  }

  /** While a transaction holds an object's rows nobody else changes them. */
  lemma HeldRowsStay(s: State, t: nat, o: nat)
    requires TxnsSound(s) && t in s.txns && o in s.txns && o != t && CommitReady(s, t, s.txns[t])
    requires s.txns[o].k == s.txns[t].k && HoldsRows(s.txns[o])
    ensures RowsAfter(s, s.txns[t]) == RowsAt(s.manifests, s.txns[t].k) && s.txns[t].progress != Deleted(true)
  {
    var tx, ot := s.txns[t], s.txns[o];
    assert RowsFree(s, o, ot.k) && TxnSound(s, ot);
    assert !HoldsRows(tx);
    assert Rest(s, tx) == RowsAt(s.manifests, tx.k) != [];
  }

  /** Whoever holds nothing only has a snapshot to lose: it is of an older era, or the rows it saw are still there. */
  lemma SnapshotStaysSound(s: State, t: nat, tx: Txn, ot: Txn)
    requires TxnSound(s, ot) && ot.k == tx.k && !HoldsRows(ot) && tx.progress.Deleted?
    ensures TxnSound(CommitTxn(s, t, tx), ot)
  {
    var s' := CommitTxn(s, t, tx);
    assert RowsAt(s'.manifests, ot.k) == RowsAfter(s, tx);
    assert tx.progress != Deleted(true) ==> |RowsAfter(s, tx)| >= |RowsAt(s.manifests, tx.k)|;
  }

  lemma OtherKeyStaysSound(s: State, t: nat, tx: Txn, ot: Txn)
    requires TxnSound(s, ot) && ot.k != tx.k
    ensures TxnSound(CommitTxn(s, t, tx), ot)
  {
    var s' := CommitTxn(s, t, tx);
    assert RowsAt(s'.manifests, ot.k) == RowsAt(s.manifests, ot.k) && Era(s', ot.k) == Era(s, ot.k);
  }

  lemma CommitKeepsOther(s: State, t: nat, o: nat)
    requires TxnsSound(s) && t in s.txns && o in s.txns && o != t && CommitReady(s, t, s.txns[t])
    ensures TxnSound(CommitTxn(s, t, s.txns[t]), s.txns[o])
  {
    assert TxnSound(s, s.txns[o]);
    if s.txns[o].k != s.txns[t].k {
      OtherKeyStaysSound(s, t, s.txns[t], s.txns[o]);
    } else if HoldsRows(s.txns[o]) {
      HeldRowsStay(s, t, o);
      var s' := CommitTxn(s, t, s.txns[t]);
      assert RowsAt(s'.manifests, s.txns[o].k) == RowsAt(s.manifests, s.txns[o].k);
      assert Era(s', s.txns[o].k) == Era(s, s.txns[o].k);
    } else {
      SnapshotStaysSound(s, t, s.txns[t], s.txns[o]);
    }
  }

  lemma CommitKeepsTxns(s: State, t: nat)
    requires TxnsSound(s) && t in s.txns && CommitReady(s, t, s.txns[t])
    ensures TxnsSound(CommitTxn(s, t, s.txns[t]))
  {
    var s' := CommitTxn(s, t, s.txns[t]);
    forall o | o in s'.txns
      ensures TxnSound(s', s'.txns[o]) && (HoldsRows(s'.txns[o]) ==> RowsFree(s', o, s'.txns[o].k))
    {
      CommitKeepsOther(s, t, o);
      assert HoldsRows(s.txns[o]) ==> RowsFree(s, o, s.txns[o].k);
    }
  }

  lemma CommitKeepsRows(s: State, t: nat)
    requires RowsIndexed(s) && t in s.txns && CommitReady(s, t, s.txns[t])
    ensures RowsIndexed(CommitTxn(s, t, s.txns[t]))
  {
    var tx, s' := s.txns[t], CommitTxn(s, t, s.txns[t]);
    IndexAfterKeys(s, tx);
    forall k | k in s'.manifests ensures ForeignKeys(s'.index, s'.manifests[k]) {
      if k == tx.k {
        forall c | c in RowsAfter(s, tx) ensures c in s.index {
          assert c in NewRows(tx.job) || c in RowsAt(s.manifests, k);
        }
      } else {
        assert ForeignKeys(s.index, s.manifests[k]);
      }
    }
  }

  lemma CommitKeepsInv(h: Blob -> string, s: State, t: nat)
    requires Inv(h, s) && t in s.txns && CommitReady(s, t, s.txns[t])
    ensures Inv(h, CommitTxn(s, t, s.txns[t]))
  {
    IndexAfterKeys(s, s.txns[t]);
    LocksFrame(h, s, CommitTxn(s, t, s.txns[t]));
    CommitKeepsTxns(s, t);
    CommitKeepsRows(s, t);
  }

  lemma CloseKeepsTxns(s: State, a: nat, tenant: string, counted: multiset<ChunkId>)
    requires TxnsSound(s) && TenantFree(s, tenant)
    ensures TxnsSound(Close(s, a, tenant, counted))
  {
    var s' := Close(s, a, tenant, counted);
    forall o | o in s'.txns
      ensures TxnSound(s', s'.txns[o]) && (HoldsRows(s'.txns[o]) ==> RowsFree(s', o, s'.txns[o].k))
    {
      assert TxnSound(s, s.txns[o]) && (HoldsRows(s.txns[o]) ==> RowsFree(s, o, s.txns[o].k));
      if s.txns[o].k in KeysOf(s, tenant) {
        assert Era(s', s.txns[o].k) == Era(s, s.txns[o].k) + 1;
      } else {
        assert RowsAt(s'.manifests, s.txns[o].k) == RowsAt(s.manifests, s.txns[o].k);
        assert Era(s', s.txns[o].k) == Era(s, s.txns[o].k);
      }
    }
  }

  lemma CloseKeepsInv(h: Blob -> string, s: State, a: nat, tenant: string, counted: multiset<ChunkId>)
    requires Inv(h, s) && TenantFree(s, tenant)
    ensures Inv(h, Close(s, a, tenant, counted))
  {
    CloseKeepsTxns(s, a, tenant, counted);
    LocksFrame(h, s, Close(s, a, tenant, counted));
  }

  /** Every step of every participant keeps the invariant. */
  lemma StepKeepsInv(h: Blob -> string, s: State, st: Step)
    requires Inv(h, s) && Enabled(h, s, st)
    ensures Inv(h, Next(h, s, st))
  {
    if ChunkStep(st) {
      ChunkStepKeepsInv(h, s, st);
    } else if TxnStep(st) {
      TxnStepKeepsInv(h, s, st);
    } else if st.Commit? {
      CommitKeepsInv(h, s, st.t);
    } else if st.CloseAccount? {
      CloseKeepsInv(h, s, st.a, s.closings[st.a].tenant, s.closings[st.a].counted);
    } else {
      LocksFrame(h, s, Next(h, s, st));
      SameRowsSameTxns(s, Next(h, s, st));
    }
  }

  // ---- Jobs ----

  /** The pieces of a pending install are the bytes of its chunks, and a size that was read is positive. */
  ghost predicate JobSound(h: Blob -> string, job: Job) {
    && (Installs(job) ==> Describes(h, job.cs, job.pieces))
    && (job.CopyManifest? && job.size.Some? ==> job.size.value > 0)
  }

  ghost predicate JobsDescribed(h: Blob -> string, s: State) {
    forall t :: t in s.txns ==> JobSound(h, s.txns[t].job)
  }

  /** A chunked object is never empty. */
  predicate Positive(sizes: map<ObjKey, nat>, heads: map<ObjKey, Head>) {
    && (forall k :: k in sizes ==> sizes[k] > 0)
    && (forall k :: k in heads && heads[k].ChunkedHead? ==> heads[k].size > 0)
  }

  ghost predicate JobsSound(h: Blob -> string, s: State) {
    JobsDescribed(h, s) && Positive(s.sizes, s.heads)
  }

  lemma InitJobs(h: Blob -> string)
    ensures JobsSound(h, Init())
  {
  }

  lemma MovedJob(h: Blob -> string, s: State, st: Step)
    requires JobsSound(h, s) && TxnStep(st) && TxnEnabled(h, s, st)
    requires !st.CopyCrash? && !st.Abort? && !st.CountAccount? && !st.CountRefs?
    ensures var s' := TxnNext(h, s, st);
      st.t in s'.txns && s'.txns == s.txns[st.t := s'.txns[st.t]] && JobSound(h, s'.txns[st.t].job)
  {
    if st.t in s.txns {
      assert JobSound(h, s.txns[st.t].job);
    }
    match st
    case Begin(_, _, _) =>
    case BeginCopy(_, _, _, _) =>
    case ReadSize(_, _) =>
    case LookHead(_) =>
    case SnapRows(_) =>
    case ListRows(_) =>
    case DeleteRows(_) =>
  }

  lemma TxnStepKeepsJobs(h: Blob -> string, s: State, st: Step)
    requires JobsSound(h, s) && TxnStep(st) && TxnEnabled(h, s, st)
    ensures JobsSound(h, TxnNext(h, s, st))
  {
    if st.CopyCrash? || st.Abort? {
      assert TxnNext(h, s, st).txns == s.txns - {st.t};
    } else if st.CountAccount? || st.CountRefs? {
      assert TxnNext(h, s, st).txns == s.txns;
    } else {
      MovedJob(h, s, st);
    }
  }

  lemma PiecesHaveBytes(pieces: seq<Blob>)
    requires pieces != [] && pieces[0] != ""
    ensures |Flatten(pieces)| > 0
  {
  }

  lemma CommitKeepsSizes(h: Blob -> string, s: State, tx: Txn)
    requires Positive(s.sizes, s.heads) && JobSound(h, tx.job) && JobReady(s, tx.job)
    ensures Positive(SizesAfter(s, tx), HeadsAfter(s, tx))
  {
    match tx.job
    case PutManifest(_, _, pieces) => PiecesHaveBytes(pieces);
    case CopyManifest(_, _, _, _) =>
    case PlainWrite(_, _) =>
    case ReleaseRows =>
  }

  lemma ObjectStepKeepsJobs(h: Blob -> string, s: State, st: Step)
    requires JobsSound(h, s) && ObjectEnabled(s, st)
    ensures JobsSound(h, ObjectNext(s, st))
  {
    match st
    case Commit(t) => CommitKeepsSizes(h, s, s.txns[t]);
    case Cleanup(_, _) =>
    case RejectedPlainPut(_, _) =>
    case DeletePlainBlob(_) =>
    case DeleteHead(_) =>
    case CloseAccount(_) =>
  }

  lemma SameJobs(h: Blob -> string, s: State, s': State)
    requires JobsSound(h, s) && s'.txns == s.txns && s'.sizes == s.sizes && s'.heads == s.heads
    ensures JobsSound(h, s')
  {
  }

  lemma StepKeepsJobs(h: Blob -> string, s: State, st: Step)
    requires JobsSound(h, s) && Enabled(h, s, st)
    ensures JobsSound(h, Next(h, s, st))
  {
    if TxnStep(st) {
      TxnStepKeepsJobs(h, s, st);
    } else if ChunkStep(st) || st.ResetRows? {
      SameJobs(h, s, Next(h, s, st));
    } else {
      ObjectStepKeepsJobs(h, s, st);
    }
  }
}
