/**
 The books of the chunk store: how far a chunk's count is from the references somebody owns, the exact change of
 that distance at every step, and the exact conditions under which a step keeps it.
 */
module StoreBooks {
  import opened Basics
  import opened MapSums
  import opened ContentIndex
  import opened DedupStore
  import opened StoreInvariants

  /** References owned by a manifest row or an unfinished upload. */
  ghost function Owned(s: State, c: ChunkId): nat {
    TotalRefs(s.manifests)[c] + Total(s.uploads)[c]
  }

  /** Positive: references nobody will release. Negative: references released twice. */
  ghost function Drift(s: State, c: ChunkId): int {
    Count(s.index, c) - Owned(s, c)
  }

  /** The references on `c` that an account's rows hold when they are deleted. */
  ghost function Closed(s: State, a: nat, c: ChunkId): nat
    requires a in s.closings
  {
    TotalRefs(Restrict(s.manifests, KeysOf(s, s.closings[a].tenant)))[c]
  }

  /** Reconcile gives `c` the count it took: the row is idle and had drifted when it was counted. */
  predicate Resets(s: State, r: nat, idle: set<ChunkId>, c: ChunkId) {
    r in s.counts && c in s.index && c in idle && c in s.counts[r].drifted
  }

  /** By how much a step moves the drift of `c`. */
  ghost function Gain(s: State, st: Step, c: ChunkId): int {
    match st
    case Commit(t) =>
      if t !in s.txns then 0 else
        multiset(Lost(s, s.txns[t]))[c] - if c in s.index then multiset(s.txns[t].listed)[c] else 0
    case CloseAccount(a) =>
      if a !in s.closings then 0 else
        Closed(s, a, c) - (Count(s.index, c) - Count(ReleaseSet(s.index, s.closings[a].counted), c))
    case Compensate(_, d) => if c == d && c !in s.index then 1 else 0
    case LoseCompensation(_, d) => if c == d then 1 else 0
    case ResetRows(r, idle) => if Resets(s, r, idle, c) then s.counts[r].actual[c] - Count(s.index, c) else 0
    case _ => 0
  }

  // ---- The exact law ----

  /** Changing one upload's holdings and the index. */
  lemma HoldingsDrift(s: State, u: nat, ix: Index, held: multiset<ChunkId>, c: ChunkId)
    ensures Drift(s.(index := ix, uploads := s.uploads[u := held]), c)
         == Drift(s, c) + Count(ix, c) - Count(s.index, c) + Held(s.uploads, u)[c] - held[c]
  {
    TotalPut(s.uploads, u, held);
  }

  lemma UploadStepDrift(h: Blob -> string, s: State, st: Step, c: ChunkId)
    requires ChunkEnabled(h, s, st)
    requires st.BeginUpload? || st.DedupHit? || st.Compensate? || st.LoseCompensation?
    ensures Drift(ChunkNext(h, s, st), c) == Drift(s, c) + Gain(s, st, c)
  {
    match st
    case BeginUpload(u) => HoldingsDrift(s, u, s.index, multiset{}, c);
    case DedupHit(u, d) =>
      if d in s.index {
        HoldingsDrift(s, u, Increment(s.index, d), s.uploads[u] + multiset{d}, c);
      }
    case Compensate(u, d) => HoldingsDrift(s, u, Decrement(s.index, d), s.uploads[u] - multiset{d}, c);
    case LoseCompensation(u, d) => HoldingsDrift(s, u, s.index, s.uploads[u] - multiset{d}, c);
  }

  lemma SameBooks(s: State, s': State, c: ChunkId)
    requires Count(s'.index, c) == Count(s.index, c) && s'.manifests == s.manifests && s'.uploads == s.uploads
    ensures Drift(s', c) == Drift(s, c)
  {
  }

  lemma CommitStoreDrift(h: Blob -> string, s: State, d: ChunkId, c: ChunkId)
    requires LocksSound(h, s) && ChunkEnabled(h, s, CommitStore(d))
    ensures Drift(ChunkNext(h, s, CommitStore(d)), c) == Drift(s, c)
  {
    assert HolderSound(h, s, d, s.locks[d]);
    var u := s.locks[d].upload;
    HoldingsDrift(s, u, Insert(s.index, d), s.uploads[u] + multiset{d}, c);
  }

  lemma EndUploadDrift(s: State, u: nat, c: ChunkId)
    requires u in s.uploads && s.uploads[u] == multiset{}
    ensures Drift(s.(uploads := s.uploads - {u}), c) == Drift(s, c)
  {
    TotalDrop(s.uploads, u);
  }

  lemma ChunkStepDrift(h: Blob -> string, s: State, st: Step, c: ChunkId)
    requires LocksSound(h, s) && ChunkStep(st) && ChunkEnabled(h, s, st)
    ensures Drift(ChunkNext(h, s, st), c) == Drift(s, c) + Gain(s, st, c)
  {
    if st.BeginUpload? || st.DedupHit? || st.Compensate? || st.LoseCompensation? {
      UploadStepDrift(h, s, st, c);
    } else if st.CommitStore? {
      CommitStoreDrift(h, s, st.c, c);
    } else if st.EndUpload? {
      EndUploadDrift(s, st.u, c);
    } else if st.SweepDeleteRow? {
      SweepRowDrift(h, s, st.c, c);
    } else {
      LockStepDrift(h, s, st, c);
    }
  }

  /** The row that goes counts nothing. */
  lemma SweepRowDrift(h: Blob -> string, s: State, d: ChunkId, c: ChunkId)
    requires ChunkEnabled(h, s, SweepDeleteRow(d))
    ensures Drift(ChunkNext(h, s, SweepDeleteRow(d)), c) == Drift(s, c)
  {
    if Sweepable(s.index, d) && !Referenced(s.manifests, d) {
      SameBooks(s, s.(index := s.index - {d}, locks := s.locks[d := Sweeper(true)]), c);
    } else {
      SameBooks(s, s.(locks := s.locks - {d}), c);
    }
  }

  lemma LockStepDrift(h: Blob -> string, s: State, st: Step, c: ChunkId)
    requires ChunkEnabled(h, s, st)
    requires st.LockChunk? || st.PutBlob? || st.AbandonStore? || st.SweepLock? || st.SweepDeleteBlob?
    ensures Drift(ChunkNext(h, s, st), c) == Drift(s, c)
  {
    match st
    case LockChunk(_, _, _) => SameBooks(s, ChunkNext(h, s, st), c);
    case PutBlob(_) => SameBooks(s, ChunkNext(h, s, st), c);
    case AbandonStore(_) => SameBooks(s, ChunkNext(h, s, st), c);
    case SweepLock(_) => SameBooks(s, ChunkNext(h, s, st), c);
    case SweepDeleteBlob(_, _) => SameBooks(s, ChunkNext(h, s, st), c);
  }

  lemma RowsAfterCount(s: State, tx: Txn, c: ChunkId)
    ensures multiset(RowsAfter(s, tx))[c] + multiset(Lost(s, tx))[c]
         == multiset(NewRows(tx.job))[c] + multiset(RowsAt(s.manifests, tx.k))[c]
  {
    var n := |NewRows(tx.job)|;
    assert multiset(RowsAfter(s, tx)) == multiset(NewRows(tx.job)) + multiset(Tail(Rest(s, tx), n));
    RowsSplit(RowsAt(s.manifests, tx.k), n, c);
  }

  lemma IndexAfterCount(s: State, tx: Txn, c: ChunkId)
    requires tx.job.CopyManifest? ==> ForeignKeys(s.index, tx.job.cs)
    ensures Count(IndexAfter(s, tx), c)
         == Count(s.index, c) + (if tx.job.CopyManifest? then multiset(tx.job.cs)[c] else 0)
            - (if c in s.index then multiset(tx.listed)[c] else 0)
  {
    if tx.job.CopyManifest? {
      IncrementAllCounts(s.index, tx.job.cs);
      DecrementAllDrops(IncrementAll(s.index, tx.job.cs), tx.listed);
      assert c !in s.index ==> c !in tx.job.cs;
    } else {
      DecrementAllDrops(s.index, tx.listed);
    }
  }

  lemma CommitDrift(s: State, t: nat, c: ChunkId)
    requires t in s.txns && CommitReady(s, t, s.txns[t])
    ensures Drift(CommitTxn(s, t, s.txns[t]), c) == Drift(s, c) + Gain(s, Commit(t), c)
  {
    var tx, s' := s.txns[t], CommitTxn(s, t, s.txns[t]);
    IndexAfterCount(s, tx, c);
    RefsAfterCount(s, tx, c);
    UploadsAfterCount(s, tx, c);
    Settle(s, s', tx, c);
  }

  lemma Settle(s: State, s': State, tx: Txn, c: ChunkId)
    requires s'.index == IndexAfter(s, tx) && s'.manifests == s.manifests[tx.k := RowsAfter(s, tx)]
    requires s'.uploads == if tx.job.PutManifest? then s.uploads - {tx.job.u} else s.uploads
    requires Count(IndexAfter(s, tx), c)
          == Count(s.index, c) + (if tx.job.CopyManifest? then multiset(tx.job.cs)[c] else 0)
             - (if c in s.index then multiset(tx.listed)[c] else 0)
    requires TotalRefs(s.manifests[tx.k := RowsAfter(s, tx)])[c] + multiset(Lost(s, tx))[c]
          == TotalRefs(s.manifests)[c] + multiset(NewRows(tx.job))[c]
    requires Total(s'.uploads)[c] + (if tx.job.PutManifest? then multiset(tx.job.cs)[c] else 0) == Total(s.uploads)[c]
    ensures Drift(s', c)
         == Drift(s, c) + multiset(Lost(s, tx))[c] - if c in s.index then multiset(tx.listed)[c] else 0
  {
  }

  lemma RefsAfterCount(s: State, tx: Txn, c: ChunkId)
    ensures TotalRefs(s.manifests[tx.k := RowsAfter(s, tx)])[c] + multiset(Lost(s, tx))[c]
         == TotalRefs(s.manifests)[c] + multiset(NewRows(tx.job))[c]
  {
    RowsAfterCount(s, tx, c);
    TotalRefsPut(s.manifests, tx.k, RowsAfter(s, tx));
  }

  lemma UploadsAfterCount(s: State, tx: Txn, c: ChunkId)
    requires JobReady(s, tx.job)
    ensures Total(if tx.job.PutManifest? then s.uploads - {tx.job.u} else s.uploads)[c]
            + (if tx.job.PutManifest? then multiset(tx.job.cs)[c] else 0)
         == Total(s.uploads)[c]
  {
    if tx.job.PutManifest? {
      TotalDrop(s.uploads, tx.job.u);
    }
  }

  /** Deleting a set of manifests takes away exactly the references they hold. */
  lemma {:induction false} SplitRefs(m: Manifests, ks: set<ObjKey>)
    requires ks <= m.Keys
    ensures forall c :: TotalRefs(m)[c] == TotalRefs(m - ks)[c] + TotalRefs(Restrict(m, ks))[c]
    decreases |ks|
  {
    if ks == {} {
      assert m - ks == m && Restrict(m, ks) == map[];
      assert RefsOf(map[]) == map[];
    } else {
      var k :| k in ks;
      TotalRefsDrop(m, k);
      SplitRefs(m - {k}, ks - {k});
      assert (m - {k}) - (ks - {k}) == m - ks;
      TotalRefsDrop(Restrict(m, ks), k);
      assert Restrict(m, ks) - {k} == Restrict(m - {k}, ks - {k});
    }
  }

  lemma CloseDrift(s: State, a: nat, c: ChunkId)
    requires a in s.closings
    ensures Drift(Close(s, a, s.closings[a].tenant, s.closings[a].counted), c) == Drift(s, c) + Gain(s, CloseAccount(a), c)
  {
    SplitRefs(s.manifests, KeysOf(s, s.closings[a].tenant));
  }

  lemma TxnStepDrift(h: Blob -> string, s: State, st: Step, c: ChunkId)
    requires TxnStep(st) && TxnEnabled(h, s, st)
    ensures Drift(TxnNext(h, s, st), c) == Drift(s, c) && Gain(s, st, c) == 0
  {
    SameBooks(s, TxnNext(h, s, st), c);
  }

  lemma ReconcileDrift(s: State, r: nat, idle: set<ChunkId>, c: ChunkId)
    requires r in s.counts
    ensures Drift(ReconcileNext(s, r, idle), c) == Drift(s, c) + Gain(s, ResetRows(r, idle), c)
    ensures Resets(s, r, idle, c) ==> Drift(ReconcileNext(s, r, idle), c) == s.counts[r].actual[c] - Owned(s, c)
  {
  }

  lemma ObjectStepDrift(s: State, st: Step, c: ChunkId)
    requires ObjectEnabled(s, st)
    ensures Drift(ObjectNext(s, st), c) == Drift(s, c) + Gain(s, st, c)
  {
    match st
    case Commit(t) => CommitDrift(s, t, c);
    case CloseAccount(a) => CloseDrift(s, a, c);
    case Cleanup(_, _) => SameBooks(s, ObjectNext(s, st), c);
    case RejectedPlainPut(_, _) => SameBooks(s, ObjectNext(s, st), c);
    case DeletePlainBlob(_) => SameBooks(s, ObjectNext(s, st), c);
    case DeleteHead(_) => SameBooks(s, ObjectNext(s, st), c);
  }

  /**
   The exact law of every step, in every reachable state: a commit moves the drift of a chunk by the rows it takes
   out of the table minus the rows it had listed, an account deletion by the rows it deletes minus what its counts
   release, a lost compensation by one, a reconcile by the count it took minus the count it finds; nothing else does.
   */
  lemma StepDrift(h: Blob -> string, s: State, st: Step, c: ChunkId)
    requires LocksSound(h, s) && Enabled(h, s, st)
    ensures Drift(Next(h, s, st), c) == Drift(s, c) + Gain(s, st, c)
  {
    if ChunkStep(st) {
      ChunkStepDrift(h, s, st, c);
    } else if TxnStep(st) {
      TxnStepDrift(h, s, st, c);
    } else if st.ResetRows? {
      ReconcileDrift(s, st.r, st.idle, c);
    } else {
      ObjectStepDrift(s, st, c);
    }
  }

  // ---- When a commit leaks ----

  /** A commit never releases more than it deletes. */
  lemma CommitOnlyLeaks(h: Blob -> string, s: State, t: nat, c: ChunkId)
    requires Inv(h, s) && t in s.txns && CommitReady(s, t, s.txns[t])
    ensures Gain(s, Commit(t), c) == multiset(Lost(s, s.txns[t]))[c] - multiset(s.txns[t].listed)[c] >= 0
  {
    var tx := s.txns[t];
    assert TxnSound(s, tx) && multiset(tx.listed)[c] <= multiset(RowsAt(s.manifests, tx.k))[c];
    if multiset(tx.listed)[c] > 0 {
      assert tx.listed != [];
      assert c in RowsAt(s.manifests, tx.k);
    }
  }

  /** It keeps the books if and only if it takes out of the table exactly the rows it had listed. */
  lemma CommitKeepsBooksIff(h: Blob -> string, s: State, t: nat)
    requires Inv(h, s) && t in s.txns && CommitReady(s, t, s.txns[t])
    ensures (forall c :: Gain(s, Commit(t), c) == 0) <==> multiset(Lost(s, s.txns[t])) == multiset(s.txns[t].listed)
  {
    forall c ensures Gain(s, Commit(t), c) == multiset(Lost(s, s.txns[t]))[c] - multiset(s.txns[t].listed)[c] {
      CommitOnlyLeaks(h, s, t, c);
    }
    if forall c :: Gain(s, Commit(t), c) == 0 {
      forall c ensures multiset(Lost(s, s.txns[t]))[c] == multiset(s.txns[t].listed)[c] {
        assert Gain(s, Commit(t), c) == 0;
      }
    }
  }

  // ---- When a count falls short ----

  /** Counts are never below zero, a row is marked exactly at zero, and nothing was released twice. */
  ghost predicate Solvent(s: State) {
    WellMarked(s.index) && forall c :: Drift(s, c) >= 0
  }

  /** An account deletion counted more of `c` than its rows still hold, and somebody else has the chunk. */
  ghost predicate FallsShort(s: State, st: Step, c: ChunkId) {
    && st.CloseAccount? && st.a in s.closings
    && s.closings[st.a].counted[c] > Closed(s, st.a, c) + Drift(s, c) && Owned(s, c) > Closed(s, st.a, c)
  }

  ghost predicate Overdraws(s: State, st: Step) {
    exists c :: FallsShort(s, st, c)
  }

  lemma RowsAreOwned(s: State, k: ObjKey, c: ChunkId)
    ensures multiset(RowsAt(s.manifests, k))[c] <= TotalRefs(s.manifests)[c]
  {
    TotalRefsPut(s.manifests, k, []);
  }

  lemma CommitKeepsMarks(h: Blob -> string, s: State, t: nat)
    requires TxnsSound(s) && Solvent(s) && t in s.txns && CommitReady(s, t, s.txns[t])
    ensures WellMarked(CommitTxn(s, t, s.txns[t]).index)
  {
    var tx := s.txns[t];
    assert TxnSound(s, tx);
    forall c | c in s.index ensures multiset(tx.listed)[c] <= s.index[c].count {
      RowsAreOwned(s, tx.k, c);
      assert Drift(s, c) >= 0;
    }
    SwapKeepsMarks(s.index, tx);
  }

  /** Taking a copy's references first leaves only more to release from. */
  lemma SwapKeepsMarks(ix: Index, tx: Txn)
    requires WellMarked(ix) && forall c :: c in ix ==> multiset(tx.listed)[c] <= ix[c].count
    ensures WellMarked(DecrementAll(if tx.job.CopyManifest? then IncrementAll(ix, tx.job.cs) else ix, tx.listed))
  {
    if tx.job.CopyManifest? {
      IncrementAllCounts(ix, tx.job.cs);
      var mid := IncrementAll(ix, tx.job.cs);
      forall c | c in mid ensures multiset(tx.listed)[c] <= mid[c].count {
        assert Count(mid, c) == Count(ix, c) + multiset(tx.job.cs)[c];
      }
      DecrementAllCounts(mid, tx.listed);
    } else {
      DecrementAllCounts(ix, tx.listed);
    }
  }

  lemma HeldIsCounted(s: State, u: nat, c: ChunkId)
    requires Solvent(s) && u in s.uploads && c in s.uploads[u]
    ensures c in s.index && s.index[c].count >= 1 && !s.index[c].marked
  {
    TotalPut(s.uploads, u, multiset{});
    assert Drift(s, c) >= 0;
  }

  lemma ChunkStepKeepsMarks(h: Blob -> string, s: State, st: Step)
    requires Solvent(s) && ChunkStep(st) && ChunkEnabled(h, s, st)
    ensures WellMarked(ChunkNext(h, s, st).index)
  {
    if st.Compensate? {
      HeldIsCounted(s, st.u, st.c);
    } else if st.SweepDeleteRow? {
      SweepRowKeepsMarks(h, s, st.c);
    }
  }

  lemma SweepRowKeepsMarks(h: Blob -> string, s: State, c: ChunkId)
    requires WellMarked(s.index) && ChunkEnabled(h, s, SweepDeleteRow(c))
    ensures WellMarked(ChunkNext(h, s, SweepDeleteRow(c)).index)
  {
    if Sweepable(s.index, c) && !Referenced(s.manifests, c) {
      assert WellMarked(s.index - {c});
    } else {
      assert ChunkNext(h, s, SweepDeleteRow(c)).index == s.index;
    }
  }

  /** Account deletion leaves a count short if and only if it overdraws it. */
  lemma CloseFallsShortIff(s: State, a: nat, c: ChunkId)
    requires Solvent(s) && a in s.closings
    ensures Drift(s, c) + Gain(s, CloseAccount(a), c) < 0
       <==> s.closings[a].counted[c] > Closed(s, a, c) + Drift(s, c) && Owned(s, c) > Closed(s, a, c)
  {
    SplitRefs(s.manifests, KeysOf(s, s.closings[a].tenant));
    assert Drift(s, c) >= 0;
  }

  /** What the grouped UPDATE takes off a row: what was counted, or all there is. */
  ghost function Taken(s: State, a: nat, c: ChunkId): int
    requires a in s.closings
  {
    if s.closings[a].counted[c] < Count(s.index, c) then s.closings[a].counted[c] else Count(s.index, c)
  }

  /** Account deletion keeps the books of a chunk if and only if it takes off as much as the rows it deletes hold. */
  lemma CloseKeepsBooksIff(s: State, a: nat, c: ChunkId)
    requires Solvent(s) && a in s.closings
    ensures Gain(s, CloseAccount(a), c) == Closed(s, a, c) - Taken(s, a, c)
    ensures Gain(s, CloseAccount(a), c) == 0 <==> Taken(s, a, c) == Closed(s, a, c)
  {
    assert c in s.index ==> s.index[c].count >= 0;
  }

  /** So it does when the tenant's rows are still the ones that were counted. */
  lemma CountedCloseKeepsBooks(s: State, a: nat, c: ChunkId)
    requires Solvent(s) && a in s.closings
    requires s.closings[a].counted == TotalRefs(Restrict(s.manifests, KeysOf(s, s.closings[a].tenant)))
    ensures Gain(s, CloseAccount(a), c) == 0
  {
    SplitRefs(s.manifests, KeysOf(s, s.closings[a].tenant));
    assert Drift(s, c) >= 0;
    CloseKeepsBooksIff(s, a, c);
  }

  lemma StepKeepsMarks(h: Blob -> string, s: State, st: Step)
    requires Inv(h, s) && Solvent(s) && Enabled(h, s, st)
    ensures WellMarked(Next(h, s, st).index)
  {
    if ChunkStep(st) {
      ChunkStepKeepsMarks(h, s, st);
    } else if st.ResetRows? {
      ResetKeepsMarks(s, st.r, st.idle);
    } else if !TxnStep(st) {
      ObjectStepKeepsMarks(h, s, st);
    }
  }

  lemma ResetKeepsMarks(s: State, r: nat, idle: set<ChunkId>)
    requires WellMarked(s.index) && r in s.counts
    ensures WellMarked(ReconcileNext(s, r, idle).index)
  {
  }

  lemma ObjectStepKeepsMarks(h: Blob -> string, s: State, st: Step)
    requires Inv(h, s) && Solvent(s) && ObjectEnabled(s, st)
    ensures WellMarked(ObjectNext(s, st).index)
  {
    match st
    case Commit(t) => CommitKeepsMarks(h, s, t);
    case Cleanup(_, _) =>
    case RejectedPlainPut(_, _) =>
    case DeletePlainBlob(_) =>
    case DeleteHead(_) =>
    case CloseAccount(_) =>
  }

  /** Solvency is lost by an overdrawing account deletion and by nothing else. */
  lemma StepKeepsSolventIff(h: Blob -> string, s: State, st: Step)
    requires Inv(h, s) && Solvent(s) && Enabled(h, s, st)
    ensures Solvent(Next(h, s, st)) <==> !Overdraws(s, st)
  {
    StepKeepsMarks(h, s, st);
    forall c ensures Drift(Next(h, s, st), c) == Drift(s, c) + Gain(s, st, c) && Drift(s, c) >= 0 {
      StepDrift(h, s, st, c);
    }
    forall c ensures Drift(s, c) + Gain(s, st, c) < 0 <==> FallsShort(s, st, c) {
      GainIsShortIff(h, s, st, c);
    }
  }

  lemma GainIsShortIff(h: Blob -> string, s: State, st: Step, c: ChunkId)
    requires Inv(h, s) && Solvent(s) && Enabled(h, s, st)
    ensures Drift(s, c) + Gain(s, st, c) < 0 <==> FallsShort(s, st, c)
  {
    assert Drift(s, c) >= 0;
    if st.CloseAccount? {
      CloseFallsShortIff(s, st.a, c);
    } else if st.Commit? {
      CommitOnlyLeaks(h, s, st.t, c);
    } else if st.ResetRows? {
      ReconcileDrift(s, st.r, st.idle, c);
    }
  }
}
