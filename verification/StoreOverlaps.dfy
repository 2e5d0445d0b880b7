/**
 Which overlaps make a row transaction leak: exactly those in which, by the time it deletes its object's rows, one of
 them was put there after the snapshot of its SELECT ... FOR UPDATE.
 */
module StoreOverlaps {
  import opened Basics
  import opened MapSums
  import opened ContentIndex
  import opened DedupStore
  import opened StoreInvariants
  import opened StoreBooks
  import opened StoreSafety

  /**
   Some row of `k` came after a snapshot of `n` rows of the given era: rows are put behind those that are there, and a
   new era begins when they are deleted.
   */
  predicate RowBorn(s: State, k: ObjKey, era: nat, n: nat) {
    if Era(s, k) == era then |RowsAt(s.manifests, k)| > n else RowsAt(s.manifests, k) != []
  }

  /** What the rows listed have to do with the snapshot: all of them are listed, or they are gone. */
  predicate ListedFrom(s: State, tx: Txn, era: nat, n: nat) {
    if tx.listed == [] then Era(s, tx.k) == era ==> n == 0
    else Era(s, tx.k) == era && tx.listed == Overwritten(RowsAt(s.manifests, tx.k), n)
  }

  /** The transaction has gone on from a snapshot of `n` rows of the given era. */
  predicate Tracks(s: State, tx: Txn, era: nat, n: nat) {
    && era <= Era(s, tx.k)
    && (Era(s, tx.k) == era ==> n <= |RowsAt(s.manifests, tx.k)|)
    && match tx.progress
       case Snapped(e, m) => e == era && m == n && tx.listed == []
       case Listed => ListedFrom(s, tx, era, n)
       case Deleted(gone) => ListedFrom(s, tx, era, n) && (!gone ==> tx.listed == [])
       case _ => false
  }

  // ---- A commit, given its snapshot ----

  /** The commit leaks: some chunk keeps a reference that nobody owns. */
  ghost predicate Leaks(s: State, t: nat) {
    exists c :: Gain(s, Commit(t), c) != 0
  }

  /** The rows the transaction took out of the table or wrote over, at its commit, include one born after the snapshot. */
  predicate TakesBornRow(s: State, tx: Txn, era: nat, n: nat) {
    RowBorn(s, tx.k, era, n) && (Installs(tx.job) || tx.progress == Deleted(true))
  }

  lemma PrefixWithAll(a: seq<ChunkId>, b: seq<ChunkId>)
    requires a <= b && multiset(a) == multiset(b)
    ensures a == b
  {
    assert |multiset(a)| == |a| && |multiset(b)| == |b|;
  }

  /** A commit that found rows to delete removes them all; it has listed those of its snapshot. */
  lemma DeletingLeaksIff(s: State, tx: Txn, era: nat, n: nat)
    requires TxnSound(s, tx) && Tracks(s, tx, era, n) && tx.progress == Deleted(true)
    ensures multiset(Lost(s, tx)) == multiset(tx.listed) <==> !RowBorn(s, tx.k, era, n)
  {
    var rows := RowsAt(s.manifests, tx.k);
    assert HoldsRows(tx) && rows != [];
    if multiset(rows) == multiset(tx.listed) {
      assert rows[0] in multiset(rows);
      PrefixWithAll(tx.listed, rows);
    }
  }

  /** A commit that found none overwrites what has come since. */
  lemma OverwritingLeaksIff(s: State, tx: Txn, era: nat, n: nat)
    requires Tracks(s, tx, era, n) && tx.progress == Deleted(false) && (Installs(tx.job) ==> tx.job.cs != [])
    ensures multiset(Lost(s, tx)) == multiset(tx.listed) <==> !(Installs(tx.job) && RowBorn(s, tx.k, era, n))
  {
    var rows := RowsAt(s.manifests, tx.k);
    if Installs(tx.job) && rows != [] {
      assert rows[0] in multiset(Lost(s, tx));
    }
  }

  lemma CommitLeaksIff(h: Blob -> string, s: State, t: nat, era: nat, n: nat)
    requires Inv(h, s) && JobsSound(h, s) && t in s.txns && CommitReady(s, t, s.txns[t]) && Tracks(s, s.txns[t], era, n)
    ensures Leaks(s, t) <==> TakesBornRow(s, s.txns[t], era, n)
  {
    var tx := s.txns[t];
    assert TxnSound(s, tx) && JobSound(h, tx.job);
    CommitKeepsBooksIff(h, s, t);
    if tx.progress.gone {
      DeletingLeaksIff(s, tx, era, n);
    } else {
      OverwritingLeaksIff(s, tx, era, n);
    }
  }

  // ---- From the snapshot to the commit ----

  /** Within an era rows are only replaced or added. */
  lemma RowsGrow(h: Blob -> string, s: State, st: Step, k: ObjKey)
    requires Enabled(h, s, st)
    ensures var s' := Next(h, s, st);
      && Era(s, k) <= Era(s', k)
      && (Era(s', k) == Era(s, k) ==> |RowsAt(s.manifests, k)| <= |RowsAt(s'.manifests, k)|)
  {
    if st.Commit? {
      CommitGrowsRows(s, st.t, k);
    } else if st.CloseAccount? {
      CloseGrowsRows(s, st.a, k);
    } else {
      OthersKeepRows(h, s, st);
    }
  }

  lemma CommitGrowsRows(s: State, t: nat, k: ObjKey)
    requires t in s.txns
    ensures var s' := CommitTxn(s, t, s.txns[t]);
      && Era(s, k) <= Era(s', k)
      && (Era(s', k) == Era(s, k) ==> |RowsAt(s.manifests, k)| <= |RowsAt(s'.manifests, k)|)
  {
    if k == s.txns[t].k {
      CommittedRows(s, t, s.txns[t]);
    } else {
      OtherRows(s, t, s.txns[t], k);
    }
  }

  lemma CloseGrowsRows(s: State, a: nat, k: ObjKey)
    requires a in s.closings
    ensures var s' := Close(s, a, s.closings[a].tenant, s.closings[a].counted);
      && Era(s, k) <= Era(s', k)
      && (Era(s', k) == Era(s, k) ==> |RowsAt(s.manifests, k)| <= |RowsAt(s'.manifests, k)|)
  {
  }

  lemma OthersKeepRows(h: Blob -> string, s: State, st: Step)
    requires Enabled(h, s, st) && !st.Commit? && !st.CloseAccount?
    ensures Next(h, s, st).manifests == s.manifests && Next(h, s, st).eras == s.eras
  {
    if ChunkStep(st) {
      assert Next(h, s, st) == ChunkNext(h, s, st);
    } else if TxnStep(st) {
      assert Next(h, s, st) == TxnNext(h, s, st);
    }
  }

  /** While a transaction holds an object's rows nobody else changes them. */
  lemma HeldRowsAreKept(h: Blob -> string, s: State, st: Step, t: nat)
    requires TxnsSound(s) && Enabled(h, s, st) && t in s.txns && HoldsRows(s.txns[t])
    requires t in Next(h, s, st).txns
    ensures var s', k := Next(h, s, st), s.txns[t].k;
      RowsAt(s'.manifests, k) == RowsAt(s.manifests, k) && Era(s', k) == Era(s, k)
  {
    if st.Commit? {
      CommitKeepsHeldRows(s, st.t, t);
    } else if st.CloseAccount? {
      CloseKeepsHeldRows(s, st.a, t);
    } else {
      OthersKeepRows(h, s, st);
    }
  }

  lemma CommitKeepsHeldRows(s: State, o: nat, t: nat)
    requires TxnsSound(s) && o in s.txns && t in s.txns && o != t && CommitReady(s, o, s.txns[o]) && HoldsRows(s.txns[t])
    ensures var s', k := CommitTxn(s, o, s.txns[o]), s.txns[t].k;
      RowsAt(s'.manifests, k) == RowsAt(s.manifests, k) && Era(s', k) == Era(s, k)
  {
    if s.txns[o].k == s.txns[t].k {
      HeldRowsStay(s, o, t);
      CommittedRows(s, o, s.txns[o]);
    } else {
      OtherRows(s, o, s.txns[o], s.txns[t].k);
    }
  }

  lemma CommittedRows(s: State, o: nat, tx: Txn)
    ensures RowsAt(CommitTxn(s, o, tx).manifests, tx.k) == RowsAfter(s, tx)
    ensures Era(CommitTxn(s, o, tx), tx.k) == Era(s, tx.k) + if tx.progress == Deleted(true) then 1 else 0
  {
  }

  lemma OtherRows(s: State, o: nat, tx: Txn, k: ObjKey)
    requires k != tx.k
    ensures RowsAt(CommitTxn(s, o, tx).manifests, k) == RowsAt(s.manifests, k) && Era(CommitTxn(s, o, tx), k) == Era(s, k)
  {
  }

  lemma CloseKeepsHeldRows(s: State, a: nat, t: nat)
    requires ObjectEnabled(s, CloseAccount(a)) && t in s.txns && HoldsRows(s.txns[t])
    ensures var s', k := ObjectNext(s, CloseAccount(a)), s.txns[t].k;
      RowsAt(s'.manifests, k) == RowsAt(s.manifests, k) && Era(s', k) == Era(s, k)
  {
    assert s.txns[t].k.tenant != s.closings[a].tenant;
  }

  lemma OthersKeepTracks(h: Blob -> string, s: State, st: Step, t: nat, era: nat, n: nat)
    requires TxnsSound(s) && Enabled(h, s, st) && !MovesTxn(st, t) && t in s.txns && t in Next(h, s, st).txns
    requires Tracks(s, s.txns[t], era, n)
    ensures Tracks(Next(h, s, st), Next(h, s, st).txns[t], era, n) && Next(h, s, st).txns[t].k == s.txns[t].k
  {
    OthersLeaveTxn(h, s, st, t);
    RowsGrow(h, s, st, s.txns[t].k);
    if s.txns[t].listed != [] {
      HeldRowsAreKept(h, s, st, t);
    }
  }

  lemma OwnStepKeepsTracks(h: Blob -> string, s: State, st: Step, t: nat, era: nat, n: nat)
    requires TxnsSound(s) && TxnStep(st) && TxnEnabled(h, s, st) && MovesTxn(st, t) && t in s.txns
    requires Tracks(s, s.txns[t], era, n)
    ensures var s' := TxnNext(h, s, st);
      t in s'.txns && Tracks(s', s'.txns[t], era, n) && s'.txns[t].k == s.txns[t].k
  {
    assert TxnSound(s, s.txns[t]);
    OwnStepKeepsKey(h, s, st, t);
    match st
    case ListRows(_) => ListingTracks(s, s.txns[t], era, n);
    case DeleteRows(_) =>
  }

  lemma ListingTracks(s: State, tx: Txn, era: nat, n: nat)
    requires Tracks(s, tx, era, n) && tx.progress.Snapped?
    ensures Tracks(s, tx.(progress := Listed, listed := Survivors(s, tx)), era, n)
  {
  }

  lemma StepKeepsTracks(h: Blob -> string, s: State, st: Step, t: nat, era: nat, n: nat)
    requires TxnsSound(s) && Enabled(h, s, st) && t in s.txns && Tracks(s, s.txns[t], era, n)
    ensures var s' := Next(h, s, st);
      t in s'.txns ==> Tracks(s', s'.txns[t], era, n) && s'.txns[t].k == s.txns[t].k
  {
    if MovesTxn(st, t) {
      OwnStepKeepsTracks(h, s, st, t, era, n);
    } else if t in Next(h, s, st).txns {
      OthersKeepTracks(h, s, st, t, era, n);
    }
  }

  lemma OwnStepKeepsKey(h: Blob -> string, s: State, st: Step, t: nat)
    requires t in s.txns && TxnStep(st) && TxnEnabled(h, s, st) && MovesTxn(st, t)
    ensures t in TxnNext(h, s, st).txns && TxnNext(h, s, st).txns[t].k == s.txns[t].k
  {
    match st
    case ReadSize(_, _) =>
    case LookHead(_) =>
    case SnapRows(_) =>
    case ListRows(_) =>
    case DeleteRows(_) =>
  }

  lemma {:induction false} RunKeepsTracks(h: Blob -> string, s: State, run: seq<Step>, t: nat, era: nat, n: nat)
    requires Inv(h, s) && JobsSound(h, s) && ValidRun(h, s, run) && StaysOpen(h, s, run, t) && Tracks(s, s.txns[t], era, n)
    ensures var e := Final(h, s, run);
      Inv(h, e) && JobsSound(h, e) && t in e.txns && e.txns[t].k == s.txns[t].k && Tracks(e, e.txns[t], era, n)
    decreases |run|
  {
    if run != [] {
      StepKeepsInv(h, s, run[0]);
      StepKeepsJobs(h, s, run[0]);
      StepKeepsTracks(h, s, run[0], t, era, n);
      RunKeepsTracks(h, Next(h, s, run[0]), run[1..], t, era, n);
    }
  }

  lemma SnapshotTracks(h: Blob -> string, s: State, t: nat)
    requires TxnsSound(s) && Enabled(h, s, SnapRows(t))
    ensures var s1, k := Next(h, s, SnapRows(t)), s.txns[t].k;
      t in s1.txns && s1.txns[t].k == k && Tracks(s1, s1.txns[t], Era(s, k), |RowsAt(s.manifests, k)|)
  {
    assert TxnSound(s, s.txns[t]);
  }

  lemma TrackedRunLeaksIff(h: Blob -> string, s: State, run: seq<Step>, t: nat, era: nat, n: nat)
    requires Inv(h, s) && JobsSound(h, s) && ValidRun(h, s, run) && StaysOpen(h, s, run, t) && Tracks(s, s.txns[t], era, n)
    ensures var e := Final(h, s, run);
      t in e.txns && (CommitReady(e, t, e.txns[t]) ==> (Leaks(e, t) <==> TakesBornRow(e, e.txns[t], era, n)))
  {
    RunKeepsTracks(h, s, run, t, era, n);
    var e := Final(h, s, run);
    if CommitReady(e, t, e.txns[t]) {
      CommitLeaksIff(h, e, t, era, n);
    }
  }

  /**
   Whatever happens between a transaction's SELECT ... FOR UPDATE and its commit: the commit leaks if and only if
   there is by then a row of its object that came after the SELECT's snapshot, and the transaction deletes it or
   writes over it. Rows that others replaced or deleted in between do not matter.
   */
  lemma LeaksIffRowBorn(h: Blob -> string, s: State, t: nat, run: seq<Step>)
    requires Inv(h, s) && JobsSound(h, s) && Enabled(h, s, SnapRows(t))
    requires var s1 := Next(h, s, SnapRows(t)); ValidRun(h, s1, run) && StaysOpen(h, s1, run, t)
    ensures var e, k := Final(h, Next(h, s, SnapRows(t)), run), s.txns[t].k;
      && t in e.txns
      && (CommitReady(e, t, e.txns[t]) ==>
          (Leaks(e, t) <==> TakesBornRow(e, e.txns[t], Era(s, k), |RowsAt(s.manifests, k)|)))
  {
    var k := s.txns[t].k;
    StepKeepsInv(h, s, SnapRows(t));
    StepKeepsJobs(h, s, SnapRows(t));
    SnapshotTracks(h, s, t);
    TrackedRunLeaksIff(h, Next(h, s, SnapRows(t)), run, t, Era(s, k), |RowsAt(s.manifests, k)|);
  }

  /** In particular it leaks nothing when the rows it commits over are those its SELECT saw. */
  lemma LeakNeedsOverlap(h: Blob -> string, s: State, t: nat, run: seq<Step>, c: ChunkId)
    requires Inv(h, s) && JobsSound(h, s) && Enabled(h, s, SnapRows(t))
    requires var s1 := Next(h, s, SnapRows(t)); ValidRun(h, s1, run) && StaysOpen(h, s1, run, t)
    requires var e, k := Final(h, Next(h, s, SnapRows(t)), run), s.txns[t].k;
      && t in e.txns && CommitReady(e, t, e.txns[t])
      && RowsAt(e.manifests, k) == RowsAt(s.manifests, k) && Era(e, k) == Era(s, k)
    ensures Gain(Final(h, Next(h, s, SnapRows(t)), run), Commit(t), c) == 0
  {
    LeaksIffRowBorn(h, s, t, run);
    SameKeyAfter(h, s, t, run);
  }

  lemma SameKeyAfter(h: Blob -> string, s: State, t: nat, run: seq<Step>)
    requires Inv(h, s) && JobsSound(h, s) && Enabled(h, s, SnapRows(t))
    requires var s1 := Next(h, s, SnapRows(t)); ValidRun(h, s1, run) && StaysOpen(h, s1, run, t)
    ensures var e := Final(h, Next(h, s, SnapRows(t)), run); t in e.txns && e.txns[t].k == s.txns[t].k
  {
    StepKeepsInv(h, s, SnapRows(t));
    StepKeepsJobs(h, s, SnapRows(t));
    SnapshotTracks(h, s, t);
    RunKeepsTracks(h, Next(h, s, SnapRows(t)), run, t, Era(s, s.txns[t].k), |RowsAt(s.manifests, s.txns[t].k)|);
  }

  /** A plain write of an object that was not chunked deletes no rows, and leaks none. */
  lemma UnlistedCommitKeepsBooks(s: State, t: nat, c: ChunkId)
    requires t in s.txns && s.txns[t].progress == Deleted(false) && s.txns[t].listed == [] && !Installs(s.txns[t].job)
    ensures Gain(s, Commit(t), c) == 0
  {
  }
}
