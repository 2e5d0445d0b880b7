/** Runs from the empty store after which a count is not what is owned. */
module LeakRuns {
  import opened Basics
  import opened MapSums
  import opened ContentIndex
  import opened DedupStore
  import opened StoreBooks
  import opened StoreSafety
  import opened Refinement
  import opened RequestRuns

  lemma NoRefs()
    ensures TotalRefs(map[]) == multiset{}
  {
    assert RefsOf(map[]) == map[];
  }

  lemma OneRow(k: ObjKey, c: ChunkId)
    ensures TotalRefs(map[k := [c]])[c] == 1
  {
    NoRefs();
    TotalRefsPut(map[], k, [c]);
    assert map[][k := [c]] == map[k := [c]];
  }

  // ---- Two first writes of one key ----

  function Uploaded(c: ChunkId, data: Blob): State {
    Init().(index := map[c := Row(2, false)], blobs := map[c := data], uploads := map[0 := multiset{c}, 1 := multiset{c}])
  }

  function TwoUploadsRun(c: ChunkId, data: Blob): seq<Step> {
    StoreRun(0, c, data) + HitRun(1, c)
  }

  lemma TwoUploads(h: Blob -> string, c: ChunkId, data: Blob)
    requires h(data) == c.hash && data != ""
    ensures ValidRun(h, Init(), TwoUploadsRun(c, data))
    ensures Final(h, Init(), TwoUploadsRun(c, data)) == Uploaded(c, data)
  {
    var s1 := Stored(Init(), 0, c, data);
    StoreRuns(h, Init(), 0, c, data);
    HitRuns(h, s1, 1, c);
    Chain(h, Init(), StoreRun(0, c, data), s1, HitRun(1, c));
    assert Hit(s1, 1, c) == Uploaded(c, data);
  }

  function Install(u: nat, c: ChunkId, data: Blob): Job {
    PutManifest(u, [c], [data])
  }

  /** Both requests look for the head row before either commits, and find none. */
  function RacingFirstWrites(k: ObjKey, c: ChunkId, data: Blob): seq<Step> {
    TwoUploadsRun(c, data) + BothOpenRun(k, c, data) + ([Commit(0)] + [Commit(1)])
  }

  function BothOpenRun(k: ObjKey, c: ChunkId, data: Blob): seq<Step> {
    OpenRun(0, k, Install(0, c, data)) + OpenRun(1, k, Install(1, c, data))
  }

  function BothOpen(k: ObjKey, c: ChunkId, data: Blob): State {
    Uploaded(c, data).(txns := map[0 := Txn(k, Install(0, c, data), false, Deleted(false), []),
                                   1 := Txn(k, Install(1, c, data), false, Deleted(false), [])])
  }

  lemma BothOpenRuns(h: Blob -> string, k: ObjKey, c: ChunkId, data: Blob)
    requires h(data) == c.hash && data != ""
    ensures ValidRun(h, Uploaded(c, data), BothOpenRun(k, c, data))
    ensures Final(h, Uploaded(c, data), BothOpenRun(k, c, data)) == BothOpen(k, c, data)
  {
    var s2 := Uploaded(c, data);
    var s3 := Open(s2, 0, k, Install(0, c, data));
    OnePiece(h, c, data);
    OpenRuns(h, s2, 0, k, Install(0, c, data));
    OpenRuns(h, s3, 1, k, Install(1, c, data));
    Chain(h, s2, OpenRun(0, k, Install(0, c, data)), s3, OpenRun(1, k, Install(1, c, data)));
    assert Open(s3, 1, k, Install(1, c, data)) == BothOpen(k, c, data);
  }

  function BothIn(k: ObjKey, c: ChunkId, data: Blob): State {
    Init().(index := map[c := Row(2, false)], blobs := map[c := data], manifests := map[k := [c]],
            heads := map[k := ChunkedHead(|data|)], sizes := map[k := |data|], cleanups := map[0 := k, 1 := k])
  }

  function OneIn(k: ObjKey, c: ChunkId, data: Blob): State {
    BothIn(k, c, data).(txns := map[1 := Txn(k, Install(1, c, data), false, Deleted(false), [])],
                        uploads := map[1 := multiset{c}], cleanups := map[0 := k])
  }

  lemma FirstCommit(h: Blob -> string, k: ObjKey, c: ChunkId, data: Blob)
    requires Flatten([data]) == data && multiset([c]) == multiset{c}
    ensures Enabled(h, BothOpen(k, c, data), Commit(0)) && Next(h, BothOpen(k, c, data), Commit(0)) == OneIn(k, c, data)
  {
    var s := BothOpen(k, c, data);
    assert s.txns - {0} == map[1 := s.txns[1]];
    assert s.uploads - {0} == map[1 := multiset{c}];
    assert RowsAfter(s, s.txns[0]) == [c];
  }

  lemma SecondCommit(h: Blob -> string, k: ObjKey, c: ChunkId, data: Blob)
    requires Flatten([data]) == data && multiset([c]) == multiset{c}
    ensures Enabled(h, OneIn(k, c, data), Commit(1)) && Next(h, OneIn(k, c, data), Commit(1)) == BothIn(k, c, data)
  {
    var s := OneIn(k, c, data);
    SecondCommitReady(k, c, data);
    SecondCommitTxn(k, c, data);
    CommitStep(h, s, 1);
  }

  lemma SecondCommitTxn(k: ObjKey, c: ChunkId, data: Blob)
    requires Flatten([data]) == data && RowsAfter(OneIn(k, c, data), OneIn(k, c, data).txns[1]) == [c]
    ensures CommitTxn(OneIn(k, c, data), 1, OneIn(k, c, data).txns[1]) == BothIn(k, c, data)
  {
    var s := OneIn(k, c, data);
    assert s.txns - {1} == map[] && s.uploads - {1} == map[];
  }

  lemma SecondCommitReady(k: ObjKey, c: ChunkId, data: Blob)
    requires multiset([c]) == multiset{c}
    ensures CommitReady(OneIn(k, c, data), 1, OneIn(k, c, data).txns[1])
    ensures RowsAfter(OneIn(k, c, data), OneIn(k, c, data).txns[1]) == [c]
  {
  }

  lemma CommitsRun(h: Blob -> string, k: ObjKey, c: ChunkId, data: Blob)
    requires h(data) == c.hash && data != ""
    ensures ValidRun(h, BothOpen(k, c, data), [Commit(0)] + [Commit(1)])
    ensures Final(h, BothOpen(k, c, data), [Commit(0)] + [Commit(1)]) == BothIn(k, c, data)
  {
    OnePiece(h, c, data);
    FirstCommit(h, k, c, data);
    SecondCommit(h, k, c, data);
    TwoSteps(h, BothOpen(k, c, data), Commit(0), OneIn(k, c, data), Commit(1));
  }

  lemma RacingFirstWritesRun(h: Blob -> string, k: ObjKey, c: ChunkId, data: Blob)
    requires h(data) == c.hash && data != ""
    ensures ValidRun(h, Init(), RacingFirstWrites(k, c, data))
    ensures Final(h, Init(), RacingFirstWrites(k, c, data)) == BothIn(k, c, data)
  {
    TwoUploads(h, c, data);
    BothOpenRuns(h, k, c, data);
    CommitsRun(h, k, c, data);
    Chain(h, Init(), TwoUploadsRun(c, data), Uploaded(c, data), BothOpenRun(k, c, data));
    Chain(h, Init(), TwoUploadsRun(c, data) + BothOpenRun(k, c, data), BothOpen(k, c, data), [Commit(0)] + [Commit(1)]);
  }

  /** Two first writes of one key: one manifest is written over the other, whose reference nobody will release. */
  lemma RacingFirstWritesLeak(h: Blob -> string, k: ObjKey, c: ChunkId, data: Blob)
    requires h(data) == c.hash && data != ""
    ensures ValidRun(h, Init(), RacingFirstWrites(k, c, data))
    ensures var s := Final(h, Init(), RacingFirstWrites(k, c, data));
      && RowsAt(s.manifests, k) == [c] && s.uploads == map[] && s.txns == map[]
      && Count(s.index, c) == 2 && Owned(s, c) == 1
  {
    RacingFirstWritesRun(h, k, c, data);
    BothInLeaks(k, c, data);
  }

  lemma BothInLeaks(k: ObjKey, c: ChunkId, data: Blob)
    ensures Owned(BothIn(k, c, data), c) == 1
  {
    OneRow(k, c);
  }

  // ---- A DELETE overtaken by an overwrite ----

  /**
   The overwrite has listed and deleted the object's rows; DELETE's SELECT has taken its snapshot and waits for
   them. The overwrite commits: the SELECT comes back empty, and DELETE's second statement removes the new row.
   */
  function OvertakenDelete(k: ObjKey, c: ChunkId, data: Blob): seq<Step> {
    FirstPut(k, c, data) + HitRun(1, c) + OpenRun(1, k, Install(1, c, data))
    + ([Begin(2, k, ReleaseRows)] + [SnapRows(2)]) + [Commit(1)] + ([ListRows(2)] + [DeleteRows(2)])
    + ([Commit(2)] + [DeleteHead(k)])
  }

  /** The object as the first PUT left it, a second upload of its chunk, and the transactions on its rows. */
  function Overwriting(k: ObjKey, c: ChunkId, data: Blob, txns: map<nat, Txn>): State {
    AfterFirstPut(k, c, data).(index := map[c := Row(2, false)], uploads := map[1 := multiset{c}], txns := txns)
  }

  function Overwrite(k: ObjKey, c: ChunkId, data: Blob): Txn {
    Txn(k, Install(1, c, data), true, Deleted(true), [c])
  }

  lemma OverwriteOpens(h: Blob -> string, k: ObjKey, c: ChunkId, data: Blob)
    requires h(data) == c.hash && data != ""
    ensures var run := FirstPut(k, c, data) + HitRun(1, c) + OpenRun(1, k, Install(1, c, data));
      ValidRun(h, Init(), run) && Final(h, Init(), run) == Overwriting(k, c, data, map[1 := Overwrite(k, c, data)])
  {
    var s, s1 := AfterFirstPut(k, c, data), Overwriting(k, c, data, map[]);
    FirstPutRuns(h, k, c, data);
    HitRuns(h, s, 1, c);
    assert Hit(s, 1, c) == s1;
    Chain(h, Init(), FirstPut(k, c, data), s, HitRun(1, c));
    OnePiece(h, c, data);
    OpenRuns(h, s1, 1, k, Install(1, c, data));
    Chain(h, Init(), FirstPut(k, c, data) + HitRun(1, c), s1, OpenRun(1, k, Install(1, c, data)));
  }

  function Waiting(k: ObjKey): Txn {
    Txn(k, ReleaseRows, false, Snapped(0, 1), [])
  }

  lemma DeleteWaits(h: Blob -> string, k: ObjKey, c: ChunkId, data: Blob)
    ensures var s := Overwriting(k, c, data, map[1 := Overwrite(k, c, data)]);
      && ValidRun(h, s, [Begin(2, k, ReleaseRows)] + [SnapRows(2)])
      && Final(h, s, [Begin(2, k, ReleaseRows)] + [SnapRows(2)])
         == Overwriting(k, c, data, map[1 := Overwrite(k, c, data), 2 := Waiting(k)])
  {
    var s := Overwriting(k, c, data, map[1 := Overwrite(k, c, data)]);
    var tx := Txn(k, ReleaseRows, false, Looked, []);
    var mid := Overwriting(k, c, data, map[1 := Overwrite(k, c, data), 2 := tx]);
    BeginStep(h, s, 2, k, ReleaseRows);
    SnapStep(h, mid, 2, tx);
    assert mid.txns[2 := Waiting(k)] == map[1 := Overwrite(k, c, data), 2 := Waiting(k)];
    TwoSteps(h, s, Begin(2, k, ReleaseRows), mid, SnapRows(2));
  }

  /** The overwrite has committed: one reference, one row, and the DELETE is still open. */
  function Overtaken(k: ObjKey, c: ChunkId, data: Blob, txns: map<nat, Txn>): State {
    AfterFirstPut(k, c, data).(txns := txns, eras := map[k := 1], cleanups := map[0 := k, 1 := k])
  }

  lemma OverwriteCommits(h: Blob -> string, k: ObjKey, c: ChunkId, data: Blob)
    requires h(data) == c.hash && data != ""
    ensures var s := Overwriting(k, c, data, map[1 := Overwrite(k, c, data), 2 := Waiting(k)]);
      Enabled(h, s, Commit(1)) && Next(h, s, Commit(1)) == Overtaken(k, c, data, map[2 := Waiting(k)])
  {
    var s := Overwriting(k, c, data, map[1 := Overwrite(k, c, data), 2 := Waiting(k)]);
    OnePiece(h, c, data);
    OneLess(c);
    OverwrittenOnce(s, k, c, data);
    OverwriteNext(s, k, c, data);
    CommitStep(h, s, 1);
  }

  lemma OverwriteNext(s: State, k: ObjKey, c: ChunkId, data: Blob)
    requires s == Overwriting(k, c, data, map[1 := Overwrite(k, c, data), 2 := Waiting(k)])
    requires RowsAfter(s, s.txns[1]) == [c] && DecrementAll(map[c := Row(2, false)], [c]) == map[c := Row(1, false)]
    requires s.txns - {1} == map[2 := Waiting(k)] && s.uploads - {1} == map[] && Flatten([data]) == data
    ensures CommitTxn(s, 1, s.txns[1]) == Overtaken(k, c, data, map[2 := Waiting(k)])
  {
  }

  lemma OverwrittenOnce(s: State, k: ObjKey, c: ChunkId, data: Blob)
    requires s.txns == map[1 := Overwrite(k, c, data), 2 := Waiting(k)] && s.uploads == map[1 := multiset{c}]
    requires multiset([c]) == multiset{c} && s.locks == map[] && c in s.index
    ensures RowsAfter(s, s.txns[1]) == [c] && CommitReady(s, 1, s.txns[1])
    ensures s.txns - {1} == map[2 := Waiting(k)] && s.uploads - {1} == map[]
  {
  }

  lemma OneLess(c: ChunkId)
    ensures DecrementAll(map[c := Row(2, false)], [c]) == map[c := Row(1, false)]
  {
    assert [c][1..] == [];
  }

  lemma DeleteListsNothing(h: Blob -> string, k: ObjKey, c: ChunkId, data: Blob)
    ensures var s := Overtaken(k, c, data, map[2 := Waiting(k)]);
      && ValidRun(h, s, [ListRows(2)] + [DeleteRows(2)])
      && Final(h, s, [ListRows(2)] + [DeleteRows(2)])
         == Overtaken(k, c, data, map[2 := Txn(k, ReleaseRows, false, Deleted(true), [])])
  {
    var s := Overtaken(k, c, data, map[2 := Waiting(k)]);
    var mid := Overtaken(k, c, data, map[2 := Txn(k, ReleaseRows, false, Listed, [])]);
    ListStep(h, s, 2, Waiting(k), []);
    DeleteStep(h, mid, 2, mid.txns[2]);
    TwoSteps(h, s, ListRows(2), mid, DeleteRows(2));
  }

  /** The object is gone, and a count is left that nobody owns. */
  function Leaked(k: ObjKey, c: ChunkId, data: Blob): State {
    Init().(index := map[c := Row(1, false)], blobs := map[c := data], manifests := map[k := []], eras := map[k := 2],
            cleanups := map[0 := k, 1 := k])
  }

  lemma DeleteCommits(h: Blob -> string, k: ObjKey, c: ChunkId, data: Blob)
    ensures var s := Overtaken(k, c, data, map[2 := Txn(k, ReleaseRows, false, Deleted(true), [])]);
      Enabled(h, s, Commit(2)) && Next(h, s, Commit(2)) == Leaked(k, c, data).(heads := s.heads)
  {
    var s := Overtaken(k, c, data, map[2 := Txn(k, ReleaseRows, false, Deleted(true), [])]);
    OvertakenRelease(k, c, data);
    CommitStep(h, s, 2);
  }

  lemma OvertakenRelease(k: ObjKey, c: ChunkId, data: Blob)
    ensures var s := Overtaken(k, c, data, map[2 := Txn(k, ReleaseRows, false, Deleted(true), [])]);
      CommitReady(s, 2, s.txns[2]) && CommitTxn(s, 2, s.txns[2]) == Leaked(k, c, data).(heads := s.heads)
  {
    var s := Overtaken(k, c, data, map[2 := Txn(k, ReleaseRows, false, Deleted(true), [])]);
    assert s.txns - {2} == map[] && s.sizes - {k} == map[];
  }

  lemma DeleteEnds(h: Blob -> string, k: ObjKey, c: ChunkId, data: Blob)
    ensures var s := Overtaken(k, c, data, map[2 := Txn(k, ReleaseRows, false, Deleted(true), [])]);
      && ValidRun(h, s, [Commit(2)] + [DeleteHead(k)])
      && Final(h, s, [Commit(2)] + [DeleteHead(k)]) == Leaked(k, c, data)
  {
    var s := Overtaken(k, c, data, map[2 := Txn(k, ReleaseRows, false, Deleted(true), [])]);
    DeleteCommits(h, k, c, data);
    HeadGoes(h, Leaked(k, c, data), k, s.heads);
    TwoSteps(h, s, Commit(2), Leaked(k, c, data).(heads := s.heads), DeleteHead(k));
  }

  lemma HeadGoes(h: Blob -> string, s: State, k: ObjKey, heads: map<ObjKey, Head>)
    requires s.heads == map[] && s.txns == map[] && heads.Keys == {k}
    ensures Enabled(h, s.(heads := heads), DeleteHead(k)) && Next(h, s.(heads := heads), DeleteHead(k)) == s
  {
    assert heads - {k} == map[];
  }

  lemma LeakedIsUnowned(k: ObjKey, c: ChunkId, data: Blob)
    ensures Owned(Leaked(k, c, data), c) == 0
  {
    NoRefs();
    TotalRefsPut(map[], k, []);
    var none: Manifests := map[];
    assert none[k := []] == map[k := []];
  }

  /** After a DELETE overtaken by an overwrite the object is gone and its chunk keeps a reference nobody owns. */
  lemma OvertakenDeleteLeaks(h: Blob -> string, k: ObjKey, c: ChunkId, data: Blob)
    requires h(data) == c.hash && data != ""
    ensures ValidRun(h, Init(), OvertakenDelete(k, c, data))
    ensures var s := Final(h, Init(), OvertakenDelete(k, c, data));
      && RowsAt(s.manifests, k) == [] && k !in s.heads && s.uploads == map[] && s.txns == map[]
      && Count(s.index, c) == 1 && Owned(s, c) == 0
  {
    var open := FirstPut(k, c, data) + HitRun(1, c) + OpenRun(1, k, Install(1, c, data));
    var s := Overwriting(k, c, data, map[1 := Overwrite(k, c, data), 2 := Waiting(k)]);
    OverwriteOpens(h, k, c, data);
    DeleteWaits(h, k, c, data);
    Chain(h, Init(), open, Overwriting(k, c, data, map[1 := Overwrite(k, c, data)]), [Begin(2, k, ReleaseRows)] + [SnapRows(2)]);
    OverwriteCommits(h, k, c, data);
    RunSnoc(h, Init(), open + ([Begin(2, k, ReleaseRows)] + [SnapRows(2)]), Commit(1));
    DeleteGoesOn(h, k, c, data, open + ([Begin(2, k, ReleaseRows)] + [SnapRows(2)]) + [Commit(1)]);
    LeakedIsUnowned(k, c, data);
  }

  lemma DeleteGoesOn(h: Blob -> string, k: ObjKey, c: ChunkId, data: Blob, run: seq<Step>)
    requires ValidRun(h, Init(), run) && Final(h, Init(), run) == Overtaken(k, c, data, map[2 := Waiting(k)])
    ensures var all := run + ([ListRows(2)] + [DeleteRows(2)]) + ([Commit(2)] + [DeleteHead(k)]);
      ValidRun(h, Init(), all) && Final(h, Init(), all) == Leaked(k, c, data)
  {
    DeleteListsNothing(h, k, c, data);
    Chain(h, Init(), run, Overtaken(k, c, data, map[2 := Waiting(k)]), [ListRows(2)] + [DeleteRows(2)]);
    DeleteEnds(h, k, c, data);
    Chain(h, Init(), run + ([ListRows(2)] + [DeleteRows(2)]),
          Overtaken(k, c, data, map[2 := Txn(k, ReleaseRows, false, Deleted(true), [])]), [Commit(2)] + [DeleteHead(k)]);
  }

  // ---- Account deletion ----

  /** A manifest is installed after its tenant's references were counted and before its rows are deleted. */
  function UncountedManifest(k: ObjKey, c: ChunkId, data: Blob): seq<Step> {
    StoreRun(0, c, data) + [CountAccount(0, k.tenant)] + PutRun(0, k, 0, c, data) + [CloseAccount(0)]
  }

  ghost function AccountCounted(k: ObjKey, c: ChunkId, data: Blob): State {
    Stored(Init(), 0, c, data).(closings := map[0 := Closing(k.tenant, multiset{})])
  }

  lemma CountNothing(h: Blob -> string, k: ObjKey, c: ChunkId, data: Blob)
    ensures Enabled(h, Stored(Init(), 0, c, data), CountAccount(0, k.tenant))
    ensures Next(h, Stored(Init(), 0, c, data), CountAccount(0, k.tenant)) == AccountCounted(k, c, data)
  {
    NoRefs();
    assert Restrict(map[], KeysOf(Stored(Init(), 0, c, data), k.tenant)) == map[];
  }

  /** Closing an account whose references were never counted releases nothing and deletes the rows. */
  lemma CloseUncounted(h: Blob -> string, s: State, k: ObjKey, c: ChunkId)
    requires s.closings == map[0 := Closing(k.tenant, multiset{})] && s.txns == map[] && s.uploads == map[]
    requires s.manifests == map[k := [c]] && s.index == map[c := Row(1, false)]
    ensures Enabled(h, s, CloseAccount(0))
    ensures var e := Next(h, s, CloseAccount(0));
      e.manifests == map[] && e.uploads == map[] && e.index == map[c := Row(1, false)] && Owned(e, c) == 0
  {
    NoRefs();
    assert ReleaseSet(s.index, multiset{}) == s.index;
    assert s.manifests - KeysOf(s, k.tenant) == map[];
  }

  lemma UncountedManifestLeaks(h: Blob -> string, k: ObjKey, c: ChunkId, data: Blob)
    requires h(data) == c.hash && data != ""
    ensures ValidRun(h, Init(), UncountedManifest(k, c, data))
    ensures var s := Final(h, Init(), UncountedManifest(k, c, data));
      s.manifests == map[] && s.uploads == map[] && Count(s.index, c) == 1 && Owned(s, c) == 0
  {
    var s1, s2 := Stored(Init(), 0, c, data), AccountCounted(k, c, data);
    StoreRuns(h, Init(), 0, c, data);
    CountNothing(h, k, c, data);
    RunSnoc(h, Init(), StoreRun(0, c, data), CountAccount(0, k.tenant));
    PutRuns(h, s2, 0, k, 0, c, data);
    Chain(h, Init(), StoreRun(0, c, data) + [CountAccount(0, k.tenant)], s2, PutRun(0, k, 0, c, data));
    InstalledUncounted(k, c, data);
    CloseUncounted(h, Installed(s2, 0, k, 0, c, |data|), k, c);
    RunSnoc(h, Init(), StoreRun(0, c, data) + [CountAccount(0, k.tenant)] + PutRun(0, k, 0, c, data), CloseAccount(0));
  }

  lemma InstalledUncounted(k: ObjKey, c: ChunkId, data: Blob)
    ensures var s := Installed(AccountCounted(k, c, data), 0, k, 0, c, |data|);
      && s.closings == map[0 := Closing(k.tenant, multiset{})] && s.txns == map[] && s.uploads == map[]
      && s.manifests == map[k := [c]] && s.index == map[c := Row(1, false)]
  {
    assert AccountCounted(k, c, data).uploads - {0} == map[];
  }

  /** Two tenants share a chunk. The first one's reference is counted, released by its DELETE, and released again. */
  function DoubleRelease(mine: ObjKey, theirs: ObjKey, c: ChunkId, data: Blob): seq<Step> {
    FirstPut(mine, c, data) + HitRun(1, c) + PutRun(1, theirs, 1, c, data)
    + ([CountAccount(0, mine.tenant)] + ReleaseRun(2, mine) + [CloseAccount(0)])
  }

  function Shared(mine: ObjKey, theirs: ObjKey, c: ChunkId, data: Blob): State {
    Installed(Hit(AfterFirstPut(mine, c, data), 1, c), 1, theirs, 1, c, |data|)
  }

  lemma SharedRuns(h: Blob -> string, mine: ObjKey, theirs: ObjKey, c: ChunkId, data: Blob)
    requires h(data) == c.hash && data != "" && mine != theirs
    ensures var run := FirstPut(mine, c, data) + HitRun(1, c) + PutRun(1, theirs, 1, c, data);
      ValidRun(h, Init(), run) && Final(h, Init(), run) == Shared(mine, theirs, c, data)
  {
    var s1, s2 := AfterFirstPut(mine, c, data), Hit(AfterFirstPut(mine, c, data), 1, c);
    FirstPutRuns(h, mine, c, data);
    HitRuns(h, s1, 1, c);
    Chain(h, Init(), FirstPut(mine, c, data), s1, HitRun(1, c));
    PutRuns(h, s2, 1, theirs, 1, c, data);
    Chain(h, Init(), FirstPut(mine, c, data) + HitRun(1, c), s2, PutRun(1, theirs, 1, c, data));
  }

  lemma SharedFacts(mine: ObjKey, theirs: ObjKey, c: ChunkId, data: Blob)
    requires mine != theirs
    ensures var s := Shared(mine, theirs, c, data);
      && s.manifests == map[mine := [c], theirs := [c]] && s.index == map[c := Row(2, false)]
      && s.txns == map[] && s.closings == map[] && s.uploads == map[] && 2 !in s.cleanups
  {
    assert Hit(AfterFirstPut(mine, c, data), 1, c).uploads - {1} == map[];
  }

  lemma CountMine(h: Blob -> string, s: State, mine: ObjKey, theirs: ObjKey, c: ChunkId)
    requires s.manifests == map[mine := [c], theirs := [c]] && s.closings == map[] && mine.tenant != theirs.tenant
    ensures Enabled(h, s, CountAccount(0, mine.tenant))
    ensures Next(h, s, CountAccount(0, mine.tenant))
         == s.(closings := map[0 := Closing(mine.tenant, TotalRefs(map[mine := [c]]))])
  {
    assert Restrict(s.manifests, KeysOf(s, mine.tenant)) == map[mine := [c]];
  }

  lemma CloseTwice(h: Blob -> string, s: State, mine: ObjKey, theirs: ObjKey, c: ChunkId)
    requires s.closings == map[0 := Closing(mine.tenant, TotalRefs(map[mine := [c]]))] && s.txns == map[]
    requires s.manifests == map[mine := [], theirs := [c]] && s.index == map[c := Row(1, false)]
    requires mine.tenant != theirs.tenant
    ensures Enabled(h, s, CloseAccount(0))
    ensures Next(h, s, CloseAccount(0)).index == map[c := Row(0, true)]
    ensures Next(h, s, CloseAccount(0)).manifests == map[theirs := [c]]
  {
    ClosedIndex(mine, c);
    assert s.manifests - KeysOf(s, mine.tenant) == map[theirs := [c]];
  }

  lemma ClosedIndex(mine: ObjKey, c: ChunkId)
    ensures ReleaseSet(map[c := Row(1, false)], TotalRefs(map[mine := [c]])) == map[c := Row(0, true)]
  {
    OneRow(mine, c);
  }

  lemma ReleaseMine(h: Blob -> string, s: State, mine: ObjKey, theirs: ObjKey, c: ChunkId)
    requires s.manifests == map[mine := [c], theirs := [c]] && s.index == map[c := Row(2, false)] && s.txns == map[]
    requires mine != theirs && 2 !in s.cleanups
    ensures ValidRun(h, s, ReleaseRun(2, mine))
    ensures var e := Final(h, s, ReleaseRun(2, mine));
      && e.manifests == map[mine := [], theirs := [c]] && e.index == map[c := Row(1, false)]
      && e.txns == map[] && e.closings == s.closings
  {
    ReleaseRuns(h, s, 2, mine);
    OneLess(c);
  }

  lemma CountReleaseClose(h: Blob -> string, s: State, mine: ObjKey, theirs: ObjKey, c: ChunkId)
    requires s.manifests == map[mine := [c], theirs := [c]] && s.index == map[c := Row(2, false)]
    requires s.txns == map[] && s.closings == map[] && mine.tenant != theirs.tenant && 2 !in s.cleanups
    ensures var run := [CountAccount(0, mine.tenant)] + ReleaseRun(2, mine) + [CloseAccount(0)];
      && ValidRun(h, s, run)
      && Final(h, s, run).manifests == map[theirs := [c]] && Final(h, s, run).index == map[c := Row(0, true)]
  {
    var s1 := s.(closings := map[0 := Closing(mine.tenant, TotalRefs(map[mine := [c]]))]);
    CountMine(h, s, mine, theirs, c);
    OneStep(h, s, CountAccount(0, mine.tenant));
    ReleaseMine(h, s1, mine, theirs, c);
    Chain(h, s, [CountAccount(0, mine.tenant)], s1, ReleaseRun(2, mine));
    CloseTwice(h, Final(h, s1, ReleaseRun(2, mine)), mine, theirs, c);
    RunSnoc(h, s, [CountAccount(0, mine.tenant)] + ReleaseRun(2, mine), CloseAccount(0));
  }

  /** The other tenant's object still names the chunk; its count is zero and it is marked for the sweep. */
  lemma DoubleReleaseMarksALiveChunk(h: Blob -> string, mine: ObjKey, theirs: ObjKey, c: ChunkId, data: Blob)
    requires h(data) == c.hash && data != "" && mine.tenant != theirs.tenant
    ensures ValidRun(h, Init(), DoubleRelease(mine, theirs, c, data))
    ensures var s := Final(h, Init(), DoubleRelease(mine, theirs, c, data));
      s.manifests == map[theirs := [c]] && s.index == map[c := Row(0, true)]
  {
    SharedRuns(h, mine, theirs, c, data);
    SharedFacts(mine, theirs, c, data);
    CountReleaseClose(h, Shared(mine, theirs, c, data), mine, theirs, c);
    Chain(h, Init(), FirstPut(mine, c, data) + HitRun(1, c) + PutRun(1, theirs, 1, c, data), Shared(mine, theirs, c, data),
          [CountAccount(0, mine.tenant)] + ReleaseRun(2, mine) + [CloseAccount(0)]);
  }

  // ---- Reconcile ----

  /** Reconcile counts a leak; the object is deleted before it resets the row. */
  function StaleReconcile(k: ObjKey, c: ChunkId, data: Blob): seq<Step> {
    RacingFirstWrites(k, c, data) + ([CountRefs(0)] + ReleaseRun(2, k) + [ResetRows(0, {c})])
  }

  lemma CountLeak(h: Blob -> string, s: State, k: ObjKey, c: ChunkId)
    requires s.manifests == map[k := [c]] && s.index == map[c := Row(2, false)] && s.counts == map[]
    ensures Enabled(h, s, CountRefs(0))
    ensures Next(h, s, CountRefs(0)) == s.(counts := map[0 := Counting(TotalRefs(map[k := [c]]), {c})])
  {
    OneRow(k, c);
    assert Drifted(s) == {c};
  }

  lemma NoRowsNoRefs(k: ObjKey, c: ChunkId)
    ensures TotalRefs(map[k := []])[c] == 0
  {
    var none: Manifests := map[];
    TotalRefsPut(none, k, []);
    NoRefs();
    assert none[k := []] == map[k := []];
  }

  /** The count it took is by then the count it finds, so the row is not touched. */
  lemma ResetFindsCount(h: Blob -> string, s: State, k: ObjKey, c: ChunkId)
    requires s.counts == map[0 := Counting(TotalRefs(map[k := [c]]), {c})] && s.uploads == map[]
    requires s.manifests == map[k := []] && s.index == map[c := Row(1, false)]
    ensures Enabled(h, s, ResetRows(0, {c}))
    ensures var e := Next(h, s, ResetRows(0, {c}));
      e.index == s.index && e.manifests == s.manifests && e.uploads == map[] && Owned(e, c) == 0
  {
    OneRow(k, c);
    NoRowsNoRefs(k, c);
    assert Reconcile(s.index, s.counts[0].actual, {c} * {c}) == s.index;
  }

  lemma ReleaseOnly(h: Blob -> string, s: State, k: ObjKey, c: ChunkId)
    requires s.manifests == map[k := [c]] && s.index == map[c := Row(2, false)] && s.txns == map[] && 2 !in s.cleanups
    ensures ValidRun(h, s, ReleaseRun(2, k))
    ensures var e := Final(h, s, ReleaseRun(2, k));
      && e.manifests == map[k := []] && e.index == map[c := Row(1, false)]
      && e.counts == s.counts && e.uploads == s.uploads
  {
    ReleaseRuns(h, s, 2, k);
    OneLess(c);
  }

  lemma CountReleaseReset(h: Blob -> string, s: State, k: ObjKey, c: ChunkId)
    requires s.manifests == map[k := [c]] && s.index == map[c := Row(2, false)] && s.counts == map[]
    requires s.uploads == map[] && s.txns == map[] && 2 !in s.cleanups
    ensures var run := [CountRefs(0)] + ReleaseRun(2, k) + [ResetRows(0, {c})];
      && ValidRun(h, s, run)
      && Count(Final(h, s, run).index, c) == 1 && Owned(Final(h, s, run), c) == 0
  {
    var s1 := s.(counts := map[0 := Counting(TotalRefs(map[k := [c]]), {c})]);
    CountLeak(h, s, k, c);
    OneStep(h, s, CountRefs(0));
    ReleaseOnly(h, s1, k, c);
    Chain(h, s, [CountRefs(0)], s1, ReleaseRun(2, k));
    ResetFindsCount(h, Final(h, s1, ReleaseRun(2, k)), k, c);
    RunSnoc(h, s, [CountRefs(0)] + ReleaseRun(2, k), ResetRows(0, {c}));
  }

  /** The leak that reconcile counted is still there after its reset. */
  lemma StaleReconcileKeepsLeak(h: Blob -> string, k: ObjKey, c: ChunkId, data: Blob)
    requires h(data) == c.hash && data != ""
    ensures ValidRun(h, Init(), StaleReconcile(k, c, data))
    ensures var s := Final(h, Init(), StaleReconcile(k, c, data)); Count(s.index, c) == 1 && Owned(s, c) == 0
  {
    RacingFirstWritesRun(h, k, c, data);
    CountReleaseReset(h, BothIn(k, c, data), k, c);
    Chain(h, Init(), RacingFirstWrites(k, c, data), BothIn(k, c, data),
          [CountRefs(0)] + ReleaseRun(2, k) + [ResetRows(0, {c})]);
  }
}
