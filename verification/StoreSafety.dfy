/** What holds after every run of the chunk store protocol, whatever the interleaving. */
module StoreSafety {
  import opened Basics
  import opened MapSums
  import opened ContentIndex
  import opened DedupStore
  import opened StoreInvariants
  import opened StoreBooks

  ghost predicate ValidRun(h: Blob -> string, s: State, run: seq<Step>)
    decreases |run|
  {
    run == [] || (Enabled(h, s, run[0]) && ValidRun(h, Next(h, s, run[0]), run[1..]))
  }

  ghost function Final(h: Blob -> string, s: State, run: seq<Step>): State
    requires ValidRun(h, s, run)
    decreases |run|
  {
    if run == [] then s else Final(h, Next(h, s, run[0]), run[1..])
  }

  lemma RunCons(h: Blob -> string, s: State, st: Step, rest: seq<Step>)
    requires Enabled(h, s, st) && ValidRun(h, Next(h, s, st), rest)
    ensures ValidRun(h, s, [st] + rest) && Final(h, s, [st] + rest) == Final(h, Next(h, s, st), rest)
  {
    assert ([st] + rest)[0] == st && ([st] + rest)[1..] == rest;
  }

  lemma {:induction false} RunKeepsInv(h: Blob -> string, s: State, run: seq<Step>)
    requires Inv(h, s) && ValidRun(h, s, run)
    ensures Inv(h, Final(h, s, run))
    decreases |run|
  {
    if run != [] {
      StepKeepsInv(h, s, run[0]);
      RunKeepsInv(h, Next(h, s, run[0]), run[1..]);
    }
  }

  // ---- No chunk is lost ----

  /** Whatever a manifest names is indexed and stored with the right bytes. */
  lemma ManifestChunkLives(h: Blob -> string, s: State, k: ObjKey, c: ChunkId)
    requires Inv(h, s) && c in RowsAt(s.manifests, k)
    ensures c in s.index && c in s.blobs && h(s.blobs[c]) == c.hash
  {
    assert ForeignKeys(s.index, s.manifests[k]);
  }

  /** No account deletion of the run overdraws a chunk. */
  ghost predicate SolventRun(h: Blob -> string, s: State, run: seq<Step>)
    requires ValidRun(h, s, run)
    decreases |run|
  {
    run == [] || (!Overdraws(s, run[0]) && SolventRun(h, Next(h, s, run[0]), run[1..]))
  }

  lemma {:induction false} RunKeepsSolvent(h: Blob -> string, s: State, run: seq<Step>)
    requires Inv(h, s) && Solvent(s) && ValidRun(h, s, run) && SolventRun(h, s, run)
    ensures Solvent(Final(h, s, run))
    decreases |run|
  {
    if run != [] {
      StepKeepsInv(h, s, run[0]);
      StepKeepsSolventIff(h, s, run[0]);
      RunKeepsSolvent(h, Next(h, s, run[0]), run[1..]);
    }
  }

  lemma InitSolvent()
    ensures Solvent(Init())
  {
    assert RefsOf(Init().manifests) == map[];
  }

  /** What somebody owns has at least as many references, and is not marked for the sweep. */
  lemma OwnedIsCounted(s: State, c: ChunkId)
    requires Solvent(s) && Owned(s, c) > 0
    ensures c in s.index && s.index[c].count >= Owned(s, c) && !s.index[c].marked
  {
    assert Drift(s, c) >= 0;
  }

  /**
   GC safety. In every run whatever, an index row implies its blob, and no sweep takes the row or the blob of a
   chunk that a manifest names. In every run without an overdrawing account deletion, what a manifest names or an
   unfinished upload holds is counted for each of its owners and never even marked.
   */
  lemma NoRunLosesAChunk(h: Blob -> string, run: seq<Step>, c: ChunkId)
    requires ValidRun(h, Init(), run)
    ensures var s := Final(h, Init(), run);
      && (c in s.index ==> c in s.blobs && h(s.blobs[c]) == c.hash)
      && (Referenced(s.manifests, c) ==> c in s.index)
      && (SolventRun(h, Init(), run) && Owned(s, c) > 0 ==>
          c in s.index && s.index[c].count >= Owned(s, c) && !s.index[c].marked)
  {
    InitInv(h);
    RunKeepsInv(h, Init(), run);
    var s := Final(h, Init(), run);
    if k :| k in s.manifests && c in s.manifests[k] {
      ManifestChunkLives(h, s, k, c);
    }
    if SolventRun(h, Init(), run) && Owned(s, c) > 0 {
      InitSolvent();
      RunKeepsSolvent(h, Init(), run);
      OwnedIsCounted(s, c);
    }
  }

  // ---- Conservation ----

  /** What the steps of a run add to the drift of `c`. */
  ghost function Gains(h: Blob -> string, s: State, run: seq<Step>, c: ChunkId): int
    requires ValidRun(h, s, run)
    decreases |run|
  {
    if run == [] then 0 else Gain(s, run[0], c) + Gains(h, Next(h, s, run[0]), run[1..], c)
  }

  lemma {:induction false} RunDrift(h: Blob -> string, s: State, run: seq<Step>, c: ChunkId)
    requires Inv(h, s) && ValidRun(h, s, run)
    ensures Drift(Final(h, s, run), c) == Drift(s, c) + Gains(h, s, run, c)
    decreases |run|
  {
    if run != [] {
      StepDrift(h, s, run[0], c);
      StepKeepsInv(h, s, run[0]);
      RunDrift(h, Next(h, s, run[0]), run[1..], c);
    }
  }

  /**
   Reference conservation. After every run a chunk's count is the number of manifest rows naming it, plus the
   references unfinished uploads hold, plus exactly what the steps of the run gained; so conservation holds in a
   state if and only if the gains so far cancel.
   */
  lemma ReferencesConserved(h: Blob -> string, run: seq<Step>, c: ChunkId)
    requires ValidRun(h, Init(), run)
    ensures var s := Final(h, Init(), run);
      && Count(s.index, c) == TotalRefs(s.manifests)[c] + Total(s.uploads)[c] + Gains(h, Init(), run, c)
      && (Count(s.index, c) == TotalRefs(s.manifests)[c] + Total(s.uploads)[c] <==> Gains(h, Init(), run, c) == 0)
  {
    InitInv(h);
    InitSolvent();
    RunDrift(h, Init(), run, c);
    assert RefsOf(Init().manifests) == map[];
  }

  /** Transaction `t` is open in every state of the run. */
  ghost predicate StaysOpen(h: Blob -> string, s: State, run: seq<Step>, t: nat)
    requires ValidRun(h, s, run)
    decreases |run|
  {
    t in s.txns && (run == [] || StaysOpen(h, Next(h, s, run[0]), run[1..], t))
  }

  function TenantRows(s: State, tenant: string): Manifests {
    Restrict(s.manifests, KeysOf(s, tenant))
  }

  /** Account deletion `a` stays open while its tenant's rows stay the same rows. */
  ghost predicate TenantRests(h: Blob -> string, s: State, run: seq<Step>, a: nat)
    requires ValidRun(h, s, run)
    decreases |run|
  {
    && a in s.closings
    && (run == [] ||
        (TenantRows(Next(h, s, run[0]), s.closings[a].tenant) == TenantRows(s, s.closings[a].tenant)
         && TenantRests(h, Next(h, s, run[0]), run[1..], a)))
  }

  lemma ClosingStays(h: Blob -> string, s: State, st: Step, a: nat)
    requires Enabled(h, s, st) && a in s.closings && a in Next(h, s, st).closings
    ensures Next(h, s, st).closings[a] == s.closings[a]
  {
    if ChunkStep(st) {
      assert Next(h, s, st) == ChunkNext(h, s, st);
    } else if TxnStep(st) {
      assert !st.CountAccount? ==> TxnNext(h, s, st).closings == s.closings;
    } else if !st.ResetRows? {
      assert Next(h, s, st) == ObjectNext(s, st);
    }
  }

  lemma {:induction false} RestingTenant(h: Blob -> string, s: State, run: seq<Step>, a: nat)
    requires ValidRun(h, s, run) && TenantRests(h, s, run, a)
    ensures var e := Final(h, s, run);
      a in e.closings && e.closings[a] == s.closings[a]
      && TenantRows(e, s.closings[a].tenant) == TenantRows(s, s.closings[a].tenant)
    decreases |run|
  {
    if run != [] {
      ClosingStays(h, s, run[0], a);
      RestingTenant(h, Next(h, s, run[0]), run[1..], a);
    }
  }

  /**
   Account deletion drifts only by overlap: if between its count and its commit nobody changes the tenant's rows, then,
   whatever else happens, it releases exactly what it deletes, and its clamp never bites.
   */
  lemma AccountDriftNeedsOverlap(h: Blob -> string, s: State, a: nat, tenant: string, run: seq<Step>, c: ChunkId)
    requires Enabled(h, s, CountAccount(a, tenant))
    requires var s1 := Next(h, s, CountAccount(a, tenant));
      ValidRun(h, s1, run) && TenantRests(h, s1, run, a) && Solvent(Final(h, s1, run))
    ensures var e := Final(h, Next(h, s, CountAccount(a, tenant)), run);
      a in e.closings && Gain(e, CloseAccount(a), c) == 0 && Taken(e, a, c) == e.closings[a].counted[c]
  {
    var s1 := Next(h, s, CountAccount(a, tenant));
    RestingTenant(h, s1, run, a);
    var e := Final(h, s1, run);
    CountedCloseKeepsBooks(e, a, c);
    CloseKeepsBooksIff(e, a, c);
  }

  // ---- Uploads ----

  /** An upload whose pool has joined can always install what it was granted: the foreign key never fails. */
  lemma InstallNeverViolatesForeignKey(s: State, u: nat, cs: seq<ChunkId>)
    requires Solvent(s) && u in s.uploads && s.uploads[u] == multiset(cs)
    ensures ForeignKeys(s.index, cs)
  {
    forall c | c in cs ensures c in s.index {
      assert multiset(cs)[c] >= 1;
      HeldIsCounted(s, u, c);
    }
  }

  /** While an upload holds a reference, taking another one always finds the row. */
  lemma WaiterAlwaysGranted(h: Blob -> string, s: State, u: nat, c: ChunkId)
    requires Solvent(s) && u in s.uploads && c in s.uploads[u]
    ensures Next(h, s, DedupHit(u, c)).uploads[u] == s.uploads[u] + multiset{c}
    ensures Count(Next(h, s, DedupHit(u, c)).index, c) == Count(s.index, c) + 1
  {
    HeldIsCounted(s, u, c);
  }

  // ---- Aborting an upload ----

  function CompensateAll(u: nat, cs: seq<ChunkId>): seq<Step> {
    if cs == [] then [EndUpload(u)] else [Compensate(u, cs[0])] + CompensateAll(u, cs[1..])
  }

  /** The state once `cs` has been released and the upload forgotten. */
  function Compensated(s: State, u: nat, cs: seq<ChunkId>): State {
    s.(index := DecrementAll(s.index, cs), uploads := s.uploads - {u})
  }

  lemma CompensateHead(h: Blob -> string, s: State, u: nat, cs: seq<ChunkId>) returns (s1: State)
    requires cs != [] && u in s.uploads && Joined(s, u) && s.uploads[u] == multiset(cs)
    ensures Enabled(h, s, Compensate(u, cs[0])) && s1 == Next(h, s, Compensate(u, cs[0]))
    ensures u in s1.uploads && Joined(s1, u) && s1.uploads[u] == multiset(cs[1..])
    ensures Compensated(s1, u, cs[1..]) == Compensated(s, u, cs)
  {
    assert cs == [cs[0]] + cs[1..];
    s1 := s.(index := Decrement(s.index, cs[0]), uploads := s.uploads[u := multiset(cs[1..])]);
    assert s.uploads[u] - multiset{cs[0]} == multiset(cs[1..]);
    assert s1.uploads - {u} == s.uploads - {u};
  }

  lemma {:induction false} CompensationRuns(h: Blob -> string, s: State, u: nat, cs: seq<ChunkId>)
    requires u in s.uploads && Joined(s, u) && s.uploads[u] == multiset(cs)
    ensures ValidRun(h, s, CompensateAll(u, cs))
    ensures Final(h, s, CompensateAll(u, cs)) == Compensated(s, u, cs)
    decreases |cs|
  {
    if cs == [] {
      RunCons(h, s, EndUpload(u), []);
      assert [EndUpload(u)] + [] == CompensateAll(u, cs);
    } else {
      var s1 := CompensateHead(h, s, u, cs);
      CompensationRuns(h, s1, u, cs[1..]);
      RunCons(h, s, Compensate(u, cs[0]), CompensateAll(u, cs[1..]));
    }
  }

  /**
   Exact compensation: releasing the snapshot of everything granted is possible step by step, takes each
   count down by exactly what was granted, and leaves every other part of the store as it was.
   */
  lemma CompensationIsExact(h: Blob -> string, s: State, u: nat, cs: seq<ChunkId>)
    requires u in s.uploads && Joined(s, u) && s.uploads[u] == multiset(cs)
    ensures ValidRun(h, s, CompensateAll(u, cs))
    ensures var s' := Final(h, s, CompensateAll(u, cs));
      && s' == s.(index := s'.index, uploads := s.uploads - {u})
      && s'.index.Keys == s.index.Keys
      && forall c :: c in s.index ==> Count(s'.index, c) == Count(s.index, c) - multiset(cs)[c]
  {
    CompensationRuns(h, s, u, cs);
    DecrementAllDrops(s.index, cs);
  }

  /** Whatever happened in between: equal owners have equal counts, up to exactly what the run gained. */
  lemma AbortedPutRestoresCounts(h: Blob -> string, before: State, run: seq<Step>, c: ChunkId)
    requires Inv(h, before) && ValidRun(h, before, run)
    requires Owned(Final(h, before, run), c) == Owned(before, c)
    ensures Count(Final(h, before, run).index, c) == Count(before.index, c) + Gains(h, before, run, c)
  {
    RunDrift(h, before, run, c);
  }

  // ---- Garbage collection does collect ----

  lemma SweepRowStep(h: Blob -> string, s: State, c: ChunkId)
    requires Sweepable(s.index, c) && !Referenced(s.manifests, c) && c in s.locks && s.locks[c] == Sweeper(false)
    ensures Enabled(h, s, SweepDeleteRow(c))
    ensures Next(h, s, SweepDeleteRow(c)) == s.(index := s.index - {c}, locks := s.locks[c := Sweeper(true)])
  {
  }

  lemma LastSweepStep(h: Blob -> string, s: State, s2: State, c: ChunkId)
    requires c !in s.locks && s2 == s.(index := s.index - {c}, locks := s.locks[c := Sweeper(true)])
    ensures Enabled(h, s2, SweepDeleteBlob(c, true))
    ensures Next(h, s2, SweepDeleteBlob(c, true)) == s.(index := s.index - {c}, blobs := s.blobs - {c})
  {
    assert s2.locks - {c} == s.locks;
  }

  lemma SweepRuns(h: Blob -> string, s: State, c: ChunkId)
    requires Sweepable(s.index, c) && !Referenced(s.manifests, c) && c !in s.locks
    ensures ValidRun(h, s, [SweepLock(c), SweepDeleteRow(c), SweepDeleteBlob(c, true)])
    ensures Final(h, s, [SweepLock(c), SweepDeleteRow(c), SweepDeleteBlob(c, true)])
         == s.(index := s.index - {c}, blobs := s.blobs - {c})
  {
    var s1, s2 := s.(locks := s.locks[c := Sweeper(false)]), s.(index := s.index - {c}, locks := s.locks[c := Sweeper(true)]);
    SweepRowStep(h, s1, c);
    assert s1.(index := s1.index - {c}, locks := s1.locks[c := Sweeper(true)]) == s2;
    LastSweepStep(h, s, s2, c);
    RunCons(h, s2, SweepDeleteBlob(c, true), []);
    RunCons(h, s1, SweepDeleteRow(c), [SweepDeleteBlob(c, true)] + []);
    RunCons(h, s, SweepLock(c), [SweepDeleteRow(c)] + ([SweepDeleteBlob(c, true)] + []));
    assert [SweepLock(c)] + ([SweepDeleteRow(c)] + ([SweepDeleteBlob(c, true)] + []))
      == [SweepLock(c), SweepDeleteRow(c), SweepDeleteBlob(c, true)];
  }

  /** Once nothing owns or leaks a chunk, one undisturbed sweep removes its row and its blob and nothing else. */
  lemma SweepReclaims(h: Blob -> string, s: State, c: ChunkId)
    requires Solvent(s) && c in s.index && c !in s.locks && Owned(s, c) == 0 && Drift(s, c) == 0
    ensures ValidRun(h, s, [SweepLock(c), SweepDeleteRow(c), SweepDeleteBlob(c, true)])
    ensures Final(h, s, [SweepLock(c), SweepDeleteRow(c), SweepDeleteBlob(c, true)])
         == s.(index := s.index - {c}, blobs := s.blobs - {c})
  {
    ReferencedIsOwned(s.manifests, c);
    SweepRuns(h, s, c);
  }

  lemma ReferencedIsOwned(m: Manifests, c: ChunkId)
    ensures Referenced(m, c) ==> TotalRefs(m)[c] >= 1
  {
    if k :| k in m && c in m[k] {
      TotalRefsPut(m, k, []);
      assert multiset(RowsAt(m, k))[c] >= 1;
    }
  }

  /**
   A reset row has as many references too many as manifest rows naming it went after the count, and none too few: so
   its drift is gone if and only if none went. Rows that had not drifted stay as they are.
   */
  lemma ReconcileHealsIff(h: Blob -> string, s: State, r: nat, idle: set<ChunkId>, c: ChunkId)
    requires Enabled(h, s, ResetRows(r, idle))
    ensures var s' := Next(h, s, ResetRows(r, idle));
      && (Resets(s, r, idle, c) ==> Drift(s', c) == s.counts[r].actual[c] - TotalRefs(s.manifests)[c] >= 0)
      && (Resets(s, r, idle, c) ==> (Drift(s', c) == 0 <==> s.counts[r].actual[c] == TotalRefs(s.manifests)[c]))
      && (!Resets(s, r, idle, c) ==> Count(s'.index, c) == Count(s.index, c) && Drift(s', c) == Drift(s, c))
  {
    ReconcileDrift(s, r, idle, c);
  }

  /** A reconcile stays open while no manifest row naming `c` comes or goes. */
  ghost predicate RefsRest(h: Blob -> string, s: State, run: seq<Step>, r: nat, c: ChunkId)
    requires ValidRun(h, s, run)
    decreases |run|
  {
    && r in s.counts
    && (run == [] ||
        (TotalRefs(Next(h, s, run[0]).manifests)[c] == TotalRefs(s.manifests)[c] && RefsRest(h, Next(h, s, run[0]), run[1..], r, c)))
  }

  lemma CountStays(h: Blob -> string, s: State, st: Step, r: nat)
    requires Enabled(h, s, st) && r in s.counts && r in Next(h, s, st).counts
    ensures Next(h, s, st).counts[r] == s.counts[r]
  {
    if ChunkStep(st) {
      assert Next(h, s, st) == ChunkNext(h, s, st);
    } else if TxnStep(st) {
      assert !st.CountRefs? ==> TxnNext(h, s, st).counts == s.counts;
    } else if !st.ResetRows? {
      assert Next(h, s, st) == ObjectNext(s, st);
    }
  }

  lemma {:induction false} RestingRefs(h: Blob -> string, s: State, run: seq<Step>, r: nat, c: ChunkId)
    requires ValidRun(h, s, run) && RefsRest(h, s, run, r, c)
    ensures var e := Final(h, s, run);
      r in e.counts && e.counts[r] == s.counts[r] && TotalRefs(e.manifests)[c] == TotalRefs(s.manifests)[c]
    decreases |run|
  {
    if run != [] {
      CountStays(h, s, run[0], r);
      RestingRefs(h, Next(h, s, run[0]), run[1..], r, c);
    }
  }

  /**
   Every drift a reconcile has seen on an idle row is gone after it, whatever happens between its count and its
   reset, as long as no manifest row naming the chunk comes or goes.
   */
  lemma ReconcileHeals(h: Blob -> string, s: State, r: nat, run: seq<Step>, idle: set<ChunkId>, c: ChunkId)
    requires Enabled(h, s, CountRefs(r)) && c in idle && c in s.index && Count(s.index, c) != TotalRefs(s.manifests)[c]
    requires var s1 := Next(h, s, CountRefs(r));
      ValidRun(h, s1, run) && RefsRest(h, s1, run, r, c) && Enabled(h, Final(h, s1, run), ResetRows(r, idle))
    ensures var e := Final(h, Next(h, s, CountRefs(r)), run);
      c in e.index ==> Drift(Next(h, e, ResetRows(r, idle)), c) == 0
  {
    var s1 := Next(h, s, CountRefs(r));
    RestingRefs(h, s1, run, r, c);
    ReconcileHealsIff(h, Final(h, s1, run), r, idle, c);
  }

  /**
   The grace period is what makes reconcile safe: without it a reset row keeps enough references for its owners if
   and only if no upload holds one and no manifest row more than were counted names it.
   */
  lemma ReconcileNeedsTheGracePeriod(s: State, r: nat, idle: set<ChunkId>, c: ChunkId)
    requires Resets(s, r, idle, c)
    ensures Count(ReconcileNext(s, r, idle).index, c) >= Owned(s, c)
       <==> TotalRefs(s.manifests)[c] + Total(s.uploads)[c] <= s.counts[r].actual[c]
  {
  }
}
