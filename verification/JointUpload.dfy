/**
 One upload's worker pool running inside the store: its grants are the store's dedup hits and committed stores, and
 everybody else takes steps in between. What the store says the upload holds is what the pool says it was granted,
 so the pool's manifest can be installed and its snapshot can be compensated.
 */
module JointUpload {
  import opened Basics
  import opened ContentIndex
  import D = DedupStore
  import I = StoreInvariants
  import S = StoreSafety
  import P = StorePool
  import T = PoolTheorems

  datatype Upload = Upload(u: nat, scope: string, cs: seq<P.Chunk>, workers: nat)

  datatype Joint = Joint(pool: P.Pool, store: D.State)

  /** A step of the pool alone, of the store alone, or of a goroutine of the pool on the store. */
  datatype Step = PoolStep(p: P.Step) | StoreStep(s: D.Step) | Together(p: P.Step, s: D.Step)

  function Id(up: Upload, i: nat): ChunkId
    requires i < |up.cs|
  {
    ChunkId(up.scope, up.cs[i].hash)
  }

  predicate Holds(s: D.State, u: nat, c: ChunkId) {
    c in s.locks && s.locks[c].Storer? && s.locks[c].upload == u
  }

  /** Which statement on the store a pool step is. */
  predicate Matches(up: Upload, j: Joint, p: P.Step, s: D.Step) {
    match p
    case DedupHit => j.pool.next < |up.cs| && s == D.DedupHit(up.u, Id(up, j.pool.next)) && Id(up, j.pool.next) in j.store.index
    case StoreOk(i) => i < |up.cs| && s == D.CommitStore(Id(up, i)) && Holds(j.store, up.u, Id(up, i))
    case StoreFails(i) => i < |up.cs| && s == D.AbandonStore(Id(up, i)) && Holds(j.store, up.u, Id(up, i))
    case GrantWaiter =>
      && j.pool.collector.Granting? && j.pool.collector.chunk < |up.cs|
      && s == D.DedupHit(up.u, Id(up, j.pool.collector.chunk)) && Id(up, j.pool.collector.chunk) in j.store.index
    case _ => false
  }

  /** Pool steps that touch nothing shared; a store may fail without having got its lock. */
  predicate Private(up: Upload, j: Joint, p: P.Step) {
    match p
    case DedupHit => false
    case StoreOk(_) => false
    case GrantWaiter => false
    case StoreFails(i) => i < |up.cs| && !Holds(j.store, up.u, Id(up, i))
    case _ => true
  }

  /** Steps of others, misses of the upload's lookups, and its workers' lock calls and blob writes. */
  ghost predicate Outside(up: Upload, j: Joint, st: D.Step) {
    match st
    case BeginUpload(v) => v != up.u
    case DedupHit(v, c) => v != up.u || c !in j.store.index
    case LockChunk(v, c, _) => v == up.u ==> c.scope == up.scope && P.Carries(up.cs, j.pool.storing, c.hash)
    case CommitStore(c) => !Holds(j.store, up.u, c)
    case AbandonStore(c) => !Holds(j.store, up.u, c)
    case Compensate(v, _) => v != up.u
    case LoseCompensation(v, _) => v != up.u
    case EndUpload(v) => v != up.u
    case Commit(t) => t in j.store.txns && j.store.txns[t].job.PutManifest? ==> j.store.txns[t].job.u != up.u
    case _ => true
  }

  ghost predicate Enabled(h: D.Blob -> string, up: Upload, j: Joint, st: Step) {
    match st
    case PoolStep(p) => P.Enabled(up.cs, up.workers, j.pool, p) && Private(up, j, p)
    case StoreStep(s) => D.Enabled(h, j.store, s) && Outside(up, j, s)
    case Together(p, s) => P.Enabled(up.cs, up.workers, j.pool, p) && D.Enabled(h, j.store, s) && Matches(up, j, p, s)
  }

  ghost function Next(h: D.Blob -> string, up: Upload, j: Joint, st: Step): Joint
    requires Enabled(h, up, j, st)
  {
    match st
    case PoolStep(p) => j.(pool := P.Next(up.cs, up.workers, j.pool, p))
    case StoreStep(s) => j.(store := D.Next(h, j.store, s))
    case Together(p, s) => Joint(P.Next(up.cs, up.workers, j.pool, p), D.Next(h, j.store, s))
  }

  /** The upload has just begun. */
  function Start(up: Upload, s: D.State): Joint {
    Joint(P.Start(up.workers), s.(uploads := s.uploads[up.u := multiset{}]))
  }

  // ---- The invariant that couples the two ----

  ghost predicate HoldingsAreGrants(up: Upload, j: Joint) {
    && up.u in j.store.uploads
    && forall c :: j.store.uploads[up.u][c]
                == if c.scope == up.scope then T.GrantedOn(up.cs, |up.cs|, j.pool.granted, c.hash) else 0
  }

  /** Locks are only held by stores that are still running. */
  ghost predicate LocksAreStores(up: Upload, j: Joint) {
    forall c :: Holds(j.store, up.u, c) ==> c.scope == up.scope && P.Carries(up.cs, j.pool.storing, c.hash)
  }

  ghost predicate Coupled(up: Upload, j: Joint) {
    P.Inv(up.cs, up.workers, j.pool) && HoldingsAreGrants(up, j) && LocksAreStores(up, j)
  }

  lemma StartCoupled(h: D.Blob -> string, up: Upload, s: D.State)
    requires I.LocksSound(h, s) && up.u !in s.uploads
    ensures Coupled(up, Start(up, s))
  {
    P.StartInv(up.cs, up.workers);
    forall c: ChunkId ensures T.GrantedOn(up.cs, |up.cs|, multiset{}, c.hash) == 0 {
      T.NoGrants(up.cs, |up.cs|, multiset{}, c.hash);
    }
    forall c ensures !Holds(s, up.u, c) {
      assert c in s.locks ==> I.HolderSound(h, s, c, s.locks[c]);
    }
  }

  // ---- Pool steps ----

  lemma PrivateSteps(up: Upload, j: Joint, p: P.Step)
    requires P.Enabled(up.cs, up.workers, j.pool, p) && Private(up, j, p)
    ensures var p' := P.Next(up.cs, up.workers, j.pool, p);
      && p'.granted == j.pool.granted
      && (p.StoreFails? ==> p'.storing == j.pool.storing - multiset{p.i})
      && (!p.StoreFails? ==> j.pool.storing <= p'.storing)
  {
  }

  /** Settling one store leaves the carriers of every other hash. */
  lemma StillCarried(cs: seq<P.Chunk>, storing: multiset<nat>, i: nat, hash: string)
    requires P.Carries(cs, storing, hash) && i < |cs| && cs[i].hash != hash
    ensures P.Carries(cs, storing - multiset{i}, hash)
  {
    var k :| k in storing && k < |cs| && cs[k].hash == hash;
    assert k in storing - multiset{i};
  }

  lemma MoreCarry(cs: seq<P.Chunk>, storing: multiset<nat>, more: multiset<nat>, hash: string)
    requires P.Carries(cs, storing, hash) && storing <= more
    ensures P.Carries(cs, more, hash)
  {
    var k :| k in storing && k < |cs| && cs[k].hash == hash;
    assert k in more;
  }

  lemma PoolStepKeeps(h: D.Blob -> string, up: Upload, j: Joint, p: P.Step)
    requires Coupled(up, j) && Enabled(h, up, j, PoolStep(p))
    ensures Coupled(up, Next(h, up, j, PoolStep(p)))
  {
    var p' := P.Next(up.cs, up.workers, j.pool, p);
    P.StepKeepsInv(up.cs, up.workers, j.pool, p);
    PrivateSteps(up, j, p);
    forall c | Holds(j.store, up.u, c) ensures P.Carries(up.cs, p'.storing, c.hash) {
      if p.StoreFails? {
        StillCarried(up.cs, j.pool.storing, p.i, c.hash);
      } else {
        MoreCarry(up.cs, j.pool.storing, p'.storing, c.hash);
      }
    }
  }

  // ---- Store steps ----

  lemma OutsideKeepsHoldings(h: D.Blob -> string, up: Upload, j: Joint, st: D.Step)
    requires up.u in j.store.uploads && D.ChunkStep(st) && D.ChunkEnabled(h, j.store, st) && Outside(up, j, st)
    ensures var s' := D.ChunkNext(h, j.store, st);
      up.u in s'.uploads && s'.uploads[up.u] == j.store.uploads[up.u]
  {
    match st
    case BeginUpload(_) =>
    case DedupHit(_, _) =>
    case LockChunk(_, _, _) =>
    case PutBlob(_) =>
    case CommitStore(_) =>
    case AbandonStore(_) =>
    case Compensate(_, _) =>
    case LoseCompensation(_, _) =>
    case EndUpload(_) =>
    case SweepLock(_) =>
    case SweepDeleteRow(c) => SweepKeepsHoldings(h, j.store, c);
    case SweepDeleteBlob(_, _) =>
  }

  lemma SweepKeepsHoldings(h: D.Blob -> string, s: D.State, c: ChunkId)
    requires D.ChunkEnabled(h, s, D.SweepDeleteRow(c))
    ensures D.ChunkNext(h, s, D.SweepDeleteRow(c)).uploads == s.uploads
    ensures forall u, d :: Holds(D.ChunkNext(h, s, D.SweepDeleteRow(c)), u, d) ==> Holds(s, u, d)
  {
    if Sweepable(s.index, c) && !D.Referenced(s.manifests, c) {
      assert D.ChunkNext(h, s, D.SweepDeleteRow(c)) == s.(index := s.index - {c}, locks := s.locks[c := D.Sweeper(true)]);
    } else {
      assert D.ChunkNext(h, s, D.SweepDeleteRow(c)) == s.(locks := s.locks - {c});
    }
  }

  /** Which lock of an upload a step can be about. */
  lemma OutsideKeepsLocks(h: D.Blob -> string, up: Upload, j: Joint, st: D.Step, c: ChunkId)
    requires D.ChunkStep(st) && D.ChunkEnabled(h, j.store, st)
    requires Holds(D.ChunkNext(h, j.store, st), up.u, c)
    ensures Holds(j.store, up.u, c) || (st.LockChunk? && st.u == up.u && st.c == c)
  {
    match st
    case BeginUpload(_) =>
    case DedupHit(_, _) =>
    case LockChunk(_, _, _) =>
    case PutBlob(_) =>
    case CommitStore(_) =>
    case AbandonStore(_) =>
    case Compensate(_, _) =>
    case LoseCompensation(_, _) =>
    case EndUpload(_) =>
    case SweepLock(_) =>
    case SweepDeleteRow(d) => SweepKeepsHoldings(h, j.store, d);
    case SweepDeleteBlob(_, _) =>
  }

  lemma OutsideObjectStep(s: D.State, up: Upload, j: Joint, st: D.Step)
    requires s == j.store && up.u in s.uploads && D.ObjectEnabled(s, st) && Outside(up, j, st)
    ensures var s' := D.ObjectNext(s, st);
      up.u in s'.uploads && s'.uploads[up.u] == s.uploads[up.u] && s'.locks == s.locks
  {
    match st
    case Commit(t) =>
    case Cleanup(_, _) =>
    case RejectedPlainPut(_, _) =>
    case DeletePlainBlob(_) =>
    case DeleteHead(_) =>
    case CloseAccount(_) =>
  }

  lemma OutsideStep(h: D.Blob -> string, up: Upload, j: Joint, st: D.Step)
    requires up.u in j.store.uploads && D.Enabled(h, j.store, st) && Outside(up, j, st)
    ensures var s' := D.Next(h, j.store, st);
      && up.u in s'.uploads && s'.uploads[up.u] == j.store.uploads[up.u]
      && forall c :: Holds(s', up.u, c) ==> Holds(j.store, up.u, c) || (st.LockChunk? && st.u == up.u && st.c == c)
  {
    if D.ChunkStep(st) {
      OutsideKeepsHoldings(h, up, j, st);
      forall c | Holds(D.ChunkNext(h, j.store, st), up.u, c)
        ensures Holds(j.store, up.u, c) || (st.LockChunk? && st.u == up.u && st.c == c)
      {
        OutsideKeepsLocks(h, up, j, st, c);
      }
    } else if D.TxnStep(st) || st.ResetRows? {
      assert D.Next(h, j.store, st).uploads == j.store.uploads && D.Next(h, j.store, st).locks == j.store.locks;
    } else {
      OutsideObjectStep(j.store, up, j, st);
    }
  }

  lemma StoreStepKeeps(h: D.Blob -> string, up: Upload, j: Joint, st: D.Step)
    requires Coupled(up, j) && Enabled(h, up, j, StoreStep(st))
    ensures Coupled(up, Next(h, up, j, StoreStep(st)))
  {
    OutsideStep(h, up, j, st);
  }

  // ---- Steps of both ----

  /** One more grant on chunk `i`, one more reference held on its id. */
  lemma GrantKeeps(up: Upload, j: Joint, j': Joint, i: nat)
    requires HoldingsAreGrants(up, j) && i < |up.cs| && j'.pool.granted == j.pool.granted + multiset{i}
    requires up.u in j'.store.uploads && j'.store.uploads[up.u] == j.store.uploads[up.u] + multiset{Id(up, i)}
    ensures HoldingsAreGrants(up, j')
  {
    forall c ensures j'.store.uploads[up.u][c]
                  == if c.scope == up.scope then T.GrantedOn(up.cs, |up.cs|, j'.pool.granted, c.hash) else 0
    {
      T.OneMoreGrant(up.cs, |up.cs|, j.pool.granted, j'.pool.granted, i, c.hash);
    }
  }

  lemma HitKeeps(h: D.Blob -> string, up: Upload, j: Joint, s: D.Step)
    requires Coupled(up, j) && Enabled(h, up, j, Together(P.DedupHit, s))
    ensures HoldingsAreGrants(up, Next(h, up, j, Together(P.DedupHit, s)))
    ensures LocksAreStores(up, Next(h, up, j, Together(P.DedupHit, s)))
  {
    GrantKeeps(up, j, Next(h, up, j, Together(P.DedupHit, s)), j.pool.next);
  }

  /** A waiter's chunk has the hash of the chunk it waited for. */
  lemma WaiterKeeps(h: D.Blob -> string, up: Upload, j: Joint, s: D.Step)
    requires Coupled(up, j) && Enabled(h, up, j, Together(P.GrantWaiter, s))
    ensures HoldingsAreGrants(up, Next(h, up, j, Together(P.GrantWaiter, s)))
    ensures LocksAreStores(up, Next(h, up, j, Together(P.GrantWaiter, s)))
  {
    var w := j.pool.collector.waiters[0];
    assert P.WaitersRight(up.cs, up.cs[j.pool.collector.chunk].hash, j.pool.collector.waiters);
    assert Id(up, w.index) == Id(up, j.pool.collector.chunk);
    GrantKeeps(up, j, Next(h, up, j, Together(P.GrantWaiter, s)), w.index);
  }

  lemma SettleKeepsLocks(up: Upload, j: Joint, j': Joint, i: nat)
    requires LocksAreStores(up, j) && i < |up.cs| && j'.pool.storing == j.pool.storing - multiset{i}
    requires forall c :: Holds(j'.store, up.u, c) ==> Holds(j.store, up.u, c) && c != Id(up, i)
    ensures LocksAreStores(up, j')
  {
    forall c | Holds(j'.store, up.u, c) ensures P.Carries(up.cs, j'.pool.storing, c.hash) {
      StillCarried(up.cs, j.pool.storing, i, c.hash);
    }
  }

  lemma StoreOkKeeps(h: D.Blob -> string, up: Upload, j: Joint, i: nat, s: D.Step)
    requires Coupled(up, j) && Enabled(h, up, j, Together(P.StoreOk(i), s))
    ensures HoldingsAreGrants(up, Next(h, up, j, Together(P.StoreOk(i), s)))
    ensures LocksAreStores(up, Next(h, up, j, Together(P.StoreOk(i), s)))
  {
    var j' := Next(h, up, j, Together(P.StoreOk(i), s));
    assert j'.store.locks == j.store.locks - {Id(up, i)};
    GrantKeeps(up, j, j', i);
    SettleKeepsLocks(up, j, j', i);
  }

  lemma StoreFailsKeeps(h: D.Blob -> string, up: Upload, j: Joint, i: nat, s: D.Step)
    requires Coupled(up, j) && Enabled(h, up, j, Together(P.StoreFails(i), s))
    ensures HoldingsAreGrants(up, Next(h, up, j, Together(P.StoreFails(i), s)))
    ensures LocksAreStores(up, Next(h, up, j, Together(P.StoreFails(i), s)))
  {
    var j' := Next(h, up, j, Together(P.StoreFails(i), s));
    assert j'.store.locks == j.store.locks - {Id(up, i)};
    SettleKeepsLocks(up, j, j', i);
  }

  lemma StepKeepsCoupled(h: D.Blob -> string, up: Upload, j: Joint, st: Step)
    requires Coupled(up, j) && Enabled(h, up, j, st)
    ensures Coupled(up, Next(h, up, j, st))
  {
    match st
    case PoolStep(p) => PoolStepKeeps(h, up, j, p);
    case StoreStep(s) => StoreStepKeeps(h, up, j, s);
    case Together(p, s) =>
      P.StepKeepsInv(up.cs, up.workers, j.pool, p);
      match p
      case DedupHit => HitKeeps(h, up, j, s);
      case GrantWaiter => WaiterKeeps(h, up, j, s);
      case StoreOk(i) => StoreOkKeeps(h, up, j, i, s);
      case StoreFails(i) => StoreFailsKeeps(h, up, j, i, s);
  }

  // ---- Whole runs ----

  ghost predicate ValidRun(h: D.Blob -> string, up: Upload, j: Joint, run: seq<Step>)
    decreases |run|
  {
    run == [] || (Enabled(h, up, j, run[0]) && ValidRun(h, up, Next(h, up, j, run[0]), run[1..]))
  }

  ghost function Final(h: D.Blob -> string, up: Upload, j: Joint, run: seq<Step>): Joint
    requires ValidRun(h, up, j, run)
    decreases |run|
  {
    if run == [] then j else Final(h, up, Next(h, up, j, run[0]), run[1..])
  }

  /** What a joint run does to the pool. */
  function PoolRun(run: seq<Step>): seq<P.Step> {
    if run == [] then [] else (if run[0].StoreStep? then [] else [run[0].p]) + PoolRun(run[1..])
  }

  function StoreRun(run: seq<Step>): seq<D.Step> {
    if run == [] then [] else (if run[0].PoolStep? then [] else [run[0].s]) + StoreRun(run[1..])
  }

  lemma PoolCons(up: Upload, p: P.Pool, st: P.Step, rest: seq<P.Step>)
    requires P.Enabled(up.cs, up.workers, p, st)
    requires T.ValidRun(up.cs, up.workers, P.Next(up.cs, up.workers, p, st), rest)
    ensures T.ValidRun(up.cs, up.workers, p, [st] + rest)
    ensures T.Final(up.cs, up.workers, p, [st] + rest) == T.Final(up.cs, up.workers, P.Next(up.cs, up.workers, p, st), rest)
  {
    assert ([st] + rest)[0] == st && ([st] + rest)[1..] == rest;
  }

  /** A joint run is a run of the pool and a run of the store. */
  lemma {:induction false} RunsProject(h: D.Blob -> string, up: Upload, j: Joint, run: seq<Step>)
    requires ValidRun(h, up, j, run)
    ensures T.ValidRun(up.cs, up.workers, j.pool, PoolRun(run)) && S.ValidRun(h, j.store, StoreRun(run))
    ensures Final(h, up, j, run)
         == Joint(T.Final(up.cs, up.workers, j.pool, PoolRun(run)), S.Final(h, j.store, StoreRun(run)))
    decreases |run|
  {
    if run != [] {
      var st, rest := run[0], run[1..];
      RunsProject(h, up, Next(h, up, j, st), rest);
      if !st.StoreStep? {
        PoolCons(up, j.pool, st.p, PoolRun(rest));
      } else {
        assert [] + PoolRun(rest) == PoolRun(rest);
      }
      if !st.PoolStep? {
        S.RunCons(h, j.store, st.s, StoreRun(rest));
      } else {
        assert [] + StoreRun(rest) == StoreRun(rest);
      }
    }
  }

  /** In every state of every joint run the upload holds exactly what its pool was granted. */
  lemma {:induction false} RunKeepsCoupled(h: D.Blob -> string, up: Upload, j: Joint, run: seq<Step>)
    requires Coupled(up, j) && ValidRun(h, up, j, run)
    ensures Coupled(up, Final(h, up, j, run))
    decreases |run|
  {
    if run != [] {
      StepKeepsCoupled(h, up, j, run[0]);
      RunKeepsCoupled(h, up, Next(h, up, j, run[0]), run[1..]);
    }
  }

  // ---- After join ----

  function Ids(scope: string, hashes: seq<string>): seq<ChunkId> {
    seq(|hashes|, i requires 0 <= i < |hashes| => ChunkId(scope, hashes[i]))
  }

  lemma {:induction false} IdsCount(scope: string, hashes: seq<string>, c: ChunkId)
    ensures multiset(Ids(scope, hashes))[c] == if c.scope == scope then multiset(hashes)[c.hash] else 0
    decreases |hashes|
  {
    if hashes == [] {
      assert Ids(scope, hashes) == [];
    } else {
      var n := |hashes| - 1;
      IdsCount(scope, hashes[..n], c);
      assert hashes == hashes[..n] + [hashes[n]];
      assert Ids(scope, hashes) == Ids(scope, hashes[..n]) + [ChunkId(scope, hashes[n])];
    }
  }

  /** Once its pool has joined, no store of the upload holds a lock. */
  lemma JoinedPoolHoldsNoLock(up: Upload, j: Joint)
    requires Coupled(up, j) && P.Joined(up.workers, j.pool)
    ensures D.Joined(j.store, up.u)
  {
    T.JoinedIsQuiet(up.cs, up.workers, j.pool);
    forall c | c in j.store.locks && j.store.locks[c].Storer? ensures j.store.locks[c].upload != up.u {
      assert !P.Carries(up.cs, j.pool.storing, c.hash);
      assert !Holds(j.store, up.u, c);
    }
  }

  lemma HoldsExactly(up: Upload, j: Joint, hashes: seq<string>)
    requires HoldingsAreGrants(up, j)
    requires forall hash :: multiset(hashes)[hash] == T.GrantedOn(up.cs, |up.cs|, j.pool.granted, hash)
    ensures j.store.uploads[up.u] == multiset(Ids(up.scope, hashes))
  {
    forall c ensures j.store.uploads[up.u][c] == multiset(Ids(up.scope, hashes))[c] {
      IdsCount(up.scope, hashes, c);
    }
  }

  /**
   However the upload ended and whatever others did meanwhile: the snapshot its pool leaves behind can be released
   step by step, which takes each count down by exactly what the upload had been granted.
   */
  lemma JoinedUploadCompensates(h: D.Blob -> string, up: Upload, s: D.State, run: seq<Step>)
    requires I.LocksSound(h, s) && up.u !in s.uploads && ValidRun(h, up, Start(up, s), run)
    requires P.Joined(up.workers, Final(h, up, Start(up, s), run).pool)
    ensures var e := Final(h, up, Start(up, s), run);
      var undo := S.CompensateAll(up.u, Ids(up.scope, e.pool.takenRefs));
      && up.u in e.store.uploads && S.ValidRun(h, e.store, undo) && up.u !in S.Final(h, e.store, undo).uploads
      && forall c :: c in e.store.index ==>
           Count(S.Final(h, e.store, undo).index, c) == Count(e.store.index, c) - e.store.uploads[up.u][c]
  {
    var e := Final(h, up, Start(up, s), run);
    StartCoupled(h, up, s);
    RunKeepsCoupled(h, up, Start(up, s), run);
    RunsProject(h, up, Start(up, s), run);
    JoinedPoolHoldsNoLock(up, e);
    forall hash ensures multiset(e.pool.takenRefs)[hash] == T.GrantedOn(up.cs, |up.cs|, e.pool.granted, hash) {
      T.CompensationSnapshotIsExact(up.cs, up.workers, PoolRun(run), hash);
    }
    HoldsExactly(up, e, e.pool.takenRefs);
    S.CompensationIsExact(h, e.store, up.u, Ids(up.scope, e.pool.takenRefs));
  }

  /** When join reports no error, the sorted rows are a manifest the upload holds every reference of: it can be installed. */
  lemma JoinedUploadInstalls(h: D.Blob -> string, up: Upload, s: D.State, run: seq<Step>, sorted: seq<P.RefRow>,
                             pieces: seq<D.Blob>, k: ObjKey)
    requires I.LocksSound(h, s) && up.u !in s.uploads && ValidRun(h, up, Start(up, s), run)
    requires var p := Final(h, up, Start(up, s), run).pool;
      P.Joined(up.workers, p) && !p.firstErr && T.SortedRefs(p.newRefs, sorted)
    requires |pieces| == |sorted| > 0 && forall i :: 0 <= i < |sorted| ==> pieces[i] != "" && h(pieces[i]) == sorted[i].hash
    ensures var e := Final(h, up, Start(up, s), run);
      && up.u in e.store.uploads && e.store.uploads[up.u] == multiset(Ids(up.scope, T.Hashes(sorted)))
      && D.JobOpens(h, e.store, k, D.PutManifest(up.u, Ids(up.scope, T.Hashes(sorted)), pieces))
  {
    var e := Final(h, up, Start(up, s), run);
    StartCoupled(h, up, s);
    RunKeepsCoupled(h, up, Start(up, s), run);
    RunsProject(h, up, Start(up, s), run);
    JoinedPoolHoldsNoLock(up, e);
    forall hash ensures multiset(T.Hashes(sorted))[hash] == T.GrantedOn(up.cs, |up.cs|, e.pool.granted, hash) {
      T.ManifestIsWhatWasGranted(up.cs, up.workers, PoolRun(run), sorted, hash);
    }
    HoldsExactly(up, e, T.Hashes(sorted));
  }
}
