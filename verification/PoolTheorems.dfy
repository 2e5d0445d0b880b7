/** What the store pool guarantees whatever the schedule of its goroutines. */
module PoolTheorems {
  import opened MapSums
  import opened StorePool

  predicate ValidRun(cs: seq<Chunk>, workers: nat, p: Pool, run: seq<Step>)
    decreases |run|
  {
    run == [] || (Enabled(cs, workers, p, run[0]) && ValidRun(cs, workers, Next(cs, workers, p, run[0]), run[1..]))
  }

  function Final(cs: seq<Chunk>, workers: nat, p: Pool, run: seq<Step>): Pool
    requires ValidRun(cs, workers, p, run)
    decreases |run|
  {
    if run == [] then p else Final(cs, workers, Next(cs, workers, p, run[0]), run[1..])
  }

  lemma {:induction false} RunKeepsInv(cs: seq<Chunk>, workers: nat, p: Pool, run: seq<Step>)
    requires Inv(cs, workers, p) && ValidRun(cs, workers, p, run)
    ensures Inv(cs, workers, Final(cs, workers, p, run))
    decreases |run|
  {
    if run != [] {
      StepKeepsInv(cs, workers, p, run[0]);
      RunKeepsInv(cs, workers, Next(cs, workers, p, run[0]), run[1..]);
    }
  }

  // ---- The manifest ----

  /** The manifest of the first `n` chunks: one row each, in order, at the running offset. */
  function Manifest(cs: seq<Chunk>, n: nat): seq<RefRow>
    requires n <= |cs|
  {
    seq(n, i requires 0 <= i < n => RefRow(i, Offset(cs, i), cs[i].hash))
  }

  /** A result of sorting rows by chunk index. */
  ghost predicate SortedRefs(rows: seq<RefRow>, sorted: seq<RefRow>) {
    && multiset(sorted) == multiset(rows)
    && forall i, j :: 0 <= i < j < |sorted| ==> sorted[i].index <= sorted[j].index
  }

  lemma RemoveAt<T>(s: seq<T>, k: nat)
    requires k < |s|
    ensures multiset(s) == multiset(s[..k] + s[k + 1..]) + multiset{s[k]}
  {
    assert s == s[..k] + [s[k]] + s[k + 1..];
  }

  lemma Find<T>(s: seq<T>, x: T) returns (k: nat)
    requires x in multiset(s)
    ensures k < |s| && s[k] == x
  {
    k :| 0 <= k < |s| && s[k] == x;
  }

  lemma TakeOut(rows: seq<RefRow>, k: nat)
    requires k < |rows|
    ensures multiset(rows) == multiset(rows[..k] + rows[k + 1..]) + multiset{rows[k]}
    ensures multiset(RowIndices(rows)) == multiset(RowIndices(rows[..k] + rows[k + 1..])) + multiset{rows[k].index}
  {
    RemoveAt(rows, k);
    RemoveAt(RowIndices(rows), k);
    assert RowIndices(rows)[..k] + RowIndices(rows)[k + 1..] == RowIndices(rows[..k] + rows[k + 1..]);
  }

  lemma Cancel<T>(a: multiset<T>, b: multiset<T>, x: T)
    requires a + multiset{x} == b + multiset{x}
    ensures a == b
  {
    forall c ensures a[c] == b[c] {
      assert (a + multiset{x})[c] == (b + multiset{x})[c];
    }
  }

  lemma {:induction false} PermutedIndices(a: seq<RefRow>, b: seq<RefRow>)
    requires multiset(a) == multiset(b)
    ensures multiset(RowIndices(a)) == multiset(RowIndices(b))
    decreases |a|
  {
    if a == [] {
      assert |multiset(b)| == |b|;
    } else {
      assert a[0] in multiset(a);
      var k := Find(b, a[0]);
      var restA, restB := a[..0] + a[1..], b[..k] + b[k + 1..];
      TakeOut(a, 0);
      TakeOut(b, k);
      Cancel(multiset(restA), multiset(restB), a[0]);
      PermutedIndices(restA, restB);
    }
  }

  /** An ascending list holding each number below `n` once is 0, 1, ..., n - 1. */
  lemma {:induction false} AscendingIsCounting(s: seq<nat>, n: nat)
    requires forall i: nat :: multiset(s)[i] == One(i < n)
    requires forall i, j :: 0 <= i < j < |s| ==> s[i] <= s[j]
    ensures |s| == n && forall i :: 0 <= i < n ==> s[i] == i
    decreases n
  {
    if n == 0 {
      assert multiset(s) == multiset{};
      assert |s| == |multiset(s)|;
    } else {
      var last := LastIsGreatest(s, n);
      RemoveAt(s, last);
      assert s[..last] + s[last + 1..] == s[..last];
      forall i: nat ensures multiset(s[..last])[i] == One(i < n - 1) {
        assert multiset(s)[i] == One(i < n);
      }
      AscendingIsCounting(s[..last], n - 1);
    }
  }

  lemma LastIsGreatest(s: seq<nat>, n: nat) returns (last: nat)
    requires n > 0 && forall i: nat :: multiset(s)[i] == One(i < n)
    requires forall i, j :: 0 <= i < j < |s| ==> s[i] <= s[j]
    ensures last + 1 == |s| && s[last] == n - 1
  {
    assert multiset(s)[n - 1] == 1;
    var k :| 0 <= k < |s| && s[k] == n - 1;
    last := |s| - 1;
    assert s[last] in multiset(s);
    assert multiset(s)[s[last]] == One(s[last] < n);
  }

  /** Once joined, nothing is with a worker, in flight, or with the collector. */
  lemma JoinedIsQuiet(cs: seq<Chunk>, workers: nat, p: Pool)
    requires Inv(cs, workers, p) && Joined(workers, p)
    ensures p.storing == p.stored == p.failed == multiset{} && p.inFlight == map[] && Waiting(p.inFlight) == multiset{}
  {
    assert |p.storing| == 0 && |p.stored| == 0 && |p.failed| == 0;
    assert p.storing + p.stored + p.failed == multiset{};
    forall hash ensures hash !in p.inFlight {
      assert !Carries(cs, multiset{}, hash);
    }
    assert p.inFlight == map[];
    assert WaitingBy(map[]) == map[];
  }

  /** With no error and nothing in transit, every dispatched chunk is recorded exactly once. */
  lemma AllRecorded(cs: seq<Chunk>, workers: nat, p: Pool, i: nat)
    requires Inv(cs, workers, p) && Joined(workers, p) && !p.firstErr
    ensures multiset(RowIndices(p.newRefs))[i] == One(i < p.next) == p.granted[i]
  {
    JoinedIsQuiet(cs, workers, p);
    assert Places(p, i) == One(i < p.next);
  }

  lemma SortedIsManifest(cs: seq<Chunk>, n: nat, rows: seq<RefRow>, sorted: seq<RefRow>)
    requires n <= |cs| && SortedRefs(rows, sorted)
    requires forall i :: 0 <= i < |rows| ==> RowRight(cs, rows[i])
    requires forall i: nat :: multiset(RowIndices(rows))[i] == One(i < n)
    ensures sorted == Manifest(cs, n)
  {
    PermutedIndices(sorted, rows);
    AscendingIsCounting(RowIndices(sorted), n);
    forall i | 0 <= i < |sorted| ensures sorted[i] == Manifest(cs, n)[i] {
      assert RowIndices(sorted)[i] == i;
      assert sorted[i] in multiset(sorted);
      var k := Find(rows, sorted[i]);
    }
  }

  /**
   Schedule independence. If join reports no error then, for every interleaving and every pattern of repeated
   chunks, sorting the recorded rows gives the one manifest of the dispatched chunks, and the index granted
   exactly one reference per row.
   */
  lemma JoinedManifest(cs: seq<Chunk>, workers: nat, run: seq<Step>, sorted: seq<RefRow>)
    requires ValidRun(cs, workers, Start(workers), run)
    requires var p := Final(cs, workers, Start(workers), run);
      Joined(workers, p) && !p.firstErr && SortedRefs(p.newRefs, sorted)
    ensures var p := Final(cs, workers, Start(workers), run);
      && p.next <= |cs| && sorted == Manifest(cs, p.next)
      && forall i: nat :: p.granted[i] == One(i < p.next)
  {
    var p := Final(cs, workers, Start(workers), run);
    StartInv(cs, workers);
    RunKeepsInv(cs, workers, Start(workers), run);
    forall i: nat ensures multiset(RowIndices(p.newRefs))[i] == One(i < p.next) == p.granted[i] {
      AllRecorded(cs, workers, p, i);
    }
    SortedIsManifest(cs, p.next, p.newRefs, sorted);
  }

  // ---- Compensation ----

  /** How many references on `hash` the grants on the first `n` chunks amount to. */
  ghost function GrantedOn(cs: seq<Chunk>, n: nat, granted: multiset<nat>, hash: string): nat
    requires n <= |cs|
  {
    if n == 0 then 0 else
      GrantedOn(cs, n - 1, granted, hash) + (if cs[n - 1].hash == hash then granted[n - 1] else 0)
  }

  lemma {:induction false} OneMoreGrant(cs: seq<Chunk>, n: nat, granted: multiset<nat>, more: multiset<nat>, i: nat, hash: string)
    requires n <= |cs| && forall j: nat :: more[j] == granted[j] + One(i == j)
    ensures GrantedOn(cs, n, more, hash) == GrantedOn(cs, n, granted, hash) + One(i < n && cs[i].hash == hash)
  {
    if n > 0 {
      OneMoreGrant(cs, n - 1, granted, more, i, hash);
    }
  }

  lemma {:induction false} NoGrants(cs: seq<Chunk>, n: nat, granted: multiset<nat>, hash: string)
    requires n <= |cs| && forall j: nat :: granted[j] == 0
    ensures GrantedOn(cs, n, granted, hash) == 0
  {
    if n > 0 {
      NoGrants(cs, n - 1, granted, hash);
    }
  }

  lemma {:induction false} TakenCountsRows(cs: seq<Chunk>, rows: seq<RefRow>, taken: seq<string>, hash: string)
    requires |taken| == |rows|
    requires forall j :: 0 <= j < |rows| ==> RowRight(cs, rows[j]) && taken[j] == rows[j].hash
    ensures multiset(taken)[hash] == GrantedOn(cs, |cs|, multiset(RowIndices(rows)), hash)
    decreases |rows|
  {
    if rows == [] {
      NoGrants(cs, |cs|, multiset(RowIndices(rows)), hash);
    } else {
      var n := |rows| - 1;
      assert rows == rows[..n] + [rows[n]] && taken == taken[..n] + [taken[n]];
      TakenCountsRows(cs, rows[..n], taken[..n], hash);
      forall j: nat ensures multiset(RowIndices(rows))[j] == multiset(RowIndices(rows[..n]))[j] + One(rows[n].index == j) {
        AppendRow(rows[..n], rows[n], j);
      }
      OneMoreGrant(cs, |cs|, multiset(RowIndices(rows[..n])), multiset(RowIndices(rows)), rows[n].index, hash);
    }
  }

  /**
   Exact compensation. However the upload ended, the snapshot taken after join lists each hash exactly as
   often as the index granted this upload a reference on it: stores that committed after the first error
   and partly granted waiters included.
   */
  lemma CompensationSnapshotIsExact(cs: seq<Chunk>, workers: nat, run: seq<Step>, hash: string)
    requires ValidRun(cs, workers, Start(workers), run) && Joined(workers, Final(cs, workers, Start(workers), run))
    ensures var p := Final(cs, workers, Start(workers), run);
      multiset(p.takenRefs)[hash] == GrantedOn(cs, |cs|, p.granted, hash)
  {
    var p := Final(cs, workers, Start(workers), run);
    StartInv(cs, workers);
    RunKeepsInv(cs, workers, Start(workers), run);
    JoinedIsQuiet(cs, workers, p);
    TakenCountsRows(cs, p.newRefs, p.takenRefs, hash);
    forall i: nat ensures p.granted[i] == multiset(RowIndices(p.newRefs))[i] {
    }
    assert p.granted == multiset(RowIndices(p.newRefs));
  }

  function Hashes(rows: seq<RefRow>): seq<string> {
    seq(|rows|, i requires 0 <= i < |rows| => rows[i].hash)
  }

  /**
   What the upload installs is what it holds: when join reports no error, the manifest names each hash exactly as
   often as the index granted this upload a reference on it. `JointUpload` runs the pool inside the store.
   */
  lemma ManifestIsWhatWasGranted(cs: seq<Chunk>, workers: nat, run: seq<Step>, sorted: seq<RefRow>, hash: string)
    requires ValidRun(cs, workers, Start(workers), run)
    requires var p := Final(cs, workers, Start(workers), run);
      Joined(workers, p) && !p.firstErr && SortedRefs(p.newRefs, sorted)
    ensures multiset(Hashes(sorted))[hash] == GrantedOn(cs, |cs|, Final(cs, workers, Start(workers), run).granted, hash)
  {
    var p := Final(cs, workers, Start(workers), run);
    JoinedManifest(cs, workers, run, sorted);
    TakenCountsRows(cs, sorted, Hashes(sorted), hash);
    forall i: nat ensures multiset(RowIndices(sorted))[i] == p.granted[i] {
      CountingHasEach(RowIndices(sorted), p.next, i);
    }
    assert multiset(RowIndices(sorted)) == p.granted;
  }

  /** 0, 1, ..., n - 1 holds each number below `n` once. */
  lemma {:induction false} CountingHasEach(s: seq<nat>, n: nat, i: nat)
    requires |s| == n && forall j :: 0 <= j < n ==> s[j] == j
    ensures multiset(s)[i] == One(i < n)
  {
    if n > 0 {
      assert s == s[..n - 1] + [s[n - 1]];
      CountingHasEach(s[..n - 1], n - 1, i);
    }
  }

  // ---- Progress ----

  function DispatcherWeight(d: Dispatcher): nat {
    match d
    case Ready => 6
    case Deciding => 5
    case Granted => 4
    case Sending => 4
    case Closed => 0
  }

  function CollectorWeight(c: Collector): nat {
    match c
    case Idle => 1
    case Recording(_, ws) => 3 + 5 * |ws|
    case Granting(_, ws) => 2 + 5 * |ws|
    case WaiterGranted(_, ws) => 1 + 5 * |ws|
    case Done => 0
  }

  /** The work left; every step of every goroutine lowers it. */
  ghost function Work(cs: seq<Chunk>, p: Pool): int {
    12 * (|cs| - p.next) + DispatcherWeight(p.dispatcher) + p.idle + 8 * |p.storing| + 7 * |p.stored| + 7 * |p.failed|
    + 5 * |Waiting(p.inFlight)| + CollectorWeight(p.collector)
  }

  lemma PutSize(p: Pool, hash: string, ws: seq<Waiter>)
    ensures |Waiting(p.inFlight[hash := ws])| + |Waiters(p, hash)| == |Waiting(p.inFlight)| + |ws|
  {
    var before, after := multiset(Indices(Waiters(p, hash))), multiset(Indices(ws));
    forall i: nat ensures (Waiting(p.inFlight[hash := ws]) + before)[i] == (Waiting(p.inFlight) + after)[i] {
      WaitingPut(p, hash, ws, i);
    }
    var left, right := Waiting(p.inFlight[hash := ws]), Waiting(p.inFlight);
    assert left + before == right + after;
    assert |left + before| == |left| + |before| && |right + after| == |right| + |after|;
    assert |before| == |Indices(Waiters(p, hash))| && |after| == |Indices(ws)|;
  }

  lemma DropSize(p: Pool, hash: string)
    ensures |Waiting(p.inFlight - {hash})| + |Waiters(p, hash)| == |Waiting(p.inFlight)|
  {
    var before := multiset(Indices(Waiters(p, hash)));
    forall i: nat ensures (Waiting(p.inFlight - {hash}) + before)[i] == Waiting(p.inFlight)[i] {
      WaitingDrop(p, hash, i);
    }
    assert Waiting(p.inFlight - {hash}) + before == Waiting(p.inFlight);
    assert |Waiting(p.inFlight - {hash})| + |before| == |Waiting(p.inFlight)|;
  }

  lemma DispatcherWorks(cs: seq<Chunk>, workers: nat, p: Pool, st: Step)
    requires WorkersCounted(cs, workers, p) && Enabled(cs, workers, p, st) && DispatcherStep(st)
    ensures Work(cs, DispatcherNext(cs, p, st)) < Work(cs, p)
  {
    match st
    case NoteDuplicate =>
      var hash := cs[p.next].hash;
      PutSize(p, hash, p.inFlight[hash] + [Waiter(p.next, Offset(cs, p.next))]);
    case Submit => PutSize(p, cs[p.next].hash, []);
    case HandJob => MoveOne(p.storing, p.next);
    case _ =>
  }

  lemma OutcomeWorks(cs: seq<Chunk>, p: Pool, i: nat, hash: string)
    requires p.collector == Idle
    ensures i in p.stored ==> Work(cs, TakeStored(p, i, hash)) < Work(cs, p)
    ensures i in p.failed ==> Work(cs, TakeFailed(p, i, hash)) < Work(cs, p)
  {
    DropSize(p, hash);
    MoveOne(p.stored, i);
    MoveOne(p.failed, i);
  }

  lemma StoreWorks(cs: seq<Chunk>, p: Pool, i: nat)
    requires i in p.storing
    ensures Work(cs, CommitStore(p, i)) < Work(cs, p)
    ensures Work(cs, p.(storing := p.storing - multiset{i}, failed := p.failed + multiset{i})) < Work(cs, p)
  {
    MoveOne(p.storing, i);
    MoveOne(p.stored, i);
    MoveOne(p.failed, i);
  }

  /** The collector's own steps only touch its place, the recorded rows and the history. */
  lemma CollectorWorks(cs: seq<Chunk>, p: Pool, row: RefRow, c: Collector)
    requires CollectorWeight(c) < CollectorWeight(p.collector)
    ensures Work(cs, p.(collector := c)) < Work(cs, p)
    ensures Work(cs, AddRef(p, row).(collector := c)) < Work(cs, p)
  {
  }

  lemma CollectorStepWorks(cs: seq<Chunk>, workers: nat, p: Pool, st: Step)
    requires Enabled(cs, workers, p, st) && !DispatcherStep(st) && !WorkerStep(st)
    ensures Work(cs, CollectorNext(cs, workers, p, st)) < Work(cs, p)
  {
    match st
    case CollectOk(i) => OutcomeWorks(cs, p, i, cs[i].hash);
    case CollectFailure(i) => OutcomeWorks(cs, p, i, cs[i].hash);
    case Record =>
      var i := p.collector.chunk;
      CollectorWorks(cs, p, RefRow(i, Offset(cs, i), cs[i].hash), Granting(i, p.collector.waiters));
    case RecordWaiter =>
      var i, w := p.collector.chunk, p.collector.waiters[0];
      CollectorWorks(cs, p, RefRow(w.index, w.offset, cs[i].hash), Granting(i, p.collector.waiters[1..]));
    case GrantWaiter =>
    case GrantFails =>
    case GrantsDone =>
    case CollectorEnds =>
  }

  /** Every step brings join closer. */
  lemma StepWorks(cs: seq<Chunk>, workers: nat, p: Pool, st: Step)
    requires WorkersCounted(cs, workers, p) && Enabled(cs, workers, p, st)
    ensures Work(cs, Next(cs, workers, p, st)) < Work(cs, p)
  {
    if DispatcherStep(st) {
      DispatcherWorks(cs, workers, p, st);
    } else {
      match st
      case StoreOk(i) => StoreWorks(cs, p, i);
      case StoreFails(i) => StoreWorks(cs, p, i);
      case WorkerExits =>
      case _ => CollectorStepWorks(cs, workers, p, st);
    }
  }

  /** The pool never deadlocks: until join can return, some goroutine can take a step. */
  lemma NeverStuck(cs: seq<Chunk>, workers: nat, p: Pool) returns (st: Step)
    requires Inv(cs, workers, p) && !Joined(workers, p) && workers > 0
    ensures Enabled(cs, workers, p, st)
  {
    match p.collector {
      case Recording(_, _) => return Record;
      case Granting(_, ws) => return if ws == [] then GrantsDone else GrantWaiter;
      case WaiterGranted(_, _) => return RecordWaiter;
      case _ =>
    }
    match p.dispatcher {
      case Ready => return StreamEnds;
      case Deciding => return DedupHit;
      case Granted => return RecordHit;
      case _ =>
    }
    if p.dispatcher == Sending && p.idle > 0 {
      return HandJob;
    }
    if i :| i in p.storing {
      return StoreOk(i);
    }
    if i :| i in p.stored {
      return CollectOk(i);
    }
    if i :| i in p.failed {
      return CollectFailure(i);
    }
    assert p.storing == p.stored == p.failed == multiset{};
    st := if p.idle > 0 then WorkerExits else CollectorEnds;
  }

  /** So join always returns: no run is longer than the work there was at the start. */
  lemma {:induction false} RunsAreBounded(cs: seq<Chunk>, workers: nat, p: Pool, run: seq<Step>)
    requires Inv(cs, workers, p) && ValidRun(cs, workers, p, run)
    ensures |run| <= Work(cs, p)
    decreases |run|
  {
    if run != [] {
      StepWorks(cs, workers, p, run[0]);
      StepKeepsInv(cs, workers, p, run[0]);
      RunsAreBounded(cs, workers, Next(cs, workers, p, run[0]), run[1..]);
    }
  }

  /** A stuck run is a joined one, and it is no longer than twelve steps a chunk and a few per goroutine. */
  lemma JoinReturns(cs: seq<Chunk>, workers: nat, run: seq<Step>)
    requires workers > 0 && ValidRun(cs, workers, Start(workers), run)
    ensures |run| <= 12 * |cs| + workers + 7
    ensures var p := Final(cs, workers, Start(workers), run);
      (forall st :: !Enabled(cs, workers, p, st)) ==> Joined(workers, p)
  {
    StartInv(cs, workers);
    RunsAreBounded(cs, workers, Start(workers), run);
    assert WaitingBy(map[]) == map[];
    RunKeepsInv(cs, workers, Start(workers), run);
    var p := Final(cs, workers, Start(workers), run);
    if !Joined(workers, p) {
      var st := NeverStuck(cs, workers, p);
    }
  }
}
