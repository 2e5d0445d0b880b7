/**
 The worker pool inside one chunked PUT, as a small-step system: a dispatcher that makes every dedup
 decision, a bounded set of interchangeable workers, one collector, and two unbuffered channels. The
 index is arbitrary: each lookup, increment and store may succeed or fail as it likes.
 */
module StorePool {
  import opened MapSums

  datatype Chunk = Chunk(hash: string, size: nat)

  /** A later occurrence of a hash that is still being stored. */
  datatype Waiter = Waiter(index: nat, offset: nat)

  /** One manifest row. */
  datatype RefRow = RefRow(index: nat, offset: nat, hash: string)

  /** The dispatcher's place in its loop body; it is working on chunk number `next`. */
  datatype Dispatcher = Ready | Deciding | Granted | Sending | Closed

  datatype Collector =
    | Idle
    | Recording(chunk: nat, waiters: seq<Waiter>)
    | Granting(chunk: nat, waiters: seq<Waiter>)
    | WaiterGranted(chunk: nat, waiters: seq<Waiter>)
    | Done

  /**
   Workers are counted, not named: `idle` ones wait for a job, `storing` ones run a store, `stored` and
   `failed` ones wait to hand their outcome over. `granted` and `lost` are history variables: the chunks for
   which the index gave this upload a reference, and the chunks an error made the pool forget.
   */
  datatype Pool = Pool(
    next: nat, dispatcher: Dispatcher,
    idle: nat, storing: multiset<nat>, stored: multiset<nat>, failed: multiset<nat>, exited: nat,
    collector: Collector,
    firstErr: bool, newRefs: seq<RefRow>, takenRefs: seq<string>, inFlight: map<string, seq<Waiter>>,
    granted: multiset<nat>, lost: multiset<nat>)

  function Start(workers: nat): Pool {
    Pool(0, Ready, workers, multiset{}, multiset{}, multiset{}, 0, Idle, false, [], [], map[], multiset{}, multiset{})
  }

  datatype Step =
    | StreamError | StreamEnds | BreakOnFailure | NoteDuplicate | Decide | DecisionError | DedupHit | RecordHit
    | Submit | HandJob | StoreOk(i: nat) | StoreFails(i: nat) | CollectOk(i: nat) | CollectFailure(i: nat)
    | Record | GrantWaiter | GrantFails | RecordWaiter | GrantsDone | WorkerExits | CollectorEnds

  function Offset(cs: seq<Chunk>, i: nat): nat
    requires i <= |cs|
  {
    if i == 0 then 0 else Offset(cs, i - 1) + cs[i - 1].size
  }

  function Waiters(p: Pool, hash: string): seq<Waiter> {
    if hash in p.inFlight then p.inFlight[hash] else []
  }

  function AddRef(p: Pool, row: RefRow): Pool {
    p.(newRefs := p.newRefs + [row], takenRefs := p.takenRefs + [row.hash])
  }

  predicate Enabled(cs: seq<Chunk>, workers: nat, p: Pool, st: Step) {
    match st
    case StreamError => p.dispatcher == Ready
    case StreamEnds => p.dispatcher == Ready
    case BreakOnFailure => p.dispatcher == Ready && p.firstErr
    case NoteDuplicate => p.dispatcher == Ready && p.next < |cs| && cs[p.next].hash in p.inFlight
    case Decide => p.dispatcher == Ready && p.next < |cs| && cs[p.next].hash !in p.inFlight
    case DecisionError => p.dispatcher == Deciding
    case DedupHit => p.dispatcher == Deciding
    case RecordHit => p.dispatcher == Granted && p.next < |cs|
    case Submit => p.dispatcher == Deciding && p.next < |cs|
    case HandJob => p.dispatcher == Sending && p.next < |cs| && p.idle > 0
    case StoreOk(i) => i in p.storing
    case StoreFails(i) => i in p.storing
    case CollectOk(i) => p.collector == Idle && i in p.stored && i < |cs|
    case CollectFailure(i) => p.collector == Idle && i in p.failed && i < |cs|
    case Record => p.collector.Recording? && p.collector.chunk < |cs|
    case GrantWaiter => p.collector.Granting? && p.collector.waiters != []
    case GrantFails => p.collector.Granting? && p.collector.waiters != []
    case RecordWaiter => p.collector.WaiterGranted? && p.collector.waiters != [] && p.collector.chunk < |cs|
    case GrantsDone => p.collector.Granting? && p.collector.waiters == []
    case WorkerExits => p.dispatcher == Closed && p.idle > 0
    case CollectorEnds => p.dispatcher == Closed && p.exited == workers && p.collector == Idle
  }

  function DispatcherNext(cs: seq<Chunk>, p: Pool, st: Step): Pool
    requires Enabled(cs, 0, p, st)
  {
    match st
    case StreamError => p.(firstErr := true, dispatcher := Closed)
    case StreamEnds => p.(dispatcher := Closed)
    case BreakOnFailure => p.(dispatcher := Closed)
    case NoteDuplicate =>
      var hash := cs[p.next].hash;
      p.(inFlight := p.inFlight[hash := p.inFlight[hash] + [Waiter(p.next, Offset(cs, p.next))]], next := p.next + 1)
    case Decide => p.(dispatcher := Deciding)
    case DecisionError => p.(firstErr := true, dispatcher := Closed)
    case DedupHit => p.(granted := p.granted + multiset{p.next}, dispatcher := Granted)
    case RecordHit =>
      AddRef(p, RefRow(p.next, Offset(cs, p.next), cs[p.next].hash)).(dispatcher := Ready, next := p.next + 1)
    case Submit => p.(inFlight := p.inFlight[cs[p.next].hash := []], dispatcher := Sending)
    case HandJob =>
      p.(idle := p.idle - 1, storing := p.storing + multiset{p.next}, dispatcher := Ready, next := p.next + 1)
    case _ => p
  }

  /** The store's transaction is durable: the upload now owns one reference on chunk `i`. */
  function CommitStore(p: Pool, i: nat): Pool {
    p.(storing := p.storing - multiset{i}, stored := p.stored + multiset{i}, granted := p.granted + multiset{i})
  }

  function WorkerNext(cs: seq<Chunk>, workers: nat, p: Pool, st: Step): Pool
    requires Enabled(cs, workers, p, st)
  {
    match st
    case StoreOk(i) => CommitStore(p, i)
    case StoreFails(i) => p.(storing := p.storing - multiset{i}, failed := p.failed + multiset{i})
    case WorkerExits => p.(idle := p.idle - 1, exited := p.exited + 1)
    case _ => p
  }

  /** A worker hands over a committed store; the waiters on its hash come with it. */
  function TakeStored(p: Pool, i: nat, hash: string): Pool {
    p.(stored := p.stored - multiset{i}, idle := p.idle + 1, inFlight := p.inFlight - {hash},
       collector := Recording(i, Waiters(p, hash)))
  }

  /** A worker hands over a failed store; the waiters on its hash are dropped with it. */
  function TakeFailed(p: Pool, i: nat, hash: string): Pool {
    p.(failed := p.failed - multiset{i}, idle := p.idle + 1, inFlight := p.inFlight - {hash},
       firstErr := true, lost := p.lost + multiset([i] + Indices(Waiters(p, hash))))
  }

  function GrantNext(p: Pool, i: nat, ws: seq<Waiter>): Pool
    requires ws != []
  {
    p.(granted := p.granted + multiset{ws[0].index}, collector := WaiterGranted(i, ws))
  }

  function DropWaiters(p: Pool, ws: seq<Waiter>): Pool {
    p.(firstErr := true, lost := p.lost + multiset(Indices(ws)), collector := Idle)
  }

  function CollectorNext(cs: seq<Chunk>, workers: nat, p: Pool, st: Step): Pool
    requires Enabled(cs, workers, p, st)
  {
    match st
    case CollectOk(i) => TakeStored(p, i, cs[i].hash)
    case CollectFailure(i) => TakeFailed(p, i, cs[i].hash)
    case Record =>
      var i := p.collector.chunk;
      AddRef(p, RefRow(i, Offset(cs, i), cs[i].hash)).(collector := Granting(i, p.collector.waiters))
    case GrantWaiter => GrantNext(p, p.collector.chunk, p.collector.waiters)
    case GrantFails => DropWaiters(p, p.collector.waiters)
    case RecordWaiter =>
      var w := p.collector.waiters[0];
      AddRef(p, RefRow(w.index, w.offset, cs[p.collector.chunk].hash))
        .(collector := Granting(p.collector.chunk, p.collector.waiters[1..]))
    case GrantsDone => p.(collector := Idle)
    case CollectorEnds => p.(collector := Done)
    case _ => p
  }

  predicate DispatcherStep(st: Step) {
    || st.StreamError? || st.StreamEnds? || st.BreakOnFailure? || st.NoteDuplicate? || st.Decide?
    || st.DecisionError? || st.DedupHit? || st.RecordHit? || st.Submit? || st.HandJob?
  }

  predicate WorkerStep(st: Step) {
    st.StoreOk? || st.StoreFails? || st.WorkerExits?
  }

  function Next(cs: seq<Chunk>, workers: nat, p: Pool, st: Step): Pool
    requires Enabled(cs, workers, p, st)
  {
    if DispatcherStep(st) then DispatcherNext(cs, p, st)
    else if WorkerStep(st) then WorkerNext(cs, workers, p, st)
    else CollectorNext(cs, workers, p, st)
  }

  /** join has returned: the feed is closed, every worker and the collector are gone. */
  predicate Joined(workers: nat, p: Pool) {
    p.dispatcher == Closed && p.exited == workers && p.collector == Done
  }

  // ---- Where every chunk number is ----

  function Indices(ws: seq<Waiter>): seq<nat> {
    seq(|ws|, i requires 0 <= i < |ws| => ws[i].index)
  }

  function RowIndices(rows: seq<RefRow>): seq<nat> {
    seq(|rows|, i requires 0 <= i < |rows| => rows[i].index)
  }

  ghost function Waiting(inFlight: map<string, seq<Waiter>>): multiset<nat> {
    Total(WaitingBy(inFlight))
  }

  ghost function WaitingBy(inFlight: map<string, seq<Waiter>>): map<string, multiset<nat>> {
    map hash | hash in inFlight :: multiset(Indices(inFlight[hash]))
  }

  function One(b: bool): nat {
    if b then 1 else 0
  }

  function PendingWaiters(c: Collector): seq<Waiter> {
    match c
    case Recording(_, ws) => ws
    case Granting(_, ws) => ws
    case WaiterGranted(_, ws) => ws
    case _ => []
  }

  /** In how many places chunk `i` is: recorded, waiting, with a worker, with the collector, or lost. */
  ghost function Places(p: Pool, i: nat): nat {
    multiset(RowIndices(p.newRefs))[i] + Waiting(p.inFlight)[i] + p.storing[i] + p.stored[i] + p.failed[i]
    + One(p.collector.Recording? && p.collector.chunk == i)
    + multiset(Indices(PendingWaiters(p.collector)))[i] + p.lost[i]
  }

  /** References on chunk `i` that are taken but not recorded yet. */
  function Unrecorded(p: Pool, i: nat): nat {
    p.stored[i] + One(p.dispatcher == Granted && p.next == i)
    + One(p.collector.Recording? && p.collector.chunk == i)
    + One(p.collector.WaiterGranted? && p.collector.waiters != [] && p.collector.waiters[0].index == i)
  }

  /** Every dispatched chunk is in exactly one place. */
  ghost predicate TokensKept(p: Pool) {
    forall i: nat :: Places(p, i) == One(i < p.next)
  }

  /** Every reference the index granted is recorded, or about to be. */
  ghost predicate GrantsKept(p: Pool) {
    forall i: nat :: p.granted[i] == multiset(RowIndices(p.newRefs))[i] + Unrecorded(p, i)
  }

  predicate WaitersRight(cs: seq<Chunk>, hash: string, ws: seq<Waiter>) {
    forall j :: 0 <= j < |ws| ==>
      ws[j].index < |cs| && cs[ws[j].index].hash == hash && ws[j].offset == Offset(cs, ws[j].index)
  }

  predicate RowRight(cs: seq<Chunk>, row: RefRow) {
    row.index < |cs| && row.offset == Offset(cs, row.index) && row.hash == cs[row.index].hash
  }

  ghost predicate RecordsRight(cs: seq<Chunk>, p: Pool) {
    && (forall j :: 0 <= j < |p.newRefs| ==> RowRight(cs, p.newRefs[j]))
    && |p.takenRefs| == |p.newRefs|
    && (forall j :: 0 <= j < |p.newRefs| ==> p.takenRefs[j] == p.newRefs[j].hash)
    && (forall hash :: hash in p.inFlight ==> WaitersRight(cs, hash, p.inFlight[hash]))
    && (match p.collector
        case Recording(i, ws) => i < |cs| && WaitersRight(cs, cs[i].hash, ws)
        case Granting(i, ws) => i < |cs| && WaitersRight(cs, cs[i].hash, ws)
        case WaiterGranted(i, ws) => i < |cs| && WaitersRight(cs, cs[i].hash, ws) && ws != []
        case _ => true)
  }

  ghost predicate Carries(cs: seq<Chunk>, m: multiset<nat>, hash: string) {
    exists i :: i in m && i < |cs| && cs[i].hash == hash
  }

  /** A hash is in flight only while some worker, or the job being handed over, will settle it. */
  ghost predicate FlightsOwned(cs: seq<Chunk>, p: Pool) {
    forall hash :: hash in p.inFlight ==>
      || (p.dispatcher == Sending && p.next < |cs| && cs[p.next].hash == hash)
      || Carries(cs, p.storing + p.stored + p.failed, hash)
  }

  ghost predicate WorkersCounted(cs: seq<Chunk>, workers: nat, p: Pool) {
    && p.idle + |p.storing| + |p.stored| + |p.failed| + p.exited == workers
    && (p.exited > 0 ==> p.dispatcher == Closed)
    && (p.collector == Done ==> p.exited == workers && p.dispatcher == Closed)
    && (p.dispatcher in {Deciding, Granted, Sending} ==> p.next < |cs|)
    && p.next <= |cs|
    && (p.dispatcher == Deciding ==> cs[p.next].hash !in p.inFlight)
    && (forall i :: i in p.storing || i in p.stored || i in p.failed ==> i < |cs|)
    && (p.lost != multiset{} ==> p.firstErr)
  }

  ghost predicate Inv(cs: seq<Chunk>, workers: nat, p: Pool) {
    TokensKept(p) && GrantsKept(p) && RecordsRight(cs, p) && FlightsOwned(cs, p) && WorkersCounted(cs, workers, p)
  }

  lemma StartInv(cs: seq<Chunk>, workers: nat)
    ensures Inv(cs, workers, Start(workers))
  {
    assert WaitingBy(map[]) == map[];
  }

  // ---- Bookkeeping lemmas ----

  lemma AppendIndex(ws: seq<Waiter>, w: Waiter, i: nat)
    ensures multiset(Indices(ws + [w]))[i] == multiset(Indices(ws))[i] + One(w.index == i)
  {
    assert Indices(ws + [w]) == Indices(ws) + [w.index];
  }

  lemma TailIndices(ws: seq<Waiter>, i: nat)
    requires ws != []
    ensures multiset(Indices(ws))[i] == One(ws[0].index == i) + multiset(Indices(ws[1..]))[i]
  {
    assert Indices(ws) == [ws[0].index] + Indices(ws[1..]);
  }

  lemma AppendRow(rows: seq<RefRow>, row: RefRow, i: nat)
    ensures multiset(RowIndices(rows + [row]))[i] == multiset(RowIndices(rows))[i] + One(row.index == i)
  {
    assert RowIndices(rows + [row]) == RowIndices(rows) + [row.index];
  }

  lemma WaitingPut(p: Pool, hash: string, ws: seq<Waiter>, i: nat)
    ensures Waiting(p.inFlight[hash := ws])[i] + multiset(Indices(Waiters(p, hash)))[i]
         == Waiting(p.inFlight)[i] + multiset(Indices(ws))[i]
  {
    assert WaitingBy(p.inFlight[hash := ws]) == WaitingBy(p.inFlight)[hash := multiset(Indices(ws))];
    TotalPut(WaitingBy(p.inFlight), hash, multiset(Indices(ws)));
  }

  lemma WaitingDrop(p: Pool, hash: string, i: nat)
    ensures Waiting(p.inFlight - {hash})[i] + multiset(Indices(Waiters(p, hash)))[i] == Waiting(p.inFlight)[i]
  {
    assert WaitingBy(p.inFlight - {hash}) == WaitingBy(p.inFlight) - {hash};
    TotalDrop(WaitingBy(p.inFlight), hash);
  }

  // ---- Each step moves each chunk from one place to the next ----

  /** Between `p` and `p'` chunk `i` and its references only change place. */
  ghost predicate Moved(p: Pool, p': Pool, i: nat) {
    && Places(p', i) + One(i < p.next) == Places(p, i) + One(i < p'.next)
    && p'.granted[i] + multiset(RowIndices(p.newRefs))[i] + Unrecorded(p, i)
       == p.granted[i] + multiset(RowIndices(p'.newRefs))[i] + Unrecorded(p', i)
  }

  lemma FlightMoves(p: Pool, hash: string, w: Waiter, i: nat)
    requires p.dispatcher != Granted && w.index == p.next && hash in p.inFlight
    ensures Moved(p, p.(inFlight := p.inFlight[hash := p.inFlight[hash] + [w]], next := p.next + 1), i)
  {
    WaitingPut(p, hash, p.inFlight[hash] + [w], i);
    AppendIndex(p.inFlight[hash], w, i);
  }

  lemma SubmitMoves(p: Pool, hash: string, i: nat)
    requires p.dispatcher != Granted && hash !in p.inFlight
    ensures Moved(p, p.(inFlight := p.inFlight[hash := []], dispatcher := Sending), i)
  {
    WaitingPut(p, hash, [], i);
  }

  lemma HitMoves(p: Pool, row: RefRow, i: nat)
    requires p.dispatcher == Granted && row.index == p.next
    ensures Moved(p, AddRef(p, row).(dispatcher := Ready, next := p.next + 1), i)
  {
    AppendRow(p.newRefs, row, i);
  }

  lemma TurnMoves(p: Pool, d: Dispatcher, err: bool, i: nat)
    requires p.dispatcher != Granted && d != Granted
    ensures Moved(p, p.(dispatcher := d, firstErr := err), i)
  {
  }

  lemma GrantedMoves(p: Pool, i: nat)
    requires p.dispatcher == Deciding
    ensures Moved(p, p.(granted := p.granted + multiset{p.next}, dispatcher := Granted), i)
  {
  }

  lemma HandMoves(p: Pool, i: nat)
    requires p.dispatcher == Sending && p.idle > 0
    ensures Moved(p, p.(idle := p.idle - 1, storing := p.storing + multiset{p.next}, dispatcher := Ready, next := p.next + 1), i)
  {
  }

  lemma DispatcherMoves(cs: seq<Chunk>, workers: nat, p: Pool, st: Step, i: nat)
    requires Enabled(cs, workers, p, st) && DispatcherStep(st)
    requires p.dispatcher == Deciding && p.next < |cs| ==> cs[p.next].hash !in p.inFlight
    ensures Moved(p, DispatcherNext(cs, p, st), i)
  {
    match st
    case NoteDuplicate => FlightMoves(p, cs[p.next].hash, Waiter(p.next, Offset(cs, p.next)), i);
    case Submit => SubmitMoves(p, cs[p.next].hash, i);
    case RecordHit => HitMoves(p, RefRow(p.next, Offset(cs, p.next), cs[p.next].hash), i);
    case StreamError => TurnMoves(p, Closed, true, i);
    case StreamEnds => TurnMoves(p, Closed, p.firstErr, i);
    case BreakOnFailure => TurnMoves(p, Closed, p.firstErr, i);
    case Decide => TurnMoves(p, Deciding, p.firstErr, i);
    case DecisionError => TurnMoves(p, Closed, true, i);
    case DedupHit => GrantedMoves(p, i);
    case HandJob => HandMoves(p, i);
  }

  lemma CommitMoves(p: Pool, j: nat, i: nat)
    requires j in p.storing
    ensures Moved(p, CommitStore(p, j), i)
  {
  }

  lemma StoreFailureMoves(p: Pool, j: nat, i: nat)
    requires j in p.storing
    ensures Moved(p, p.(storing := p.storing - multiset{j}, failed := p.failed + multiset{j}), i)
  {
  }

  lemma WorkerMoves(cs: seq<Chunk>, workers: nat, p: Pool, st: Step, i: nat)
    requires Enabled(cs, workers, p, st) && WorkerStep(st)
    ensures Moved(p, WorkerNext(cs, workers, p, st), i)
  {
    match st
    case StoreOk(j) => CommitMoves(p, j, i);
    case StoreFails(j) => StoreFailureMoves(p, j, i);
    case WorkerExits =>
  }

  lemma StoredMoves(p: Pool, j: nat, hash: string, i: nat)
    requires p.collector == Idle && j in p.stored
    ensures Moved(p, TakeStored(p, j, hash), i)
  {
    WaitingDrop(p, hash, i);
  }

  lemma FailedMoves(p: Pool, j: nat, hash: string, i: nat)
    requires p.collector == Idle && j in p.failed
    ensures Moved(p, TakeFailed(p, j, hash), i)
  {
    WaitingDrop(p, hash, i);
    var ws: seq<nat> := Indices(Waiters(p, hash));
    var own: seq<nat> := [j];
    assert multiset(own + ws)[i] == One(j == i) + multiset(ws)[i];
  }

  lemma RecordMoves(p: Pool, row: RefRow, i: nat)
    requires p.collector.Recording? && row.index == p.collector.chunk
    ensures Moved(p, AddRef(p, row).(collector := Granting(p.collector.chunk, p.collector.waiters)), i)
  {
    AppendRow(p.newRefs, row, i);
  }

  lemma WaiterMoves(p: Pool, row: RefRow, i: nat)
    requires p.collector.WaiterGranted? && p.collector.waiters != [] && row.index == p.collector.waiters[0].index
    ensures Moved(p, AddRef(p, row).(collector := Granting(p.collector.chunk, p.collector.waiters[1..])), i)
  {
    AppendRow(p.newRefs, row, i);
    TailIndices(p.collector.waiters, i);
  }

  lemma GrantMoves(p: Pool, i: nat)
    requires p.collector.Granting?
    ensures p.collector.waiters != [] ==> Moved(p, GrantNext(p, p.collector.chunk, p.collector.waiters), i)
    ensures Moved(p, DropWaiters(p, p.collector.waiters), i)
    ensures p.collector.waiters == [] ==> Moved(p, p.(collector := Idle), i)
  {
  }

  lemma CollectorMoves(cs: seq<Chunk>, workers: nat, p: Pool, st: Step, i: nat)
    requires Enabled(cs, workers, p, st) && !DispatcherStep(st) && !WorkerStep(st)
    ensures Moved(p, CollectorNext(cs, workers, p, st), i)
  {
    match st
    case CollectOk(j) => StoredMoves(p, j, cs[j].hash, i);
    case CollectFailure(j) => FailedMoves(p, j, cs[j].hash, i);
    case Record =>
      var j := p.collector.chunk;
      RecordMoves(p, RefRow(j, Offset(cs, j), cs[j].hash), i);
    case RecordWaiter =>
      var w := p.collector.waiters[0];
      WaiterMoves(p, RefRow(w.index, w.offset, cs[p.collector.chunk].hash), i);
    case CollectorEnds =>
    case _ => GrantMoves(p, i);
  }

  lemma StepKeepsBooks(cs: seq<Chunk>, workers: nat, p: Pool, st: Step)
    requires TokensKept(p) && GrantsKept(p) && WorkersCounted(cs, workers, p) && Enabled(cs, workers, p, st)
    ensures TokensKept(Next(cs, workers, p, st)) && GrantsKept(Next(cs, workers, p, st))
  {
    var p' := Next(cs, workers, p, st);
    forall i: nat ensures Places(p', i) == One(i < p'.next)
      && p'.granted[i] == multiset(RowIndices(p'.newRefs))[i] + Unrecorded(p', i)
    {
      if DispatcherStep(st) {
        DispatcherMoves(cs, workers, p, st, i);
      } else if WorkerStep(st) {
        WorkerMoves(cs, workers, p, st, i);
      } else {
        CollectorMoves(cs, workers, p, st, i);
      }
      assert Places(p, i) == One(i < p.next);
    }
  }

  lemma DispatcherKeepsRecords(cs: seq<Chunk>, workers: nat, p: Pool, st: Step)
    requires RecordsRight(cs, p) && WorkersCounted(cs, workers, p)
    requires Enabled(cs, workers, p, st) && DispatcherStep(st)
    ensures RecordsRight(cs, DispatcherNext(cs, p, st))
  {
  }

  lemma RecordKeepsRecords(cs: seq<Chunk>, p: Pool, row: RefRow, c: Collector)
    requires RecordsRight(cs, p) && RowRight(cs, row)
    requires c.Granting? && c.chunk < |cs| && WaitersRight(cs, cs[c.chunk].hash, c.waiters)
    ensures RecordsRight(cs, AddRef(p, row).(collector := c))
  {
  }

  lemma OutcomeKeepsRecords(cs: seq<Chunk>, p: Pool, i: nat)
    requires RecordsRight(cs, p) && i < |cs| && p.collector == Idle
    ensures RecordsRight(cs, TakeStored(p, i, cs[i].hash)) && RecordsRight(cs, TakeFailed(p, i, cs[i].hash))
  {
  }

  lemma OthersKeepRecords(cs: seq<Chunk>, workers: nat, p: Pool, st: Step)
    requires RecordsRight(cs, p) && Enabled(cs, workers, p, st) && !DispatcherStep(st)
    ensures RecordsRight(cs, Next(cs, workers, p, st))
  {
    match st
    case Record =>
      var i := p.collector.chunk;
      RecordKeepsRecords(cs, p, RefRow(i, Offset(cs, i), cs[i].hash), Granting(i, p.collector.waiters));
    case RecordWaiter =>
      var i, w := p.collector.chunk, p.collector.waiters[0];
      RecordKeepsRecords(cs, p, RefRow(w.index, w.offset, cs[i].hash), Granting(i, p.collector.waiters[1..]));
    case CollectOk(i) => OutcomeKeepsRecords(cs, p, i);
    case CollectFailure(i) => OutcomeKeepsRecords(cs, p, i);
    case _ =>
  }

  /** Moving one worker from one place to another keeps the head count. */
  lemma MoveOne(m: multiset<nat>, i: nat)
    ensures |m + multiset{i}| == |m| + 1
    ensures i in m ==> |m - multiset{i}| == |m| - 1
  {
    if i in m {
      assert m - multiset{i} + multiset{i} == m;
    }
  }

  lemma DispatcherKeepsWorkers(cs: seq<Chunk>, workers: nat, p: Pool, st: Step)
    requires WorkersCounted(cs, workers, p) && Enabled(cs, workers, p, st) && DispatcherStep(st)
    ensures WorkersCounted(cs, workers, DispatcherNext(cs, p, st))
  {
    MoveOne(p.storing, p.next);
  }

  lemma WorkerKeepsWorkers(cs: seq<Chunk>, workers: nat, p: Pool, st: Step)
    requires WorkersCounted(cs, workers, p) && Enabled(cs, workers, p, st) && WorkerStep(st)
    ensures WorkersCounted(cs, workers, WorkerNext(cs, workers, p, st))
  {
    if !st.WorkerExits? {
      MoveOne(p.storing, st.i);
      MoveOne(p.stored, st.i);
      MoveOne(p.failed, st.i);
    }
  }

  lemma OutcomeKeepsWorkers(cs: seq<Chunk>, workers: nat, p: Pool, i: nat, hash: string)
    requires WorkersCounted(cs, workers, p) && p.collector == Idle
    ensures i in p.stored ==> WorkersCounted(cs, workers, TakeStored(p, i, hash))
    ensures i in p.failed ==> WorkersCounted(cs, workers, TakeFailed(p, i, hash))
  {
    MoveOne(p.stored, i);
    MoveOne(p.failed, i);
  }

  lemma CollectorKeepsWorkers(cs: seq<Chunk>, workers: nat, p: Pool, st: Step)
    requires WorkersCounted(cs, workers, p) && Enabled(cs, workers, p, st) && !DispatcherStep(st) && !WorkerStep(st)
    ensures WorkersCounted(cs, workers, CollectorNext(cs, workers, p, st))
  {
    match st
    case CollectOk(i) => OutcomeKeepsWorkers(cs, workers, p, i, cs[i].hash);
    case CollectFailure(i) => OutcomeKeepsWorkers(cs, workers, p, i, cs[i].hash);
    case Record =>
    case GrantWaiter =>
    case GrantFails =>
    case RecordWaiter =>
    case GrantsDone =>
    case CollectorEnds =>
  }

  lemma DispatcherKeepsFlights(cs: seq<Chunk>, workers: nat, p: Pool, st: Step)
    requires FlightsOwned(cs, p) && WorkersCounted(cs, workers, p) && Enabled(cs, workers, p, st) && DispatcherStep(st)
    ensures FlightsOwned(cs, DispatcherNext(cs, p, st))
  {
    var p' := DispatcherNext(cs, p, st);
    forall hash | hash in p'.inFlight
      ensures (p'.dispatcher == Sending && p'.next < |cs| && cs[p'.next].hash == hash)
           || Carries(cs, p'.storing + p'.stored + p'.failed, hash)
    {
      if hash in p.inFlight && Carries(cs, p.storing + p.stored + p.failed, hash) {
        var i :| i in p.storing + p.stored + p.failed && i < |cs| && cs[i].hash == hash;
        assert i in p'.storing + p'.stored + p'.failed;
      } else if st.HandJob? {
        assert p.next in p'.storing + p'.stored + p'.failed;
      }
    }
  }

  /** Whoever carried a hash other than that of chunk `gone` still carries it once `gone` is settled. */
  lemma CarriesOn(cs: seq<Chunk>, m: multiset<nat>, m': multiset<nat>, gone: nat, hash: string)
    requires Carries(cs, m, hash)
    requires forall i :: i in m && i != gone ==> i in m'
    requires gone in m' || (gone < |cs| && cs[gone].hash != hash)
    ensures Carries(cs, m', hash)
  {
    var i :| i in m && i < |cs| && cs[i].hash == hash;
    assert i in m';
  }

  /** `p'` has settled chunk `gone`, or moved it between workers; no new hash is in flight. */
  lemma SettlingKeepsFlights(cs: seq<Chunk>, p: Pool, p': Pool, gone: nat)
    requires FlightsOwned(cs, p) && p'.dispatcher == p.dispatcher && p'.next == p.next
    requires forall hash :: hash in p'.inFlight ==> hash in p.inFlight
    requires forall i :: i in p.storing + p.stored + p.failed && i != gone ==> i in p'.storing + p'.stored + p'.failed
    requires gone in p'.storing + p'.stored + p'.failed || (gone < |cs| && cs[gone].hash !in p'.inFlight)
    ensures FlightsOwned(cs, p')
  {
    forall hash | hash in p'.inFlight && !(p.dispatcher == Sending && p.next < |cs| && cs[p.next].hash == hash)
      ensures Carries(cs, p'.storing + p'.stored + p'.failed, hash)
    {
      CarriesOn(cs, p.storing + p.stored + p.failed, p'.storing + p'.stored + p'.failed, gone, hash);
    }
  }

  lemma SameFlights(cs: seq<Chunk>, p: Pool, p': Pool)
    requires FlightsOwned(cs, p) && p'.dispatcher == p.dispatcher && p'.next == p.next && p'.inFlight == p.inFlight
    requires p'.storing == p.storing && p'.stored == p.stored && p'.failed == p.failed
    ensures FlightsOwned(cs, p')
  {
  }

  lemma StoreKeepsFlights(cs: seq<Chunk>, p: Pool, i: nat)
    requires FlightsOwned(cs, p) && i in p.storing
    ensures FlightsOwned(cs, CommitStore(p, i))
    ensures FlightsOwned(cs, p.(storing := p.storing - multiset{i}, failed := p.failed + multiset{i}))
  {
    SettlingKeepsFlights(cs, p, CommitStore(p, i), i);
    SettlingKeepsFlights(cs, p, p.(storing := p.storing - multiset{i}, failed := p.failed + multiset{i}), i);
  }

  lemma OutcomeKeepsFlights(cs: seq<Chunk>, p: Pool, i: nat)
    requires FlightsOwned(cs, p) && i < |cs|
    ensures i in p.stored ==> FlightsOwned(cs, TakeStored(p, i, cs[i].hash))
    ensures i in p.failed ==> FlightsOwned(cs, TakeFailed(p, i, cs[i].hash))
  {
    if i in p.stored {
      SettlingKeepsFlights(cs, p, TakeStored(p, i, cs[i].hash), i);
    }
    if i in p.failed {
      SettlingKeepsFlights(cs, p, TakeFailed(p, i, cs[i].hash), i);
    }
  }

  lemma OthersKeepFlights(cs: seq<Chunk>, workers: nat, p: Pool, st: Step)
    requires FlightsOwned(cs, p) && Enabled(cs, workers, p, st) && !DispatcherStep(st)
    ensures FlightsOwned(cs, Next(cs, workers, p, st))
  {
    match st
    case StoreOk(i) => StoreKeepsFlights(cs, p, i);
    case StoreFails(i) => StoreKeepsFlights(cs, p, i);
    case CollectOk(i) => OutcomeKeepsFlights(cs, p, i);
    case CollectFailure(i) => OutcomeKeepsFlights(cs, p, i);
    case Record => SameFlights(cs, p, Next(cs, workers, p, st));
    case GrantWaiter => SameFlights(cs, p, Next(cs, workers, p, st));
    case GrantFails => SameFlights(cs, p, Next(cs, workers, p, st));
    case RecordWaiter => SameFlights(cs, p, Next(cs, workers, p, st));
    case GrantsDone => SameFlights(cs, p, Next(cs, workers, p, st));
    case WorkerExits => SameFlights(cs, p, Next(cs, workers, p, st));
    case CollectorEnds => SameFlights(cs, p, Next(cs, workers, p, st));
  }

  lemma StepKeepsInv(cs: seq<Chunk>, workers: nat, p: Pool, st: Step)
    requires Inv(cs, workers, p) && Enabled(cs, workers, p, st)
    ensures Inv(cs, workers, Next(cs, workers, p, st))
  {
    StepKeepsBooks(cs, workers, p, st);
    if DispatcherStep(st) {
      DispatcherKeepsRecords(cs, workers, p, st);
      DispatcherKeepsWorkers(cs, workers, p, st);
      DispatcherKeepsFlights(cs, workers, p, st);
    } else {
      OthersKeepRecords(cs, workers, p, st);
      OthersKeepFlights(cs, workers, p, st);
      if WorkerStep(st) {
        WorkerKeepsWorkers(cs, workers, p, st);
      } else {
        CollectorKeepsWorkers(cs, workers, p, st);
      }
    }
  }
}
