/**
 The prefetching GET as a small-step system: a launcher that takes a slot before it starts each fetch, one
 goroutine per fetch, one buffered channel per chunk, and a writer that consumes them strictly in order.
 What a fetch brings back is arbitrary; only bytes with the expected hash get past the check.
 */
module Prefetch {
  import opened Basics
  import opened RangePlan

  /** What the backend, decryption and decompression bring back for one chunk. */
  datatype Raw = Unavailable | Bytes(bytes: Bytes)

  datatype Out = Fetched(data: Bytes) | Unresolved | Corrupt

  function Check(raw: Raw, expected: Digest): Out {
    match raw
    case Unavailable => Unresolved
    case Bytes(b) => if Digest(b) == expected then Fetched(b) else Corrupt
  }

  datatype Fetch = Waiting | Running | Buffered(out: Out) | Received

  datatype Writer = Receiving | Releasing(out: Out) | Writing(data: Bytes) | Finished | Aborted

  /** `next` is the writer's loop index, `slots` the number of tokens in the slot channel. */
  datatype State = State(
    launched: nat, launcherDone: bool, slots: nat, fetches: seq<Fetch>,
    writer: Writer, next: nat, headers: bool, written: Bytes, cancelled: bool)

  datatype Step =
    | Launch | LauncherEnds | FetchDone(i: nat, raw: Raw)
    | Receive | ReleaseSlot | Write(n: nat, fails: bool) | Finish

  function Start(plan: seq<PlanEntry>): State {
    State(0, false, 0, seq(|plan|, _ => Waiting), Receiving, 0, false, [], false)
  }

  /** The configured prefetch, at least one. */
  function Bound(configured: int): nat {
    if configured < 1 then 1 else configured
  }

  predicate Enabled(plan: seq<PlanEntry>, bound: nat, s: State, st: Step) {
    match st
    case Launch => !s.launcherDone && s.launched < |s.fetches| && s.slots < bound
    case LauncherEnds => !s.launcherDone && (s.launched >= |s.fetches| || s.cancelled)
    case FetchDone(i, _) => i < |s.fetches| && i < |plan| && s.fetches[i] == Running
    case Receive => s.writer == Receiving && s.next < |s.fetches| && s.fetches[s.next].Buffered?
    case ReleaseSlot => s.writer.Releasing? && s.slots > 0
    case Write(n, fails) =>
      && s.writer.Writing? && s.next < |plan|
      && n <= |Slice(plan[s.next], s.writer.data)| && (n < |Slice(plan[s.next], s.writer.data)| ==> fails)
    case Finish => s.writer == Receiving && s.next >= |s.fetches|
  }

  function Next(plan: seq<PlanEntry>, bound: nat, s: State, st: Step): State
    requires Enabled(plan, bound, s, st)
  {
    match st
    case Launch =>
      s.(slots := s.slots + 1, fetches := s.fetches[s.launched := Running], launched := s.launched + 1)
    case LauncherEnds => s.(launcherDone := true)
    case FetchDone(i, raw) => s.(fetches := s.fetches[i := Buffered(Check(raw, plan[i].desc.digest))])
    case Receive => s.(fetches := s.fetches[s.next := Received], writer := Releasing(s.fetches[s.next].out))
    case ReleaseSlot =>
      if s.writer.out.Fetched? then s.(slots := s.slots - 1, writer := Writing(s.writer.out.data), headers := true)
      else s.(slots := s.slots - 1, writer := Aborted, cancelled := true)
    case Write(n, fails) =>
      var sent := s.(written := s.written + Slice(plan[s.next], s.writer.data)[..n]);
      if fails then sent.(writer := Aborted, cancelled := true) else sent.(writer := Receiving, next := s.next + 1)
    case Finish => s.(writer := Finished, headers := true, cancelled := true)
  }

  /** Chunks taken off their channel: those written, and the one in the writer's hands. */
  function Taken(s: State): nat {
    if s.writer.Receiving? || s.writer.Finished? then s.next else s.next + 1
  }

  /** Chunks being fetched, or fetched and not yet written. */
  function Buffers(s: State): int {
    s.launched - Taken(s) + (if s.writer.Releasing? || s.writer.Writing? then 1 else 0)
  }

  predicate Counted(plan: seq<PlanEntry>, bound: nat, s: State) {
    && |s.fetches| == |plan| && Taken(s) <= s.launched <= |plan|
    && s.slots == s.launched - Taken(s) + (if s.writer.Releasing? then 1 else 0) && s.slots <= bound
    && (s.writer == Finished ==> s.next == |plan|)
    && (s.cancelled <==> s.writer in {Finished, Aborted})
    && (s.launcherDone ==> s.launched == |plan| || s.cancelled)
  }

  /** Fetches start in order and are consumed in order; what is buffered has been checked. */
  predicate InOrder(plan: seq<PlanEntry>, s: State) {
    && |s.fetches| == |plan|
    && (forall i :: 0 <= i < |plan| ==>
      && (s.fetches[i] == Waiting <==> s.launched <= i)
      && (s.fetches[i] == Received <==> i < Taken(s))
      && (s.fetches[i].Buffered? && s.fetches[i].out.Fetched? ==> s.fetches[i].out.data == plan[i].desc.digest.of))
  }

  /** The writer has sent the plan's first `next` slices, and part of one more only if the client failed on it. */
  predicate Sent(plan: seq<PlanEntry>, s: State) {
    && s.next <= |plan|
    && (s.writer != Aborted ==> s.written == Served(plan[..s.next]))
    && (s.writer == Aborted ==>
      s.next < |plan| && Served(plan[..s.next]) <= s.written <= Served(plan[..s.next]) + Whole(plan[s.next]))
    && (s.writer.Releasing? && s.writer.out.Fetched? ==>
      s.next < |plan| && s.writer.out.data == plan[s.next].desc.digest.of)
    && (s.writer.Writing? ==> s.next < |plan| && s.headers && s.writer.data == plan[s.next].desc.digest.of)
    && (s.next > 0 ==> s.headers)
    && (!s.headers ==> s.written == [])
  }

  /** The slice of a chunk whose bytes are the ones that were stored. */
  function Whole(e: PlanEntry): Bytes {
    Slice(e, e.desc.digest.of)
  }

  predicate Inv(plan: seq<PlanEntry>, bound: nat, s: State) {
    Counted(plan, bound, s) && InOrder(plan, s) && Sent(plan, s)
  }

  lemma StartInv(plan: seq<PlanEntry>, bound: nat)
    ensures Inv(plan, bound, Start(plan))
  {
    assert plan[..0] == [];
  }

  lemma {:induction false} ServedSnoc(plan: seq<PlanEntry>, n: nat)
    requires n < |plan|
    ensures Served(plan[..n + 1]) == Served(plan[..n]) + Whole(plan[n])
  {
    ServedConcat(plan[..n], [plan[n]]);
    assert plan[..n + 1] == plan[..n] + [plan[n]];
    assert [plan[n]][1..] == [];
  }

  lemma {:induction false} ServedConcat(a: seq<PlanEntry>, b: seq<PlanEntry>)
    ensures Served(a + b) == Served(a) + Served(b)
  {
    if a == [] {
      assert a + b == b;
    } else {
      assert (a + b)[1..] == a[1..] + b;
      ServedConcat(a[1..], b);
    }
  }

  lemma StepKeepsCounted(plan: seq<PlanEntry>, bound: nat, s: State, st: Step)
    requires Counted(plan, bound, s) && InOrder(plan, s) && Enabled(plan, bound, s, st)
    ensures Counted(plan, bound, Next(plan, bound, s, st))
  {
    match st
    case Receive => assert s.fetches[s.next] != Waiting;
    case _ =>
  }

  lemma StepKeepsOrder(plan: seq<PlanEntry>, bound: nat, s: State, st: Step)
    requires Counted(plan, bound, s) && InOrder(plan, s) && Enabled(plan, bound, s, st)
    ensures InOrder(plan, Next(plan, bound, s, st))
  {
    match st
    case Launch =>
    case FetchDone(_, _) =>
    case Receive =>
    case _ =>
  }

  lemma StepKeepsSent(plan: seq<PlanEntry>, bound: nat, s: State, st: Step)
    requires Counted(plan, bound, s) && InOrder(plan, s) && Sent(plan, s) && Enabled(plan, bound, s, st)
    ensures Sent(plan, Next(plan, bound, s, st))
  {
    match st
    case ReleaseSlot =>
    case Receive =>
    case Write(n, fails) => ServedSnoc(plan, s.next);
    case _ =>
  }

  lemma StepKeepsInv(plan: seq<PlanEntry>, bound: nat, s: State, st: Step)
    requires Inv(plan, bound, s) && Enabled(plan, bound, s, st)
    ensures Inv(plan, bound, Next(plan, bound, s, st))
  {
    StepKeepsCounted(plan, bound, s, st);
    StepKeepsOrder(plan, bound, s, st);
    StepKeepsSent(plan, bound, s, st);
  }

  predicate ValidRun(plan: seq<PlanEntry>, bound: nat, s: State, run: seq<Step>)
    decreases |run|
  {
    run == [] || (Enabled(plan, bound, s, run[0]) && ValidRun(plan, bound, Next(plan, bound, s, run[0]), run[1..]))
  }

  function Final(plan: seq<PlanEntry>, bound: nat, s: State, run: seq<Step>): State
    requires ValidRun(plan, bound, s, run)
    decreases |run|
  {
    if run == [] then s else Final(plan, bound, Next(plan, bound, s, run[0]), run[1..])
  }

  lemma {:induction false} RunKeepsInv(plan: seq<PlanEntry>, bound: nat, s: State, run: seq<Step>)
    requires Inv(plan, bound, s) && ValidRun(plan, bound, s, run)
    ensures Inv(plan, bound, Final(plan, bound, s, run))
    decreases |run|
  {
    if run != [] {
      StepKeepsInv(plan, bound, s, run[0]);
      RunKeepsInv(plan, bound, Next(plan, bound, s, run[0]), run[1..]);
    }
  }

  // ---- What the client sees ----

  /**
   Whatever the order in which fetches complete, what has been written is a prefix of the plan's bytes, all of
   them checked; a response that finished is the whole plan, so two schedules cannot serve different bytes.
   */
  lemma AlwaysAPrefix(plan: seq<PlanEntry>, bound: nat, run: seq<Step>)
    requires ValidRun(plan, bound, Start(plan), run)
    ensures var s := Final(plan, bound, Start(plan), run);
      && s.written <= Served(plan)
      && (s.writer == Finished ==> s.written == Served(plan))
      && (s.written != [] ==> s.headers)
  {
    var s := Final(plan, bound, Start(plan), run);
    StartInv(plan, bound);
    RunKeepsInv(plan, bound, Start(plan), run);
    ServedConcat(plan[..s.next], plan[s.next..]);
    assert plan == plan[..s.next] + plan[s.next..];
  }

  /** A range request that finishes has sent exactly the requested bytes of the object. */
  lemma RangeGet(descs: seq<ChunkDesc>, header: string, bound: nat, run: seq<Step>)
    requires Tiles(descs, 0) && ParseRange(header, |Object(descs)|).Some?
    requires var r := ParseRange(header, |Object(descs)|).value;
      && 0 <= r.start <= r.end && ValidRun(PlanFor(descs, r), bound, Start(PlanFor(descs, r)), run)
      && Final(PlanFor(descs, r), bound, Start(PlanFor(descs, r)), run).writer == Finished
    ensures var r := ParseRange(header, |Object(descs)|).value;
      && r.end < |Object(descs)|
      && Final(PlanFor(descs, r), bound, Start(PlanFor(descs, r)), run).written == Object(descs)[r.start..r.end + 1]
  {
    var r := ParseRange(header, |Object(descs)|).value;
    RangeServesRequestedBytes(descs, header);
    AlwaysAPrefix(PlanFor(descs, r), bound, run);
  }

  /** Once the response is aborted nothing more reaches the client. */
  lemma {:induction false} AbortIsFinal(plan: seq<PlanEntry>, bound: nat, s: State, run: seq<Step>)
    requires s.writer == Aborted && ValidRun(plan, bound, s, run)
    ensures var e := Final(plan, bound, s, run);
      e.writer == Aborted && e.written == s.written && e.headers == s.headers
    decreases |run|
  {
    if run != [] {
      AbortIsFinal(plan, bound, Next(plan, bound, s, run[0]), run[1..]);
    }
  }

  /** A first chunk that is missing or corrupt is found out before the status or any byte is sent. */
  lemma BadFirstChunkSendsNothing(plan: seq<PlanEntry>, bound: nat, s: State, run: seq<Step>)
    requires Inv(plan, bound, s) && s.writer.Releasing? && !s.writer.out.Fetched? && s.next == 0 && !s.headers
    requires Enabled(plan, bound, s, ReleaseSlot) && ValidRun(plan, bound, Next(plan, bound, s, ReleaseSlot), run)
    ensures var e := Final(plan, bound, Next(plan, bound, s, ReleaseSlot), run);
      e.writer == Aborted && !e.headers && e.written == []
  {
    AbortIsFinal(plan, bound, Next(plan, bound, s, ReleaseSlot), run);
  }

  /** Every chunk came back intact and the client took every byte. */
  predicate Clean(plan: seq<PlanEntry>, st: Step) {
    match st
    case FetchDone(i, raw) => i < |plan| && raw == Bytes(plan[i].desc.digest.of)
    case Write(_, fails) => !fails
    case _ => true
  }

  predicate NothingWrong(s: State) {
    && s.writer != Aborted && (s.writer.Releasing? ==> s.writer.out.Fetched?)
    && (forall i :: 0 <= i < |s.fetches| && s.fetches[i].Buffered? ==> s.fetches[i].out.Fetched?)
  }

  /** So only a failed fetch or a failed client aborts a response, never the schedule. */
  lemma {:induction false} OnlyFailuresAbort(plan: seq<PlanEntry>, bound: nat, s: State, run: seq<Step>)
    requires NothingWrong(s) && ValidRun(plan, bound, s, run)
    requires forall k :: 0 <= k < |run| ==> Clean(plan, run[k])
    ensures NothingWrong(Final(plan, bound, s, run))
    decreases |run|
  {
    if run != [] {
      assert Clean(plan, run[0]);
      OnlyFailuresAbort(plan, bound, Next(plan, bound, s, run[0]), run[1..]);
    }
  }

  // ---- Memory ----

  /**
   The slots bound the chunks launched and not yet taken off their channel. The chunk being written has already
   given its slot back, so the buffers can exceed the bound by that one, and do so exactly when it is being
   written while every slot is held.
   */
  lemma BuffersBounded(plan: seq<PlanEntry>, bound: nat, run: seq<Step>)
    requires ValidRun(plan, bound, Start(plan), run)
    ensures var s := Final(plan, bound, Start(plan), run);
      && s.launched - Taken(s) <= bound && Buffers(s) <= bound + 1
      && (Buffers(s) > bound <==> s.writer.Writing? && s.slots == bound)
  {
    StartInv(plan, bound);
    RunKeepsInv(plan, bound, Start(plan), run);
  }

  /** `n` fetches are under way and nothing else has happened. */
  function Launched(plan: seq<PlanEntry>, n: nat): State
    requires n <= |plan|
  {
    Start(plan).(launched := n, slots := n, fetches := seq(|plan|, i => if i < n then Running else Waiting))
  }

  function Launches(n: nat): seq<Step> {
    seq(n, _ => Launch)
  }

  lemma {:induction false} LaunchMany(plan: seq<PlanEntry>, bound: nat, from: nat, n: nat, rest: seq<Step>)
    requires from + n <= |plan| && from + n <= bound && ValidRun(plan, bound, Launched(plan, from + n), rest)
    ensures ValidRun(plan, bound, Launched(plan, from), Launches(n) + rest)
    ensures Final(plan, bound, Launched(plan, from), Launches(n) + rest)
         == Final(plan, bound, Launched(plan, from + n), rest)
    decreases n
  {
    if n == 0 {
      assert Launches(0) + rest == rest;
    } else {
      var run := Launches(n) + rest;
      assert run[0] == Launch && run[1..] == Launches(n - 1) + rest;
      assert Next(plan, bound, Launched(plan, from), Launch) == Launched(plan, from + 1);
      LaunchMany(plan, bound, from + 1, n - 1, rest);
    }
  }

  lemma RunCons(plan: seq<PlanEntry>, bound: nat, s: State, st: Step, rest: seq<Step>)
    requires Enabled(plan, bound, s, st) && ValidRun(plan, bound, Next(plan, bound, s, st), rest)
    ensures ValidRun(plan, bound, s, [st] + rest)
    ensures Final(plan, bound, s, [st] + rest) == Final(plan, bound, Next(plan, bound, s, st), rest)
  {
    assert ([st] + rest)[1..] == rest;
  }

  /** And every plan longer than the bound has a schedule that gets there: the first chunk is just slow to write. */
  lemma BufferBoundExceeded(plan: seq<PlanEntry>, bound: nat) returns (run: seq<Step>)
    requires 0 < bound < |plan|
    ensures ValidRun(plan, bound, Start(plan), run)
    ensures Buffers(Final(plan, bound, Start(plan), run)) == bound + 1
  {
    var s0 := Launched(plan, bound);
    var good := FetchDone(0, Bytes(plan[0].desc.digest.of));
    var s1 := Next(plan, bound, s0, good);
    var s2 := Next(plan, bound, s1, Receive);
    var s3 := Next(plan, bound, s2, ReleaseSlot);
    RunCons(plan, bound, s3, Launch, []);
    assert [Launch] + [] == [Launch];
    RunCons(plan, bound, s2, ReleaseSlot, [Launch]);
    RunCons(plan, bound, s1, Receive, [ReleaseSlot] + [Launch]);
    RunCons(plan, bound, s0, good, [Receive] + ([ReleaseSlot] + [Launch]));
    var tail := [good] + ([Receive] + ([ReleaseSlot] + [Launch]));
    assert Launched(plan, 0) == Start(plan);
    LaunchMany(plan, bound, 0, bound, tail);
    run := Launches(bound) + tail;
  }

  // ---- Progress ----

  /** The handler has returned and left no goroutine behind. */
  predicate Quiet(s: State) {
    s.writer in {Finished, Aborted} && s.launcherDone && forall i :: 0 <= i < |s.fetches| ==> s.fetches[i] != Running
  }

  /** The writer never deadlocks: the chunk it waits for is launched, or the launcher can launch it. */
  lemma NeverStuck(plan: seq<PlanEntry>, bound: nat, s: State) returns (st: Step)
    requires Inv(plan, bound, s) && !Quiet(s) && bound > 0
    ensures Enabled(plan, bound, s, st)
  {
    if i :| 0 <= i < |s.fetches| && s.fetches[i] == Running {
      return FetchDone(i, Unavailable);
    }
    match s.writer
    case Releasing(_) => st := ReleaseSlot;
    case Writing(data) => st := Write(|Slice(plan[s.next], data)|, false);
    case Receiving =>
      if s.next == |plan| {
        st := Finish;
      } else if s.next < s.launched {
        assert s.fetches[s.next] != Waiting && s.fetches[s.next] != Received;
        st := Receive;
      } else {
        st := Launch;
      }
    case Finished => st := LauncherEnds;
    case Aborted => st := LauncherEnds;
  }

  function CountRunning(fetches: seq<Fetch>): nat {
    if fetches == [] then 0 else One(fetches[0]) + CountRunning(fetches[1..])
  }

  function One(f: Fetch): nat {
    if f == Running then 1 else 0
  }

  lemma {:induction false} CountUpdate(fetches: seq<Fetch>, i: nat, f: Fetch)
    requires i < |fetches|
    ensures CountRunning(fetches[i := f]) + One(fetches[i]) == CountRunning(fetches) + One(f)
  {
    if i == 0 {
      assert fetches[i := f][1..] == fetches[1..];
    } else {
      assert fetches[i := f][1..] == fetches[1..][i - 1 := f];
      CountUpdate(fetches[1..], i - 1, f);
    }
  }

  function WriterWeight(w: Writer, left: nat): int {
    match w
    case Receiving => 4 * left + 1
    case Releasing(_) => 4 * left
    case Writing(_) => 4 * left - 1
    case _ => 0
  }

  /** The work left; every step of every goroutine lowers it. */
  function Work(plan: seq<PlanEntry>, s: State): int {
    2 * (|plan| - s.launched) + CountRunning(s.fetches) + (if s.launcherDone then 0 else 1)
    + WriterWeight(s.writer, if s.next <= |plan| then |plan| - s.next else 0)
  }

  lemma StepWorks(plan: seq<PlanEntry>, bound: nat, s: State, st: Step)
    requires Inv(plan, bound, s) && Enabled(plan, bound, s, st)
    ensures 0 <= Work(plan, Next(plan, bound, s, st)) < Work(plan, s)
  {
    StepKeepsInv(plan, bound, s, st);
    match st
    case Launch => CountUpdate(s.fetches, s.launched, Running);
    case FetchDone(i, raw) => CountUpdate(s.fetches, i, Buffered(Check(raw, plan[i].desc.digest)));
    case Receive => CountUpdate(s.fetches, s.next, Received);
    case _ =>
  }

  lemma {:induction false} RunsAreBounded(plan: seq<PlanEntry>, bound: nat, s: State, run: seq<Step>)
    requires Inv(plan, bound, s) && ValidRun(plan, bound, s, run)
    ensures |run| <= Work(plan, s)
    decreases |run|
  {
    if run != [] {
      StepWorks(plan, bound, s, run[0]);
      StepKeepsInv(plan, bound, s, run[0]);
      RunsAreBounded(plan, bound, Next(plan, bound, s, run[0]), run[1..]);
    }
  }

  lemma {:induction false} NoneRunning(n: nat)
    ensures CountRunning(seq(n, _ => Waiting)) == 0
  {
    if n > 0 {
      assert seq(n, _ => Waiting)[1..] == seq(n - 1, _ => Waiting);
      NoneRunning(n - 1);
    }
  }

  /**
   Every schedule ends, after at most six steps a chunk and two more, with the handler returned and no fetcher
   or launcher left behind; if every fetch and the client are sound, it ends with the whole plan sent.
   */
  lemma HandlerReturns(plan: seq<PlanEntry>, configured: int, run: seq<Step>)
    requires ValidRun(plan, Bound(configured), Start(plan), run)
    ensures |run| <= 6 * |plan| + 2
    ensures var s := Final(plan, Bound(configured), Start(plan), run);
      (forall st :: !Enabled(plan, Bound(configured), s, st)) ==>
        && Quiet(s)
        && ((forall k :: 0 <= k < |run| ==> Clean(plan, run[k])) ==> s.writer == Finished && s.written == Served(plan))
  {
    var bound := Bound(configured);
    StartInv(plan, bound);
    NoneRunning(|plan|);
    RunsAreBounded(plan, bound, Start(plan), run);
    RunKeepsInv(plan, bound, Start(plan), run);
    AlwaysAPrefix(plan, bound, run);
    var s := Final(plan, bound, Start(plan), run);
    if !Quiet(s) {
      var st := NeverStuck(plan, bound, s);
    } else if forall k :: 0 <= k < |run| ==> Clean(plan, run[k]) {
      OnlyFailuresAbort(plan, bound, Start(plan), run);
    }
  }
}
