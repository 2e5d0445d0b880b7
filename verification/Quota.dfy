/**
 Quota accounting of one tenant across interleaved requests. Reserving, locking the head row, upserting it,
 settling, and releasing are separate steps; between any two of them any other request may take a step.
 */
module Quota {
  import opened Basics
  import opened MapSums

  /**
   Where a request stands. `seen` is what SELECT ... FOR UPDATE found: a row that exists stays locked until the
   upsert commits, but a row that does not exist yet cannot be locked.
   */
  datatype Request =
    | Reserved(bytes: nat)
    | Upserting(bytes: nat, key: string, seen: Option<nat>)
    | Written(bytes: nat, actual: nat, displaced: nat)
    | Settled(displaced: nat)
    | Deleted(size: nat)

  /** `used` is storage_used_bytes, `heads` the logical size of every head-cache row. */
  datatype State = State(used: nat, limit: nat, heads: map<string, nat>, requests: map<nat, Request>)

  datatype Step =
    | Reserve(id: nat, bytes: nat)
    | LockRow(id: nat, key: string)
    | Upsert(id: nat, actual: nat)
    | Rollback(id: nat)
    | ReleaseFailed(id: nat)
    | Crash(id: nat)
    | SettleReservation(id: nat)
    | SettleDisplaced(id: nat)
    | Delete(id: nat, key: string)
    | ReleaseDeleted(id: nat)

  /** GREATEST(0, used - bytes); a negative argument adds without any limit check. */
  function Released(used: nat, bytes: int): (r: nat)
    ensures r >= used - bytes
    ensures r == used - bytes <==> bytes <= used
  {
    if used - bytes < 0 then 0 else used - bytes
  }

  function CanReserve(used: nat, limit: nat, bytes: nat): bool {
    bytes == 0 || used + bytes <= limit
  }

  ghost predicate RowLocked(s: State, key: string) {
    exists id :: id in s.requests && HoldsRow(s.requests[id], key)
  }

  predicate HoldsRow(q: Request, key: string) {
    q.Upserting? && q.seen.Some? && q.key == key
  }

  ghost predicate Enabled(s: State, st: Step) {
    match st
    case Reserve(id, _) => id !in s.requests
    case LockRow(id, key) => id in s.requests && s.requests[id].Reserved? && !RowLocked(s, key)
    case Upsert(id, _) =>
      id in s.requests && s.requests[id].Upserting? && (s.requests[id].seen.None? ==> !RowLocked(s, s.requests[id].key))
    case Rollback(id) => id in s.requests && s.requests[id].Upserting?
    case ReleaseFailed(id) => id in s.requests && s.requests[id].Reserved?
    case Crash(id) => id in s.requests && (s.requests[id].Reserved? || s.requests[id].Upserting?)
    case SettleReservation(id) => id in s.requests && s.requests[id].Written?
    case SettleDisplaced(id) => id in s.requests && s.requests[id].Settled?
    case Delete(id, key) => id !in s.requests && key in s.heads && !RowLocked(s, key)
    case ReleaseDeleted(id) => id in s.requests && s.requests[id].Deleted?
  }

  function SizeAt(heads: map<string, nat>, key: string): nat {
    if key in heads then heads[key] else 0
  }

  ghost function Next(s: State, st: Step): State
    requires Enabled(s, st)
  {
    match st
    case Reserve(id, bytes) =>
      if CanReserve(s.used, s.limit, bytes)
      then s.(used := s.used + bytes, requests := s.requests[id := Reserved(bytes)]) else s
    case LockRow(id, key) =>
      s.(requests := s.requests[id :=
        Upserting(s.requests[id].bytes, key, if key in s.heads then Some(s.heads[key]) else None)])
    case Upsert(id, actual) =>
      var q := s.requests[id];
      s.(heads := s.heads[q.key := actual],
         requests := s.requests[id := Written(q.bytes, actual, if q.seen.Some? then q.seen.value else 0)])
    case Rollback(id) => s.(requests := s.requests[id := Reserved(s.requests[id].bytes)])
    case ReleaseFailed(id) =>
      s.(used := Released(s.used, s.requests[id].bytes), requests := s.requests - {id})
    case Crash(id) => s.(requests := s.requests - {id})
    case SettleReservation(id) =>
      var q := s.requests[id];
      s.(used := Released(s.used, q.bytes - q.actual), requests := s.requests[id := Settled(q.displaced)])
    case SettleDisplaced(id) =>
      s.(used := Released(s.used, s.requests[id].displaced), requests := s.requests - {id})
    case Delete(id, key) =>
      s.(heads := s.heads - {key}, requests := s.requests[id := Deleted(s.heads[key])])
    case ReleaseDeleted(id) =>
      s.(used := Released(s.used, s.requests[id].size), requests := s.requests - {id})
  }

  /** What a request in flight adds to the counter beyond the head rows. */
  function Outstanding(q: Request): int {
    match q
    case Reserved(n) => n
    case Upserting(n, _, _) => n
    case Written(n, actual, displaced) => n - actual + displaced
    case Settled(displaced) => displaced
    case Deleted(size) => size
  }

  ghost function AllOutstanding(requests: map<nat, Request>): map<nat, int> {
    map id | id in requests :: Outstanding(requests[id])
  }

  ghost function Sizes(heads: map<string, nat>): map<string, int> {
    map key | key in heads :: heads[key]
  }

  /** How far the counter is above what the head rows and the requests in flight account for. */
  ghost function Drift(s: State): int {
    s.used - Sum(Sizes(s.heads)) - Sum(AllOutstanding(s.requests))
  }

  /** A locked row is there, has the size that was seen, and is locked once. */
  ghost predicate LocksRight(s: State) {
    forall id :: id in s.requests && s.requests[id].Upserting? && s.requests[id].seen.Some? ==>
      && s.requests[id].key in s.heads && s.heads[s.requests[id].key] == s.requests[id].seen.value
      && (forall other :: other in s.requests && other != id ==> !HoldsRow(s.requests[other], s.requests[id].key))
  }

  function Start(limit: nat): State {
    State(0, limit, map[], map[])
  }

  lemma StepKeepsLocks(s: State, st: Step)
    requires LocksRight(s) && Enabled(s, st)
    ensures LocksRight(Next(s, st))
  {
    match st
    case Upsert(id, actual) =>
    case LockRow(id, key) =>
    case _ =>
  }

  // ---- Conservation ----

  /** What the step asks ReleaseQuota to subtract. */
  function Asked(s: State, st: Step): int {
    match st
    case ReleaseFailed(id) => if id in s.requests && s.requests[id].Reserved? then s.requests[id].bytes else 0
    case SettleReservation(id) =>
      if id in s.requests && s.requests[id].Written? then s.requests[id].bytes - s.requests[id].actual else 0
    case SettleDisplaced(id) => if id in s.requests && s.requests[id].Settled? then s.requests[id].displaced else 0
    case ReleaseDeleted(id) => if id in s.requests && s.requests[id].Deleted? then s.requests[id].size else 0
    case _ => 0
  }

  /** The clamp at zero swallows what the counter does not hold. */
  function Clamped(s: State, st: Step): nat {
    if Asked(s, st) > s.used then Asked(s, st) - s.used else 0
  }

  /** Two first writes of one key: the later one overwrites a row its SELECT ... FOR UPDATE did not see. */
  function Unseen(s: State, st: Step): nat {
    if st.Upsert? && st.id in s.requests && s.requests[st.id].Upserting? && s.requests[st.id].seen.None?
    then SizeAt(s.heads, s.requests[st.id].key) else 0
  }

  /** A request that dies before its head row is written takes what it reserved with it. */
  function Forgotten(s: State, st: Step): nat {
    if st.Crash? && st.id in s.requests && (s.requests[st.id].Reserved? || s.requests[st.id].Upserting?)
    then s.requests[st.id].bytes else 0
  }

  lemma OutstandingPut(requests: map<nat, Request>, id: nat, q: Request)
    ensures Sum(AllOutstanding(requests[id := q]))
         == Sum(AllOutstanding(requests)) + Outstanding(q) - (if id in requests then Outstanding(requests[id]) else 0)
  {
    assert AllOutstanding(requests[id := q]) == AllOutstanding(requests)[id := Outstanding(q)];
    SumPut(AllOutstanding(requests), id, Outstanding(q));
  }

  lemma OutstandingDrop(requests: map<nat, Request>, id: nat)
    requires id in requests
    ensures Sum(AllOutstanding(requests - {id})) == Sum(AllOutstanding(requests)) - Outstanding(requests[id])
  {
    assert AllOutstanding(requests - {id}) == AllOutstanding(requests) - {id};
    SumRemove(AllOutstanding(requests), id);
  }

  lemma HeadPut(heads: map<string, nat>, key: string, size: nat)
    ensures Sum(Sizes(heads[key := size])) == Sum(Sizes(heads)) + size - SizeAt(heads, key)
  {
    assert Sizes(heads[key := size]) == Sizes(heads)[key := size];
    SumPut(Sizes(heads), key, size);
  }

  lemma HeadDrop(heads: map<string, nat>, key: string)
    ensures Sum(Sizes(heads - {key})) == Sum(Sizes(heads)) - SizeAt(heads, key)
  {
    assert Sizes(heads - {key}) == Sizes(heads) - {key};
    if key in heads {
      SumRemove(Sizes(heads), key);
    } else {
      assert Sizes(heads) - {key} == Sizes(heads);
    }
  }

  /**
   The exact law of every step, from any state: the drift grows by what a clamped release swallowed, by the size of
   a row overwritten unseen and by what a crashed request had reserved, and by nothing else. So a step keeps
   used = head sizes + outstanding if and only if it does none of the three.
   */
  lemma StepDrift(s: State, st: Step)
    requires LocksRight(s) && Enabled(s, st)
    ensures Drift(Next(s, st)) == Drift(s) + Clamped(s, st) + Unseen(s, st) + Forgotten(s, st)
  {
    match st
    case Reserve(id, bytes) => OutstandingPut(s.requests, id, Reserved(bytes));
    case LockRow(id, key) => OutstandingPut(s.requests, id, Next(s, st).requests[id]);
    case Upsert(id, actual) =>
      HeadPut(s.heads, s.requests[id].key, actual);
      OutstandingPut(s.requests, id, Next(s, st).requests[id]);
    case Rollback(id) => OutstandingPut(s.requests, id, Reserved(s.requests[id].bytes));
    case ReleaseFailed(id) => OutstandingDrop(s.requests, id);
    case Crash(id) => OutstandingDrop(s.requests, id);
    case SettleReservation(id) => OutstandingPut(s.requests, id, Settled(s.requests[id].displaced));
    case SettleDisplaced(id) => OutstandingDrop(s.requests, id);
    case Delete(id, key) =>
      HeadDrop(s.heads, key);
      OutstandingPut(s.requests, id, Deleted(s.heads[key]));
    case ReleaseDeleted(id) => OutstandingDrop(s.requests, id);
  }

  ghost predicate ValidRun(s: State, run: seq<Step>)
    decreases |run|
  {
    run == [] || (Enabled(s, run[0]) && ValidRun(Next(s, run[0]), run[1..]))
  }

  ghost function Final(s: State, run: seq<Step>): State
    requires ValidRun(s, run)
    decreases |run|
  {
    if run == [] then s else Final(Next(s, run[0]), run[1..])
  }

  /** Everything clamps swallowed, unseen overwrites left behind and crashed requests held in a run. */
  ghost function Lost(s: State, run: seq<Step>): nat
    requires ValidRun(s, run)
    decreases |run|
  {
    if run == [] then 0 else Clamped(s, run[0]) + Unseen(s, run[0]) + Forgotten(s, run[0]) + Lost(Next(s, run[0]), run[1..])
  }

  lemma {:induction false} RunDrift(s: State, run: seq<Step>)
    requires LocksRight(s) && ValidRun(s, run)
    ensures Drift(Final(s, run)) == Drift(s) + Lost(s, run)
    ensures LocksRight(Final(s, run))
    decreases |run|
  {
    if run != [] {
      StepDrift(s, run[0]);
      StepKeepsLocks(s, run[0]);
      RunDrift(Next(s, run[0]), run[1..]);
    }
  }

  /**
   Over every run from an empty tenant the counter is what the head rows and the requests in flight account for
   plus what was lost, so it never under-bills; at quiescence it is exactly the stored bytes if and only if no
   release was clamped, no row overwritten unseen and no reservation forgotten.
   */
  lemma Conservation(limit: nat, run: seq<Step>)
    requires ValidRun(Start(limit), run)
    ensures var s := Final(Start(limit), run);
      && s.used == Sum(Sizes(s.heads)) + Sum(AllOutstanding(s.requests)) + Lost(Start(limit), run)
      && (s.requests == map[] ==> s.used >= Sum(Sizes(s.heads)))
      && (s.requests == map[] ==> (s.used == Sum(Sizes(s.heads)) <==> Lost(Start(limit), run) == 0))
  {
    RunDrift(Start(limit), run);
    assert Sizes(map[]) == map[] && AllOutstanding(map[]) == map[];
  }

  /** The bytes recorded are no more than the bytes that were declared and reserved. */
  predicate Honest(s: State, st: Step) {
    st.Upsert? && st.id in s.requests && s.requests[st.id].Upserting? ==> st.actual <= s.requests[st.id].bytes
  }

  predicate AllHonest(s: State) {
    forall id :: id in s.requests && s.requests[id].Written? ==> s.requests[id].actual <= s.requests[id].bytes
  }

  /** While writers keep to what they reserved, the counter always holds what a release asks for. */
  lemma HonestNeverClamps(s: State, st: Step)
    requires AllHonest(s) && Drift(s) >= 0 && Enabled(s, st)
    ensures Clamped(s, st) == 0
  {
    SumNonNegative(Sizes(s.heads));
    forall id | id in AllOutstanding(s.requests) ensures AllOutstanding(s.requests)[id] >= 0 {
    }
    SumNonNegative(AllOutstanding(s.requests));
    if Asked(s, st) > 0 {
      assert st.id in s.requests && Asked(s, st) <= AllOutstanding(s.requests)[st.id];
    }
  }

  ghost predicate HonestRun(s: State, run: seq<Step>)
    requires ValidRun(s, run)
    decreases |run|
  {
    run == [] || (Honest(s, run[0]) && HonestRun(Next(s, run[0]), run[1..]))
  }

  /** Bytes of rows that were overwritten unseen, and of reservations that were forgotten. */
  ghost function RacedOrForgotten(s: State, run: seq<Step>): nat
    requires ValidRun(s, run)
    decreases |run|
  {
    if run == [] then 0 else Unseen(s, run[0]) + Forgotten(s, run[0]) + RacedOrForgotten(Next(s, run[0]), run[1..])
  }

  /** So only two first writes of one key racing, and requests that crash, can make an honest run drift. */
  lemma {:induction false} HonestRunsLoseOnlyRaces(s: State, run: seq<Step>)
    requires LocksRight(s) && AllHonest(s) && Drift(s) >= 0 && ValidRun(s, run) && HonestRun(s, run)
    ensures Lost(s, run) == RacedOrForgotten(s, run)
    decreases |run|
  {
    if run != [] {
      HonestNeverClamps(s, run[0]);
      StepDrift(s, run[0]);
      StepKeepsLocks(s, run[0]);
      HonestRunsLoseOnlyRaces(Next(s, run[0]), run[1..]);
    }
  }

  /** Reservations respect the limit; only accounting bytes that are already stored can take the counter past it. */
  lemma OnlyShortfallsPassTheLimit(s: State, st: Step)
    requires Enabled(s, st) && Next(s, st).used > s.limit && Next(s, st).used > s.used
    ensures st.SettleReservation? && s.requests[st.id].actual > s.requests[st.id].bytes
  {
  }

  lemma {:induction false} RunSnoc(s: State, run: seq<Step>, st: Step)
    requires ValidRun(s, run) && Enabled(Final(s, run), st)
    ensures ValidRun(s, run + [st]) && Final(s, run + [st]) == Next(Final(s, run), st)
    decreases |run|
  {
    if run == [] {
      assert [st][1..] == [];
    } else {
      assert (run + [st])[1..] == run[1..] + [st];
      RunSnoc(Next(s, run[0]), run[1..], st);
    }
  }

  /** One more step of a concrete run: `s` is where the run so far has led. */
  lemma Then(limit: nat, run: seq<Step>, s: State, st: Step, s': State) returns (run': seq<Step>)
    requires ValidRun(Start(limit), run) && Final(Start(limit), run) == s
    requires Enabled(s, st) && Next(s, st) == s'
    ensures ValidRun(Start(limit), run') && Final(Start(limit), run') == s'
  {
    RunSnoc(Start(limit), run, st);
    run' := run + [st];
  }

  /**
   Two uploads to one new key, neither of which finds a row to lock: at quiescence one object is stored and
   both are billed.
   */
  lemma RacingFirstWritesDrift(size: nat, limit: nat) returns (run: seq<Step>)
    requires 2 * size <= limit
    ensures ValidRun(Start(limit), run)
    ensures var s := Final(Start(limit), run);
      s.requests == map[] && s.heads == map["k" := size] && s.used == 2 * size
  {
    var a, b := Reserved(size), Written(size, size, 0);
    var one, two := State(size, limit, map[], map[]), State(2 * size, limit, map[], map[]);
    run := Then(limit, [], Start(limit), Reserve(0, size), one.(requests := map[0 := a]));
    run := Then(limit, run, one.(requests := map[0 := a]), Reserve(1, size), two.(requests := map[0 := a, 1 := a]));
    run := LockAndUpsertBoth(limit, run, two, size);
    run := SettleBoth(limit, run, two.(heads := map["k" := size]), b);
  }

  lemma LockAndUpsertBoth(limit: nat, run: seq<Step>, s: State, size: nat) returns (run': seq<Step>)
    requires s.heads == map[] && s.requests == map[] && ValidRun(Start(limit), run)
    requires Final(Start(limit), run) == s.(requests := map[0 := Reserved(size), 1 := Reserved(size)])
    ensures ValidRun(Start(limit), run')
    ensures Final(Start(limit), run') == s.(heads := map["k" := size],
              requests := map[0 := Written(size, size, 0), 1 := Written(size, size, 0)])
  {
    var a, u, b := Reserved(size), Upserting(size, "k", None), Written(size, size, 0);
    var stored := s.(heads := map["k" := size]);
    run' := Then(limit, run, s.(requests := map[0 := a, 1 := a]), LockRow(0, "k"), s.(requests := map[0 := u, 1 := a]));
    run' := Then(limit, run', s.(requests := map[0 := u, 1 := a]), LockRow(1, "k"), s.(requests := map[0 := u, 1 := u]));
    run' := Then(limit, run', s.(requests := map[0 := u, 1 := u]), Upsert(0, size), stored.(requests := map[0 := b, 1 := u]));
    run' := Then(limit, run', stored.(requests := map[0 := b, 1 := u]), Upsert(1, size), stored.(requests := map[0 := b, 1 := b]));
  }

  lemma SettleBoth(limit: nat, run: seq<Step>, s: State, b: Request) returns (run': seq<Step>)
    requires b.Written? && b.bytes == b.actual && b.displaced == 0 && s.requests == map[]
    requires ValidRun(Start(limit), run) && Final(Start(limit), run) == s.(requests := map[0 := b, 1 := b])
    ensures ValidRun(Start(limit), run') && Final(Start(limit), run') == s
  {
    var done := Settled(0);
    run' := Then(limit, run, s.(requests := map[0 := b, 1 := b]), SettleReservation(0), s.(requests := map[0 := done, 1 := b]));
    run' := Then(limit, run', s.(requests := map[0 := done, 1 := b]), SettleReservation(1), s.(requests := map[0 := done, 1 := done]));
    run' := Then(limit, run', s.(requests := map[0 := done, 1 := done]), SettleDisplaced(0), s.(requests := map[1 := done]));
    run' := Then(limit, run', s.(requests := map[1 := done]), SettleDisplaced(1), s);
  }

  /** A request that crashes after its reservation: nothing is stored and no request is left, but it stays billed. */
  lemma CrashStaysBilled(size: nat, limit: nat) returns (run: seq<Step>)
    requires size <= limit
    ensures ValidRun(Start(limit), run)
    ensures Final(Start(limit), run) == State(size, limit, map[], map[])
  {
    var full := State(size, limit, map[], map[]);
    var a, u := Reserved(size), Upserting(size, "k", None);
    run := Then(limit, [], Start(limit), Reserve(0, size), full.(requests := map[0 := a]));
    run := Then(limit, run, full.(requests := map[0 := a]), LockRow(0, "k"), full.(requests := map[0 := u]));
    run := Then(limit, run, full.(requests := map[0 := u]), Crash(0), full);
  }

  /** A write larger than its reservation, deleted before it settles: nothing is stored, its size stays billed. */
  lemma EarlyDeleteDrifts(size: nat, limit: nat) returns (run: seq<Step>)
    ensures ValidRun(Start(limit), run)
    ensures Final(Start(limit), run) == State(size, limit, map[], map[])
  {
    var empty := Start(limit);
    var a, u, b, gone := Reserved(0), Upserting(0, "k", None), Written(0, size, 0), Deleted(size);
    run := Then(limit, [], empty, Reserve(0, 0), empty.(requests := map[0 := a]));
    run := Then(limit, run, empty.(requests := map[0 := a]), LockRow(0, "k"), empty.(requests := map[0 := u]));
    var stored := empty.(heads := map["k" := size], requests := map[0 := b]);
    run := Then(limit, run, empty.(requests := map[0 := u]), Upsert(0, size), stored);
    run := Then(limit, run, stored, Delete(1, "k"), empty.(requests := map[0 := b, 1 := gone]));
    run := Then(limit, run, empty.(requests := map[0 := b, 1 := gone]), ReleaseDeleted(1), empty.(requests := map[0 := b]));
    var full := State(size, limit, map[], map[]);
    run := Then(limit, run, empty.(requests := map[0 := b]), SettleReservation(0), full.(requests := map[0 := Settled(0)]));
    run := Then(limit, run, full.(requests := map[0 := Settled(0)]), SettleDisplaced(0), full);
  }

  // ---- The Go types ----

  /** One tenant's row of tenant_quotas and its head-cache rows. */
  class TenantStorage {
    var used: nat
    const limit: nat
    var heads: map<string, nat>

    constructor (limit: nat)
      ensures used == 0 && heads == map[] && this.limit == limit
    {
      used, heads := 0, map[];
      this.limit := limit;
    }

    method CheckAndReserve(bytes: nat) returns (ok: bool)
      modifies this`used
      ensures ok <==> old(used) + bytes <= limit
      ensures used == old(used) + if ok then bytes else 0
    {
      ok := used + bytes <= limit;
      if ok {
        used := used + bytes;
      }
    }

    method ReleaseQuota(bytes: int)
      modifies this`used
      ensures used == Released(old(used), bytes)
    {
      used := if used - bytes > 0 then used - bytes else 0;
    }

    /** Whether the shortfall is reserved or forced past the limit, the counter ends up the same. */
    method SettlePutQuota(reserved: nat, actual: nat, oldSize: nat)
      modifies this`used
      ensures used == Released(Released(old(used), reserved - actual), oldSize)
    {
      if actual < reserved {
        ReleaseQuota(reserved - actual);
      } else if actual > reserved {
        var ok := CheckAndReserve(actual - reserved);
        if !ok {
          ReleaseQuota(-(actual - reserved));
        }
      }
      if oldSize > 0 {
        ReleaseQuota(oldSize);
      }
    }

    /** The displaced size is the row's size before the upsert, 0 if there was none; a failed upsert changes nothing. */
    method AtomicHeadUpsert(key: string, size: nat, fails: bool) returns (displaced: Option<nat>)
      modifies this`heads
      ensures fails ==> displaced == None && heads == old(heads)
      ensures !fails ==> displaced == Some(SizeAt(old(heads), key)) && heads == old(heads)[key := size]
    {
      var found := if key in heads then heads[key] else 0;
      if fails {
        return None;
      }
      heads := heads[key := size];
      displaced := Some(found);
    }

    /**
     DeleteObjects: an empty, locked or failing key is reported and kept; every other key loses its row, and the
     bytes of that row are released once, however often the key is listed. The counter follows the head rows down
     exactly when it holds what they hold, and never falls behind them.
     */
    method DeleteObjects(keys: seq<string>, locked: set<string>, failing: set<string>)
      returns (deleted: seq<string>, errors: seq<string>)
      modifies this`used, this`heads
      ensures deleted == Only(keys, locked + failing, false) && errors == Only(keys, locked + failing, true)
      ensures heads == old(heads) - (set k | k in deleted)
      ensures used - Sum(Sizes(heads)) >= old(used - Sum(Sizes(heads)))
      ensures old(used >= Sum(Sizes(heads))) ==> used - Sum(Sizes(heads)) == old(used - Sum(Sizes(heads)))
    {
      deleted, errors := [], [];
      var i := 0;
      while i < |keys|
        invariant i <= |keys|
        invariant deleted == Only(keys[..i], locked + failing, false) && errors == Only(keys[..i], locked + failing, true)
        invariant heads == old(heads) - (set k | k in deleted)
        invariant used - Sum(Sizes(heads)) >= old(used - Sum(Sizes(heads)))
        invariant old(used >= Sum(Sizes(heads))) ==> used - Sum(Sizes(heads)) == old(used - Sum(Sizes(heads)))
      {
        var key := keys[i];
        OnlySnoc(keys, i, locked + failing);
        i := i + 1;
        if key == "" || key in locked || key in failing {
          errors := errors + [key];
          continue;
        }
        HeadDrop(heads, key);
        SumNonNegative(Sizes(heads - {key}));
        if key in heads {
          var size := heads[key];
          heads := heads - {key};
          if size > 0 {
            ReleaseQuota(size);
          }
        }
        deleted := deleted + [key];
      }
      assert keys[..|keys|] == keys;
    }
  }

  /** The keys that are refused, or those that are not, in order. */
  function Only(keys: seq<string>, bad: set<string>, refused: bool): seq<string> {
    if keys == [] then [] else
      var last := keys[|keys| - 1];
      Only(keys[..|keys| - 1], bad, refused) + if (last == "" || last in bad) == refused then [last] else []
  }

  lemma OnlySnoc(keys: seq<string>, i: nat, bad: set<string>)
    requires i < |keys|
    ensures Only(keys[..i + 1], bad, true)
         == Only(keys[..i], bad, true) + if keys[i] == "" || keys[i] in bad then [keys[i]] else []
    ensures Only(keys[..i + 1], bad, false)
         == Only(keys[..i], bad, false) + if keys[i] == "" || keys[i] in bad then [] else [keys[i]]
  {
    assert keys[..i + 1][..i] == keys[..i];
  }
}
