/** On-call rotations: times and durations are whole nanoseconds. */
module OnCall {

  datatype RotationType = Daily | Weekly | Custom | Unknown

  const HOUR: int := 3_600_000_000_000

  datatype Shift = Shift(user: string, startAt: int, endAt: int)

  datatype Rotation = Rotation(users: seq<string>, startTime: int, kind: RotationType, custom: int) {

    function ShiftDuration(): (d: int)
      ensures d > 0
    {
      match kind
      case Weekly => 7 * 24 * HOUR
      case Custom => if custom > 0 then custom else 24 * HOUR
      case _ => 24 * HOUR
    }

    function UserAt(t: int): string {
      if users == [] then ""
      else if t - startTime < 0 then users[0]
      else users[((t - startTime) / ShiftDuration()) % |users|]
    }

    /** The start of shift number `k`; the first is number 0. */
    function Boundary(k: int): int {
      startTime + k * ShiftDuration()
    }

    function NextHandoff(now: int): int {
      if now - startTime < 0 then startTime else Boundary((now - startTime) / ShiftDuration() + 1)
    }

    /** Steps from the rotation's start to the boundary the schedule begins at. */
    method AlignToBoundary(start: int) returns (current: int)
      ensures exists first :: Aligned(this, start, first) && current == Boundary(first)
    {
      var shift := ShiftDuration();
      current := startTime;
      ghost var first := 0;
      while current < start
        invariant first >= 0 && current == Boundary(first) && (first > 0 ==> current - shift < start)
        decreases start - current
      {
        NextBoundary(this, first);
        current := current + shift;
        first := first + 1;
      }
      NextBoundary(this, first);
      NextBoundary(this, first - 1);
      if current > start {
        current := current - shift;
        first := first - 1;
      }
      assert Aligned(this, start, first) && current == Boundary(first);
    }

    /** The shifts from the boundary at or before `start`, but from no earlier than one shift before the rotation. */
    method Schedule(start: int, end: int) returns (entries: seq<Shift>)
      ensures exists first :: IsSchedule(this, start, end, entries, first)
    {
      var shift := ShiftDuration();
      var current := AlignToBoundary(start);
      ghost var first :| Aligned(this, start, first) && current == Boundary(first);
      entries := [];
      while current < end
        invariant current == Boundary(first + |entries|)
        invariant forall i :: 0 <= i < |entries| ==> IsShift(this, entries[i], first + i)
        invariant if entries == [] then current == Boundary(first) else Boundary(first) < end
        invariant entries != [] ==> entries[|entries| - 1].startAt < end && entries[|entries| - 1].endAt == current
        decreases end - current
      {
        NextBoundary(this, first + |entries|);
        entries := entries + [Shift(UserAt(current), current, current + shift)];
        current := current + shift;
      }
      assert IsSchedule(this, start, end, entries, first);
    }
  }

  /** `first` is the last boundary no later than `start`, or -1 when `start` is before the rotation. */
  predicate Aligned(r: Rotation, start: int, first: int) {
    first >= -1 && r.Boundary(first + 1) > start && (first > -1 ==> r.Boundary(first) <= start)
  }

  predicate IsShift(r: Rotation, e: Shift, k: int) {
    e.startAt == r.Boundary(k) && e.endAt == r.Boundary(k + 1) && e.user == r.UserAt(e.startAt)
  }

  lemma NextBoundary(r: Rotation, k: int)
    ensures r.Boundary(k + 1) == r.Boundary(k) + r.ShiftDuration()
  {
  }

  lemma BoundariesAscend(r: Rotation, j: int, k: int)
    requires j <= k
    ensures r.Boundary(j) <= r.Boundary(k)
    ensures j < k ==> r.Boundary(j) < r.Boundary(k)
  {
    Scale(r.ShiftDuration(), j, k);
  }

  lemma Scale(d: int, j: int, k: int)
    requires d > 0 && j <= k
    ensures j * d <= k * d && (j < k ==> j * d < k * d)
  {
  }

  /** Which shift an instant falls in. */
  lemma ShiftNumber(r: Rotation, t: int, k: int)
    requires k >= 0 && r.Boundary(k) <= t < r.Boundary(k + 1)
    ensures (t - r.startTime) / r.ShiftDuration() == k
  {
    var d := r.ShiftDuration();
    var q := (t - r.startTime) / d;
    assert t - r.startTime == q * d + (t - r.startTime) % d;
    NextBoundary(r, q);
    if q < k {
      BoundariesAscend(r, q + 1, k);
    } else if q > k {
      BoundariesAscend(r, k + 1, q);
    }
  }

  /** One user holds a shift from its first instant to its last. */
  lemma UserHoldsShift(r: Rotation, e: Shift, k: int, t: int)
    requires k >= -1 && IsShift(r, e, k) && e.startAt <= t < e.endAt
    ensures r.UserAt(t) == e.user
  {
    NextBoundary(r, k);
    if k >= 0 {
      BoundariesAscend(r, 0, k);
      ShiftNumber(r, t, k);
      ShiftNumber(r, e.startAt, k);
    }
  }

  /** The instant is inside some shift of the schedule. */
  predicate Covered(entries: seq<Shift>, t: int) {
    exists i :: 0 <= i < |entries| && entries[i].startAt <= t < entries[i].endAt
  }

  /** `entries` is what Schedule returns for a window. */
  predicate IsSchedule(r: Rotation, start: int, end: int, entries: seq<Shift>, first: int) {
    && Aligned(r, start, first)
    && (forall i :: 0 <= i < |entries| ==> IsShift(r, entries[i], first + i))
    && (entries == [] <==> r.Boundary(first) >= end)
    && (entries != [] ==> entries[|entries| - 1].startAt < end <= entries[|entries| - 1].endAt)
  }

  /** Shifts follow each other without gap or overlap. */
  lemma Contiguous(r: Rotation, start: int, end: int, entries: seq<Shift>, first: int)
    requires IsSchedule(r, start, end, entries, first)
    ensures forall i :: 0 <= i < |entries| - 1 ==> entries[i].endAt == entries[i + 1].startAt
  {
    forall i | 0 <= i < |entries| - 1 ensures entries[i].endAt == entries[i + 1].startAt {
      assert IsShift(r, entries[i], first + i) && IsShift(r, entries[i + 1], first + (i + 1));
    }
  }

  lemma {:induction false} CoveredFrom(r: Rotation, entries: seq<Shift>, first: int, t: int)
    requires forall i :: 0 <= i < |entries| ==> IsShift(r, entries[i], first + i)
    requires entries != [] && r.Boundary(first) <= t < entries[|entries| - 1].endAt
    ensures Covered(entries, t)
  {
    var n := |entries| - 1;
    assert IsShift(r, entries[n], first + n);
    if t < entries[n].startAt {
      assert IsShift(r, entries[n - 1], first + (n - 1));
      CoveredFrom(r, entries[..n], first, t);
      var i :| 0 <= i < n && entries[..n][i].startAt <= t < entries[..n][i].endAt;
      assert entries[i].startAt <= t < entries[i].endAt;
    }
  }

  /**
   The schedule covers its whole window if and only if the window is empty or starts no earlier than one shift
   before the rotation; an earlier window begins with a gap.
   */
  lemma CoversWindow(r: Rotation, start: int, end: int, entries: seq<Shift>, first: int)
    requires IsSchedule(r, start, end, entries, first)
    ensures (forall t :: start <= t < end ==> Covered(entries, t))
       <==> start >= end || start >= r.startTime - r.ShiftDuration()
  {
    NextBoundary(r, -1);
    if start >= r.startTime - r.ShiftDuration() {
      forall t | start <= t < end ensures Covered(entries, t) {
        CoveredFrom(r, entries, first, t);
      }
    } else if start < end {
      forall i | 0 <= i < |entries| ensures entries[i].startAt > start {
        BoundariesAscend(r, -1, first + i);
        assert IsShift(r, entries[i], first + i);
      }
      assert !Covered(entries, start);
    }
  }

  /** The next handoff is the first shift start strictly after now, and nobody else is on call until then. */
  lemma NextHandoffIsLeast(r: Rotation, now: int) returns (k: nat)
    ensures r.NextHandoff(now) == r.Boundary(k) > now
    ensures forall j: nat :: r.Boundary(j) > now ==> r.NextHandoff(now) <= r.Boundary(j)
    ensures forall t :: now <= t < r.NextHandoff(now) ==> r.UserAt(t) == r.UserAt(now)
  {
    if now < r.startTime {
      k := 0;
      forall j: nat ensures r.Boundary(0) <= r.Boundary(j) {
        BoundariesAscend(r, 0, j);
      }
    } else {
      var d := r.ShiftDuration();
      var q := (now - r.startTime) / d;
      assert now - r.startTime == q * d + (now - r.startTime) % d;
      NextBoundary(r, q);
      k := q + 1;
      forall j: nat | r.Boundary(j) > now ensures r.Boundary(k) <= r.Boundary(j) {
        if j <= q {
          BoundariesAscend(r, j, q);
        } else {
          BoundariesAscend(r, k, j);
        }
      }
      forall t | now <= t < r.NextHandoff(now) ensures r.UserAt(t) == r.UserAt(now) {
        ShiftNumber(r, t, q);
      }
    }
  }
}
