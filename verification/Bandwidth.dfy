/** Bandwidth events: buffered, aggregated per tenant and per backend, and added to the day's rows. */
module Bandwidth {

  /** A tenant or backend name; the empty string is no name. */
  datatype Name = Nobody | Named(text: string)

  datatype Event = Event(tenant: Name, backend: Name, ingress: int, egress: int)

  datatype Usage = Usage(ingress: int, egress: int, requests: int)

  function Zero(): Usage {
    Usage(0, 0, 0)
  }

  function Plus(a: Usage, b: Usage): Usage {
    Usage(a.ingress + b.ingress, a.egress + b.egress, a.requests + b.requests)
  }

  /** Which total an event counts towards. */
  datatype Grouping = ByTenant | ByBackend

  function NameOf(g: Grouping, e: Event): Name {
    if g == ByTenant then e.tenant else e.backend
  }

  function One(e: Event): Usage {
    Usage(e.ingress, e.egress, 1)
  }

  /** What `name` used in these events. */
  function UsageOf(events: seq<Event>, g: Grouping, name: Name): Usage {
    if events == [] then Zero() else
      var last := events[|events| - 1];
      Plus(UsageOf(events[..|events| - 1], g, name), if NameOf(g, last) == name then One(last) else Zero())
  }

  function At(rows: map<Name, Usage>, name: Name): Usage {
    if name in rows then rows[name] else Zero()
  }

  lemma UsageSnoc(events: seq<Event>, e: Event, g: Grouping, name: Name)
    ensures UsageOf(events + [e], g, name) == Plus(UsageOf(events, g, name), if NameOf(g, e) == name then One(e) else Zero())
  {
    assert (events + [e])[..|events|] == events;
  }

  predicate Accepted(e: Event) {
    e.tenant != Nobody && (e.ingress != 0 || e.egress != 0)
  }

  const FLUSH_AT := 100

  class BandwidthTracker {
    const connected: bool
    var buffer: seq<Event>
    var daily: map<Name, Usage>
    var backendDaily: map<Name, Usage>

    /** What the tracker holds for one name; it keeps no record of the past. */
    ghost function View(g: Grouping, name: Name): Ledger
      reads this
    {
      Ledger(buffer, At(if g == ByTenant then daily else backendDaily, name), Zero(), Zero())
    }

    constructor (connected: bool)
      ensures this.connected == connected && buffer == [] && daily == map[] && backendDaily == map[]
    {
      this.connected := connected;
      buffer, daily, backendDaily := [], map[], map[];
    }

    /** The first critical section of a record: the event is buffered, and it is decided whether to flush. */
    method Append(e: Event) returns (needsFlush: bool)
      modifies this`buffer
      ensures forall g, name :: View(g, name) == Present(Do(old(View(g, name)), connected, g, name, Buffer(e)))
      ensures needsFlush <==> Accepted(e) && |old(buffer)| + 1 >= FLUSH_AT
    {
      if e.tenant == Nobody || (e.ingress == 0 && e.egress == 0) {
        return false;
      }
      buffer := buffer + [e];
      needsFlush := |buffer| >= FLUSH_AT;
    }

    /**
     Buffers an event, and flushes if the buffer was full then. `failing` and `failingBackends` are the names whose
     writes would fail. Between the two critical sections others may append or flush; here nobody does.
     */
    method RecordWithBackend(e: Event, failing: set<Name>, failingBackends: set<Name>)
      modifies this
      ensures forall g, name :: name != Nobody ==>
        View(g, name)
        == Present(RecordAlone(old(View(g, name)), connected, g, name, e, if g == ByTenant then failing else failingBackends))
    {
      var needsFlush := Append(e);
      if needsFlush {
        Flush(failing, failingBackends);
      }
    }

    /** Empties the buffer into the day's rows; without a database the events are dropped. */
    method Flush(failing: set<Name>, failingBackends: set<Name>)
      modifies this
      ensures forall g, name :: name != Nobody ==>
        View(g, name)
        == Present(FlushLedger(old(View(g, name)), connected, g, name, if g == ByTenant then failing else failingBackends))
    {
      var events := buffer;
      buffer := [];
      if |events| == 0 || !connected {
        return;
      }
      var totals, byBackend := Aggregate(events);
      daily := WriteRows(totals, failing, daily, events, ByTenant);
      backendDaily := WriteRows(byBackend, failingBackends, backendDaily, events, ByBackend);
    }
  }

  /** The day's rows gained exactly the usage in `events`, except under names whose write failed. */
  ghost predicate Flushed(connected: bool, events: seq<Event>, g: Grouping, failing: set<Name>,
                          before: map<Name, Usage>, after: map<Name, Usage>) {
    forall name :: name != Nobody ==>
      At(after, name) == if connected && name !in failing then Plus(At(before, name), UsageOf(events, g, name)) else At(before, name)
  }

  ghost predicate TotalsOf(totals: map<Name, Usage>, events: seq<Event>, g: Grouping) {
    forall name :: name != Nobody ==> At(totals, name) == UsageOf(events, g, name)
  }

  function AddEvent(totals: map<Name, Usage>, e: Event, g: Grouping): map<Name, Usage> {
    if g == ByBackend && e.backend == Nobody then totals
    else totals[NameOf(g, e) := Plus(At(totals, NameOf(g, e)), One(e))]
  }

  lemma AddKeepsTotals(totals: map<Name, Usage>, events: seq<Event>, e: Event, g: Grouping)
    requires TotalsOf(totals, events, g)
    ensures TotalsOf(AddEvent(totals, e, g), events + [e], g)
  {
    forall name | name != Nobody ensures At(AddEvent(totals, e, g), name) == UsageOf(events + [e], g, name) {
      UsageSnoc(events, e, g, name);
      assert At(totals, name) == UsageOf(events, g, name);
    }
  }

  /** One pass over the events for both groupings; only events that reached a backend count towards one. */
  method Aggregate(events: seq<Event>) returns (totals: map<Name, Usage>, byBackend: map<Name, Usage>)
    ensures TotalsOf(totals, events, ByTenant) && TotalsOf(byBackend, events, ByBackend)
  {
    totals, byBackend := map[], map[];
    for i := 0 to |events|
      invariant TotalsOf(totals, events[..i], ByTenant)
      invariant TotalsOf(byBackend, events[..i], ByBackend)
    {
      var e := events[i];
      AddKeepsTotals(totals, events[..i], e, ByTenant);
      AddKeepsTotals(byBackend, events[..i], e, ByBackend);
      assert events[..i + 1] == events[..i] + [e];
      totals := AddEvent(totals, e, ByTenant);
      if e.backend != Nobody {
        byBackend := AddEvent(byBackend, e, ByBackend);
      }
    }
    assert events[..|events|] == events;
  }

  /** One upsert a name, in any order. */
  method WriteRows(totals: map<Name, Usage>, failing: set<Name>, rows: map<Name, Usage>,
                   ghost events: seq<Event>, ghost g: Grouping) returns (after: map<Name, Usage>)
    requires TotalsOf(totals, events, g)
    ensures Flushed(true, events, g, failing, rows, after)
  {
    after := rows;
    var left := totals.Keys;
    while left != {}
      invariant left <= totals.Keys
      invariant forall name :: name in left || name !in totals || name in failing ==> At(after, name) == At(rows, name)
      invariant forall name :: name in totals && name !in left && name !in failing ==>
        At(after, name) == Plus(At(rows, name), totals[name])
    {
      var name :| name in left;
      left := left - {name};
      if name !in failing {
        after := after[name := Plus(At(after, name), totals[name])];
      }
    }
    forall name | name != Nobody && name !in failing ensures At(after, name) == Plus(At(rows, name), UsageOf(events, g, name)) {
      assert At(totals, name) == UsageOf(events, g, name);
    }
  }

  // ---- Over a whole run ----

  /** An operation, with the names whose writes fail during it. */
  datatype Op = Buffer(e: Event) | Flush(failing: set<Name>)

  /** What is persisted and buffered for one name, and what was recorded and lost so far. */
  datatype Ledger = Ledger(buffer: seq<Event>, persisted: Usage, recorded: Usage, lost: Usage)

  /** The part of a ledger the tracker can show. */
  function Present(l: Ledger): Ledger {
    l.(recorded := Zero(), lost := Zero())
  }

  function FlushLedger(l: Ledger, connected: bool, g: Grouping, name: Name, failing: set<Name>): Ledger {
    var usage := UsageOf(l.buffer, g, name);
    if connected && name !in failing then l.(buffer := [], persisted := Plus(l.persisted, usage))
    else l.(buffer := [], lost := Plus(l.lost, usage))
  }

  function Buffered(l: Ledger, g: Grouping, name: Name, e: Event): Ledger {
    l.(buffer := l.buffer + [e], recorded := Plus(l.recorded, if NameOf(g, e) == name then One(e) else Zero()))
  }

  function Do(l: Ledger, connected: bool, g: Grouping, name: Name, op: Op): Ledger {
    match op
    case Flush(failing) => FlushLedger(l, connected, g, name, failing)
    case Buffer(e) => if Accepted(e) then Buffered(l, g, name, e) else l
  }

  function DoAll(l: Ledger, connected: bool, g: Grouping, name: Name, ops: seq<Op>): Ledger
    decreases |ops|
  {
    if ops == [] then l else DoAll(Do(l, connected, g, name, ops[0]), connected, g, name, ops[1..])
  }

  /** Both critical sections of a record, with nobody in between. */
  function RecordAlone(l: Ledger, connected: bool, g: Grouping, name: Name, e: Event, failing: set<Name>): Ledger {
    var l' := Do(l, connected, g, name, Buffer(e));
    if Accepted(e) && |l'.buffer| >= FLUSH_AT then Do(l', connected, g, name, Flush(failing)) else l'
  }

  /** Persisted plus buffered plus lost is what was recorded, byte for byte and request for request. */
  predicate Balanced(l: Ledger, g: Grouping, name: Name) {
    l.recorded == Plus(Plus(l.persisted, l.lost), UsageOf(l.buffer, g, name))
  }

  lemma FlushKeepsBalance(l: Ledger, connected: bool, g: Grouping, name: Name, failing: set<Name>)
    requires Balanced(l, g, name)
    ensures Balanced(FlushLedger(l, connected, g, name, failing), g, name)
  {
    assert UsageOf([], g, name) == Zero();
  }

  lemma RecordKeepsBalance(l: Ledger, g: Grouping, name: Name, e: Event)
    requires Balanced(l, g, name)
    ensures Balanced(Buffered(l, g, name, e), g, name)
  {
    UsageSnoc(l.buffer, e, g, name);
  }

  lemma OpKeepsBalance(l: Ledger, connected: bool, g: Grouping, name: Name, op: Op)
    requires Balanced(l, g, name)
    ensures Balanced(Do(l, connected, g, name, op), g, name)
    ensures connected && (op.Flush? ==> name !in op.failing) ==> Do(l, connected, g, name, op).lost == l.lost
  {
    match op
    case Flush(failing) => FlushKeepsBalance(l, connected, g, name, failing);
    case Buffer(e) => RecordKeepsBalance(l, g, name, e);
  }

  /** Over every interleaving of appends and flushes nothing is lost but what was buffered when a write failed. */
  lemma {:induction false} RunKeepsBalance(l: Ledger, connected: bool, g: Grouping, name: Name, ops: seq<Op>)
    requires Balanced(l, g, name)
    ensures Balanced(DoAll(l, connected, g, name, ops), g, name)
    ensures connected && (forall i :: 0 <= i < |ops| && ops[i].Flush? ==> name !in ops[i].failing) ==>
      DoAll(l, connected, g, name, ops).lost == l.lost
    decreases |ops|
  {
    if ops != [] {
      OpKeepsBalance(l, connected, g, name, ops[0]);
      RunKeepsBalance(Do(l, connected, g, name, ops[0]), connected, g, name, ops[1..]);
    }
  }
}
