/**
 The pool's mutex-guarded fields and the methods that update them. Each method is proved to be a run of
 steps of the transition system in StorePool, so what holds of every run holds of the fields.
 */
module ChunkStorePool {
  import opened StorePool
  import opened PoolTheorems

  /** What a worker hands to the collector. */
  datatype Outcome = Outcome(ok: bool, index: nat, offset: nat, hash: string, storedBytes: nat)

  lemma {:induction false} RunSnoc(cs: seq<Chunk>, workers: nat, p: Pool, run: seq<Step>, st: Step)
    requires ValidRun(cs, workers, p, run) && Enabled(cs, workers, Final(cs, workers, p, run), st)
    ensures ValidRun(cs, workers, p, run + [st])
    ensures Final(cs, workers, p, run + [st]) == Next(cs, workers, Final(cs, workers, p, run), st)
    decreases |run|
  {
    if run == [] {
      assert [st][1..] == [];
    } else {
      assert (run + [st])[1..] == run[1..] + [st];
      RunSnoc(cs, workers, Next(cs, workers, p, run[0]), run[1..], st);
    }
  }

  lemma OneStep(cs: seq<Chunk>, workers: nat, p: Pool, st: Step)
    requires Enabled(cs, workers, p, st)
    ensures ValidRun(cs, workers, p, [st]) && Final(cs, workers, p, [st]) == Next(cs, workers, p, st)
  {
    assert [] + [st] == [st];
    RunSnoc(cs, workers, p, [], st);
  }

  /** The collector takes a committed store off a worker and records it. */
  lemma Recorded(cs: seq<Chunk>, workers: nat, p: Pool, i: nat) returns (q: Pool)
    requires p.collector == Idle && i in p.stored && i < |cs|
    ensures ValidRun(cs, workers, p, [CollectOk(i), Record]) && q == Final(cs, workers, p, [CollectOk(i), Record])
    ensures q == StorePool.AddRef(TakeStored(p, i, cs[i].hash), RefRow(i, Offset(cs, i), cs[i].hash))
                   .(collector := Granting(i, Waiters(p, cs[i].hash)))
  {
    OneStep(cs, workers, p, CollectOk(i));
    RunSnoc(cs, workers, p, [CollectOk(i)], Record);
    assert [CollectOk(i)] + [Record] == [CollectOk(i), Record];
    q := Final(cs, workers, p, [CollectOk(i), Record]);
  }

  /** How many waiters in a row get their reference before the first refusal. */
  function GrantedFirst(grants: seq<bool>): (n: nat)
    ensures n <= |grants|
    ensures forall i :: 0 <= i < n ==> grants[i]
    ensures n < |grants| ==> !grants[n]
  {
    if grants == [] || !grants[0] then 0 else 1 + GrantedFirst(grants[1..])
  }

  function WaiterRows(ws: seq<Waiter>, hash: string): seq<RefRow> {
    seq(|ws|, i requires 0 <= i < |ws| => RefRow(ws[i].index, ws[i].offset, hash))
  }

  function Copies(n: nat, hash: string): seq<string> {
    seq(n, _ => hash)
  }

  /** From `p` to `q` the first `i` waiters were granted their references and recorded, and nothing else happened. */
  predicate GrantedTo(p: Pool, q: Pool, ws: seq<Waiter>, i: nat, hash: string) {
    && i <= |ws| && q.inFlight == p.inFlight
    && q.newRefs == p.newRefs + WaiterRows(ws[..i], hash)
    && q.takenRefs == p.takenRefs + Copies(i, hash)
  }

  /** A waiter is granted its reference, then recorded. */
  lemma WaiterTurn(cs: seq<Chunk>, workers: nat, p: Pool, m: Pool, run: seq<Step>, ws: seq<Waiter>, i: nat, chunk: nat)
    returns (q: Pool)
    requires ValidRun(cs, workers, p, run) && i < |ws| && chunk < |cs|
    requires GrantedTo(m, Final(cs, workers, p, run), ws, i, cs[chunk].hash)
    requires Final(cs, workers, p, run).collector == Granting(chunk, ws[i..])
    ensures ValidRun(cs, workers, p, run + [GrantWaiter, RecordWaiter])
    ensures q == Final(cs, workers, p, run + [GrantWaiter, RecordWaiter])
    ensures GrantedTo(m, q, ws, i + 1, cs[chunk].hash) && q.collector == Granting(chunk, ws[i + 1..])
    ensures q.firstErr == Final(cs, workers, p, run).firstErr
    ensures q.newRefs == Final(cs, workers, p, run).newRefs + [RefRow(ws[i].index, ws[i].offset, cs[chunk].hash)]
    ensures q.takenRefs == Final(cs, workers, p, run).takenRefs + [cs[chunk].hash]
  {
    RunSnoc(cs, workers, p, run, GrantWaiter);
    RunSnoc(cs, workers, p, run + [GrantWaiter], RecordWaiter);
    assert run + [GrantWaiter] + [RecordWaiter] == run + [GrantWaiter, RecordWaiter];
    q := Final(cs, workers, p, run + [GrantWaiter, RecordWaiter]);
    OneMoreWaiter(ws, i, cs[chunk].hash);
  }

  lemma OneMoreWaiter(ws: seq<Waiter>, i: nat, hash: string)
    requires i < |ws|
    ensures WaiterRows(ws[..i + 1], hash) == WaiterRows(ws[..i], hash) + [RefRow(ws[i].index, ws[i].offset, hash)]
    ensures Copies(i + 1, hash) == Copies(i, hash) + [hash]
    ensures ws[i..][1..] == ws[i + 1..]
  {
  }

  /** The collector is done with its waiters, or the index refuses the next one. */
  lemma LastWaiter(cs: seq<Chunk>, workers: nat, p: Pool, m: Pool, run: seq<Step>, ws: seq<Waiter>, i: nat, hash: string)
    returns (run': seq<Step>)
    requires ValidRun(cs, workers, p, run)
    requires GrantedTo(m, Final(cs, workers, p, run), ws, i, hash)
    requires var c := Final(cs, workers, p, run).collector;
      c.Granting? && c.waiters == ws[i..]
    ensures ValidRun(cs, workers, p, run') && Final(cs, workers, p, run').collector == Idle
    ensures GrantedTo(m, Final(cs, workers, p, run'), ws, i, hash)
    ensures Final(cs, workers, p, run').firstErr <==> Final(cs, workers, p, run).firstErr || i < |ws|
    ensures Final(cs, workers, p, run').newRefs == Final(cs, workers, p, run).newRefs
    ensures Final(cs, workers, p, run').takenRefs == Final(cs, workers, p, run).takenRefs
  {
    var st := if i < |ws| then GrantFails else GrantsDone;
    run' := run + [st];
    RunSnoc(cs, workers, p, run, st);
  }

  class StorePoolFields {
    var firstErr: bool
    var physicalSize: nat
    var takenRefs: seq<string>
    var newRefs: seq<RefRow>
    var inFlight: map<string, seq<Waiter>>

    ghost predicate Mirrors(p: Pool)
      reads this
    {
      firstErr == p.firstErr && takenRefs == p.takenRefs && newRefs == p.newRefs && inFlight == p.inFlight
    }

    constructor (ghost workers: nat)
      ensures Mirrors(Start(workers)) && physicalSize == 0
    {
      firstErr, physicalSize, takenRefs, newRefs, inFlight := false, 0, [], [], map[];
    }

    method Fail()
      modifies this`firstErr
      ensures firstErr
    {
      firstErr := true;
    }

    /** Registers the chunk as a waiter when its hash is already being stored. */
    method NoteDuplicate(index: nat, offset: nat, hash: string, ghost cs: seq<Chunk>, ghost workers: nat, ghost p: Pool)
      returns (registered: bool)
      requires Mirrors(p) && p.dispatcher == Ready && p.next < |cs|
      requires index == p.next && offset == Offset(cs, index) && hash == cs[index].hash
      modifies this`inFlight
      ensures registered <==> hash in old(inFlight)
      ensures registered ==> Mirrors(Next(cs, workers, p, Step.NoteDuplicate))
      ensures !registered ==> Mirrors(p) && Enabled(cs, workers, p, Decide)
    {
      if hash !in inFlight {
        return false;
      }
      inFlight := inFlight[hash := inFlight[hash] + [Waiter(index, offset)]];
      registered := true;
    }

    /** Records one taken reference and its manifest row. */
    method AddRef(index: nat, offset: nat, hash: string, ghost p: Pool)
      requires Mirrors(p)
      modifies this`takenRefs, this`newRefs
      ensures Mirrors(StorePool.AddRef(p, RefRow(index, offset, hash)))
    {
      takenRefs := takenRefs + [hash];
      newRefs := newRefs + [RefRow(index, offset, hash)];
    }

    /** Marks the hash in flight; the channel send that follows is the step HandJob. */
    method Submit(hash: string, ghost cs: seq<Chunk>, ghost workers: nat, ghost p: Pool)
      requires Mirrors(p) && p.dispatcher == Deciding && p.next < |cs| && hash == cs[p.next].hash
      modifies this`inFlight
      ensures Mirrors(Next(cs, workers, p, Step.Submit))
    {
      inFlight := inFlight[hash := []];
    }

    /**
     The waiters' references are taken one by one after the store is durable. `grants` is what the index
     answers to each increment; the first refusal drops that waiter and those behind it.
     */
    method GrantWaiters(index: nat, waiters: seq<Waiter>, hash: string, grants: seq<bool>,
                        ghost cs: seq<Chunk>, ghost workers: nat, ghost p: Pool, ghost before: seq<Step>)
      returns (ghost run: seq<Step>)
      requires ValidRun(cs, workers, p, before) && Mirrors(Final(cs, workers, p, before))
      requires Final(cs, workers, p, before).collector == Granting(index, waiters) && |grants| == |waiters|
      requires index < |cs| && hash == cs[index].hash
      modifies this`firstErr, this`takenRefs, this`newRefs
      ensures ValidRun(cs, workers, p, run) && Mirrors(Final(cs, workers, p, run))
      ensures Final(cs, workers, p, run).collector == Idle
      ensures GrantedTo(Final(cs, workers, p, before), Final(cs, workers, p, run), waiters, GrantedFirst(grants), hash)
      ensures firstErr <==> old(firstErr) || GrantedFirst(grants) < |grants|
    {
      run := before;
      ghost var m := Final(cs, workers, p, before);
      var i := 0;
      while i < |waiters| && grants[i]
        invariant i <= |waiters| && i <= GrantedFirst(grants)
        invariant ValidRun(cs, workers, p, run) && Mirrors(Final(cs, workers, p, run))
        invariant GrantedTo(m, Final(cs, workers, p, run), waiters, i, hash)
        invariant Final(cs, workers, p, run).collector == Granting(index, waiters[i..])
        invariant firstErr == old(firstErr)
      {
        ghost var q := Final(cs, workers, p, run);
        AddRef(waiters[i].index, waiters[i].offset, hash, q);
        q := WaiterTurn(cs, workers, p, m, run, waiters, i, index);
        run := run + [GrantWaiter, RecordWaiter];
        i := i + 1;
      }
      if i < |waiters| {
        Fail();
      }
      run := LastWaiter(cs, workers, p, m, run, waiters, i, hash);
    }

    /**
     One turn of the collector loop: a run of the transition system that leaves the collector idle again.
     A failed store forgets the waiters on its hash.
     */
    method Collect(out: Outcome, grants: seq<bool>, ghost cs: seq<Chunk>, ghost workers: nat, ghost p: Pool)
      returns (ghost run: seq<Step>)
      requires Mirrors(p) && p.collector == Idle && |grants| == |Waiters(p, out.hash)|
      requires out.index < |cs| && out.hash == cs[out.index].hash && out.offset == Offset(cs, out.index)
      requires if out.ok then out.index in p.stored else out.index in p.failed
      modifies this
      ensures ValidRun(cs, workers, p, run) && Mirrors(Final(cs, workers, p, run))
      ensures Final(cs, workers, p, run).collector == Idle
      ensures inFlight == old(inFlight) - {out.hash}
      ensures firstErr <==> old(firstErr) || !out.ok || GrantedFirst(grants) < |grants|
      ensures !out.ok ==> newRefs == old(newRefs) && takenRefs == old(takenRefs) && physicalSize == old(physicalSize)
      ensures out.ok ==> physicalSize == old(physicalSize) + out.storedBytes
      ensures out.ok ==> newRefs == old(newRefs) + [RefRow(out.index, out.offset, out.hash)]
                                  + WaiterRows(Waiters(p, out.hash)[..GrantedFirst(grants)], out.hash)
      ensures out.ok ==> takenRefs == old(takenRefs) + [out.hash] + Copies(GrantedFirst(grants), out.hash)
    {
      if !out.ok {
        inFlight := inFlight - {out.hash};
        Fail();
        run := [CollectFailure(out.index)];
        OneStep(cs, workers, p, run[0]);
        return;
      }
      physicalSize := physicalSize + out.storedBytes;
      var waiters := if out.hash in inFlight then inFlight[out.hash] else [];
      inFlight := inFlight - {out.hash};
      ghost var q := Recorded(cs, workers, p, out.index);
      AddRef(out.index, out.offset, out.hash, TakeStored(p, out.index, out.hash));
      run := GrantWaiters(out.index, waiters, out.hash, grants, cs, workers, p, [CollectOk(out.index), Record]);
    }

    /** The snapshot the aborted upload's compensator works from. */
    method CompensationRefs(ghost p: Pool) returns (refs: seq<string>)
      requires Mirrors(p)
      ensures refs == p.takenRefs
    {
      refs := takenRefs;
    }
  }
}
