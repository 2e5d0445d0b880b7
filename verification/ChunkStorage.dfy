/** `storeChunkLocked`, `sweepOne` and `sweep`: what one holder of a chunk's advisory lock does to rows and blobs. */
module ChunkStorage {
  import opened ContentIndex

  datatype Candidate = Candidate(chunk: ChunkId, size: nat)

  /** The conditional DELETE takes the row, and no manifest row names it: the foreign key lets it go. */
  predicate Removable(ix: Index, named: set<ChunkId>, c: ChunkId) {
    Sweepable(ix, c) && c !in named
  }

  /** Candidates the sweep takes: still unreferenced when their turn comes. */
  function Taken(ix: Index, named: set<ChunkId>, candidates: seq<Candidate>): set<ChunkId> {
    set i | 0 <= i < |candidates| && Removable(ix, named, candidates[i].chunk) :: candidates[i].chunk
  }

  /** Candidates whose blob is really gone afterwards. */
  function Reclaimed(ix: Index, named: set<ChunkId>, candidates: seq<Candidate>, failing: set<ChunkId>): seq<Candidate>
    decreases |candidates|
  {
    if candidates == [] then [] else
      var n := |candidates| - 1;
      var before := Reclaimed(ix, named, candidates[..n], failing);
      if Removable(ix, named, candidates[n].chunk) && candidates[n].chunk !in failing
      then before + [candidates[n]] else before
  }

  function Bytes(candidates: seq<Candidate>): nat
    decreases |candidates|
  {
    if candidates == [] then 0 else
      Bytes(candidates[..|candidates| - 1]) + candidates[|candidates| - 1].size
  }

  /** `global_content_index` is keyed by (scope, hash), so the candidate scan names each chunk once. */
  predicate Distinct(candidates: seq<Candidate>) {
    forall i, j :: 0 <= i < j < |candidates| ==> candidates[i].chunk != candidates[j].chunk
  }

  class Storage {
    var index: Index
    var blobs: map<ChunkId, string>
    var named: set<ChunkId>

    constructor ()
      ensures index == map[] && blobs == map[] && named == {}
    {
      index, blobs, named := map[], map[], {};
    }

    /** Every index row has its blob, and every chunk a manifest names has its row. */
    ghost predicate RowsBacked()
      reads this
    {
      named <= index.Keys <= blobs.Keys
    }

    /** Blob first, row second, both under the lock; a failure after the blob leaks at most the blob. */
    method StoreChunkLocked(c: ChunkId, data: string, putFails: bool, commitFails: bool) returns (ok: bool)
      modifies this`index, this`blobs
      ensures ok <==> !putFails && !commitFails
      ensures blobs == if putFails then old(blobs) else old(blobs)[c := data]
      ensures index == if ok then Insert(old(index), c) else old(index)
      ensures old(RowsBacked()) ==> RowsBacked()
    {
      if putFails {
        return false;
      }
      blobs := blobs[c := data];
      if commitFails {
        return false;
      }
      index := Insert(index, c);
      ok := true;
    }

    /**
     Row first, blob second: a row that was referenced again keeps its blob, one that a manifest names is refused by
     the foreign key, a failed delete leaks the blob.
     */
    method SweepOne(c: ChunkId, deleteFails: bool) returns (ok: bool)
      modifies this`index, this`blobs
      ensures ok <==> Removable(old(index), named, c) && !deleteFails
      ensures index == if Removable(old(index), named, c) then old(index) - {c} else old(index)
      ensures blobs == if ok then old(blobs) - {c} else old(blobs)
      ensures old(RowsBacked()) ==> RowsBacked()
    {
      if !(c in index && index[c].count == 0 && index[c].marked) {
        return false;
      }
      if c in named {
        return false;
      }
      index := index - {c};
      if deleteFails {
        return false;
      }
      blobs := blobs - {c};
      ok := true;
    }

    /** One pass over the scanned candidates, tallying what was really reclaimed. */
    method Sweep(candidates: seq<Candidate>, failing: set<ChunkId>) returns (deleted: nat, reclaimed: nat)
      requires Distinct(candidates)
      modifies this`index, this`blobs
      ensures index == old(index) - Taken(old(index), named, candidates)
      ensures blobs == old(blobs) - (Taken(old(index), named, candidates) - failing)
      ensures deleted == |Reclaimed(old(index), named, candidates, failing)|
      ensures reclaimed == Bytes(Reclaimed(old(index), named, candidates, failing))
      ensures old(RowsBacked()) ==> RowsBacked()
    {
      deleted, reclaimed := 0, 0;
      for n := 0 to |candidates|
        invariant index == old(index) - Taken(old(index), named, candidates[..n])
        invariant blobs == old(blobs) - (Taken(old(index), named, candidates[..n]) - failing)
        invariant deleted == |Reclaimed(old(index), named, candidates[..n], failing)|
        invariant reclaimed == Bytes(Reclaimed(old(index), named, candidates[..n], failing))
        invariant old(RowsBacked()) ==> RowsBacked()
      {
        var c := candidates[n];
        assert candidates[..n + 1][..n] == candidates[..n];
        TakenStep(old(index), named, candidates, n);
        assert c.chunk !in Taken(old(index), named, candidates[..n]);
        var ok := SweepOne(c.chunk, c.chunk in failing);
        if ok {
          var before := Reclaimed(old(index), named, candidates[..n], failing);
          assert (before + [c])[..|before|] == before;
          deleted, reclaimed := deleted + 1, reclaimed + c.size;
        }
      }
      assert candidates[..|candidates|] == candidates;
    }
  }

  lemma TakenStep(ix: Index, named: set<ChunkId>, candidates: seq<Candidate>, n: nat)
    requires n < |candidates|
    ensures Taken(ix, named, candidates[..n + 1]) ==
      Taken(ix, named, candidates[..n]) + (if Removable(ix, named, candidates[n].chunk) then {candidates[n].chunk} else {})
  {
    forall i | 0 <= i < n ensures candidates[..n + 1][i] == candidates[..n][i] {
    }
    var more, less := Taken(ix, named, candidates[..n + 1]), Taken(ix, named, candidates[..n]);
    forall c | c in less ensures c in more {
      var i :| 0 <= i < n && Removable(ix, named, candidates[..n][i].chunk) && candidates[..n][i].chunk == c;
      assert candidates[..n + 1][i].chunk == c;
    }
    if Removable(ix, named, candidates[n].chunk) {
      assert candidates[..n + 1][n].chunk == candidates[n].chunk;
    }
  }
}
