/**
 The reference-counted chunk index (`global_content_index`) and the per-object chunk manifests
 (`tenant_chunk_refs`). Each SQL statement is a function on the index; the class below is the Go type
 whose methods run those statements one after another.
 */
module ContentIndex {
  import opened MapSums

  /** A chunk is named by its dedup scope and the hash of its plaintext. */
  datatype ChunkId = ChunkId(scope: string, hash: string)

  datatype ObjKey = ObjKey(tenant: string, bucket: string, name: string)

  /** `ref_count` is a plain SQL INTEGER: nothing in the schema keeps it from going negative. */
  datatype Row = Row(count: int, marked: bool)

  type Index = map<ChunkId, Row>

  type Manifests = map<ObjKey, seq<ChunkId>>

  function Count(ix: Index, c: ChunkId): int {
    if c in ix then ix[c].count else 0
  }

  function Increment(ix: Index, c: ChunkId): Index {
    if c in ix then ix[c := Row(ix[c].count + 1, false)] else ix
  }

  function Decrement(ix: Index, c: ChunkId): Index {
    if c !in ix then ix else
      var n := ix[c].count - 1;
      ix[c := Row(n, if n == 0 then true else ix[c].marked)]
  }

  /** INSERT at one reference, ON CONFLICT take a reference on the row that is there. */
  function Insert(ix: Index, c: ChunkId): Index {
    if c in ix then Increment(ix, c) else ix[c := Row(1, false)]
  }

  function IncrementAll(ix: Index, cs: seq<ChunkId>): Index
    decreases |cs|
  {
    if cs == [] then ix else IncrementAll(Increment(ix, cs[0]), cs[1..])
  }

  function DecrementAll(ix: Index, cs: seq<ChunkId>): Index
    decreases |cs|
  {
    if cs == [] then ix else DecrementAll(Decrement(ix, cs[0]), cs[1..])
  }

  /** Account deletion's single UPDATE over the grouped references of one tenant. */
  function ReleaseSet(ix: Index, refs: multiset<ChunkId>): Index {
    map c | c in ix ::
      if refs[c] == 0 then ix[c] else
        var n := if ix[c].count - refs[c] > 0 then ix[c].count - refs[c] else 0;
        Row(n, if n == 0 then true else ix[c].marked)
  }

  /** The reconcile UPDATE: rows idle past the grace period whose count drifted are reset. */
  function Reconcile(ix: Index, actual: multiset<ChunkId>, idle: set<ChunkId>): Index {
    map c | c in ix ::
      if c in idle && ix[c].count != actual[c] then Row(actual[c], actual[c] == 0) else ix[c]
  }

  /** The sweep's conditional DELETE matches only a row that is marked and still unreferenced. */
  predicate Sweepable(ix: Index, c: ChunkId) {
    c in ix && ix[c].count == 0 && ix[c].marked
  }

  /** Counts never go below zero, and a row is marked exactly when nothing refers to it. */
  ghost predicate WellMarked(ix: Index) {
    forall c :: c in ix ==> ix[c].count >= 0 && (ix[c].marked <==> ix[c].count == 0)
  }

  ghost function RefsOf(m: Manifests): map<ObjKey, multiset<ChunkId>> {
    map k | k in m :: multiset(m[k])
  }

  ghost function TotalRefs(m: Manifests): multiset<ChunkId> {
    Total(RefsOf(m))
  }

  /** The manifest rows of one object. */
  function RowsAt(m: Manifests, k: ObjKey): seq<ChunkId> {
    if k in m then m[k] else []
  }

  /** The rows an INSERT of `n` rows overwrites, index by index, and those it leaves behind its own. */
  function Overwritten(rows: seq<ChunkId>, n: nat): seq<ChunkId> {
    if n < |rows| then rows[..n] else rows
  }

  function Tail(rows: seq<ChunkId>, n: nat): seq<ChunkId> {
    if n < |rows| then rows[n..] else []
  }

  lemma RowsSplit(rows: seq<ChunkId>, n: nat, c: ChunkId)
    ensures multiset(rows)[c] == multiset(Overwritten(rows, n))[c] + multiset(Tail(rows, n))[c]
  {
    assert rows == Overwritten(rows, n) + Tail(rows, n);
  }

  lemma TotalRefsPut(m: Manifests, k: ObjKey, cs: seq<ChunkId>)
    ensures forall c ::
      TotalRefs(m[k := cs])[c] + multiset(RowsAt(m, k))[c] == TotalRefs(m)[c] + multiset(cs)[c]
    ensures forall c :: multiset(RowsAt(m, k))[c] <= TotalRefs(m)[c]
  {
    assert RefsOf(m[k := cs]) == RefsOf(m)[k := multiset(cs)];
    TotalPut(RefsOf(m), k, multiset(cs));
  }

  lemma TotalRefsDrop(m: Manifests, k: ObjKey)
    ensures forall c :: TotalRefs(m - {k})[c] + multiset(RowsAt(m, k))[c] == TotalRefs(m)[c]
  {
    assert RefsOf(m - {k}) == RefsOf(m) - {k};
    TotalDrop(RefsOf(m), k);
  }

  /** A decrement on a row that is not there does nothing; every other one takes the count down. */
  lemma {:induction false} DecrementAllDrops(ix: Index, cs: seq<ChunkId>)
    ensures DecrementAll(ix, cs).Keys == ix.Keys
    ensures forall c :: Count(DecrementAll(ix, cs), c) == Count(ix, c) - if c in ix then multiset(cs)[c] else 0
    decreases |cs|
  {
    if cs != [] {
      assert cs == [cs[0]] + cs[1..];
      DecrementAllDrops(Decrement(ix, cs[0]), cs[1..]);
    }
  }

  lemma {:induction false} IncrementAllCounts(ix: Index, cs: seq<ChunkId>)
    ensures IncrementAll(ix, cs).Keys == ix.Keys
    ensures forall c :: c in ix ==> Count(IncrementAll(ix, cs), c) == Count(ix, c) + multiset(cs)[c]
    ensures WellMarked(ix) ==> WellMarked(IncrementAll(ix, cs))
    decreases |cs|
  {
    if cs != [] {
      assert cs == [cs[0]] + cs[1..];
      IncrementAllCounts(Increment(ix, cs[0]), cs[1..]);
    }
  }

  /** Releasing references that are really held only ever lowers counts, and marks what reaches zero. */
  lemma {:induction false} DecrementAllCounts(ix: Index, cs: seq<ChunkId>)
    requires WellMarked(ix)
    requires forall c :: c in ix ==> multiset(cs)[c] <= ix[c].count
    ensures DecrementAll(ix, cs).Keys == ix.Keys
    ensures forall c :: c in ix ==> Count(DecrementAll(ix, cs), c) == Count(ix, c) - multiset(cs)[c]
    ensures WellMarked(DecrementAll(ix, cs))
    decreases |cs|
  {
    if cs != [] {
      assert cs == [cs[0]] + cs[1..];
      DecrementAllCounts(Decrement(ix, cs[0]), cs[1..]);
    }
  }

  /**
   For references that are still held, account deletion's set-based release is the same as one decrement per
   reference: its clamp does not bite.
   */
  lemma SetReleaseIsDecrements(ix: Index, cs: seq<ChunkId>)
    requires WellMarked(ix)
    requires forall c :: c in ix ==> multiset(cs)[c] <= ix[c].count
    ensures ReleaseSet(ix, multiset(cs)) == DecrementAll(ix, cs)
  {
    DecrementAllCounts(ix, cs);
    var d, r := DecrementAll(ix, cs), ReleaseSet(ix, multiset(cs));
    forall c | c in ix ensures d[c] == r[c] {
      assert Count(d, c) == ix[c].count - multiset(cs)[c];
    }
  }

  /** The Go type: an in-memory cache in front of the two tables. */
  class GlobalContentIndex {
    var rows: Index
    var refs: Manifests
    var cache: set<ChunkId>

    constructor ()
      ensures rows == map[] && refs == map[] && cache == {}
    {
      rows, refs, cache := map[], map[], {};
    }

    /** May answer from a stale cache entry: `exists` then says nothing about the row. */
    method LookupChunk(c: ChunkId) returns (found: bool)
      modifies this`cache
      ensures found <==> c in old(cache) || c in rows
      ensures cache == if found then old(cache) + {c} else old(cache)
    {
      if c in cache {
        return true;
      }
      found := c in rows;
      if found {
        cache := cache + {c};
      }
    }

    method IncrementRef(c: ChunkId) returns (affected: nat)
      modifies this`rows, this`cache
      ensures rows == Increment(old(rows), c) && cache == old(cache) - {c}
      ensures affected == if c in old(rows) then 1 else 0
      ensures affected == 0 ==> rows == old(rows)
    {
      affected := 0;
      if c in rows {
        rows := rows[c := Row(rows[c].count + 1, false)];
        affected := 1;
      }
      cache := cache - {c};
    }

    method DecrementRef(c: ChunkId)
      modifies this`rows, this`cache
      ensures rows == Decrement(old(rows), c) && cache == old(cache) - {c}
    {
      if c in rows {
        var n := rows[c].count - 1;
        rows := rows[c := Row(n, rows[c].marked)];
        if n == 0 {
          rows := rows[c := Row(n, true)];
        }
      }
      cache := cache - {c};
    }

    method InsertChunkTx(c: ChunkId)
      modifies this`rows, this`cache
      ensures rows == Insert(old(rows), c) && cache == old(cache) - {c}
      ensures Count(rows, c) == Count(old(rows), c) + 1 && !rows[c].marked
    {
      rows := rows[c := if c in rows then Row(rows[c].count + 1, false) else Row(1, false)];
      cache := cache - {c};
    }

    /**
     Lists one object's manifest rows, deletes its rows, and releases a reference for each row listed. The two
     statements see the table at two moments: `atDelete` is what other transactions have made of it by the second.
     */
    method DeleteObjectChunksTx(k: ObjKey, atDelete: Manifests)
      modifies this
      ensures refs == atDelete - {k}
      ensures rows == DecrementAll(old(rows), RowsAt(old(refs), k))
      ensures cache <= old(cache)
    {
      var chunks := RowsAt(refs, k);
      refs := atDelete - {k};
      var i := 0;
      while i < |chunks|
        invariant 0 <= i <= |chunks| && refs == atDelete - {k} && cache <= old(cache)
        invariant DecrementAll(rows, chunks[i..]) == DecrementAll(old(rows), chunks)
      {
        assert chunks[i..][1..] == chunks[i + 1..];
        DecrementRef(chunks[i]);
        i := i + 1;
      }
    }

    /**
     Swaps one object's manifest: the rows that were listed are released, the new ones inserted index by index
     over whatever other transactions have put there since the DELETE (`atInsert`).
     */
    method ReplaceObjectManifestTx(k: ObjKey, newRefs: seq<ChunkId>, atDelete: Manifests, atInsert: Manifests)
      modifies this
      ensures refs == atInsert[k := newRefs + Tail(RowsAt(atInsert, k), |newRefs|)]
      ensures rows == DecrementAll(old(rows), RowsAt(old(refs), k))
      ensures cache <= old(cache)
    {
      DeleteObjectChunksTx(k, atDelete);
      var was := RowsAt(atInsert, k);
      var now := was;
      var i := 0;
      while i < |newRefs|
        invariant i <= |newRefs|
        invariant now == newRefs[..i] + Tail(was, i)
      {
        now := if i < |now| then now[i := newRefs[i]] else now + [newRefs[i]];
        i := i + 1;
      }
      assert newRefs[..|newRefs|] == newRefs;
      refs := atInsert[k := now];
    }
  }

  /**
   What one object's release does to the books: chunk `c` keeps as many references too many as rows naming it
   were deleted without having been listed. Undisturbed, that is none.
   */
  lemma ReleaseLeaves(ix: Index, m: Manifests, atDelete: Manifests, k: ObjKey, c: ChunkId)
    requires c in ix
    ensures Count(DecrementAll(ix, RowsAt(m, k)), c) - TotalRefs(atDelete - {k})[c]
         == Count(ix, c) - TotalRefs(atDelete)[c] + multiset(RowsAt(atDelete, k))[c] - multiset(RowsAt(m, k))[c]
  {
    DecrementAllDrops(ix, RowsAt(m, k));
    TotalRefsDrop(atDelete, k);
  }
}
