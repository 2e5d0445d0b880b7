/**
 GET as the code runs it: the head row, the manifest, the index row of every chunk and every chunk are read one after
 another, and between any two reads every other request may take steps. `Refinement.Get` reads all of it at one instant.
 */
module GetSteps {
  import opened Basics
  import opened ContentIndex
  import D = DedupStore
  import I = StoreInvariants
  import R = Refinement

  /**
   What the object was when its manifest was read (history): the size in its head row, if that was chunked, and what
   GET would have answered at that instant.
   */
  datatype Version = Version(size: Option<nat>, pieces: seq<D.Blob>, answer: R.Answer)

  /** How far a GET has come. `size` is what its head row declared. */
  datatype Reader =
    | Start
    | HeadRead(head: Option<D.Head>)
    | Resolving(size: nat, cs: seq<ChunkId>, found: nat, of: Version)
    | Fetching(size: nat, cs: seq<ChunkId>, got: seq<D.Blob>, of: Version)
    | Chunked(answer: R.Answer, size: nat, of: Version)
    | Plain(answer: R.Answer, declared: nat)
    | Failed

  /**
   Reads of one GET of object `k`. A lookup may be answered from a stale cache, and a fetch may fail.
   */
  datatype Read = ReadHead | ReadRows | Resolve(cached: bool) | Fetch(fails: bool) | Finish | ReadBlob

  datatype Step = Store(st: D.Step) | Read(read: Read)

  datatype Joint = Joint(store: D.State, reader: Reader)

  predicate ReadEnabled(r: Reader, read: Read) {
    match read
    case ReadHead => r.Start?
    case ReadRows => r.HeadRead? && r.head.Some? && r.head.value.ChunkedHead?
    case Resolve(_) => r.Resolving? && r.found < |r.cs|
    case Fetch(_) => (r.Resolving? && r.found == |r.cs|) || (r.Fetching? && |r.got| < |r.cs|)
    case Finish => r.Fetching? && |r.got| == |r.cs|
    case ReadBlob => r.HeadRead? && (r.head.Some? ==> r.head.value.PlainHead?)
  }

  function VersionAt(h: D.Blob -> string, s: D.State, k: ObjKey): Version {
    Version(if D.Chunked(s, k) then Some(s.heads[k].size) else None,
            R.Contents(s.blobs, RowsAt(s.manifests, k)), R.Get(h, s, k))
  }

  /** What the client has once the response ends with the pieces written: all that was declared, or less. */
  function Sent(got: seq<D.Blob>, size: nat): R.Answer {
    var body := R.Body(got, size);
    if body.Some? then R.Found(body.value) else if got == [] then R.ServerError else R.Torn
  }

  /** The next chunk arrives and has its hash, or the response ends. */
  function FetchNext(h: D.Blob -> string, s: D.State, size: nat, cs: seq<ChunkId>, got: seq<D.Blob>, of: Version, fails: bool): Reader
    requires |got| < |cs|
  {
    var c := cs[|got|];
    if !fails && c in s.blobs && h(s.blobs[c]) == c.hash then Fetching(size, cs, got + [s.blobs[c]], of)
    else Chunked(Sent(got, size), size, of)
  }

  function ReadNext(h: D.Blob -> string, s: D.State, k: ObjKey, r: Reader, read: Read): Reader
    requires ReadEnabled(r, read)
  {
    match read
    case ReadHead => HeadRead(if k in s.heads then Some(s.heads[k]) else None)
    case ReadRows =>
      var cs := RowsAt(s.manifests, k);
      if cs == [] then Failed else Resolving(r.head.value.size, cs, 0, VersionAt(h, s, k))
    case Resolve(cached) => if cached || r.cs[r.found] in s.index then r.(found := r.found + 1) else Failed
    case Fetch(fails) =>
      var got := if r.Fetching? then r.got else [];
      if |got| < |r.cs| then FetchNext(h, s, r.size, r.cs, got, r.of, fails) else Fetching(r.size, r.cs, got, r.of)
    case Finish => Chunked(Sent(r.got, r.size), r.size, r.of)
    case ReadBlob =>
      var declared := if r.head.Some? then r.head.value.size else 0;
      Plain(R.PlainAnswer(R.BlobAt(s, k), declared), declared)
  }

  ghost predicate Enabled(h: D.Blob -> string, j: Joint, st: Step) {
    match st
    case Store(st) => D.Enabled(h, j.store, st)
    case Read(read) => ReadEnabled(j.reader, read)
  }

  ghost function Next(h: D.Blob -> string, k: ObjKey, j: Joint, st: Step): Joint
    requires Enabled(h, j, st)
  {
    match st
    case Store(st) => j.(store := D.Next(h, j.store, st))
    case Read(read) => j.(reader := ReadNext(h, j.store, k, j.reader, read))
  }

  // ---- What the reads keep ----

  /** The chunks a manifest names, and the bytes they had when it was read. */
  predicate Names(h: D.Blob -> string, cs: seq<ChunkId>, of: Version) {
    |of.pieces| == |cs| > 0 && forall i :: 0 <= i < |cs| ==> h(of.pieces[i]) == cs[i].hash
  }

  /** The answer of that instant, if the object was chunked then. */
  predicate Dated(of: Version) {
    of.size.Some? ==>
      of.answer == (if R.Body(of.pieces, of.size.value).Some? then R.Found(R.Body(of.pieces, of.size.value).value) else R.Torn)
  }

  ghost predicate ReaderSound(h: D.Blob -> string, r: Reader) {
    match r
    case Resolving(_, cs, found, of) => Names(h, cs, of) && found <= |cs| && Dated(of)
    case Fetching(_, cs, got, of) => Names(h, cs, of) && |got| <= |cs| && got == of.pieces[..|got|] && Dated(of)
    case Chunked(answer, size, of) =>
      && of.pieces != [] && Dated(of)
      && (answer.Found? ==> R.Body(of.pieces, size) == Some(answer.data))
    case _ => true
  }

  lemma ReadRowsSound(h: D.Blob -> string, s: D.State, k: ObjKey, r: Reader)
    requires I.Inv(h, s) && ReadEnabled(r, ReadRows)
    ensures ReaderSound(h, ReadNext(h, s, k, r, ReadRows))
  {
    R.ManifestResolves(h, s, k);
    var cs := RowsAt(s.manifests, k);
    forall i | 0 <= i < |cs| ensures h(R.Contents(s.blobs, cs)[i]) == cs[i].hash {
      assert cs[i] in cs;
    }
  }

  /** What has been written is what the manifest said when it was read, cut off somewhere. */
  lemma SentIsOfVersion(pieces: seq<D.Blob>, n: nat, size: nat)
    requires n <= |pieces|
    ensures Sent(pieces[..n], size).Found? ==> R.Body(pieces, size) == Some(Sent(pieces[..n], size).data)
  {
    if R.Body(pieces[..n], size).Some? {
      R.BodyIgnoresTail(pieces[..n], pieces[n..], size);
      assert pieces[..n] + pieces[n..] == pieces;
    }
  }

  lemma FetchSound(h: D.Blob -> string, s: D.State, size: nat, cs: seq<ChunkId>, got: seq<D.Blob>, of: Version, fails: bool)
    requires R.Injective(h) && Names(h, cs, of) && Dated(of) && |got| < |cs| && got == of.pieces[..|got|]
    ensures ReaderSound(h, FetchNext(h, s, size, cs, got, of, fails))
  {
    var c := cs[|got|];
    SentIsOfVersion(of.pieces, |got|, size);
    if c in s.blobs && h(s.blobs[c]) == c.hash {
      assert s.blobs[c] == of.pieces[|got|];
      assert of.pieces[..|got| + 1] == of.pieces[..|got|] + [of.pieces[|got|]];
    }
  }

  lemma ReadKeepsSound(h: D.Blob -> string, s: D.State, k: ObjKey, r: Reader, read: Read)
    requires R.Injective(h) && I.Inv(h, s) && ReaderSound(h, r) && ReadEnabled(r, read)
    ensures ReaderSound(h, ReadNext(h, s, k, r, read))
  {
    match read
    case ReadHead =>
    case ReadRows => ReadRowsSound(h, s, k, r);
    case Resolve(_) =>
    case Fetch(fails) => FetchSound(h, s, r.size, r.cs, if r.Fetching? then r.got else [], r.of, fails);
    case Finish =>
      SentIsOfVersion(r.of.pieces, |r.got|, r.size);
    case ReadBlob =>
  }

  lemma StepKeepsSound(h: D.Blob -> string, k: ObjKey, j: Joint, st: Step)
    requires R.Injective(h) && I.Inv(h, j.store) && ReaderSound(h, j.reader) && Enabled(h, j, st)
    ensures I.Inv(h, Next(h, k, j, st).store) && ReaderSound(h, Next(h, k, j, st).reader)
  {
    match st
    case Store(st) => I.StepKeepsInv(h, j.store, st);
    case Read(read) => ReadKeepsSound(h, j.store, k, j.reader, read);
  }

  // ---- Whole runs ----

  ghost predicate ValidRun(h: D.Blob -> string, k: ObjKey, j: Joint, run: seq<Step>)
    decreases |run|
  {
    run == [] || (Enabled(h, j, run[0]) && ValidRun(h, k, Next(h, k, j, run[0]), run[1..]))
  }

  ghost function Final(h: D.Blob -> string, k: ObjKey, j: Joint, run: seq<Step>): Joint
    requires ValidRun(h, k, j, run)
    decreases |run|
  {
    if run == [] then j else Final(h, k, Next(h, k, j, run[0]), run[1..])
  }

  lemma {:induction false} RunKeepsSound(h: D.Blob -> string, k: ObjKey, j: Joint, run: seq<Step>)
    requires R.Injective(h) && I.Inv(h, j.store) && ReaderSound(h, j.reader) && ValidRun(h, k, j, run)
    ensures I.Inv(h, Final(h, k, j, run).store) && ReaderSound(h, Final(h, k, j, run).reader)
    decreases |run|
  {
    if run != [] {
      StepKeepsSound(h, k, j, run[0]);
      RunKeepsSound(h, k, Next(h, k, j, run[0]), run[1..]);
    }
  }

  /**
   A chunked GET answers bytes of the one manifest it read, never a mixture, whatever all other requests do between
   its reads: what the object was when the manifest was read, if and only if the size it had declared is still the
   head row's then.
   */
  lemma GetAnswersOneVersion(h: D.Blob -> string, k: ObjKey, s: D.State, run: seq<Step>)
    requires R.Injective(h) && I.Inv(h, s) && ValidRun(h, k, Joint(s, Start), run)
    requires var r := Final(h, k, Joint(s, Start), run).reader; r.Chunked? && r.answer.Found?
    ensures var r := Final(h, k, Joint(s, Start), run).reader;
      && Some(r.answer.data) == R.Body(r.of.pieces, r.size)
      && (r.of.size.Some? && r.answer == r.of.answer <==> r.of.size == Some(r.size))
  {
    RunKeepsSound(h, k, Joint(s, Start), run);
    var r := Final(h, k, Joint(s, Start), run).reader;
    R.BodyLength(r.of.pieces, r.size);
    if r.of.size.Some? {
      R.BodyLength(r.of.pieces, r.of.size.value);
    }
  }

  // ---- A GET that nobody interferes with ----

  lemma RunCons(h: D.Blob -> string, k: ObjKey, j: Joint, st: Step, rest: seq<Step>)
    requires Enabled(h, j, st) && ValidRun(h, k, Next(h, k, j, st), rest)
    ensures ValidRun(h, k, j, [st] + rest) && Final(h, k, j, [st] + rest) == Final(h, k, Next(h, k, j, st), rest)
  {
    assert ([st] + rest)[0] == st && ([st] + rest)[1..] == rest;
  }

  function Fetches(n: nat): seq<Step> {
    if n == 0 then [Read(Finish)] else [Read(Fetch(false))] + Fetches(n - 1)
  }

  function Resolves(n: nat, rest: seq<Step>): seq<Step> {
    if n == 0 then rest else [Read(Resolve(false))] + Resolves(n - 1, rest)
  }

  lemma {:induction false} FetchAll(h: D.Blob -> string, k: ObjKey, s: D.State, size: nat, cs: seq<ChunkId>, got: seq<D.Blob>, of: Version)
    requires R.Resolvable(h, s, cs) && |got| <= |cs| && got == R.Contents(s.blobs, cs)[..|got|]
    ensures ValidRun(h, k, Joint(s, Fetching(size, cs, got, of)), Fetches(|cs| - |got|))
    ensures Final(h, k, Joint(s, Fetching(size, cs, got, of)), Fetches(|cs| - |got|))
         == Joint(s, Chunked(Sent(R.Contents(s.blobs, cs), size), size, of))
    decreases |cs| - |got|
  {
    var j := Joint(s, Fetching(size, cs, got, of));
    if |got| == |cs| {
      assert R.Contents(s.blobs, cs)[..|got|] == R.Contents(s.blobs, cs);
      RunCons(h, k, j, Read(Finish), []);
      assert [Read(Finish)] + [] == [Read(Finish)];
    } else {
      assert cs[|got|] in cs;
      var more := got + [s.blobs[cs[|got|]]];
      FetchAll(h, k, s, size, cs, more, of);
      RunCons(h, k, j, Read(Fetch(false)), Fetches(|cs| - |more|));
    }
  }

  /** The first fetch follows the last lookup. */
  lemma FirstFetch(h: D.Blob -> string, k: ObjKey, s: D.State, size: nat, cs: seq<ChunkId>, of: Version)
    requires R.Resolvable(h, s, cs) && cs != []
    ensures ValidRun(h, k, Joint(s, Resolving(size, cs, |cs|, of)), Fetches(|cs|))
    ensures Final(h, k, Joint(s, Resolving(size, cs, |cs|, of)), Fetches(|cs|))
         == Joint(s, Chunked(Sent(R.Contents(s.blobs, cs), size), size, of))
  {
    assert cs[0] in cs;
    var more := [] + [s.blobs[cs[0]]];
    assert more == R.Contents(s.blobs, cs)[..1];
    FetchAll(h, k, s, size, cs, more, of);
    RunCons(h, k, Joint(s, Resolving(size, cs, |cs|, of)), Read(Fetch(false)), Fetches(|cs| - 1));
  }

  lemma {:induction false} ResolveAll(h: D.Blob -> string, k: ObjKey, s: D.State, size: nat, cs: seq<ChunkId>, found: nat, of: Version)
    requires R.Resolvable(h, s, cs) && cs != [] && found <= |cs|
    ensures ValidRun(h, k, Joint(s, Resolving(size, cs, found, of)), Resolves(|cs| - found, Fetches(|cs|)))
    ensures Final(h, k, Joint(s, Resolving(size, cs, found, of)), Resolves(|cs| - found, Fetches(|cs|)))
         == Joint(s, Chunked(Sent(R.Contents(s.blobs, cs), size), size, of))
    decreases |cs| - found
  {
    if found == |cs| {
      FirstFetch(h, k, s, size, cs, of);
    } else {
      assert cs[found] in cs;
      ResolveAll(h, k, s, size, cs, found + 1, of);
      RunCons(h, k, Joint(s, Resolving(size, cs, found, of)), Read(Resolve(false)), Resolves(|cs| - found - 1, Fetches(|cs|)));
    }
  }

  function WholeGet(n: nat): seq<Step> {
    [Read(ReadHead)] + ([Read(ReadRows)] + Resolves(n, Fetches(n)))
  }

  /** A chunked GET whose reads all succeed, with nobody in between, answers as if it had read everything at once. */
  lemma UndisturbedGet(h: D.Blob -> string, k: ObjKey, s: D.State)
    requires I.Inv(h, s) && D.Chunked(s, k) && RowsAt(s.manifests, k) != []
    ensures var run := WholeGet(|RowsAt(s.manifests, k)|);
      && ValidRun(h, k, Joint(s, Start), run)
      && Final(h, k, Joint(s, Start), run).reader.Chunked?
      && Final(h, k, Joint(s, Start), run).reader.answer == R.Get(h, s, k)
  {
    var cs, size, of := RowsAt(s.manifests, k), s.heads[k].size, VersionAt(h, s, k);
    R.ManifestResolves(h, s, k);
    ResolveAll(h, k, s, size, cs, 0, of);
    RunCons(h, k, Joint(s, HeadRead(Some(s.heads[k]))), Read(ReadRows), Resolves(|cs|, Fetches(|cs|)));
    RunCons(h, k, Joint(s, Start), Read(ReadHead), [Read(ReadRows)] + Resolves(|cs|, Fetches(|cs|)));
  }

  /** A GET of a whole object answers one blob, the one that was there when it was read, or none of its bytes in full. */
  lemma PlainGetAnswersOneBlob(h: D.Blob -> string, s: D.State, k: ObjKey, r: Reader)
    requires ReadEnabled(r, ReadBlob)
    ensures var e := ReadNext(h, s, k, r, ReadBlob);
      && e.Plain? && (e.answer.Found? <==> k in s.plain && R.BlobAt(s, k).Some? && D.Fits(s.plain[k], e.declared))
      && (e.answer.Found? ==> e.answer.data == s.plain[k])
      && (!D.Chunked(s, k) && D.Declared(s, k) == e.declared ==> e.answer == R.Get(h, s, k))
  {
  }
}
