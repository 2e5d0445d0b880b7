/** The chunk store, seen through GET, is a plain map from object keys to bytes. */
module Refinement {
  import opened Basics
  import opened ContentIndex
  import opened DedupStore
  import opened StoreInvariants
  import opened StoreSafety

  /**
   What GET answers. `Torn`: the bytes at hand do not fill the Content-Length that the head row declares, or do not
   end there; the response breaks off, or, if a blob is longer than declared, may end early.
   */
  datatype Answer = Found(data: Blob) | NoSuchKey | ServerError | Torn

  type Spec = map<ObjKey, Blob>

  ghost predicate Injective(h: Blob -> string) {
    forall x, y :: h(x) == h(y) ==> x == y
  }

  // ---- GET ----

  /** Preflight resolves every chunk in the index; each fetched blob is verified against its hash. */
  predicate Resolvable(h: Blob -> string, s: State, cs: seq<ChunkId>) {
    forall c :: c in cs ==> c in s.index && c in s.blobs && h(s.blobs[c]) == c.hash
  }

  function Contents(blobs: map<ChunkId, Blob>, cs: seq<ChunkId>): seq<Blob> {
    seq(|cs|, i requires 0 <= i < |cs| => if cs[i] in blobs then blobs[cs[i]] else "")
  }

  /**
   The body of a response that declares `n` bytes and writes the pieces one by one. Each write must fit in what is
   left: one that crosses the declared length writes nothing and aborts, and what follows a full body is refused.
   */
  function Body(pieces: seq<Blob>, n: nat): Option<Blob> {
    if n == 0 then Some("")
    else if pieces == [] || |pieces[0]| > n then None
    else
      var rest := Body(pieces[1..], n - |pieces[0]|);
      if rest.None? then None else Some(pieces[0] + rest.value)
  }

  function ChunkedAnswer(h: Blob -> string, s: State, cs: seq<ChunkId>, size: nat): Answer {
    if cs == [] || !Resolvable(h, s, cs) then ServerError else
      var body := Body(Contents(s.blobs, cs), size);
      if body.Some? then Found(body.value) else Torn
  }

  function PlainAnswer(blob: Option<Blob>, declared: nat): Answer {
    if blob.None? then NoSuchKey else if Fits(blob.value, declared) then Found(blob.value) else Torn
  }

  function BlobAt(s: State, k: ObjKey): Option<Blob> {
    if k in s.plain then Some(s.plain[k]) else None
  }

  /** Chunked heads are reassembled and never fall through; a missing head row falls through to the blob. */
  function Get(h: Blob -> string, s: State, k: ObjKey): Answer {
    if Chunked(s, k) then ChunkedAnswer(h, s, RowsAt(s.manifests, k), s.heads[k].size)
    else PlainAnswer(BlobAt(s, k), Declared(s, k))
  }

  function View(h: Blob -> string, s: State): Spec {
    map k | k in s.heads.Keys + s.plain.Keys && Get(h, s, k).Found? :: Get(h, s, k).data
  }

  lemma ViewIsGet(h: Blob -> string, s: State, k: ObjKey)
    ensures k in View(h, s) <==> Get(h, s, k).Found?
    ensures k in View(h, s) ==> View(h, s)[k] == Get(h, s, k).data
  {
  }

  // ---- What the requests promise ----

  datatype Effect = Keep | Put(data: Blob) | Remove

  /** The one object a step is about, unless it is CloseAccount, which is about all of a tenant's. */
  function KeyOf(s: State, st: Step): Option<ObjKey> {
    match st
    case Begin(_, k, _) => Some(k)
    case BeginCopy(_, _, k, _) => Some(k)
    case Commit(t) => if t in s.txns then Some(s.txns[t].k) else None
    case Cleanup(t, _) => if t in s.cleanups then Some(s.cleanups[t]) else None
    case RejectedPlainPut(k, _) => Some(k)
    case DeletePlainBlob(k) => Some(k)
    case DeleteHead(k) => Some(k)
    case _ => None
  }

  predicate Closes(s: State, st: Step, k: ObjKey) {
    st.CloseAccount? && st.a in s.closings && s.closings[st.a].tenant == k.tenant
  }

  /** What GET answered for the source of a copy when its manifest was read. */
  function Answered(pieces: seq<Blob>, was: nat): Blob {
    var body := Body(pieces, was);
    if body.Some? then body.value else ""
  }

  /**
   A commit promises its write; a copy promises what its source answered when its manifest was read. A plain write
   takes effect once: with its blob if the head row declares nothing else, and with its own head row otherwise. A
   DELETE promises that the key is gone when it deletes its rows, its blob or its head row.
   */
  function CommitEffect(tx: Txn): Effect {
    match tx.job
    case PutManifest(_, _, pieces) => Put(Flatten(pieces))
    case CopyManifest(_, pieces, was, _) => Put(Answered(pieces, was))
    case PlainWrite(data, shown) => if shown then Keep else Put(data)
    case ReleaseRows => if tx.progress == Deleted(true) then Remove else Keep
  }

  function EffectOf(s: State, st: Step): Effect {
    match st
    case Begin(_, _, job) => if job.PlainWrite? && job.shown then Put(job.data) else Keep
    case Commit(t) => if t in s.txns then CommitEffect(s.txns[t]) else Keep
    case DeletePlainBlob(_) => Remove
    case DeleteHead(_) => Remove
    case _ => Keep
  }

  function EffectAt(s: State, st: Step, k: ObjKey): Effect {
    if Closes(s, st, k) then Remove else if KeyOf(s, st) == Some(k) then EffectOf(s, st) else Keep
  }

  function Promise(s: State, st: Step, v: Spec): Spec {
    if st.CloseAccount? && st.a in s.closings then map k | k in v && k.tenant != s.closings[st.a].tenant :: v[k]
    else
      var k := KeyOf(s, st);
      if k.None? then v else
        match EffectOf(s, st)
        case Keep => v
        case Put(data) => v[k.value := data]
        case Remove => v - {k.value}
  }

  // ---- The guards ----

  /**
   A plain write not yet in effect must find its own blob. One in effect must not change what is answered: nobody has
   replaced the blob by one of another length, and a chunked install that overtook it holds the very same bytes.
   */
  predicate PlainGuard(h: Blob -> string, s: State, k: ObjKey, data: Blob, shown: bool) {
    match BlobAt(s, k)
    case None => shown && (!Chunked(s, k) || RowsAt(s.manifests, k) == [])
    case Some(blob) =>
      if shown then Fits(blob, |data|) && (Chunked(s, k) ==> Get(h, s, k) == Found(blob)) else blob == data
  }

  predicate CommitGuard(h: Blob -> string, s: State, tx: Txn) {
    match tx.job
    case PutManifest(_, _, _) => true
    case CopyManifest(_, _, was, size) => size == Some(was)
    case PlainWrite(data, shown) => PlainGuard(h, s, tx.k, data, shown)
    case ReleaseRows => tx.progress == Deleted(true) ==> Chunked(s, tx.k) || tx.k !in s.plain
  }

  /** The guard under which the store does to GET of the step's own object what the request promises. */
  predicate KeyGuard(h: Blob -> string, s: State, st: Step) {
    match st
    case Begin(_, k, job) => job.PlainWrite? ==> Chunked(s, k) || Fits(job.data, Declared(s, k))
    case BeginCopy(_, src, _, _) => Get(h, s, src).Found?
    case Commit(t) => t in s.txns ==> CommitGuard(h, s, s.txns[t])
    case Cleanup(t, deleted) => deleted && t in s.cleanups ==> Chunked(s, s.cleanups[t]) || s.cleanups[t] !in s.plain
    case RejectedPlainPut(k, data) => Chunked(s, k) || BlobAt(s, k) == Some(data)
    case DeletePlainBlob(k) => !Chunked(s, k) || RowsAt(s.manifests, k) == []
    case DeleteHead(k) => k !in s.plain
    case _ => true
  }

  predicate FaithfulAt(h: Blob -> string, s: State, st: Step, k: ObjKey) {
    (Closes(s, st, k) ==> k !in s.plain) && (KeyOf(s, st) == Some(k) ==> KeyGuard(h, s, st))
  }

  /** The source of a copy could be served when its manifest was read. */
  predicate Readable(job: Job) {
    job.CopyManifest? ==> Body(job.pieces, job.was).Some?
  }

  predicate CopiesReadable(s: State, k: ObjKey) {
    forall t :: t in s.txns && s.txns[t].k == k ==> Readable(s.txns[t].job)
  }

  /** What is recorded under `k` can be served in full, and so could the source of every copy to it. */
  predicate SoundAt(h: Blob -> string, s: State, k: ObjKey) {
    && (Chunked(s, k) && RowsAt(s.manifests, k) != [] ==> Get(h, s, k).Found?)
    && (!Chunked(s, k) && k in s.plain ==> Fits(s.plain[k], Declared(s, k)))
    && CopiesReadable(s, k)
  }

  /** A step does to the answer what it promises; nothing said of other outcomes than bytes. */
  predicate Meets(before: Answer, after: Answer, e: Effect) {
    match e
    case Keep => (before.Found? <==> after.Found?) && (before.Found? ==> after == before)
    case Put(data) => after == Found(data)
    case Remove => !after.Found?
  }

  // ---- Bodies ----

  lemma {:induction false} BodyLength(pieces: seq<Blob>, n: nat)
    ensures Body(pieces, n).Some? ==> |Body(pieces, n).value| == n
    decreases |pieces|
  {
    if n > 0 && pieces != [] && |pieces[0]| <= n {
      BodyLength(pieces[1..], n - |pieces[0]|);
    }
  }

  /** Pieces behind a full body change nothing. */
  lemma {:induction false} BodyIgnoresTail(pieces: seq<Blob>, tail: seq<Blob>, n: nat)
    requires Body(pieces, n).Some?
    ensures Body(pieces + tail, n) == Body(pieces, n)
    decreases |pieces|
  {
    if n > 0 {
      assert (pieces + tail)[0] == pieces[0] && (pieces + tail)[1..] == pieces[1..] + tail;
      BodyIgnoresTail(pieces[1..], tail, n - |pieces[0]|);
    }
  }

  lemma {:induction false} AllBytesAreABody(pieces: seq<Blob>)
    ensures Body(pieces, |Flatten(pieces)|) == Some(Flatten(pieces))
    decreases |pieces|
  {
    if pieces != [] {
      AllBytesAreABody(pieces[1..]);
      if |Flatten(pieces)| == 0 {
        assert Flatten(pieces) == "";
      }
    }
  }

  /** Bytes are determined by hashes. */
  lemma ContentsOf(h: Blob -> string, blobs: map<ChunkId, Blob>, cs: seq<ChunkId>, pieces: seq<Blob>)
    requires Injective(h) && |cs| == |pieces|
    requires forall i :: 0 <= i < |cs| ==> cs[i] in blobs && h(blobs[cs[i]]) == cs[i].hash == h(pieces[i])
    ensures Contents(blobs, cs) == pieces
  {
  }

  lemma ContentsConcat(blobs: map<ChunkId, Blob>, a: seq<ChunkId>, b: seq<ChunkId>)
    ensures Contents(blobs, a + b) == Contents(blobs, a) + Contents(blobs, b)
  {
  }

  lemma ManifestResolves(h: Blob -> string, s: State, k: ObjKey)
    requires Inv(h, s)
    ensures Resolvable(h, s, RowsAt(s.manifests, k))
  {
    forall c | c in RowsAt(s.manifests, k) {
      ManifestChunkLives(h, s, k, c);
    }
  }

  // ---- Frames ----

  /** Nothing recorded about object `k` itself differs. */
  ghost predicate SameObject(s: State, s': State, k: ObjKey) {
    && (k in s.heads <==> k in s'.heads) && (k in s.heads ==> s.heads[k] == s'.heads[k])
    && (k in s.plain <==> k in s'.plain) && (k in s.plain ==> s.plain[k] == s'.plain[k])
    && RowsAt(s.manifests, k) == RowsAt(s'.manifests, k)
  }

  /** No step on chunks, locks, counts or other objects changes what GET answers for `k`. */
  lemma AnswerUnchanged(h: Blob -> string, s: State, s': State, k: ObjKey)
    requires Injective(h) && Inv(h, s) && Inv(h, s') && SameObject(s, s', k)
    ensures Get(h, s, k) == Get(h, s', k)
  {
    ManifestResolves(h, s, k);
    ManifestResolves(h, s', k);
    if Chunked(s, k) {
      var cs := RowsAt(s.manifests, k);
      forall i | 0 <= i < |cs| ensures cs[i] in s.blobs && h(s.blobs[cs[i]]) == cs[i].hash == h(Contents(s'.blobs, cs)[i]) {
        assert cs[i] in cs;
      }
      ContentsOf(h, s.blobs, cs, Contents(s'.blobs, cs));
    }
  }

  // ---- Installing ----

  /** What GET answers for an object whose rows begin with an installed manifest, whatever rows lie behind it. */
  lemma InstalledAnswer(h: Blob -> string, s: State, k: ObjKey, cs: seq<ChunkId>, tail: seq<ChunkId>, pieces: seq<Blob>)
    requires Injective(h) && Inv(h, s) && Describes(h, cs, pieces)
    requires Chunked(s, k) && RowsAt(s.manifests, k) == cs + tail
    ensures Get(h, s, k).Found? <==> Body(Contents(s.blobs, cs + tail), s.heads[k].size).Some?
    ensures Get(h, s, k).Found? ==> |Get(h, s, k).data| == s.heads[k].size
    ensures Body(pieces, s.heads[k].size).Some? ==> Get(h, s, k) == Found(Body(pieces, s.heads[k].size).value)
  {
    var size := s.heads[k].size;
    ManifestResolves(h, s, k);
    forall i | 0 <= i < |cs| ensures cs[i] in s.blobs && h(s.blobs[cs[i]]) == cs[i].hash {
      assert cs[i] in cs + tail;
    }
    ContentsOf(h, s.blobs, cs, pieces);
    ContentsConcat(s.blobs, cs, tail);
    BodyLength(Contents(s.blobs, cs + tail), size);
    if Body(pieces, size).Some? {
      BodyIgnoresTail(pieces, Contents(s.blobs, tail), size);
    }
  }

  lemma PutCommitMeets(h: Blob -> string, s: State, t: nat)
    requires Injective(h) && Inv(h, s) && JobsSound(h, s) && t in s.txns && CommitReady(s, t, s.txns[t])
    requires s.txns[t].job.PutManifest?
    ensures Get(h, CommitTxn(s, t, s.txns[t]), s.txns[t].k) == Found(Flatten(s.txns[t].job.pieces))
  {
    var tx := s.txns[t];
    assert JobSound(h, tx.job);
    CommitKeepsInv(h, s, t);
    AllBytesAreABody(tx.job.pieces);
    InstalledAnswer(h, CommitTxn(s, t, tx), tx.k, tx.job.cs, Tail(Rest(s, tx), |tx.job.cs|), tx.job.pieces);
  }

  /** A copy stores what its source answered, if and only if the size it read goes with the manifest it read. */
  lemma CopyCommitMeets(h: Blob -> string, s: State, t: nat)
    requires Injective(h) && Inv(h, s) && JobsSound(h, s) && t in s.txns && CommitReady(s, t, s.txns[t])
    requires s.txns[t].job.CopyManifest? && Readable(s.txns[t].job)
    ensures var tx := s.txns[t];
      Get(h, CommitTxn(s, t, tx), tx.k) == Found(Answered(tx.job.pieces, tx.job.was)) <==> tx.job.size == Some(tx.job.was)
  {
    var tx, s' := s.txns[t], CommitTxn(s, t, s.txns[t]);
    assert JobSound(h, tx.job);
    CommitKeepsInv(h, s, t);
    InstalledAnswer(h, s', tx.k, tx.job.cs, Tail(Rest(s, tx), |tx.job.cs|), tx.job.pieces);
    BodyLength(tx.job.pieces, tx.job.was);
  }

  /** What is recorded under the object of a commit, once it is done. */
  lemma CommittedObject(s: State, t: nat, tx: Txn)
    ensures var s' := CommitTxn(s, t, tx);
      && s'.plain == s.plain && RowsAt(s'.manifests, tx.k) == RowsAfter(s, tx)
      && (Chunked(s', tx.k) <==> Installs(tx.job) || (tx.job.ReleaseRows? && Chunked(s, tx.k)))
      && (tx.job.PlainWrite? ==> Declared(s', tx.k) == |tx.job.data|)
      && (tx.job.ReleaseRows? ==> s'.heads == s.heads)
  {
  }

  lemma PlainCommitMeets(h: Blob -> string, s: State, t: nat)
    requires Injective(h) && Inv(h, s) && t in s.txns && SoundAt(h, s, s.txns[t].k) && CommitReady(s, t, s.txns[t])
    requires s.txns[t].job.PlainWrite?
    ensures CommitMeetsAt(h, s, t) <==> CommitGuard(h, s, s.txns[t])
  {
    var tx := s.txns[t];
    CommittedObject(s, t, tx);
    ManifestResolves(h, s, tx.k);
  }

  /** The commit of `t` does to its object what it promises, and leaves what is recorded there servable. */
  ghost predicate CommitMeetsAt(h: Blob -> string, s: State, t: nat)
    requires t in s.txns
  {
    var tx, s' := s.txns[t], CommitTxn(s, t, s.txns[t]);
    Meets(Get(h, s, tx.k), Get(h, s', tx.k), CommitEffect(tx)) && Served(h, s', tx.k)
  }

  predicate Served(h: Blob -> string, s: State, k: ObjKey) {
    && (Chunked(s, k) && RowsAt(s.manifests, k) != [] ==> Get(h, s, k).Found?)
    && (!Chunked(s, k) && k in s.plain ==> Fits(s.plain[k], Declared(s, k)))
  }

  lemma ReleaseCommitMeets(h: Blob -> string, s: State, t: nat)
    requires Injective(h) && Inv(h, s) && t in s.txns && SoundAt(h, s, s.txns[t].k) && CommitReady(s, t, s.txns[t])
    requires s.txns[t].job.ReleaseRows?
    ensures CommitMeetsAt(h, s, t) <==> CommitGuard(h, s, s.txns[t])
  {
    var tx, s' := s.txns[t], CommitTxn(s, t, s.txns[t]);
    CommittedObject(s, t, tx);
    if tx.progress == Deleted(true) {
      assert RowsAt(s'.manifests, tx.k) == [];
    } else {
      CommitKeepsInv(h, s, t);
      assert RowsAt(s'.manifests, tx.k) == RowsAt(s.manifests, tx.k);
      AnswerUnchanged(h, s, s', tx.k);
      SameObjectServed(h, s, s', tx.k);
    }
  }

  lemma CommitMeets(h: Blob -> string, s: State, t: nat)
    requires Injective(h) && Inv(h, s) && JobsSound(h, s) && t in s.txns && CommitReady(s, t, s.txns[t])
    requires SoundAt(h, s, s.txns[t].k)
    ensures CommitMeetsAt(h, s, t) <==> CommitGuard(h, s, s.txns[t])
  {
    var tx := s.txns[t];
    CommittedObject(s, t, tx);
    match tx.job
    case PutManifest(_, _, _) => PutCommitMeets(h, s, t);
    case CopyManifest(_, _, _, _) => CopyCommitMeets(h, s, t);
    case PlainWrite(_, _) => PlainCommitMeets(h, s, t);
    case ReleaseRows => ReleaseCommitMeets(h, s, t);
  }

  // ---- Blobs and heads ----

  predicate BlobStep(st: Step) {
    st.Begin? || st.Cleanup? || st.RejectedPlainPut? || st.DeletePlainBlob?
  }

  /** What a step makes of the whole-object blob of its object. */
  function BlobAfter(s: State, st: Step, k: ObjKey): Option<Blob> {
    match st
    case Begin(_, _, job) => if job.PlainWrite? then Some(job.data) else BlobAt(s, k)
    case Cleanup(_, deleted) => if deleted then None else BlobAt(s, k)
    case RejectedPlainPut(_, data) => Some(data)
    case _ => None
  }

  /** These steps touch one whole-object blob, and otherwise only their own request's state. */
  lemma BlobStepFrame(h: Blob -> string, s: State, st: Step, k: ObjKey)
    requires Enabled(h, s, st) && BlobStep(st)
    ensures var s' := Next(h, s, st);
      && s' == s.(plain := s'.plain, txns := s'.txns, cleanups := s'.cleanups)
      && BlobAt(s', k) == if KeyOf(s, st) == Some(k) then BlobAfter(s, st, k) else BlobAt(s, k)
  {
    if st.Begin? {
      assert Next(h, s, st) == TxnNext(h, s, st);
    } else {
      assert Next(h, s, st) == ObjectNext(s, st);
    }
  }

  lemma BlobStepAnswers(h: Blob -> string, s: State, s': State, k: ObjKey)
    requires s' == s.(plain := s'.plain, txns := s'.txns, cleanups := s'.cleanups)
    ensures Chunked(s', k) == Chunked(s, k) && Declared(s', k) == Declared(s, k)
    ensures Chunked(s, k) ==> Get(h, s', k) == Get(h, s, k)
    ensures !Chunked(s, k) ==> Get(h, s', k) == PlainAnswer(BlobAt(s', k), Declared(s, k))
  {
  }

  lemma BlobStepMeets(h: Blob -> string, s: State, st: Step, k: ObjKey)
    requires SoundAt(h, s, k) && Enabled(h, s, st) && BlobStep(st) && KeyOf(s, st) == Some(k)
    ensures Meets(Get(h, s, k), Get(h, Next(h, s, st), k), EffectOf(s, st)) && Served(h, Next(h, s, st), k) <==> KeyGuard(h, s, st)
  {
    var s' := Next(h, s, st);
    BlobStepFrame(h, s, st, k);
    BlobStepAnswers(h, s, s, k);
    BlobStepAnswers(h, s, s', k);
    assert RowsAt(s'.manifests, k) == RowsAt(s.manifests, k);
    BlobEffect(h, s, st, k);
  }

  /** The same, on what GET answers for a blob before and after. */
  lemma BlobEffect(h: Blob -> string, s: State, st: Step, k: ObjKey)
    requires Enabled(h, s, st) && BlobStep(st) && KeyOf(s, st) == Some(k) && SoundAt(h, s, k)
    ensures !Chunked(s, k) ==>
      (Meets(PlainAnswer(BlobAt(s, k), Declared(s, k)), PlainAnswer(BlobAfter(s, st, k), Declared(s, k)), EffectOf(s, st))
       && (BlobAfter(s, st, k).Some? ==> Fits(BlobAfter(s, st, k).value, Declared(s, k)))
       <==> KeyGuard(h, s, st))
    ensures Chunked(s, k) ==> (Meets(Get(h, s, k), Get(h, s, k), EffectOf(s, st)) <==> KeyGuard(h, s, st))
  {
    match st
    case Begin(_, _, _) =>
    case Cleanup(_, _) =>
    case RejectedPlainPut(_, _) =>
    case DeletePlainBlob(_) =>
  }

  lemma HeadStepMeets(h: Blob -> string, s: State, k: ObjKey)
    requires ObjectEnabled(s, DeleteHead(k))
    ensures var s' := ObjectNext(s, DeleteHead(k));
      Meets(Get(h, s, k), Get(h, s', k), Remove) && Served(h, s', k) <==> KeyGuard(h, s, DeleteHead(k))
  {
  }

  lemma CloseMeets(h: Blob -> string, s: State, a: nat, k: ObjKey)
    requires a in s.closings && s.closings[a].tenant == k.tenant
    ensures var s' := Close(s, a, s.closings[a].tenant, s.closings[a].counted);
      Meets(Get(h, s, k), Get(h, s', k), Remove) && Served(h, s', k) <==> k !in s.plain
  {
  }

  // ---- Steps that are not about an object ----

  lemma CommitFrame(s: State, t: nat, tx: Txn, j: ObjKey)
    requires j != tx.k
    ensures SameObject(s, CommitTxn(s, t, tx), j)
  {
  }

  lemma CloseFrame(s: State, a: nat, k: ObjKey)
    requires a in s.closings && s.closings[a].tenant != k.tenant
    ensures SameObject(s, Close(s, a, s.closings[a].tenant, s.closings[a].counted), k)
  {
  }

  lemma TxnKeepsBlobs(h: Blob -> string, s: State, st: Step)
    requires TxnStep(st) && TxnEnabled(h, s, st) && !st.Begin?
    ensures TxnNext(h, s, st).plain == s.plain
  {
    match st
    case BeginCopy(_, _, _, _) =>
    case ReadSize(_, _) =>
    case CopyCrash(_, _) =>
    case LookHead(_) =>
    case SnapRows(_) =>
    case ListRows(_) =>
    case DeleteRows(_) =>
    case Abort(_) =>
    case CountAccount(_, _) =>
    case CountRefs(_) =>
  }

  lemma QuietFrame(h: Blob -> string, s: State, st: Step, k: ObjKey)
    requires Enabled(h, s, st) && (ChunkStep(st) || (TxnStep(st) && !st.Begin?) || st.ResetRows?)
    ensures SameObject(s, Next(h, s, st), k)
  {
    if ChunkStep(st) {
      assert Next(h, s, st) == ChunkNext(h, s, st);
    } else if TxnStep(st) {
      TxnKeepsBlobs(h, s, st);
    }
  }

  /** A step not about `k` changes nothing recorded about it; nor does the first query of a copy to it. */
  lemma OtherFrame(h: Blob -> string, s: State, st: Step, k: ObjKey)
    requires Enabled(h, s, st) && !Closes(s, st, k) && (KeyOf(s, st) != Some(k) || st.BeginCopy?)
    ensures SameObject(s, Next(h, s, st), k)
  {
    if st.Commit? {
      CommitFrame(s, st.t, s.txns[st.t], k);
    } else if st.CloseAccount? {
      CloseFrame(s, st.a, k);
    } else if BlobStep(st) {
      BlobStepFrame(h, s, st, k);
      BlobFrame(s, Next(h, s, st), k);
    } else if st.DeleteHead? {
      HeadFrame(s, st.k, k);
    } else {
      QuietFrame(h, s, st, k);
    }
  }

  lemma BlobFrame(s: State, s': State, k: ObjKey)
    requires s' == s.(plain := s'.plain, txns := s'.txns, cleanups := s'.cleanups) && BlobAt(s', k) == BlobAt(s, k)
    ensures SameObject(s, s', k)
  {
  }

  lemma HeadFrame(s: State, k: ObjKey, j: ObjKey)
    requires ObjectEnabled(s, DeleteHead(k)) && j != k
    ensures SameObject(s, ObjectNext(s, DeleteHead(k)), j)
  {
  }

  // ---- Pending copies ----

  /** The manifest a copy reads holds the bytes that GET answers for the source at that moment. */
  lemma SourceAnswers(h: Blob -> string, s: State, src: ObjKey, pieces: seq<Blob>)
    requires Injective(h) && Inv(h, s) && CopyOpens(h, s, src, pieces)
    ensures Get(h, s, src).Found? <==> Body(pieces, s.heads[src].size).Some?
    ensures Get(h, s, src).Found? ==> Get(h, s, src) == Found(Answered(pieces, s.heads[src].size))
  {
    var cs := RowsAt(s.manifests, src);
    assert cs + [] == cs;
    InstalledAnswer(h, s, src, cs, [], pieces);
    ManifestResolves(h, s, src);
    forall i | 0 <= i < |cs| ensures cs[i] in s.blobs && h(s.blobs[cs[i]]) == cs[i].hash {
      assert cs[i] in cs;
    }
    ContentsOf(h, s.blobs, cs, pieces);
  }

  /** What a transaction is for only changes when a copy reads its size. */
  lemma MovedCopyIsReadable(h: Blob -> string, s: State, st: Step, t: nat)
    requires TxnStep(st) && TxnEnabled(h, s, st) && MovesTxn(st, t) && t in s.txns
    ensures var s' := TxnNext(h, s, st);
      t in s'.txns && s'.txns[t].k == s.txns[t].k && (Readable(s'.txns[t].job) <==> Readable(s.txns[t].job))
  {
    match st
    case ReadSize(_, _) =>
    case LookHead(_) =>
    case SnapRows(_) =>
    case ListRows(_) =>
    case DeleteRows(_) =>
  }

  /** A copy's source is unreadable when a copy to `k` begins. */
  predicate OpensUnreadable(h: Blob -> string, s: State, st: Step, k: ObjKey) {
    st.BeginCopy? && st.k == k && !Get(h, s, st.src).Found?
  }

  lemma BeginKeepsReadable(h: Blob -> string, s: State, st: Step, k: ObjKey)
    requires Injective(h) && Inv(h, s) && TxnEnabled(h, s, st) && (st.Begin? || st.BeginCopy?) && CopiesReadable(s, k)
    ensures CopiesReadable(TxnNext(h, s, st), k) <==> !OpensUnreadable(h, s, st, k)
  {
    var s' := TxnNext(h, s, st);
    if st.BeginCopy? {
      SourceAnswers(h, s, st.src, st.pieces);
      assert s'.txns[st.t].k == st.k && (Readable(s'.txns[st.t].job) <==> Get(h, s, st.src).Found?);
    }
    forall t | t in s'.txns && t != st.t ensures t in s.txns && s'.txns[t] == s.txns[t] {
    }
  }

  lemma TxnStepKeepsReadable(h: Blob -> string, s: State, st: Step, k: ObjKey)
    requires Injective(h) && Inv(h, s) && TxnStep(st) && TxnEnabled(h, s, st) && CopiesReadable(s, k)
    ensures CopiesReadable(TxnNext(h, s, st), k) <==> !OpensUnreadable(h, s, st, k)
  {
    if st.Begin? || st.BeginCopy? {
      BeginKeepsReadable(h, s, st, k);
    } else if st.CopyCrash? || st.Abort? {
      assert TxnNext(h, s, st).txns == s.txns - {st.t};
    } else if st.CountAccount? || st.CountRefs? {
      assert TxnNext(h, s, st).txns == s.txns;
    } else {
      OneTxnMoves(h, s, st);
      MovedCopyIsReadable(h, s, st, st.t);
    }
  }

  lemma StepKeepsReadable(h: Blob -> string, s: State, st: Step, k: ObjKey)
    requires Injective(h) && Inv(h, s) && Enabled(h, s, st) && CopiesReadable(s, k)
    ensures CopiesReadable(Next(h, s, st), k) <==> !OpensUnreadable(h, s, st, k)
  {
    if TxnStep(st) {
      TxnStepKeepsReadable(h, s, st, k);
    } else {
      OnlyCommitEnds(h, s, st);
    }
  }

  // ---- Every step, seen at one object ----

  lemma OtherStepMeets(h: Blob -> string, s: State, st: Step, k: ObjKey)
    requires Injective(h) && Inv(h, s) && SoundAt(h, s, k) && Enabled(h, s, st)
    requires !Closes(s, st, k) && (KeyOf(s, st) != Some(k) || st.BeginCopy?)
    ensures Get(h, Next(h, s, st), k) == Get(h, s, k) && Served(h, Next(h, s, st), k)
  {
    StepKeepsInv(h, s, st);
    OtherFrame(h, s, st, k);
    AnswerUnchanged(h, s, Next(h, s, st), k);
    SameObjectServed(h, s, Next(h, s, st), k);
  }

  lemma SameObjectServed(h: Blob -> string, s: State, s': State, k: ObjKey)
    requires SameObject(s, s', k) && Get(h, s', k) == Get(h, s, k) && Served(h, s, k)
    ensures Served(h, s', k)
  {
  }

  lemma AnswerMeets(h: Blob -> string, s: State, st: Step, k: ObjKey)
    requires Injective(h) && Inv(h, s) && JobsSound(h, s) && SoundAt(h, s, k) && Enabled(h, s, st) && !st.BeginCopy?
    ensures Meets(Get(h, s, k), Get(h, Next(h, s, st), k), EffectAt(s, st, k)) && Served(h, Next(h, s, st), k)
       <==> FaithfulAt(h, s, st, k)
  {
    if Closes(s, st, k) {
      CloseMeets(h, s, st.a, k);
    } else if KeyOf(s, st) != Some(k) {
      OtherStepMeets(h, s, st, k);
    } else if st.Commit? {
      CommitMeets(h, s, st.t);
    } else if st.DeleteHead? {
      HeadStepMeets(h, s, k);
    } else {
      BlobStepMeets(h, s, st, k);
    }
  }

  /**
   The refinement at one object: a step does to its GET what the step's request promises, and leaves it servable, if
   and only if the step's guard holds. Steps that are not about the object need no guard.
   */
  lemma StepMeetsAt(h: Blob -> string, s: State, st: Step, k: ObjKey)
    requires Injective(h) && Inv(h, s) && JobsSound(h, s) && SoundAt(h, s, k) && Enabled(h, s, st)
    ensures Meets(Get(h, s, k), Get(h, Next(h, s, st), k), EffectAt(s, st, k)) && SoundAt(h, Next(h, s, st), k)
       <==> FaithfulAt(h, s, st, k)
  {
    StepKeepsReadable(h, s, st, k);
    if st.BeginCopy? {
      OtherStepMeets(h, s, st, k);
    } else {
      AnswerMeets(h, s, st, k);
    }
  }

  // ---- Every step, seen at all objects ----

  ghost predicate Sound(h: Blob -> string, s: State) {
    Inv(h, s) && JobsSound(h, s) && forall k :: SoundAt(h, s, k)
  }

  ghost predicate Faithful(h: Blob -> string, s: State, st: Step) {
    forall k :: FaithfulAt(h, s, st, k)
  }

  /** What a step promises, seen at one key. */
  lemma PromiseAt(s: State, st: Step, v: Spec, k: ObjKey)
    ensures var w := Promise(s, st, v);
      match EffectAt(s, st, k)
      case Keep => (k in w <==> k in v) && (k in v ==> w[k] == v[k])
      case Put(data) => k in w && w[k] == data
      case Remove => k !in w
  {
  }

  lemma ViewMeets(h: Blob -> string, s: State, s': State, st: Step)
    ensures View(h, s') == Promise(s, st, View(h, s)) <==> forall k :: Meets(Get(h, s, k), Get(h, s', k), EffectAt(s, st, k))
  {
    var v', w := View(h, s'), Promise(s, st, View(h, s));
    forall k ensures Meets(Get(h, s, k), Get(h, s', k), EffectAt(s, st, k)) <==> SameAt(v', w, k) {
      ViewMeetsAt(h, s, s', st, k);
    }
    SameEverywhere(v', w);
  }

  predicate SameAt(v: Spec, w: Spec, k: ObjKey) {
    (k in v <==> k in w) && (k in v ==> v[k] == w[k])
  }

  lemma SameEverywhere(v: Spec, w: Spec)
    ensures v == w <==> forall k :: SameAt(v, w, k)
  {
    if forall k :: SameAt(v, w, k) {
      forall k ensures k in v <==> k in w {
        assert SameAt(v, w, k);
      }
      forall k | k in v ensures v[k] == w[k] {
        assert SameAt(v, w, k);
      }
    }
  }

  lemma ViewMeetsAt(h: Blob -> string, s: State, s': State, st: Step, k: ObjKey)
    ensures Meets(Get(h, s, k), Get(h, s', k), EffectAt(s, st, k)) <==> SameAt(View(h, s'), Promise(s, st, View(h, s)), k)
  {
    ViewIsGet(h, s, k);
    ViewIsGet(h, s', k);
    PromiseAt(s, st, View(h, s), k);
  }

  /**
   The refinement at all objects: a step does to every GET what its request promises on a plain map, and leaves every
   object servable, if and only if its guard holds. All steps of chunk uploads, of transactions before their commit,
   of the sweep and of reconcile are invisible.
   */
  lemma StepRefines(h: Blob -> string, s: State, st: Step)
    requires Injective(h) && Sound(h, s) && Enabled(h, s, st)
    ensures View(h, Next(h, s, st)) == Promise(s, st, View(h, s)) && Sound(h, Next(h, s, st)) <==> Faithful(h, s, st)
  {
    var s' := Next(h, s, st);
    StepKeepsInv(h, s, st);
    StepKeepsJobs(h, s, st);
    ViewMeets(h, s, s', st);
    forall k
      ensures Meets(Get(h, s, k), Get(h, s', k), EffectAt(s, st, k)) && SoundAt(h, s', k) <==> FaithfulAt(h, s, st, k)
    {
      StepMeetsAt(h, s, st, k);
    }
  }

  // ---- Whole runs ----

  function Apply(v: Option<Blob>, e: Effect): Option<Blob> {
    match e
    case Keep => v
    case Put(data) => Some(data)
    case Remove => None
  }

  /** What the requests of a run make of one object, carried out one after another. */
  ghost function Replay(h: Blob -> string, s: State, run: seq<Step>, k: ObjKey, v: Option<Blob>): Option<Blob>
    requires ValidRun(h, s, run)
    decreases |run|
  {
    if run == [] then v else Replay(h, Next(h, s, run[0]), run[1..], k, Apply(v, EffectAt(s, run[0], k)))
  }

  /** The steps about `k` meet their guards; those about other objects need not. */
  ghost predicate FaithfulRun(h: Blob -> string, s: State, run: seq<Step>, k: ObjKey)
    requires ValidRun(h, s, run)
    decreases |run|
  {
    run == [] || (FaithfulAt(h, s, run[0], k) && FaithfulRun(h, Next(h, s, run[0]), run[1..], k))
  }

  /** GET answers `v`, or that there is nothing; it never breaks off. */
  predicate Answers(a: Answer, v: Option<Blob>) {
    if v.Some? then a == Found(v.value) else a.NoSuchKey? || a.ServerError?
  }

  lemma SoundNeverTears(h: Blob -> string, s: State, k: ObjKey)
    requires Inv(h, s) && SoundAt(h, s, k)
    ensures !Get(h, s, k).Torn?
  {
    ManifestResolves(h, s, k);
  }

  lemma {:induction false} RunAnswers(h: Blob -> string, s: State, run: seq<Step>, k: ObjKey, v: Option<Blob>)
    requires Injective(h) && Inv(h, s) && JobsSound(h, s) && SoundAt(h, s, k) && Answers(Get(h, s, k), v)
    requires ValidRun(h, s, run) && FaithfulRun(h, s, run, k)
    ensures SoundAt(h, Final(h, s, run), k) && Answers(Get(h, Final(h, s, run), k), Replay(h, s, run, k, v))
    decreases |run|
  {
    if run != [] {
      var s1 := Next(h, s, run[0]);
      StepMeetsAt(h, s, run[0], k);
      StepKeepsInv(h, s, run[0]);
      StepKeepsJobs(h, s, run[0]);
      SoundNeverTears(h, s1, k);
      RunAnswers(h, s1, run[1..], k, Apply(v, EffectAt(s, run[0], k)));
    }
  }

  /**
   GET returns exactly the bytes of the last write to the key, or finds nothing, after any interleaving in which the
   steps about that key meet their guards.
   */
  lemma GetReturnsLastWrite(h: Blob -> string, run: seq<Step>, k: ObjKey)
    requires Injective(h) && ValidRun(h, Init(), run) && FaithfulRun(h, Init(), run, k)
    ensures Answers(Get(h, Final(h, Init(), run), k), Replay(h, Init(), run, k, None))
  {
    InitInv(h);
    InitJobs(h);
    RunAnswers(h, Init(), run, k, None);
  }

  // ---- A whole write mends an object ----

  lemma {:induction false} RunKeepsJobs(h: Blob -> string, s: State, run: seq<Step>)
    requires JobsSound(h, s) && ValidRun(h, s, run)
    ensures JobsSound(h, Final(h, s, run))
    decreases |run|
  {
    if run != [] {
      StepKeepsJobs(h, s, run[0]);
      RunKeepsJobs(h, Next(h, s, run[0]), run[1..]);
    }
  }

  /** A chunked PUT, or a plain PUT that finds its own blob. */
  predicate WholeWrite(s: State, t: nat) {
    && t in s.txns && CommitReady(s, t, s.txns[t])
    && (s.txns[t].job.PutManifest? || (s.txns[t].job.PlainWrite? && BlobAt(s, s.txns[t].k) == Some(s.txns[t].job.data)))
  }

  function Written(job: Job): Blob
    requires job.PutManifest? || job.PlainWrite?
  {
    if job.PutManifest? then Flatten(job.pieces) else job.data
  }

  /** Whatever was wrong with the object before: once such a write commits, GET answers its bytes. */
  lemma WholeWriteMends(h: Blob -> string, s: State, t: nat)
    requires Injective(h) && Inv(h, s) && JobsSound(h, s) && WholeWrite(s, t)
    ensures var tx, s' := s.txns[t], CommitTxn(s, t, s.txns[t]);
      Get(h, s', tx.k) == Found(Written(tx.job)) && (CopiesReadable(s, tx.k) ==> SoundAt(h, s', tx.k))
  {
    CommittedObject(s, t, s.txns[t]);
    if s.txns[t].job.PutManifest? {
      PutCommitMeets(h, s, t);
    }
  }

  lemma MendedObjectAnswers(h: Blob -> string, s: State, t: nat, rest: seq<Step>)
    requires Injective(h) && Inv(h, s) && JobsSound(h, s) && WholeWrite(s, t) && CopiesReadable(s, s.txns[t].k)
    requires ValidRun(h, CommitTxn(s, t, s.txns[t]), rest)
    requires FaithfulRun(h, CommitTxn(s, t, s.txns[t]), rest, s.txns[t].k)
    ensures var s1, k := CommitTxn(s, t, s.txns[t]), s.txns[t].k;
      Answers(Get(h, Final(h, s1, rest), k), Replay(h, s1, rest, k, Some(Written(s.txns[t].job))))
  {
    WholeWriteMends(h, s, t);
    CommitKeepsInv(h, s, t);
    ObjectStepKeepsJobs(h, s, Commit(t));
    RunAnswers(h, CommitTxn(s, t, s.txns[t]), rest, s.txns[t].k, Some(Written(s.txns[t].job)));
  }

  /**
   So the guards only matter from the last whole write on: after any run at all, if a whole write of `k` commits and
   the steps about `k` after it meet their guards, GET answers what those steps make of its bytes.
   */
  lemma LastWriteWins(h: Blob -> string, run: seq<Step>, t: nat, rest: seq<Step>)
    requires Injective(h) && ValidRun(h, Init(), run) && WholeWrite(Final(h, Init(), run), t)
    requires var s := Final(h, Init(), run);
      && CopiesReadable(s, s.txns[t].k)
      && ValidRun(h, CommitTxn(s, t, s.txns[t]), rest) && FaithfulRun(h, CommitTxn(s, t, s.txns[t]), rest, s.txns[t].k)
    ensures var s := Final(h, Init(), run);
      var s1, k := CommitTxn(s, t, s.txns[t]), s.txns[t].k;
      Answers(Get(h, Final(h, s1, rest), k), Replay(h, s1, rest, k, Some(Written(s.txns[t].job))))
  {
    var s := Final(h, Init(), run);
    InitInv(h);
    RunKeepsInv(h, Init(), run);
    InitJobs(h);
    RunKeepsJobs(h, Init(), run);
    MendedObjectAnswers(h, s, t, rest);
  }

  // ---- Copies ----

  /** A transaction keeps its object and what it is for; only the size of a copy is still to be read. */
  predicate SameCopy(a: Txn, b: Txn) {
    && a.k == b.k && a.job.CopyManifest? && b.job.CopyManifest?
    && a.job.cs == b.job.cs && a.job.pieces == b.job.pieces && a.job.was == b.job.was
  }

  lemma StepKeepsCopy(h: Blob -> string, s: State, st: Step, t: nat)
    requires Enabled(h, s, st) && t in s.txns && s.txns[t].job.CopyManifest?
    ensures t in Next(h, s, st).txns ==> SameCopy(s.txns[t], Next(h, s, st).txns[t])
  {
    if !MovesTxn(st, t) {
      OthersLeaveTxn(h, s, st, t);
    } else {
      OwnStepKeepsCopy(h, s, st);
    }
  }

  lemma OwnStepKeepsCopy(h: Blob -> string, s: State, st: Step)
    requires TxnStep(st) && TxnEnabled(h, s, st) && (st.ReadSize? || st.LookHead? || st.SnapRows? || st.ListRows? || st.DeleteRows?)
    requires s.txns[st.t].job.CopyManifest?
    ensures SameCopy(s.txns[st.t], TxnNext(h, s, st).txns[st.t])
  {
    match st
    case ReadSize(_, _) =>
    case LookHead(_) =>
    case SnapRows(_) =>
    case ListRows(_) =>
    case DeleteRows(_) =>
  }

  lemma {:induction false} RunKeepsCopy(h: Blob -> string, s: State, run: seq<Step>, t: nat)
    requires Inv(h, s) && JobsSound(h, s) && ValidRun(h, s, run) && StaysOpen(h, s, run, t) && s.txns[t].job.CopyManifest?
    ensures var e := Final(h, s, run);
      Inv(h, e) && JobsSound(h, e) && t in e.txns && SameCopy(s.txns[t], e.txns[t])
    decreases |run|
  {
    if run != [] {
      StepKeepsInv(h, s, run[0]);
      StepKeepsJobs(h, s, run[0]);
      StepKeepsCopy(h, s, run[0], t);
      RunKeepsCopy(h, Next(h, s, run[0]), run[1..], t);
    }
  }

  /**
   Whatever happens between a copy's first query and its commit, and whatever becomes of the source: the copy
   answers what the source answered at that first query if and only if the size it read later is of that version.
   */
  lemma CopyWritesSourceBytes(h: Blob -> string, s: State, t: nat, src: ObjKey, k: ObjKey, pieces: seq<Blob>, run: seq<Step>)
    requires Injective(h) && Inv(h, s) && JobsSound(h, s) && Enabled(h, s, BeginCopy(t, src, k, pieces))
    requires Get(h, s, src).Found?
    requires var s1 := Next(h, s, BeginCopy(t, src, k, pieces)); ValidRun(h, s1, run) && StaysOpen(h, s1, run, t)
    ensures var e := Final(h, Next(h, s, BeginCopy(t, src, k, pieces)), run);
      && t in e.txns && e.txns[t].k == k && e.txns[t].job.CopyManifest?
      && (CommitReady(e, t, e.txns[t]) ==>
          (Get(h, CommitTxn(e, t, e.txns[t]), k) == Get(h, s, src) <==> e.txns[t].job.size == Some(s.heads[src].size)))
  {
    var st := BeginCopy(t, src, k, pieces);
    var s1 := Next(h, s, st);
    StepKeepsInv(h, s, st);
    StepKeepsJobs(h, s, st);
    SourceAnswers(h, s, src, pieces);
    assert s1.txns[t] == Txn(k, CopyManifest(RowsAt(s.manifests, src), pieces, s.heads[src].size, None), false, Begun, []);
    RunKeepsCopy(h, s1, run, t);
    CopyAnswers(h, Final(h, s1, run), t, s1.txns[t]);
  }

  /** `first` is the transaction as the copy's first query left it. */
  lemma CopyAnswers(h: Blob -> string, e: State, t: nat, first: Txn)
    requires Injective(h) && Inv(h, e) && JobsSound(h, e) && t in e.txns
    requires first.job.CopyManifest? && SameCopy(first, e.txns[t]) && Readable(first.job)
    ensures CommitReady(e, t, e.txns[t]) ==>
      (Get(h, CommitTxn(e, t, e.txns[t]), first.k) == Found(Answered(first.job.pieces, first.job.was))
       <==> e.txns[t].job.size == Some(first.job.was))
  {
    if CommitReady(e, t, e.txns[t]) {
      CopyCommitMeets(h, e, t);
    }
  }
}
