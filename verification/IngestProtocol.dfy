/** The ingestion protocol: any number of overlapping executions of the pipeline,
    each a program counter that moves by one transaction at a time and may die
    between any two, next to uploads, failure marks and reconciler sweeps. */
module IngestProtocol {
  import opened Common
  import opened Corpus

  const EMBED_BATCH_SIZE := 128

  /** What parsing and chunking make of a document's stored bytes. */
  datatype ParseOutcome =
    | Unparseable(error: string)
    | Parsed(blank: bool, pageCount: nat, warnings: seq<string>, drafts: seq<ChunkDraft>)

  /** The surroundings: deterministic parsing, and the vectors each model may return for a text. */
  datatype World = World(
    parse: DocId -> ParseOutcome,
    produces: (Model, Content, Vector) -> bool)

  /** Where an execution of runIngestion stands: the transaction it is about to do. */
  datatype Pc =
    | ReadStatus
    | MarkParsing
    | ReadRef
    | SaveParseResult
    | SaveDrafts
    | MarkEmbedding
    | ReadPending
    | ClaimModel(pending: seq<Key>)
    | WriteBatch(pending: seq<Key>, next: nat)
    | MarkReady
    | Done
    | Dead

  datatype Exec = Exec(doc: DocId, model: Model, dimensions: int, pc: Pc)

  function Drafts(w: World, d: DocId): seq<ChunkDraft> {
    match w.parse(d)
    case Unparseable(_) => []
    case Parsed(_, _, _, drafts) => drafts
  }

  predicate Parseable(w: World, d: DocId) {
    w.parse(d).Parsed? && !w.parse(d).blank
  }

  /** UPLOADED, PARSING, EMBEDDING, READY in this order; everything else restarts at 0. */
  const ORDER := [UPLOADED, PARSING, EMBEDDING, READY]

  function Rank(status: Status): (rank: nat)
    ensures rank < |ORDER| && (if status in ORDER then ORDER[rank] == status else rank == 0)
  {
    match status
    case PARSING => 1
    case EMBEDDING => 2
    case READY => 3
    case _ => 0
  }

  function BatchEnd(pending: seq<Key>, next: nat): nat
    requires next <= |pending|
  {
    if |pending| - next <= EMBED_BATCH_SIZE then |pending| else next + EMBED_BATCH_SIZE
  }

  /** The vectors passed the pipeline's checks and are the model's vectors for the texts, in order. */
  ghost predicate GoodVectors(w: World, model: Model, ids: seq<Key>, vectors: seq<Vector>) {
    |vectors| == |ids| &&
    forall i :: 0 <= i < |ids| ==> ValidVector(vectors[i]) && w.produces(model, ids[i].content, vectors[i])
  }

  function AfterStatus(rank: nat): Pc {
    if rank >= 3 then Done
    else if rank == 2 then ReadPending
    else if rank == 1 then ReadRef
    else MarkParsing
  }

  function AfterBatch(pending: seq<Key>, next: nat): Pc {
    if next < |pending| then WriteBatch(pending, next) else MarkReady
  }

  /** One transaction of one execution. */
  ghost predicate ExecStep(w: World, db: Db, x: Exec, db': Db, x': Exec) {
    && x.doc in db.docs
    && x' == x.(pc := x'.pc)
    && match x.pc
       case ReadStatus =>
         db' == db && x'.pc == AfterStatus(Rank(db.docs[x.doc].status))
       case MarkParsing =>
         db' == SetStatusTx(db, x.doc, PARSING) && x'.pc == ReadRef
       case ReadRef =>
         db' == db && x'.pc == SaveParseResult
       case SaveParseResult =>
         Parseable(w, x.doc)
         && db' == SetParseResultTx(db, x.doc, w.parse(x.doc).pageCount, w.parse(x.doc).warnings)
         && x'.pc == SaveDrafts
       case SaveDrafts =>
         Parseable(w, x.doc) && Drafts(w, x.doc) != []
         && db' == SaveChunksTx(db, x.doc, db.docs[x.doc].assistant, Drafts(w, x.doc))
         && x'.pc == MarkEmbedding
       case MarkEmbedding =>
         db' == SetStatusTx(db, x.doc, EMBEDDING) && x'.pc == ReadPending
       case ReadPending =>
         x.dimensions == EMBEDDING_DIMENSIONS && db' == db
         && (x'.pc == MarkReady || x'.pc.ClaimModel?)
         && (x'.pc == MarkReady <==> Pending(db, x.doc) == {})
         && (x'.pc.ClaimModel? ==> IsPendingList(db, x.doc, x'.pc.pending))
       case ClaimModel(pending) =>
         db' == ClaimTx(db, db.docs[x.doc].assistant, x.model)
         && db'.claims[db.docs[x.doc].assistant] == x.model
         && x'.pc == WriteBatch(pending, 0)
       case WriteBatch(pending, next) =>
         next < |pending|
         && (exists vectors :: BatchWritten(w, db, x, vectors, db'))
         && x'.pc == AfterBatch(pending, BatchEnd(pending, next))
       case MarkReady =>
         db' == SetStatusTx(db, x.doc, READY) && x'.pc == Done
       case Done => false
       case Dead => false
  }

  ghost predicate IsPendingList(db: Db, d: DocId, pending: seq<Key>) {
    Distinct(pending) && pending != [] && (forall k :: k in pending <==> k in Pending(db, d))
  }

  ghost predicate BatchWritten(w: World, db: Db, x: Exec, vectors: seq<Vector>, db': Db)
    requires x.pc.WriteBatch? && x.pc.next < |x.pc.pending|
  {
    var ids := x.pc.pending[x.pc.next..BatchEnd(x.pc.pending, x.pc.next)];
    GoodVectors(w, x.model, ids, vectors) && db' == SetEmbeddingsTx(db, ids, vectors)
  }

  // ----- The whole system -----

  datatype Sys = Sys(db: Db, execs: map<nat, Exec>)

  datatype Action =
    | Upload(d: DocId, a: AssistantId)
    | Begin(id: nat, d: DocId, model: Model, dimensions: int)
    | Advance(id: nat)
    | Die(id: nat)
    | MarkFailed(d: DocId, error: string)
    | Sweep(stale: set<DocId>)

  ghost predicate Next(w: World, s: Sys, act: Action, s': Sys) {
    match act
    case Upload(d, a) =>
      d !in s.db.docs && s' == s.(db := UploadTx(s.db, d, a))
    case Begin(id, d, model, dimensions) =>
      id !in s.execs && d in s.db.docs
      && s' == s.(execs := s.execs[id := Exec(d, model, dimensions, ReadStatus)])
    case Advance(id) =>
      id in s.execs && id in s'.execs
      && ExecStep(w, s.db, s.execs[id], s'.db, s'.execs[id])
      && s'.execs == s.execs[id := s'.execs[id]]
    case Die(id) =>
      id in s.execs && !s.execs[id].pc.Done?
      && s' == s.(execs := s.execs[id := s.execs[id].(pc := Dead)])
    case MarkFailed(d, error) =>
      s' == s.(db := MarkFailedTx(s.db, d, error))
    case Sweep(stale) =>
      s' == s.(db := SweepTx(s.db, stale))
  }

  /** A run of the system from s[0]. */
  ghost predicate Steps(w: World, s: seq<Sys>, acts: seq<Action>) {
    && |s| == |acts| + 1
    && forall i :: 0 <= i < |acts| ==> Next(w, s[i], acts[i], s[i + 1])
  }

  ghost predicate IsRun(w: World, s: seq<Sys>, acts: seq<Action>) {
    Steps(w, s, acts) && s[0] == Sys(EMPTY_DB, map[])
  }

  // ----- What a state promises -----

  /** Every chunk of the document has a row in its assistant's corpus. */
  predicate AllPresent(w: World, db: Db, d: DocId)
    requires d in db.docs
  {
    Parseable(w, d) && Drafts(w, d) != [] &&
    forall c :: c in Drafts(w, d) ==> Key(db.docs[d].assistant, c.content) in db.chunks
  }

  predicate Recorded(w: World, db: Db, d: DocId)
    requires d in db.docs
  {
    w.parse(d).Parsed?
    && db.docs[d].pageCount == Some(w.parse(d).pageCount) && db.docs[d].warnings == w.parse(d).warnings
  }

  /** The document owns no row without a vector. */
  predicate NothingPending(db: Db, d: DocId) {
    forall k :: k in db.chunks && db.chunks[k].owner == d ==> db.chunks[k].vector.Some?
  }

  predicate RowInv(w: World, db: Db, k: Key)
    requires k in db.chunks
  {
    var row := db.chunks[k];
    && row.owner in db.docs && db.docs[row.owner].assistant == k.assistant
    && row.draft.content == k.content && row.draft in Drafts(w, row.owner)
    && (row.vector.Some? ==>
          && k.assistant in db.claims
          && ValidVector(row.vector.value)
          && w.produces(db.claims[k.assistant], k.content, row.vector.value))
  }

  predicate DocInv(w: World, db: Db, d: DocId)
    requires d in db.docs
  {
    var row := db.docs[d];
    && (row.status.EMBEDDING? || row.status.READY? ==> AllPresent(w, db, d) && Recorded(w, db, d))
    && (row.status.READY? ==> NothingPending(db, d))
    && (!row.status.FAILED? ==> row.error == None)
  }

  predicate DbInv(w: World, db: Db) {
    && (forall k :: k in db.chunks ==> RowInv(w, db, k))
    && (forall d :: d in db.docs ==> DocInv(w, db, d))
  }

  /** The keys are rows of the document. */
  ghost predicate Owned(db: Db, d: DocId, keys: seq<Key>) {
    forall i :: 0 <= i < |keys| ==> keys[i] in db.chunks && db.chunks[keys[i]].owner == d
  }

  ghost predicate StillListed(db: Db, d: DocId, keys: seq<Key>) {
    forall k :: k in Pending(db, d) ==> k in keys
  }

  /** The model is claimed, and every row that still needs a vector is in what is left of the list. */
  ghost predicate WritingInv(db: Db, d: DocId, model: Model, pending: seq<Key>, next: nat)
    requires d in db.docs
  {
    && next <= |pending| && Distinct(pending) && Owned(db, d, pending)
    && StillListed(db, d, pending[next..])
    && db.docs[d].assistant in db.claims && db.claims[db.docs[d].assistant] == model
  }

  ghost predicate ExecInv(w: World, db: Db, x: Exec) {
    && x.doc in db.docs
    && match x.pc
       case ReadStatus => true
       case MarkParsing => true
       case ReadRef => true
       case SaveParseResult => true
       case SaveDrafts => Recorded(w, db, x.doc)
       case MarkEmbedding => AllPresent(w, db, x.doc) && Recorded(w, db, x.doc)
       case ReadPending => AllPresent(w, db, x.doc) && Recorded(w, db, x.doc)
       case ClaimModel(pending) =>
         && AllPresent(w, db, x.doc) && Recorded(w, db, x.doc)
         && pending != [] && Distinct(pending) && Owned(db, x.doc, pending) && StillListed(db, x.doc, pending)
       case WriteBatch(pending, next) =>
         AllPresent(w, db, x.doc) && Recorded(w, db, x.doc) && WritingInv(db, x.doc, x.model, pending, next)
       case MarkReady => AllPresent(w, db, x.doc) && Recorded(w, db, x.doc) && NothingPending(db, x.doc)
       case Done => true
       case Dead => true
  }

  ghost predicate SysInv(w: World, s: Sys) {
    DbInv(w, s.db) && forall id :: id in s.execs ==> ExecInv(w, s.db, s.execs[id])
  }

  /** What no transaction of anybody ever undoes. */
  predicate Evolves(w: World, db: Db, db': Db) {
    && (forall d :: d in db.docs ==> d in db'.docs && db'.docs[d].assistant == db.docs[d].assistant)
    && (forall d :: d in db.docs && Recorded(w, db, d) ==> d in db'.docs && Recorded(w, db', d))
    && (forall k :: k in db.chunks ==>
          && k in db'.chunks && db'.chunks[k].owner == db.chunks[k].owner && db'.chunks[k].draft == db.chunks[k].draft
          && (db.chunks[k].vector.Some? ==> db'.chunks[k].vector.Some?))
    && (forall k :: k in db'.chunks && k !in db.chunks ==>
          db'.chunks[k].owner in db.docs ==> !AllPresent(w, db, db'.chunks[k].owner))
    && (forall a :: a in db.claims ==> a in db'.claims && db'.claims[a] == db.claims[a])
  }

  /** What everybody else may have done to the rows in the meantime. */
  predicate Interfered(w: World, db: Db, db': Db) {
    Evolves(w, db, db') && (DbInv(w, db) ==> DbInv(w, db'))
  }

  lemma NothingDone(w: World, db: Db)
    ensures Interfered(w, db, db)
  {
    hide DbInv, AllPresent;
  }

  lemma AllPresentLasts(w: World, db: Db, db': Db, d: DocId)
    requires d in db.docs && d in db'.docs && db'.docs[d].assistant == db.docs[d].assistant
    requires forall k :: k in db.chunks ==> k in db'.chunks
    ensures AllPresent(w, db, d) ==> AllPresent(w, db', d)
  {
  }

  lemma NothingPendingLasts(db: Db, db': Db, d: DocId)
    requires forall k :: k in db'.chunks && db'.chunks[k].owner == d ==>
               k in db.chunks && db.chunks[k].owner == d && (db.chunks[k].vector.Some? ==> db'.chunks[k].vector.Some?)
    ensures NothingPending(db, d) ==> NothingPending(db', d)
  {
  }

  /** Whatever the others do, what an execution knows stays true. */
  lemma OthersKeepExecInv(w: World, db: Db, db': Db, x: Exec)
    requires ExecInv(w, db, x) && Evolves(w, db, db')
    ensures ExecInv(w, db', x)
  {
    if AllPresent(w, db, x.doc) {
      assert AllPresent(w, db', x.doc);
      forall k | k in Pending(db', x.doc) ensures k in Pending(db, x.doc) {
        if k !in db.chunks { assert false; }
      }
    }
    if Recorded(w, db, x.doc) { assert Recorded(w, db', x.doc); }
  }

  /** A transaction on one document's row alone keeps the rest of the invariant. */
  lemma DocWriteKeeps(w: World, db: Db, d: DocId, row: DocRow)
    requires DbInv(w, db) && d in db.docs && row.assistant == db.docs[d].assistant
    requires var db' := db.(docs := db.docs[d := row]); DocInv(w, db', d) && (Recorded(w, db, d) ==> Recorded(w, db', d))
    ensures var db' := db.(docs := db.docs[d := row]); DbInv(w, db') && Evolves(w, db, db')
  {
    var db' := db.(docs := db.docs[d := row]);
    forall e | e in db'.docs ensures DocInv(w, db', e) {
      if e != d {
        assert DocInv(w, db, e);
        assert AllPresent(w, db, e) ==> AllPresent(w, db', e);
        assert NothingPending(db, e) ==> NothingPending(db', e);
      }
    }
    forall k | k in db'.chunks ensures RowInv(w, db', k) { assert RowInv(w, db, k); }
  }
}
