/** Crash and resume: however the attempts on one document overlap, die, are marked
    failed or swept, once it is READY the rows are those of one uninterrupted run. */
module IngestConvergence {
  import opened Common
  import opened Corpus
  import opened IngestProtocol
  import opened IngestSafety

  /** Each model gives each text one vector. */
  ghost predicate Deterministic(w: World) {
    forall m: Model, c: Content, u: Vector, v: Vector ::
      w.produces(m, c, u) && w.produces(m, c, v) ==> u == v
  }

  /** Attempts on document d with model m, each of which may die anywhere, failure marks and sweeps. */
  ghost predicate Attempts(acts: seq<Action>, d: DocId, m: Model) {
    forall i :: 0 <= i < |acts| ==> AboutDoc(acts[i], d, m)
  }

  ghost predicate AboutDoc(act: Action, d: DocId, m: Model) {
    match act
    case Upload(_, _) => false
    case Begin(_, e, model, _) => e == d && model == m
    case Advance(_) => true
    case Die(_) => true
    case MarkFailed(e, _) => e == d
    case Sweep(stale) => stale <= {d}
  }

  /** What attempts on d may have done to the rows they started from. */
  ghost predicate TouchedOnly(w: World, base: Db, d: DocId, m: Model, db: Db)
    requires d in base.docs
  {
    && DocsTouched(base, d, db)
    && ClaimsTouched(base, d, m, db)
    && ChunksTouched(Drafts(w, d), base.docs[d].assistant, base.chunks, d, db.chunks)
  }

  ghost predicate DocsTouched(base: Db, d: DocId, db: Db)
    requires d in base.docs
  {
    && db.docs.Keys == base.docs.Keys && db.docs[d].assistant == base.docs[d].assistant
    && (forall e :: e in base.docs && e != d ==> db.docs[e] == base.docs[e])
  }

  ghost predicate ClaimsTouched(base: Db, d: DocId, m: Model, db: Db)
    requires d in base.docs
  {
    && (forall b :: b in base.claims ==> b in db.claims && db.claims[b] == base.claims[b])
    && (forall b :: b in db.claims && b !in base.claims ==>
          b == base.docs[d].assistant && db.claims[b] == m && OwnsARow(db, d))
  }

  ghost predicate ChunksTouched(drafts: seq<ChunkDraft>, a: AssistantId, base: Chunks, d: DocId, chunks: Chunks) {
    && (forall k :: k in base ==> k in chunks && RowTouched(base[k], chunks[k], d))
    && (forall k :: k in chunks && k !in base ==>
          k.assistant == a && chunks[k].owner == d
          && Drafted(drafts, k.content) && chunks[k].draft == First(drafts, k.content))
  }

  ghost predicate OwnsARow(db: Db, d: DocId) {
    exists k :: k in db.chunks && db.chunks[k].owner == d
  }

  ghost predicate RowTouched(was: ChunkRow, row: ChunkRow, d: DocId) {
    row.owner == was.owner && row.draft == was.draft
    && (was.owner != d || was.vector.Some? ==> row == was)
  }

  /** An attempt lists no row that had a vector from the start. */
  ghost predicate ListsUnembedded(base: Db, keys: seq<Key>) {
    forall k :: k in keys && k in base.chunks ==> base.chunks[k].vector == None
  }

  ghost predicate AttemptInv(base: Db, d: DocId, m: Model, x: Exec) {
    x.doc == d && x.model == m
    && (x.pc.ClaimModel? || x.pc.WriteBatch? ==> ListsUnembedded(base, x.pc.pending))
  }

  ghost predicate AttemptsInv(w: World, base: Db, d: DocId, m: Model, s: Sys) {
    && SysInv(w, s)
    && d in base.docs && TouchedOnly(w, base, d, m, s.db)
    && forall id :: id in s.execs ==> AttemptInv(base, d, m, s.execs[id])
  }

  // ----- Steps stay within the document -----

  lemma StatusTouches(w: World, base: Db, d: DocId, m: Model, db: Db, row: DocRow)
    requires d in base.docs && TouchedOnly(w, base, d, m, db) && row.assistant == db.docs[d].assistant
    ensures TouchedOnly(w, base, d, m, db.(docs := db.docs[d := row]))
  {
    var db' := db.(docs := db.docs[d := row]);
    assert OwnsARow(db, d) ==> OwnsARow(db', d);
  }

  lemma SaveTouches(w: World, base: Db, d: DocId, m: Model, db: Db)
    requires d in base.docs && TouchedOnly(w, base, d, m, db)
    ensures TouchedOnly(w, base, d, m, SaveChunksTx(db, d, db.docs[d].assistant, Drafts(w, d)))
  {
    var a, drafts := db.docs[d].assistant, Drafts(w, d);
    InsertTouches(drafts, a, base.chunks, d, db.chunks);
    SaveKeepsOwner(db, d, a, drafts);
    hide ChunksTouched, Insert, OwnsARow, Drafts;
  }

  lemma SaveKeepsOwner(db: Db, d: DocId, a: AssistantId, drafts: seq<ChunkDraft>)
    ensures OwnsARow(db, d) ==> OwnsARow(SaveChunksTx(db, d, a, drafts), d)
  {
    InsertRows(db.chunks, d, a, drafts);
    hide Insert, First, Drafted;
    if OwnsARow(db, d) {
      var k :| k in db.chunks && db.chunks[k].owner == d;
      assert k in Insert(db.chunks, d, a, drafts) && Insert(db.chunks, d, a, drafts)[k].owner == d;
    }
  }

  lemma InsertTouches(drafts: seq<ChunkDraft>, a: AssistantId, base: Chunks, d: DocId, chunks: Chunks)
    requires ChunksTouched(drafts, a, base, d, chunks)
    ensures ChunksTouched(drafts, a, base, d, Insert(chunks, d, a, drafts))
  {
    InsertRows(chunks, d, a, drafts);
    hide Insert, First;
  }

  lemma ClaimTouches(w: World, base: Db, d: DocId, m: Model, db: Db, pending: seq<Key>)
    requires d in base.docs && TouchedOnly(w, base, d, m, db)
    requires pending != [] && Owned(db, d, pending)
    ensures TouchedOnly(w, base, d, m, ClaimTx(db, db.docs[d].assistant, m))
  {
    var db' := ClaimTx(db, db.docs[d].assistant, m);
    assert pending[0] in db'.chunks && db'.chunks[pending[0]].owner == d;
    assert OwnsARow(db', d);
  }

  lemma FillTouches(w: World, base: Db, d: DocId, m: Model, db: Db, ids: seq<Key>, db': Db)
    requires d in base.docs && TouchedOnly(w, base, d, m, db)
    requires RowsFilled(w, db, m, ids, db')
    requires ListsUnembedded(base, ids) && forall k :: k in ids ==> k in db.chunks && db.chunks[k].owner == d
    ensures TouchedOnly(w, base, d, m, db')
  {
    FillKeepsOwner(w, db, d, m, ids, db');
    FillTouchesRows(w, base, d, m, Drafts(w, d), base.docs[d].assistant, db, ids, db');
    hide ValidVector, ChunksTouched, ListsUnembedded, OwnsARow;
  }

  lemma FillKeepsOwner(w: World, db: Db, d: DocId, m: Model, ids: seq<Key>, db': Db)
    requires RowsFilled(w, db, m, ids, db')
    ensures OwnsARow(db, d) ==> OwnsARow(db', d)
  {
    hide ValidVector;
    if OwnsARow(db, d) {
      var k :| k in db.chunks && db.chunks[k].owner == d;
      assert k in db'.chunks && db'.chunks[k].owner == d;
    }
  }

  lemma FillTouchesRows(w: World, base: Db, d: DocId, m: Model, drafts: seq<ChunkDraft>, a: AssistantId,
                        db: Db, ids: seq<Key>, db': Db)
    requires ChunksTouched(drafts, a, base.chunks, d, db.chunks) && RowsFilled(w, db, m, ids, db')
    requires ListsUnembedded(base, ids) && forall k :: k in ids ==> k in db.chunks && db.chunks[k].owner == d
    ensures ChunksTouched(drafts, a, base.chunks, d, db'.chunks)
  {
    hide ValidVector, First, Drafted;
    forall k | k in base.chunks ensures k in db'.chunks && RowTouched(base.chunks[k], db'.chunks[k], d) {
      assert k in db.chunks && RowTouched(base.chunks[k], db.chunks[k], d);
    }
  }

  lemma WriteBatchTouches(w: World, base: Db, d: DocId, m: Model, db: Db, x: Exec, vectors: seq<Vector>, db': Db)
    requires d in base.docs && TouchedOnly(w, base, d, m, db) && AttemptInv(base, d, m, x)
    requires x.pc.WriteBatch? && x.pc.next < |x.pc.pending| && d in db.docs
    requires WritingInv(db, d, m, x.pc.pending, x.pc.next) && BatchWritten(w, db, x, vectors, db')
    ensures TouchedOnly(w, base, d, m, db')
  {
    var p := x.pc.pending;
    var ids := p[x.pc.next..BatchEnd(p, x.pc.next)];
    BatchFills(w, db, x, vectors, db');
    hide BatchWritten, TouchedOnly, RowsFilled;
    forall k | k in ids ensures k in db.chunks && db.chunks[k].owner == d && k in p {
      var i :| 0 <= i < |ids| && ids[i] == k;
      assert p[x.pc.next + i] == k;
    }
    FillTouches(w, base, d, m, db, ids, db');
  }

  lemma ReadPendingLists(w: World, base: Db, d: DocId, m: Model, db: Db, x: Exec, x': Exec)
    requires d in base.docs && TouchedOnly(w, base, d, m, db) && AttemptInv(base, d, m, x)
    requires x.pc.ReadPending? && ExecStep(w, db, x, db, x')
    ensures AttemptInv(base, d, m, x')
  {
    if x'.pc.ClaimModel? {
      forall k | k in x'.pc.pending && k in base.chunks ensures base.chunks[k].vector == None {
        assert k in Pending(db, d);
        assert RowTouched(base.chunks[k], db.chunks[k], d);
      }
    }
  }

  lemma ExecStepTouches(w: World, base: Db, d: DocId, m: Model, db: Db, x: Exec, db': Db, x': Exec)
    requires DbInv(w, db) && ExecInv(w, db, x) && ExecStep(w, db, x, db', x')
    requires d in base.docs && TouchedOnly(w, base, d, m, db) && AttemptInv(base, d, m, x)
    ensures TouchedOnly(w, base, d, m, db') && AttemptInv(base, d, m, x')
  {
    hide DbInv, TouchedOnly;
    assert db.docs.Keys == base.docs.Keys && db.docs[d].assistant == base.docs[d].assistant by {
      TouchedDocs(w, base, d, m, db);
    }
    match x.pc
    case ReadStatus =>
    case MarkParsing => StatusTouches(w, base, d, m, db, db'.docs[d]);
    case ReadRef =>
    case SaveParseResult => StatusTouches(w, base, d, m, db, db'.docs[d]);
    case SaveDrafts => SaveTouches(w, base, d, m, db);
    case MarkEmbedding => StatusTouches(w, base, d, m, db, db'.docs[d]);
    case ReadPending => ReadPendingLists(w, base, d, m, db, x, x');
    case ClaimModel(pending) => ClaimTouches(w, base, d, m, db, pending);
    case WriteBatch(_, _) =>
      var vectors :| BatchWritten(w, db, x, vectors, db');
      WriteBatchTouches(w, base, d, m, db, x, vectors, db');
    case MarkReady => StatusTouches(w, base, d, m, db, db'.docs[d]);
    case Done =>
    case Dead =>
  }

  lemma TouchedDocs(w: World, base: Db, d: DocId, m: Model, db: Db)
    requires d in base.docs && TouchedOnly(w, base, d, m, db)
    ensures db.docs.Keys == base.docs.Keys && db.docs[d].assistant == base.docs[d].assistant
  {
  }

  lemma NextTouches(w: World, base: Db, d: DocId, m: Model, s: Sys, act: Action, s': Sys)
    requires AttemptsInv(w, base, d, m, s) && Next(w, s, act, s') && AboutDoc(act, d, m)
    ensures AttemptsInv(w, base, d, m, s')
  {
    hide DbInv, ExecInv, TouchedOnly, ExecStep, Evolves;
    NextKeeps(w, s, act, s');
    TouchedDocs(w, base, d, m, s.db);
    match act
    case Begin(_, _, _, _) =>
    case Advance(id) =>
      ExecStepTouches(w, base, d, m, s.db, s.execs[id], s'.db, s'.execs[id]);
    case Die(_) =>
    case MarkFailed(_, _) =>
      if s'.db != s.db { StatusTouches(w, base, d, m, s.db, s'.db.docs[d]); }
    case Sweep(stale) =>
      assert s'.db == s.db.(docs := s.db.docs[d := s'.db.docs[d]]);
      StatusTouches(w, base, d, m, s.db, s'.db.docs[d]);
  }

  lemma {:induction false} AttemptsKeep(w: World, d: DocId, m: Model, s: seq<Sys>, acts: seq<Action>, i: nat)
    requires Steps(w, s, acts) && Attempts(acts, d, m) && i < |s|
    requires DbInv(w, s[0].db) && s[0].execs == map[] && d in s[0].db.docs
    ensures AttemptsInv(w, s[0].db, d, m, s[i])
    decreases i
  {
    if i > 0 {
      AttemptsKeep(w, d, m, s, acts, i - 1);
      NextTouches(w, s[0].db, d, m, s[i - 1], acts[i - 1], s[i]);
    }
  }

  // ----- READY determines the rows -----

  lemma ReadyKeys(w: World, base: Db, d: DocId, m: Model, s: Sys, k: Key)
    requires AttemptsInv(w, base, d, m, s) && s.db.docs[d].status.READY?
    ensures k in s.db.chunks <==>
              k in base.chunks || (k.assistant == base.docs[d].assistant && Drafted(Drafts(w, d), k.content))
  {
    assert DocInv(w, s.db, d);
    if k.assistant == base.docs[d].assistant && Drafted(Drafts(w, d), k.content) {
      var c :| c in Drafts(w, d) && c.content == k.content;
      assert Key(s.db.docs[d].assistant, c.content) in s.db.chunks;
    }
  }

  lemma ReadyClaims(w: World, base: Db, d: DocId, m: Model, s: Sys, t: Sys, b: AssistantId)
    requires AttemptsInv(w, base, d, m, s) && s.db.docs[d].status.READY?
    requires AttemptsInv(w, base, d, m, t) && t.db.docs[d].status.READY?
    requires b in s.db.claims
    ensures b in t.db.claims && t.db.claims[b] == s.db.claims[b]
  {
    if b !in base.claims {
      var k :| k in s.db.chunks && s.db.chunks[k].owner == d;
      ReadyKeys(w, base, d, m, s, k);
      ReadyKeys(w, base, d, m, t, k);
      assert t.db.chunks[k].owner == d by {
        if k in base.chunks {
          assert RowTouched(base.chunks[k], s.db.chunks[k], d) && RowTouched(base.chunks[k], t.db.chunks[k], d);
        }
      }
      assert DocInv(w, t.db, d) && RowInv(w, t.db, k);
    }
  }

  lemma ReadyRows(w: World, base: Db, d: DocId, m: Model, s: Sys, t: Sys, k: Key)
    requires AttemptsInv(w, base, d, m, s) && s.db.docs[d].status.READY?
    requires AttemptsInv(w, base, d, m, t) && t.db.docs[d].status.READY?
    requires Deterministic(w) && k in s.db.chunks
    ensures k in t.db.chunks && t.db.chunks[k] == s.db.chunks[k]
  {
    ReadyKeys(w, base, d, m, s, k);
    ReadyKeys(w, base, d, m, t, k);
    assert RowInv(w, s.db, k) && RowInv(w, t.db, k);
    assert DocInv(w, s.db, d) && DocInv(w, t.db, d);
    if k in base.chunks {
      assert RowTouched(base.chunks[k], s.db.chunks[k], d) && RowTouched(base.chunks[k], t.db.chunks[k], d);
    }
    if s.db.chunks[k].owner == d {
      ReadyClaims(w, base, d, m, s, t, k.assistant);
    }
  }

  lemma SameChunks(w: World, base: Db, d: DocId, m: Model, s: Sys, t: Sys)
    requires Deterministic(w)
    requires AttemptsInv(w, base, d, m, s) && s.db.docs[d].status.READY?
    requires AttemptsInv(w, base, d, m, t) && t.db.docs[d].status.READY?
    ensures s.db.chunks == t.db.chunks
  {
    hide AttemptsInv, Deterministic;
    forall k | k in s.db.chunks ensures k in t.db.chunks && t.db.chunks[k] == s.db.chunks[k] {
      ReadyRows(w, base, d, m, s, t, k);
    }
    forall k | k in t.db.chunks ensures k in s.db.chunks {
      ReadyRows(w, base, d, m, t, s, k);
    }
  }

  lemma SameClaims(w: World, base: Db, d: DocId, m: Model, s: Sys, t: Sys)
    requires AttemptsInv(w, base, d, m, s) && s.db.docs[d].status.READY?
    requires AttemptsInv(w, base, d, m, t) && t.db.docs[d].status.READY?
    ensures s.db.claims == t.db.claims
  {
    hide AttemptsInv;
    forall b | b in s.db.claims ensures b in t.db.claims && t.db.claims[b] == s.db.claims[b] {
      ReadyClaims(w, base, d, m, s, t, b);
    }
    forall b | b in t.db.claims ensures b in s.db.claims {
      ReadyClaims(w, base, d, m, t, s, b);
    }
  }

  lemma SameDocs(w: World, base: Db, d: DocId, m: Model, s: Sys, t: Sys)
    requires AttemptsInv(w, base, d, m, s) && s.db.docs[d].status.READY?
    requires AttemptsInv(w, base, d, m, t) && t.db.docs[d].status.READY?
    ensures s.db.docs == t.db.docs
  {
    assert DocInv(w, s.db, d) && DocInv(w, t.db, d);
    hide DbInv, ExecInv, AllPresent, NothingPending, ChunksTouched, ClaimsTouched, AttemptInv;
  }

  /** Two ways of getting one document to READY from the same rows end in the same
      rows: same chunks with the same vectors, page count, status, error and claim. */
  lemma ReadyIsDetermined(w: World, base: Db, d: DocId, m: Model, s: Sys, t: Sys)
    requires Deterministic(w)
    requires AttemptsInv(w, base, d, m, s) && s.db.docs[d].status.READY?
    requires AttemptsInv(w, base, d, m, t) && t.db.docs[d].status.READY?
    ensures s.db == t.db
  {
    SameChunks(w, base, d, m, s, t);
    SameClaims(w, base, d, m, s, t);
    SameDocs(w, base, d, m, s, t);
    hide AttemptsInv, Deterministic;
  }

  ghost predicate ReadyAt(s: Sys, d: DocId) {
    d in s.db.docs && s.db.docs[d].status.READY?
  }

  /** An attempt completes only with its document READY. */
  lemma CompletedMeansReady(w: World, s: Sys, id: nat, s': Sys)
    requires Next(w, s, Advance(id), s') && s'.execs[id].pc.Done?
    ensures ReadyAt(s', s.execs[id].doc)
  {
  }

  /** Crash and resume equals one clean run: any attempts at all, as soon as the
      document is READY, leave exactly the rows that one attempt run on its own leaves. */
  lemma CrashAndResumeEqualsOneRun(
    w: World, d: DocId, m: Model,
    s: seq<Sys>, acts: seq<Action>, t: seq<Sys>, clean: seq<Action>)
    requires Deterministic(w)
    requires Steps(w, s, acts) && Attempts(acts, d, m)
    requires Steps(w, t, clean) && Attempts(clean, d, m)
    requires s[0] == t[0] && DbInv(w, s[0].db) && s[0].execs == map[] && d in s[0].db.docs
    requires ReadyAt(s[|s| - 1], d) && ReadyAt(t[|t| - 1], d)
    ensures s[|s| - 1].db == t[|t| - 1].db
  {
    AttemptsKeep(w, d, m, s, acts, |acts|);
    AttemptsKeep(w, d, m, t, clean, |clean|);
    ReadyIsDetermined(w, s[0].db, d, m, s[|s| - 1], t[|t| - 1]);
  }

  // ----- One clean run exists -----

  lemma Enumerate(keys: set<Key>) returns (list: seq<Key>)
    ensures Distinct(list) && forall k :: k in list <==> k in keys
    decreases keys
  {
    if keys == {} {
      list := [];
    } else {
      var k :| k in keys;
      var rest := Enumerate(keys - {k});
      list := [k] + rest;
    }
  }

  /** Nothing outside the execution stops it: the text parses into chunks, the
      embedder has the right width, and the corpus is not claimed by another model. */
  ghost predicate Unhindered(w: World, db: Db, x: Exec, pick: Content -> Vector) {
    && DbInv(w, db) && ExecInv(w, db, x)
    && Parseable(w, x.doc) && Drafts(w, x.doc) != [] && x.dimensions == EMBEDDING_DIMENSIONS
    && (db.docs[x.doc].assistant in db.claims ==> db.claims[db.docs[x.doc].assistant] == x.model)
    && (forall c :: ValidVector(pick(c)) && w.produces(x.model, c, pick(c)))
    && (x.pc.WriteBatch? ==> x.pc.next < |x.pc.pending|)
    && !x.pc.Done? && !x.pc.Dead?
  }

  function Remaining(pc: Pc): nat {
    match pc
    case ReadStatus => 10
    case MarkParsing => 9
    case ReadRef => 8
    case SaveParseResult => 7
    case SaveDrafts => 6
    case MarkEmbedding => 5
    case ReadPending => 4
    case ClaimModel(_) => 3
    case WriteBatch(_, _) => 2
    case MarkReady => 1
    case Done => 0
    case Dead => 0
  }

  function BatchesLeft(pc: Pc): nat {
    if pc.WriteBatch? && pc.next <= |pc.pending| then |pc.pending| - pc.next else 0
  }

  lemma ReadPendingExists(w: World, db: Db, x: Exec) returns (x': Exec)
    requires x.doc in db.docs && x.pc.ReadPending? && x.dimensions == EMBEDDING_DIMENSIONS
    ensures ExecStep(w, db, x, db, x') && (x'.pc.MarkReady? || x'.pc.ClaimModel?)
  {
    var list := Enumerate(Pending(db, x.doc));
    if list == [] {
      assert Pending(db, x.doc) == {};
      x' := x.(pc := MarkReady);
    } else {
      assert list[0] in Pending(db, x.doc);
      x' := x.(pc := ClaimModel(list));
    }
  }

  lemma WriteBatchExists(w: World, db: Db, x: Exec, pick: Content -> Vector) returns (db': Db)
    requires x.pc.WriteBatch? && x.pc.next < |x.pc.pending|
    requires forall c :: ValidVector(pick(c)) && w.produces(x.model, c, pick(c))
    ensures (exists vectors :: BatchWritten(w, db, x, vectors, db')) && db'.docs == db.docs
  {
    hide ValidVector;
    var ids := x.pc.pending[x.pc.next..BatchEnd(x.pc.pending, x.pc.next)];
    var vectors := seq(|ids|, i requires 0 <= i < |ids| => pick(ids[i].content));
    db' := SetEmbeddingsTx(db, ids, vectors);
    forall i | 0 <= i < |ids| ensures ValidVector(vectors[i]) && w.produces(x.model, ids[i].content, vectors[i]) {
      assert vectors[i] == pick(ids[i].content);
    }
    assert BatchWritten(w, db, x, vectors, db');
  }

  /** Closer to the end. */
  ghost predicate Nearer(pc: Pc, pc': Pc) {
    && (Remaining(pc') < Remaining(pc) || (Remaining(pc') == Remaining(pc) && BatchesLeft(pc') < BatchesLeft(pc)))
    && (pc'.WriteBatch? ==> pc'.next < |pc'.pending|)
    && !pc'.Dead?
  }

  lemma ParsingStepExists(w: World, db: Db, x: Exec, pick: Content -> Vector) returns (db': Db, x': Exec)
    requires Unhindered(w, db, x, pick) && Remaining(x.pc) >= 5
    ensures ExecStep(w, db, x, db', x') && Nearer(x.pc, x'.pc) && db'.docs.Keys == db.docs.Keys
  {
    hide DbInv, ValidVector, Insert, AllPresent;
    db', x' := db, x;
    match x.pc
    case ReadStatus => x' := x.(pc := AfterStatus(Rank(db.docs[x.doc].status)));
    case MarkParsing => db', x' := SetStatusTx(db, x.doc, PARSING), x.(pc := ReadRef);
    case ReadRef => x' := x.(pc := SaveParseResult);
    case SaveParseResult =>
      db' := SetParseResultTx(db, x.doc, w.parse(x.doc).pageCount, w.parse(x.doc).warnings);
      x' := x.(pc := SaveDrafts);
    case SaveDrafts =>
      db' := SaveChunksTx(db, x.doc, db.docs[x.doc].assistant, Drafts(w, x.doc));
      x' := x.(pc := MarkEmbedding);
    case MarkEmbedding => db', x' := SetStatusTx(db, x.doc, EMBEDDING), x.(pc := ReadPending);
    case _ =>
  }

  lemma EmbeddingStepExists(w: World, db: Db, x: Exec, pick: Content -> Vector) returns (db': Db, x': Exec)
    requires Unhindered(w, db, x, pick) && Remaining(x.pc) < 5
    ensures ExecStep(w, db, x, db', x') && Nearer(x.pc, x'.pc) && db'.docs.Keys == db.docs.Keys
  {
    hide DbInv, ValidVector, BatchWritten, AllPresent, WritingInv, Owned;
    db', x' := db, x;
    match x.pc
    case ReadPending => x' := ReadPendingExists(w, db, x);
    case ClaimModel(pending) =>
      db', x' := ClaimTx(db, db.docs[x.doc].assistant, x.model), x.(pc := WriteBatch(pending, 0));
    case WriteBatch(pending, next) =>
      db' := WriteBatchExists(w, db, x, pick);
      x' := x.(pc := AfterBatch(pending, BatchEnd(pending, next)));
    case MarkReady => db', x' := SetStatusTx(db, x.doc, READY), x.(pc := Done);
    case _ =>
  }

  /** An unhindered execution can always do its next transaction. */
  lemma StepExists(w: World, db: Db, x: Exec, pick: Content -> Vector) returns (db': Db, x': Exec)
    requires Unhindered(w, db, x, pick)
    ensures ExecStep(w, db, x, db', x') && Nearer(x.pc, x'.pc)
  {
    if Remaining(x.pc) >= 5 {
      db', x' := ParsingStepExists(w, db, x, pick);
    } else {
      db', x' := EmbeddingStepExists(w, db, x, pick);
    }
  }

  /** Whichever transaction it does, it stays unhindered. */
  lemma UnhinderedStays(w: World, db: Db, x: Exec, db': Db, x': Exec, pick: Content -> Vector)
    requires Unhindered(w, db, x, pick) && ExecStep(w, db, x, db', x')
    ensures x'.pc.Done? || Unhindered(w, db', x', pick)
  {
    ExecStepKeeps(w, db, x, db', x');
    ClaimStays(w, db, x, db', x');
    StepIsOrderly(w, db, x, db', x');
    hide ExecStep, DbInv, ExecInv, ValidVector, Drafts, Evolves;
  }

  lemma StepIsOrderly(w: World, db: Db, x: Exec, db': Db, x': Exec)
    requires ExecStep(w, db, x, db', x') && ExecInv(w, db, x)
    ensures !x'.pc.Dead? && (x'.pc.WriteBatch? ==> x'.pc.next < |x'.pc.pending|)
  {
    hide Insert, BatchWritten, AllPresent, Recorded, NothingPending, IsPendingList, Owned, StillListed, WritingInv;
  }

  lemma ClaimStays(w: World, db: Db, x: Exec, db': Db, x': Exec)
    requires ExecStep(w, db, x, db', x') && DbInv(w, db) && ExecInv(w, db, x)
    requires db.docs[x.doc].assistant in db.claims ==> db.claims[db.docs[x.doc].assistant] == x.model
    ensures x.doc in db'.docs && x'.doc == x.doc && x'.model == x.model && x'.dimensions == x.dimensions
    ensures db'.docs[x.doc].assistant in db'.claims ==> db'.claims[db'.docs[x.doc].assistant] == x.model
  {
    hide DbInv, ExecInv, Insert, WriteVectors, GoodVectors, IsPendingList;
  }

  /** Left alone, an execution gets its document to READY. */
  lemma {:induction false} UnhinderedCompletes(w: World, s: Sys, id: nat, pick: Content -> Vector)
      returns (run: seq<Sys>, acts: seq<Action>)
    requires id in s.execs && s.execs == map[id := s.execs[id]] && Unhindered(w, s.db, s.execs[id], pick)
    ensures Steps(w, run, acts) && run[0] == s && ReadyAt(run[|run| - 1], s.execs[id].doc)
    ensures forall i :: 0 <= i < |acts| ==> acts[i] == Advance(id)
    decreases Remaining(s.execs[id].pc), BatchesLeft(s.execs[id].pc)
  {
    var x := s.execs[id];
    var db', x' := StepExists(w, s.db, x, pick);
    UnhinderedStays(w, s.db, x, db', x', pick);
    hide Unhindered;
    var s' := Sys(db', map[id := x']);
    assert Next(w, s, Advance(id), s');
    assert x'.doc == x.doc;
    if x'.pc.Done? {
      CompletedMeansReady(w, s, id, s');
      run, acts := [s, s'], [Advance(id)];
    } else {
      hide ExecStep, Next;
      var rest, more := UnhinderedCompletes(w, s', id, pick);
      run, acts := [s] + rest, [Advance(id)] + more;
      forall i | 0 <= i < |acts| ensures Next(w, run[i], acts[i], run[i + 1]) {
        if i > 0 { assert Next(w, rest[i - 1], more[i - 1], rest[i]); }
      }
    }
  }

  /** How many transactions an execution can still do at most. */
  function Budget(w: World, db: Db, x: Exec): nat {
    match x.pc
    case MarkEmbedding => 5 + |db.chunks|
    case ReadPending => 4 + |db.chunks|
    case ClaimModel(pending) => 3 + |pending|
    case WriteBatch(_, _) => 2 + BatchesLeft(x.pc)
    case MarkReady => 1
    case Done => 0
    case Dead => 0
    case _ => Remaining(x.pc) + |db.chunks| + |Drafts(w, x.doc)|
  }

  lemma {:induction false} InsertAtMost(chunks: Chunks, d: DocId, a: AssistantId, drafts: seq<ChunkDraft>)
    ensures |Insert(chunks, d, a, drafts)| <= |chunks| + |drafts|
    decreases drafts
  {
    if drafts != [] {
      var k := Key(a, drafts[0].content);
      InsertAtMost(if k in chunks then chunks else chunks[k := ChunkRow(d, drafts[0], None)], d, a, drafts[1..]);
    }
  }

  lemma {:induction false} DistinctFit(list: seq<Key>, keys: set<Key>)
    requires Distinct(list) && forall k :: k in list ==> k in keys
    ensures |list| <= |keys|
    decreases list
  {
    if list != [] {
      assert forall k :: k in list[1..] ==> k != list[0];
      DistinctFit(list[1..], keys - {list[0]});
    }
  }

  /** Every transaction spends some of it. */
  lemma StepSpends(w: World, db: Db, x: Exec, db': Db, x': Exec)
    requires ExecStep(w, db, x, db', x')
    ensures Budget(w, db', x') < Budget(w, db, x)
  {
    hide Insert, BatchWritten;
    if x.pc.SaveDrafts? { InsertAtMost(db.chunks, x.doc, db.docs[x.doc].assistant, Drafts(w, x.doc)); }
    if x.pc.ReadPending? && x'.pc.ClaimModel? {
      DistinctFit(x'.pc.pending, Pending(db, x.doc));
      PendingFits(db, x.doc);
    }
  }

  lemma PendingFits(db: Db, d: DocId)
    ensures |Pending(db, d)| <= |db.chunks|
  {
    assert Pending(db, d) <= db.chunks.Keys;
    KeysGrow(Pending(db, d), db.chunks.Keys);
  }

  /** What holds after some steps of an execution that runs alone. */
  ghost predicate OnItsWay(w: World, s: Sys, id: nat, d: DocId, pick: Content -> Vector) {
    && id in s.execs && s.execs == map[id := s.execs[id]] && s.execs[id].doc == d
    && (Unhindered(w, s.db, s.execs[id], pick) || (s.execs[id].pc.Done? && ReadyAt(s, d)))
  }

  lemma AloneOneStep(w: World, s: Sys, id: nat, s': Sys, d: DocId, pick: Content -> Vector)
    requires OnItsWay(w, s, id, d, pick) && Next(w, s, Advance(id), s')
    ensures OnItsWay(w, s', id, d, pick) && Budget(w, s'.db, s'.execs[id]) < Budget(w, s.db, s.execs[id])
  {
    var x, x' := s.execs[id], s'.execs[id];
    StepSpends(w, s.db, x, s'.db, x');
    assert !x.pc.Done?;
    UnhinderedStays(w, s.db, x, s'.db, x', pick);
    if x'.pc.Done? { CompletedMeansReady(w, s, id, s'); }
    assert x'.doc == x.doc;
    hide ExecStep, Unhindered, Budget;
    assert s'.execs == map[id := x'];
  }

  /** Whatever it does, an unhindered execution that runs alone stops after a bounded
      number of transactions, and it stops only with its document READY. */
  lemma {:induction false} EveryLoneRunEndsReady(w: World, s: seq<Sys>, acts: seq<Action>, id: nat, pick: Content -> Vector, n: nat)
    requires Steps(w, s, acts) && (forall i :: 0 <= i < |acts| ==> acts[i] == Advance(id)) && n <= |acts|
    requires id in s[0].execs && s[0].execs == map[id := s[0].execs[id]] && Unhindered(w, s[0].db, s[0].execs[id], pick)
    ensures OnItsWay(w, s[n], id, s[0].execs[id].doc, pick)
    ensures n + Budget(w, s[n].db, s[n].execs[id]) <= Budget(w, s[0].db, s[0].execs[id])
    ensures (forall s' :: !Next(w, s[n], Advance(id), s')) ==> ReadyAt(s[n], s[0].execs[id].doc)
    decreases n
  {
    hide Next, Budget, Unhindered;
    if n > 0 {
      EveryLoneRunEndsReady(w, s, acts, id, pick, n - 1);
      assert Next(w, s[n - 1], acts[n - 1], s[n]);
      AloneOneStep(w, s[n - 1], id, s[n], s[0].execs[id].doc, pick);
    }
    if Unhindered(w, s[n].db, s[n].execs[id], pick) { GoesOn(w, s[n], id, pick); }
  }

  lemma GoesOn(w: World, s: Sys, id: nat, pick: Content -> Vector)
    requires id in s.execs && s.execs == map[id := s.execs[id]] && Unhindered(w, s.db, s.execs[id], pick)
    ensures exists s' :: Next(w, s, Advance(id), s')
  {
    var db', x' := StepExists(w, s.db, s.execs[id], pick);
    hide Unhindered, ExecStep;
    assert Next(w, s, Advance(id), Sys(db', map[id := x']));
  }

  /** From any rows, one attempt on a parseable document that nothing hinders
      completes; with the lemma above, every other way to READY ends in its rows. */
  lemma CleanRunExists(w: World, base: Db, d: DocId, m: Model, pick: Content -> Vector)
      returns (run: seq<Sys>, acts: seq<Action>)
    requires DbInv(w, base) && d in base.docs && Parseable(w, d) && Drafts(w, d) != []
    requires base.docs[d].assistant in base.claims ==> base.claims[base.docs[d].assistant] == m
    requires forall c :: ValidVector(pick(c)) && w.produces(m, c, pick(c))
    ensures Steps(w, run, acts) && Attempts(acts, d, m)
    ensures run[0] == Sys(base, map[]) && ReadyAt(run[|run| - 1], d)
  {
    var x := Exec(d, m, EMBEDDING_DIMENSIONS, ReadStatus);
    var s := Sys(base, map[0 := x]);
    var rest, more := UnhinderedCompletes(w, s, 0, pick);
    run, acts := [Sys(base, map[])] + rest, [Begin(0, d, m, EMBEDDING_DIMENSIONS)] + more;
    assert Next(w, run[0], acts[0], run[1]);
    hide Next;
    forall i | 0 <= i < |acts| ensures Next(w, run[i], acts[i], run[i + 1]) && AboutDoc(acts[i], d, m) {
      if i > 0 { assert Next(w, rest[i - 1], more[i - 1], rest[i]); }
    }
  }
}
