/** Safety of the ingestion protocol in every interleaving. */
module IngestSafety {
  import opened Common
  import opened Corpus
  import opened IngestProtocol

  // ----- One transaction -----

  lemma StatusStep(w: World, db: Db, x: Exec, status: Status)
    requires DbInv(w, db) && x.doc in db.docs
    requires status.EMBEDDING? || status.READY? ==> AllPresent(w, db, x.doc) && Recorded(w, db, x.doc)
    requires status.READY? ==> NothingPending(db, x.doc)
    ensures var db' := SetStatusTx(db, x.doc, status); DbInv(w, db') && Evolves(w, db, db')
  {
    var row := db.docs[x.doc].(status := status, error := None);
    DocWriteKeeps(w, db, x.doc, row);
  }

  lemma ParseResultStep(w: World, db: Db, x: Exec)
    requires DbInv(w, db) && x.doc in db.docs && Parseable(w, x.doc)
    ensures var db' := SetParseResultTx(db, x.doc, w.parse(x.doc).pageCount, w.parse(x.doc).warnings);
            DbInv(w, db') && Evolves(w, db, db') && Recorded(w, db', x.doc)
  {
    assert DocInv(w, db, x.doc);
    DocWriteKeeps(w, db, x.doc,
      db.docs[x.doc].(pageCount := Some(w.parse(x.doc).pageCount), warnings := w.parse(x.doc).warnings));
  }

  /** db' is db with new rows, unembedded, for drafts of document d. */
  ghost predicate RowsAdded(w: World, db: Db, d: DocId, db': Db)
    requires d in db.docs
  {
    && db'.docs == db.docs && db'.claims == db.claims
    && (forall k :: k in db.chunks ==> k in db'.chunks && db'.chunks[k] == db.chunks[k])
    && (forall k :: k in db'.chunks && k !in db.chunks ==>
          var row := db'.chunks[k];
          k.assistant == db.docs[d].assistant && row.owner == d && row.vector == None
          && row.draft in Drafts(w, d) && row.draft.content == k.content)
  }

  lemma RowsAddedKeeps(w: World, db: Db, d: DocId, db': Db)
    requires DbInv(w, db) && d in db.docs && RowsAdded(w, db, d, db')
    ensures DbInv(w, db')
    ensures AllPresent(w, db, d) ==> db'.chunks == db.chunks
    ensures Evolves(w, db, db')
  {
    if AllPresent(w, db, d) {
      forall k | k in db'.chunks ensures k in db.chunks {
        var content := db'.chunks[k].draft.content;
        assert k in db.chunks || Key(db.docs[d].assistant, content) == k;
      }
    }
    forall k | k in db'.chunks ensures RowInv(w, db', k) {
      if k in db.chunks { assert RowInv(w, db, k); }
    }
    forall e | e in db'.docs ensures DocInv(w, db', e) {
      assert DocInv(w, db, e);
      AllPresentLasts(w, db, db', e);
      if e != d || AllPresent(w, db, e) {
        NothingPendingLasts(db, db', e);
      }
    }
  }

  lemma SaveDraftsStep(w: World, db: Db, x: Exec)
    requires DbInv(w, db) && x.doc in db.docs && Parseable(w, x.doc) && Drafts(w, x.doc) != []
    ensures var db' := SaveChunksTx(db, x.doc, db.docs[x.doc].assistant, Drafts(w, x.doc));
            DbInv(w, db') && Evolves(w, db, db') && AllPresent(w, db', x.doc) && RowsAdded(w, db, x.doc, db')
  {
    hide DbInv, Evolves;
    InsertRows(db.chunks, x.doc, db.docs[x.doc].assistant, Drafts(w, x.doc));
    RowsAddedKeeps(w, db, x.doc, SaveChunksTx(db, x.doc, db.docs[x.doc].assistant, Drafts(w, x.doc)));
  }

  lemma ClaimStep(w: World, db: Db, x: Exec)
    requires DbInv(w, db) && x.doc in db.docs
    ensures var db' := ClaimTx(db, db.docs[x.doc].assistant, x.model); DbInv(w, db') && Evolves(w, db, db')
  {
    var db' := ClaimTx(db, db.docs[x.doc].assistant, x.model);
    forall k | k in db'.chunks ensures RowInv(w, db', k) { assert RowInv(w, db, k); }
    forall d | d in db'.docs ensures DocInv(w, db', d) {
      assert DocInv(w, db, d);
      assert NothingPending(db, d) ==> NothingPending(db', d);
    }
  }

  /** db' is db with the named rows' vectors replaced by vectors of the model. */
  ghost predicate RowsFilled(w: World, db: Db, model: Model, ids: seq<Key>, db': Db) {
    && db'.docs == db.docs && db'.claims == db.claims && db'.chunks.Keys == db.chunks.Keys
    && (forall k :: k in db.chunks && k !in ids ==> db'.chunks[k] == db.chunks[k])
    && (forall k :: k in db.chunks && k in ids ==>
          var row := db'.chunks[k];
          row.owner == db.chunks[k].owner && row.draft == db.chunks[k].draft
          && row.vector.Some? && ValidVector(row.vector.value) && w.produces(model, k.content, row.vector.value))
  }

  lemma RowsFilledKeeps(w: World, db: Db, model: Model, a: AssistantId, ids: seq<Key>, db': Db)
    requires DbInv(w, db) && RowsFilled(w, db, model, ids, db')
    requires forall k :: k in db.chunks && k in ids ==> k.assistant == a
    requires a in db.claims && db.claims[a] == model
    ensures DbInv(w, db') && Evolves(w, db, db')
  {
    RowsFilledEvolves(w, db, model, ids, db');
    hide ValidVector, Evolves;
    forall k | k in db'.chunks ensures RowInv(w, db', k) {
      assert RowInv(w, db, k);
    }
    forall d | d in db'.docs ensures DocInv(w, db', d) {
      assert DocInv(w, db, d);
      AllPresentLasts(w, db, db', d);
      NothingPendingLasts(db, db', d);
      hide AllPresent, NothingPending, RowInv;
    }
    hide AllPresent, NothingPending, RowInv, DocInv, RowsFilled;
  }

  lemma RowsFilledEvolves(w: World, db: Db, model: Model, ids: seq<Key>, db': Db)
    requires RowsFilled(w, db, model, ids, db')
    ensures Evolves(w, db, db')
  {
    hide ValidVector, AllPresent;
  }

  lemma BatchFills(w: World, db: Db, x: Exec, vectors: seq<Vector>, db': Db)
    requires x.pc.WriteBatch? && x.pc.next < |x.pc.pending| && Distinct(x.pc.pending)
    requires BatchWritten(w, db, x, vectors, db')
    ensures RowsFilled(w, db, x.model, x.pc.pending[x.pc.next..BatchEnd(x.pc.pending, x.pc.next)], db')
  {
    var ids := x.pc.pending[x.pc.next..BatchEnd(x.pc.pending, x.pc.next)];
    WriteRows(db.chunks, ids, vectors);
  }

  lemma FillAdvances(w: World, db: Db, d: DocId, model: Model, p: seq<Key>, i: nat, j: nat, db': Db)
    requires d in db.docs && WritingInv(db, d, model, p, i) && i <= j <= |p|
    requires RowsFilled(w, db, model, p[i..j], db')
    ensures WritingInv(db', d, model, p, j)
  {
    hide ValidVector;
    assert p[i..] == p[i..j] + p[j..];
    forall k | k in Pending(db', d) ensures k in p[j..] {
      assert k !in p[i..j] && k in Pending(db, d);
    }
  }

  lemma OwnedShareTheAssistant(w: World, db: Db, d: DocId, p: seq<Key>)
    requires DbInv(w, db) && d in db.docs && Owned(db, d, p)
    ensures forall k :: k in db.chunks && k in p ==> k.assistant == db.docs[d].assistant
  {
    forall k | k in db.chunks && k in p ensures k.assistant == db.docs[d].assistant {
      assert RowInv(w, db, k);
    }
  }

  lemma WriteBatchStep(w: World, db: Db, x: Exec, vectors: seq<Vector>, db': Db)
    requires DbInv(w, db) && x.doc in db.docs && x.pc.WriteBatch? && x.pc.next < |x.pc.pending|
    requires WritingInv(db, x.doc, x.model, x.pc.pending, x.pc.next)
    requires BatchWritten(w, db, x, vectors, db')
    ensures DbInv(w, db') && Evolves(w, db, db') && db'.docs == db.docs
    ensures WritingInv(db', x.doc, x.model, x.pc.pending, BatchEnd(x.pc.pending, x.pc.next))
  {
    hide DbInv, Evolves, BatchWritten, ValidVector;
    var p, i := x.pc.pending, x.pc.next;
    var j := BatchEnd(p, i);
    BatchFills(w, db, x, vectors, db');
    OwnedShareTheAssistant(w, db, x.doc, p);
    FillAdvances(w, db, x.doc, x.model, p, i, j, db');
    hide WritingInv;
    assert forall k :: k in p[i..j] ==> k in p;
    RowsFilledKeeps(w, db, x.model, db.docs[x.doc].assistant, p[i..j], db');
  }

  lemma NothingLeft(db: Db, d: DocId, keys: seq<Key>)
    requires StillListed(db, d, keys) && keys == []
    ensures NothingPending(db, d)
  {
    forall k | k in db.chunks && db.chunks[k].owner == d ensures db.chunks[k].vector.Some? {
      assert k !in Pending(db, d);
    }
  }

  lemma ReadPendingStep(w: World, db: Db, x: Exec, x': Exec)
    requires DbInv(w, db) && ExecInv(w, db, x) && x.pc.ReadPending? && ExecStep(w, db, x, db, x')
    ensures ExecInv(w, db, x')
  {
    if x'.pc.ClaimModel? {
      var p := x'.pc.pending;
      forall i | 0 <= i < |p| ensures p[i] in db.chunks && db.chunks[p[i]].owner == x.doc {
        assert p[i] in Pending(db, x.doc);
      }
    } else {
      forall k | k in db.chunks && db.chunks[k].owner == x.doc ensures db.chunks[k].vector.Some? {
        assert k !in Pending(db, x.doc);
      }
    }
  }

  ghost predicate KeptBy(w: World, db: Db, db': Db, x': Exec) {
    DbInv(w, db') && ExecInv(w, db', x') && Evolves(w, db, db')
  }

  lemma ReadStatusKeeps(w: World, db: Db, x: Exec, db': Db, x': Exec)
    requires x.pc.ReadStatus? && DbInv(w, db) && ExecInv(w, db, x) && ExecStep(w, db, x, db', x')
    ensures KeptBy(w, db, db', x')
  {
    NothingDone(w, db);
    assert DocInv(w, db, x.doc);
    hide DbInv, Evolves, AllPresent, Recorded, NothingPending;
  }

  lemma StatusKeeps(w: World, db: Db, x: Exec, db': Db, x': Exec)
    requires x.pc.MarkParsing? || x.pc.MarkEmbedding? || x.pc.MarkReady?
    requires DbInv(w, db) && ExecInv(w, db, x) && ExecStep(w, db, x, db', x')
    ensures KeptBy(w, db, db', x')
  {
    hide DbInv, Evolves;
    StatusStep(w, db, x, if x.pc.MarkParsing? then PARSING else if x.pc.MarkEmbedding? then EMBEDDING else READY);
  }

  lemma SavingKeeps(w: World, db: Db, x: Exec, db': Db, x': Exec)
    requires x.pc.ReadRef? || x.pc.SaveParseResult? || x.pc.SaveDrafts?
    requires DbInv(w, db) && ExecInv(w, db, x) && ExecStep(w, db, x, db', x')
    ensures KeptBy(w, db, db', x')
  {
    hide DbInv, Evolves, Insert;
    if x.pc.ReadRef? { NothingDone(w, db); }
    if x.pc.SaveParseResult? { ParseResultStep(w, db, x); }
    if x.pc.SaveDrafts? { SaveDraftsStep(w, db, x); }
  }

  lemma ClaimingKeeps(w: World, db: Db, x: Exec, db': Db, x': Exec)
    requires x.pc.ReadPending? || x.pc.ClaimModel?
    requires DbInv(w, db) && ExecInv(w, db, x) && ExecStep(w, db, x, db', x')
    ensures KeptBy(w, db, db', x')
  {
    hide DbInv, Evolves;
    if x.pc.ReadPending? {
      NothingDone(w, db);
      ReadPendingStep(w, db, x, x');
    } else {
      ClaimStep(w, db, x);
      assert x.pc.pending[0..] == x.pc.pending;
      assert AllPresent(w, db', x.doc) && Recorded(w, db', x.doc);
      assert Pending(db', x.doc) == Pending(db, x.doc);
    }
  }

  lemma WritingKeeps(w: World, db: Db, x: Exec, db': Db, x': Exec)
    requires x.pc.WriteBatch? && DbInv(w, db) && ExecInv(w, db, x) && ExecStep(w, db, x, db', x')
    ensures KeptBy(w, db, db', x')
  {
    hide DbInv, WritingInv, BatchWritten;
    var vectors :| BatchWritten(w, db, x, vectors, db');
    WriteBatchStep(w, db, x, vectors, db');
    AllPresentLasts(w, db, db', x.doc);
    if x'.pc.MarkReady? { AllWritten(db', x.doc, x.model, x.pc.pending, BatchEnd(x.pc.pending, x.pc.next)); }
    hide Evolves, AllPresent, NothingPending;
  }

  lemma AllWritten(db: Db, d: DocId, model: Model, pending: seq<Key>, next: nat)
    requires d in db.docs && WritingInv(db, d, model, pending, next) && next == |pending|
    ensures NothingPending(db, d)
  {
    NothingLeft(db, d, pending[next..]);
  }

  /** Each transaction of an execution keeps the invariant of the rows and of the execution itself. */
  lemma ExecStepKeeps(w: World, db: Db, x: Exec, db': Db, x': Exec)
    requires DbInv(w, db) && ExecInv(w, db, x) && ExecStep(w, db, x, db', x')
    ensures DbInv(w, db') && ExecInv(w, db', x') && Evolves(w, db, db')
  {
    StepKeeps(w, db, x, db', x');
    hide DbInv, ExecInv, Evolves, ExecStep;
  }

  lemma StepKeeps(w: World, db: Db, x: Exec, db': Db, x': Exec)
    requires DbInv(w, db) && ExecInv(w, db, x) && ExecStep(w, db, x, db', x')
    ensures KeptBy(w, db, db', x')
  {
    assert !x.pc.Done? && !x.pc.Dead?;
    hide DbInv, ExecInv, KeptBy, ExecStep;
    match x.pc
    case ReadStatus => ReadStatusKeeps(w, db, x, db', x');
    case MarkParsing => StatusKeeps(w, db, x, db', x');
    case ReadRef => SavingKeeps(w, db, x, db', x');
    case SaveParseResult => SavingKeeps(w, db, x, db', x');
    case SaveDrafts => SavingKeeps(w, db, x, db', x');
    case MarkEmbedding => StatusKeeps(w, db, x, db', x');
    case ReadPending => ClaimingKeeps(w, db, x, db', x');
    case ClaimModel(_) => ClaimingKeeps(w, db, x, db', x');
    case WriteBatch(_, _) => WritingKeeps(w, db, x, db', x');
    case MarkReady => StatusKeeps(w, db, x, db', x');
  }

  // ----- One step of the system -----

  lemma UploadKeeps(w: World, db: Db, d: DocId, a: AssistantId)
    requires DbInv(w, db) && d !in db.docs
    ensures var db' := UploadTx(db, d, a); DbInv(w, db') && Evolves(w, db, db')
  {
    var db' := UploadTx(db, d, a);
    forall e | e in db'.docs ensures DocInv(w, db', e) {
      if e != d {
        assert DocInv(w, db, e);
        assert AllPresent(w, db, e) ==> AllPresent(w, db', e);
        assert NothingPending(db, e) ==> NothingPending(db', e);
      }
    }
    forall k | k in db'.chunks ensures RowInv(w, db', k) { assert RowInv(w, db, k); }
  }

  lemma MarkFailedKeeps(w: World, db: Db, d: DocId, error: string)
    requires DbInv(w, db)
    ensures var db' := MarkFailedTx(db, d, error); DbInv(w, db') && Evolves(w, db, db')
  {
    if d in db.docs && db.docs[d].status != READY {
      DocWriteKeeps(w, db, d, db.docs[d].(status := FAILED, error := Some(error)));
    }
  }

  lemma SweepKeeps(w: World, db: Db, stale: set<DocId>)
    requires DbInv(w, db)
    ensures var db' := SweepTx(db, stale); DbInv(w, db') && Evolves(w, db, db')
  {
    var db' := SweepTx(db, stale);
    forall e | e in db'.docs ensures DocInv(w, db', e) {
      assert DocInv(w, db, e);
      assert AllPresent(w, db, e) ==> AllPresent(w, db', e);
      assert NothingPending(db, e) ==> NothingPending(db', e);
    }
    forall k | k in db'.chunks ensures RowInv(w, db', k) { assert RowInv(w, db, k); }
  }

  lemma NextKeepsRows(w: World, s: Sys, act: Action, s': Sys)
    requires SysInv(w, s) && Next(w, s, act, s')
    ensures DbInv(w, s'.db) && Evolves(w, s.db, s'.db)
    ensures act.Advance? ==> act.id in s'.execs && ExecInv(w, s'.db, s'.execs[act.id])
  {
    hide ExecStep, DbInv, ExecInv;
    match act
    case Upload(d, a) => UploadKeeps(w, s.db, d, a);
    case Begin(_, _, _, _) =>
    case Advance(id) => ExecStepKeeps(w, s.db, s.execs[id], s'.db, s'.execs[id]);
    case Die(_) =>
    case MarkFailed(d, error) => MarkFailedKeeps(w, s.db, d, error);
    case Sweep(stale) => SweepKeeps(w, s.db, stale);
  }

  lemma NextKeeps(w: World, s: Sys, act: Action, s': Sys)
    requires SysInv(w, s) && Next(w, s, act, s')
    ensures SysInv(w, s') && Evolves(w, s.db, s'.db)
  {
    hide ExecStep, DbInv, Evolves;
    NextKeepsRows(w, s, act, s');
    forall id | id in s'.execs ensures ExecInv(w, s'.db, s'.execs[id]) {
      if act.Advance? && id == act.id {
      } else if id in s.execs {
        OthersKeepExecInv(w, s.db, s'.db, s.execs[id]);
      }
    }
  }

  // ----- Whole runs -----

  lemma {:induction false} StepsKeep(w: World, s: seq<Sys>, acts: seq<Action>, i: nat)
    requires Steps(w, s, acts) && SysInv(w, s[0]) && i < |s|
    ensures SysInv(w, s[i])
    decreases i
  {
    if i > 0 {
      StepsKeep(w, s, acts, i - 1);
      NextKeeps(w, s[i - 1], acts[i - 1], s[i]);
    }
  }

  lemma RunKeeps(w: World, s: seq<Sys>, acts: seq<Action>, i: nat)
    requires IsRun(w, s, acts) && i < |s|
    ensures SysInv(w, s[i])
  {
    StepsKeep(w, s, acts, i);
  }

  /** In every interleaving, a status is a promise about the corpus: EMBEDDING and
      READY mean that every chunk of the document has a row, READY that no row the
      document owns lacks a vector; and only FAILED carries an error. */
  lemma StatusIsAPromise(w: World, s: seq<Sys>, acts: seq<Action>, i: nat, d: DocId)
    requires IsRun(w, s, acts) && i < |s| && d in s[i].db.docs
    ensures var db := s[i].db; var row := db.docs[d];
            && (row.status.EMBEDDING? || row.status.READY? ==>
                  && Drafts(w, d) != []
                  && (forall c :: c in Drafts(w, d) ==> Key(row.assistant, c.content) in db.chunks)
                  && row.pageCount == Some(w.parse(d).pageCount))
            && (row.status.READY? ==>
                  forall k :: k in db.chunks && db.chunks[k].owner == d ==> db.chunks[k].vector.Some?)
            && (row.error.Some? ==> row.status.FAILED?)
  {
    RunKeeps(w, s, acts, i);
    assert DocInv(w, s[i].db, d);
  }

  /** Whenever all documents of an assistant are READY, every chunk of each of them
      has its one row, and that row is embedded, whichever document owns it. */
  lemma CorpusIsComplete(w: World, s: seq<Sys>, acts: seq<Action>, i: nat, a: AssistantId, d: DocId, c: ChunkDraft)
    requires IsRun(w, s, acts) && i < |s|
    requires forall e :: e in s[i].db.docs && s[i].db.docs[e].assistant == a ==> s[i].db.docs[e].status.READY?
    requires d in s[i].db.docs && s[i].db.docs[d].assistant == a && c in Drafts(w, d)
    ensures Key(a, c.content) in s[i].db.chunks
    ensures s[i].db.chunks[Key(a, c.content)].vector.Some?
  {
    var db := s[i].db;
    RunKeeps(w, s, acts, i);
    assert DocInv(w, db, d);
    var k := Key(a, c.content);
    assert RowInv(w, db, k);
    assert DocInv(w, db, db.chunks[k].owner);
  }

  /** One vector space per corpus: every stored vector is a full-width finite vector
      that the assistant's claimed model produced for that very content. */
  lemma OneVectorSpace(w: World, s: seq<Sys>, acts: seq<Action>, i: nat, k: Key)
    requires IsRun(w, s, acts) && i < |s| && k in s[i].db.chunks && s[i].db.chunks[k].vector.Some?
    ensures var v := s[i].db.chunks[k].vector.value;
            && k.assistant in s[i].db.claims
            && |v| == 1536 && (forall c :: 0 <= c < |v| ==> v[c].Finite?)
            && w.produces(s[i].db.claims[k.assistant], k.content, v)
  {
    RunKeeps(w, s, acts, i);
    assert RowInv(w, s[i].db, k);
  }

  lemma EvolvesOn(w: World, a: Db, b: Db, c: Db)
    requires Evolves(w, a, b) && Evolves(w, b, c)
    ensures Evolves(w, a, c)
  {
    forall k | k in c.chunks && k !in a.chunks && c.chunks[k].owner in a.docs ensures !AllPresent(w, a, c.chunks[k].owner) {
      AllPresentLasts(w, a, b, c.chunks[k].owner);
      assert k in b.chunks ==> b.chunks[k].owner == c.chunks[k].owner;
    }
    hide AllPresent, Recorded;
  }

  /** Whatever any number of executions, uploads, failure marks and sweeps do to the rows
      is no more than interference: between two transactions of an execution it keeps
      all that the execution relies on. */
  lemma {:induction false} StepsInterfere(w: World, s: seq<Sys>, acts: seq<Action>, i: nat, j: nat)
    requires IsRun(w, s, acts) && i <= j < |s|
    ensures Interfered(w, s[i].db, s[j].db)
    decreases j
  {
    hide DbInv, Evolves, ExecInv, Next;
    if i == j {
      NothingDone(w, s[i].db);
    } else {
      StepsInterfere(w, s, acts, i, j - 1);
      RunKeeps(w, s, acts, j - 1);
      NextKeeps(w, s[j - 1], acts[j - 1], s[j]);
      EvolvesOn(w, s[i].db, s[j - 1].db, s[j].db);
    }
  }

  /** A claimed model is claimed for good, a row is never lost, never changes its
      owner and never loses its vector. */
  lemma ClaimsAndRowsLast(w: World, s: seq<Sys>, acts: seq<Action>, i: nat, j: nat)
    requires IsRun(w, s, acts) && i <= j < |s|
    ensures forall a :: a in s[i].db.claims ==> a in s[j].db.claims && s[j].db.claims[a] == s[i].db.claims[a]
    ensures forall k :: k in s[i].db.chunks ==>
              && k in s[j].db.chunks && s[j].db.chunks[k].owner == s[i].db.chunks[k].owner
              && (s[i].db.chunks[k].vector.Some? ==> s[j].db.chunks[k].vector.Some?)
  {
    StepsInterfere(w, s, acts, i, j);
    hide IsRun, DbInv, AllPresent, Recorded;
  }
}
