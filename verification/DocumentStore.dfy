/** The document status store: every method is one transaction on the shared rows.

    Other workers, the failure handler and the reconciler use the same rows, so each
    method first lets them do whatever steps of the protocol may do. `history` records
    the transactions this process committed, with the rows just before and after;
    one that fails, or looks for a document that is not there, leaves no record. */
module DocumentStore {
  import opened Common
  import opened Corpus
  import opened Sorting
  import opened IngestProtocol

  datatype Tx = Tx(before: Db, after: Db)

  /** A list that grows at its end. */
  datatype Log<T> = Nil | Snoc(rest: Log<T>, last: T)

  datatype Saved = Saved(inserted: nat, total: nat)

  const INSERT_BATCH_SIZE := 1000

  // ----- What a transaction leaves as it is -----

  /** At most the row of document d changed, and it is still there if it was. */
  ghost predicate OnlyDocument(was: Db, now: Db, d: DocId) {
    && now.chunks == was.chunks && now.claims == was.claims && now.docs.Keys == was.docs.Keys
    && forall e :: e in was.docs && e != d ==> now.docs[e] == was.docs[e]
  }

  /** A document on its way is FAILED with this error; one that is READY or gone is left alone. */
  ghost predicate MarkedFailed(was: Db, now: Db, d: DocId, error: string) {
    && OnlyDocument(was, now, d)
    && (d in was.docs ==>
          now.docs[d] == if was.docs[d].status == READY then was.docs[d]
                         else DocRow(was.docs[d].assistant, FAILED, Some(error), was.docs[d].pageCount, was.docs[d].warnings))
  }

  /** The stale documents that the pipeline has not finished are FAILED; all other rows stay. */
  ghost predicate TimedOut(was: Db, now: Db, stale: set<DocId>) {
    && now.chunks == was.chunks && now.claims == was.claims && now.docs.Keys == was.docs.Keys
    && forall d :: d in was.docs ==>
         now.docs[d] == if d in stale && was.docs[d].status in {QUEUED, UPLOADED, PARSING, EMBEDDING}
                        then DocRow(was.docs[d].assistant, FAILED, Some("ingestion timed out"), was.docs[d].pageCount, was.docs[d].warnings)
                        else was.docs[d]
  }

  /** Only assistant a's claim may have changed. */
  ghost predicate OnlyClaim(was: Db, now: Db, a: AssistantId) {
    && now.docs == was.docs && now.chunks == was.chunks
    && (forall b :: b in was.claims ==> b in now.claims && now.claims[b] == was.claims[b])
    && (forall b :: b in now.claims && b != a ==> b in was.claims)
  }

  class PrismaDocumentStatusStore {
    var db: Db
    ghost var history: Log<Tx>
    /** The surroundings the other workers live in. */
    const w: World
    /** A document's assistant is fixed by its foreign key. */
    const assistantOf: DocId -> AssistantId
    /** The database can be reached at all times. */
    const healthy: bool

    ghost predicate Valid()
      reads this
    {
      forall d :: d in db.docs ==> db.docs[d].assistant == assistantOf(d)
    }

    ghost predicate StatusIs(d: DocId, status: Status)
      reads this
    {
      d in db.docs && db.docs[d].status == status
    }

    /** After what the others did, the method committed one transaction, whose rows
        after are the current rows. */
    twostate predicate Committed()
      reads this
    {
      && history.Snoc? && history.rest == old(history) && history.last.after == db
      && Interfered(w, old(db), history.last.before)
    }

    /** Only the others did something. */
    twostate predicate Idle()
      reads this
    {
      history == old(history) && Interfered(w, old(db), db)
    }

    constructor (db: Db, w: World, assistantOf: DocId -> AssistantId, healthy: bool)
      requires forall d :: d in db.docs ==> db.docs[d].assistant == assistantOf(d)
      ensures Valid() && this.db == db && history == Nil
      ensures this.w == w && this.assistantOf == assistantOf && this.healthy == healthy
    {
      this.db := db;
      this.history := Nil;
      this.w := w;
      this.assistantOf := assistantOf;
      this.healthy := healthy;
    }

    /** Everybody else's transactions: any number of steps of the protocol. */
    method Others()
      requires Valid()
      modifies this`db
      ensures Valid() && Interfered(w, old(db), db)
    {
      hide Interfered;
      NothingDone(w, db);
      var now: Db := *;
      if Interfered(w, db, now) && forall d :: d in now.docs ==> now.docs[d].assistant == assistantOf(d) {
        db := now;
      }
    }

    method GetStatus(d: DocId) returns (r: Result<Option<Status>>)
      requires Valid()
      modifies this
      ensures Valid()
      ensures r.Ok? && r.value.Some? ==> Committed() && db == history.last.before && d in db.docs && r.value.value == db.docs[d].status
      ensures r == Ok(None) ==> d !in db.docs
      ensures r.Err? || r.value.None? ==> Idle()
      ensures r.Err? ==> !healthy
    {
      hide Interfered;
      Others();
      if !healthy { if * { return Err("connection lost"); } }
      if d !in db.docs { return Ok(None); }
      history := Snoc(history, Tx(db, db));
      r := Ok(Some(db.docs[d].status));
    }

    method SetStatus(d: DocId, status: Status) returns (r: Result<()>)
      requires Valid()
      modifies this
      ensures Valid()
      ensures r.Err? ==> Idle() && (!healthy || d !in db.docs)
      ensures r.Ok? ==> Committed() && d in history.last.before.docs && db == SetStatusTx(history.last.before, d, status)
      ensures r.Ok? ==>
                var was := history.last.before;
                OnlyDocument(was, db, d)
                && db.docs[d] == DocRow(was.docs[d].assistant, status, None, was.docs[d].pageCount, was.docs[d].warnings)
    {
      hide Interfered;
      Others();
      if !healthy { if * { return Err("connection lost"); } }
      if d !in db.docs { return Err("record to update not found"); }
      ghost var before := db;
      db := db.(docs := db.docs[d := db.docs[d].(status := status, error := None)]);
      history := Snoc(history, Tx(before, db));
      r := Ok(());
    }

    method MarkFailed(d: DocId, error: string) returns (r: Result<()>)
      requires Valid()
      modifies this
      ensures Valid()
      ensures r.Err? ==> Idle() && !healthy
      ensures r.Ok? ==> Committed() && db == MarkFailedTx(history.last.before, d, error)
      ensures r.Ok? ==> MarkedFailed(history.last.before, db, d, error)
    {
      hide Interfered;
      Others();
      if !healthy { if * { return Err("connection lost"); } }
      ghost var before := db;
      if d in db.docs && db.docs[d].status != READY {
        db := db.(docs := db.docs[d := db.docs[d].(status := FAILED, error := Some(error))]);
      }
      history := Snoc(history, Tx(before, db));
      r := Ok(());
    }

    /** Whether the document's storage location is visible. */
    method GetRef(d: DocId) returns (r: Result<bool>)
      requires Valid()
      modifies this
      ensures Valid()
      ensures r == Ok(true) ==> Committed() && db == history.last.before && d in db.docs
      ensures r == Ok(false) ==> d !in db.docs
      ensures r != Ok(true) ==> Idle()
      ensures r.Err? ==> !healthy
    {
      hide Interfered;
      Others();
      if !healthy { if * { return Err("connection lost"); } }
      if d !in db.docs { return Ok(false); }
      history := Snoc(history, Tx(db, db));
      r := Ok(true);
    }

    method SetParseResult(d: DocId, pageCount: nat, warnings: seq<string>) returns (r: Result<()>)
      requires Valid()
      modifies this
      ensures Valid()
      ensures r.Err? ==> Idle() && (!healthy || d !in db.docs)
      ensures r.Ok? ==> Committed() && d in history.last.before.docs && db == SetParseResultTx(history.last.before, d, pageCount, warnings)
      ensures r.Ok? ==>
                var was := history.last.before;
                OnlyDocument(was, db, d)
                && db.docs[d] == DocRow(was.docs[d].assistant, was.docs[d].status, was.docs[d].error, Some(pageCount), warnings)
    {
      hide Interfered;
      Others();
      if !healthy { if * { return Err("connection lost"); } }
      if d !in db.docs { return Err("record to update not found"); }
      ghost var before := db;
      db := db.(docs := db.docs[d := db.docs[d].(pageCount := Some(pageCount), warnings := warnings)]);
      history := Snoc(history, Tx(before, db));
      r := Ok(());
    }

    /** A chunk row must name an existing document with this very assistant. */
    predicate KeyHolds(d: DocId, a: AssistantId)
      reads this
    {
      d in db.docs && db.docs[d].assistant == a
    }

    /** Insert the drafts, skipping those whose content the assistant's corpus already
        has, in batches but in one transaction. Returns how many rows are new. A new row
        that breaks the foreign key undoes the transaction. */
    method SaveChunks(d: DocId, a: AssistantId, drafts: seq<ChunkDraft>) returns (r: Result<Saved>)
      requires Valid()
      modifies this
      ensures Valid()
      ensures r.Err? ==> Idle() && (!healthy || !KeyHolds(d, a))
      ensures r.Ok? ==> Committed() && db == SaveChunksTx(history.last.before, d, a, drafts)
      ensures r.Ok? ==> |db.chunks| == |history.last.before.chunks| + r.value.inserted && r.value.total == |drafts|
      ensures r.Ok? && r.value.inserted > 0 ==> KeyHolds(d, a)
    {
      hide Interfered, Insert;
      Others();
      if !healthy { if * { return Err("connection lost"); } }
      ghost var before := db;
      var chunks, inserted := InsertBatches(db.chunks, d, a, drafts);
      if inserted > 0 && !KeyHolds(d, a) { return Err("foreign key violation"); }
      db := db.(chunks := chunks);
      history := Snoc(history, Tx(before, db));
      r := Ok(Saved(inserted, |drafts|));
    }

    /** Claim the assistant's model if it is unset; refuse another one. */
    method EnsureEmbeddingModel(a: AssistantId, model: Model) returns (r: Result<()>)
      requires Valid()
      modifies this
      ensures Valid()
      ensures r.Err? ==> Idle() && (!healthy || (a in db.claims && db.claims[a] != model))
      ensures r.Ok? ==> Committed() && db == ClaimTx(history.last.before, a, model)
      ensures r.Ok? ==> OnlyClaim(history.last.before, db, a) && a in db.claims && db.claims[a] == model
    {
      hide Interfered;
      Others();
      if !healthy { if * { return Err("connection lost"); } }
      ghost var before := db;
      var claims := db.claims;
      if a !in claims {
        claims := claims[a := model];
      }
      if claims[a] != model {
        return Err("corpus already embedded with another model");
      }
      db := db.(claims := claims);
      history := Snoc(history, Tx(before, db));
      r := Ok(());
    }

    /** The rows of the document that still need a vector, each once, by their offset. */
    method GetUnembeddedChunks(d: DocId) returns (r: Result<seq<Key>>)
      requires Valid()
      modifies this
      ensures Valid()
      ensures r.Err? ==> Idle() && !healthy
      ensures r.Ok? ==> Committed() && db == history.last.before
      ensures r.Ok? ==> Distinct(r.value) && forall k :: k in r.value <==> k in Pending(db, d)
      ensures r.Ok? ==> forall k :: k in r.value <==> k in db.chunks && db.chunks[k].owner == d && db.chunks[k].vector == None
      ensures r.Ok? ==>
                forall i, j :: 0 <= i < j < |r.value| && r.value[i] in db.chunks && r.value[j] in db.chunks ==>
                                 db.chunks[r.value[i]].draft.charStart <= db.chunks[r.value[j]].draft.charStart
    {
      hide Interfered, Sorted, Sort;
      Others();
      if !healthy { if * { return Err("connection lost"); } }
      var left := Pending(db, d);
      var list: seq<Key> := [];
      while left != {}
        invariant Distinct(list) && left <= Pending(db, d)
        invariant forall k :: k in list <==> k in Pending(db, d) && k !in left
        decreases left
      {
        var k :| k in left;
        left := left - {k};
        list := list + [k];
      }
      SortKeys(db, list);
      SortedByStart(db, Sort(ByOffset(db), list));
      history := Snoc(history, Tx(db, db));
      r := Ok(Sort(ByOffset(db), list));
    }

    /** Write the vectors onto the named rows. */
    method SetChunkEmbeddings(ids: seq<Key>, vectors: seq<Vector>) returns (r: Result<()>)
      requires Valid() && |ids| == |vectors|
      modifies this
      ensures Valid()
      ensures r.Err? ==> Idle() && !healthy
      ensures r.Ok? ==> Committed() && db == SetEmbeddingsTx(history.last.before, ids, vectors)
    {
      hide Interfered;
      Others();
      if !healthy { if * { return Err("connection lost"); } }
      ghost var before := db;
      db := db.(chunks := WriteVectors(db.chunks, ids, vectors));
      history := Snoc(history, Tx(before, db));
      r := Ok(());
    }

    /** The reconciler's one UPDATE over the rows that have not moved for too long. Returns how many it failed. */
    method ReconcileStuckDocuments(stale: set<DocId>) returns (r: Result<nat>)
      requires Valid()
      modifies this
      ensures Valid()
      ensures r.Err? ==> Idle() && !healthy
      ensures r.Ok? ==> Committed() && db == SweepTx(history.last.before, stale)
      ensures r.Ok? ==> TimedOut(history.last.before, db, stale)
      ensures r.Ok? ==>
                var was := history.last.before;
                r.value == |set d | d in stale && d in was.docs && was.docs[d].status in {QUEUED, UPLOADED, PARSING, EMBEDDING}|
    {
      hide Interfered;
      Others();
      if !healthy { if * { return Err("connection lost"); } }
      ghost var before := db;
      StuckAre(db, stale);
      r := Ok(|Stuck(db, stale)|);
      db := SweepTx(db, stale);
      history := Snoc(history, Tx(before, db));
    }
  }

  function Offset(db: Db, k: Key): nat {
    if k in db.chunks then db.chunks[k].draft.charStart else 0
  }

  /** ORDER BY char_start */
  function ByOffset(db: Db): (Key, Key) -> bool {
    (k, l) => Offset(db, k) <= Offset(db, l)
  }

  lemma SortKeys(db: Db, list: seq<Key>)
    requires Distinct(list)
    ensures var sorted := Sort(ByOffset(db), list);
            Sorted(ByOffset(db), sorted) && Distinct(sorted) && forall k :: k in sorted <==> k in list
  {
    SortSorts(ByOffset(db), list);
    var sorted := Sort(ByOffset(db), list);
    hide Sort, Sorted;
    forall i, j | 0 <= i < j < |sorted| ensures sorted[i] != sorted[j] {
      DistinctPermutation(list, sorted, i, j);
    }
    forall k ensures k in sorted <==> k in list {
      assert k in multiset(sorted) <==> k in multiset(list);
    }
  }

  lemma SortedByStart(db: Db, keys: seq<Key>)
    requires Sorted(ByOffset(db), keys)
    ensures forall i, j :: 0 <= i < j < |keys| && keys[i] in db.chunks && keys[j] in db.chunks ==>
                             db.chunks[keys[i]].draft.charStart <= db.chunks[keys[j]].draft.charStart
  {
    forall i, j | 0 <= i < j < |keys| && keys[i] in db.chunks && keys[j] in db.chunks
      ensures db.chunks[keys[i]].draft.charStart <= db.chunks[keys[j]].draft.charStart
    {
      assert ByOffset(db)(keys[i], keys[j]);
    }
  }

  lemma StuckAre(db: Db, stale: set<DocId>)
    ensures Stuck(db, stale) == set d | d in stale && d in db.docs && db.docs[d].status in {QUEUED, UPLOADED, PARSING, EMBEDDING}
  {
  }

  function Stuck(db: Db, stale: set<DocId>): set<DocId> {
    set d | d in stale && d in db.docs && Sweepable(db.docs[d].status)
  }

  /** The batched INSERT statements of one transaction. */
  method InsertBatches(rows: Chunks, d: DocId, a: AssistantId, drafts: seq<ChunkDraft>)
    returns (chunks: Chunks, inserted: nat)
    ensures chunks == Insert(rows, d, a, drafts) && |chunks| == |rows| + inserted
  {
    hide Insert, InsertSome;
    InsertNone(rows, d, a, drafts);
    chunks, inserted := rows, 0;
    var i := 0;
    while i < |drafts|
      invariant 0 <= i && chunks == InsertSome(rows, d, a, drafts, i)
      invariant |chunks| == |rows| + inserted
      decreases |drafts| - i
    {
      var end := if i + INSERT_BATCH_SIZE <= |drafts| then i + INSERT_BATCH_SIZE else |drafts|;
      InsertMore(rows, d, a, drafts, i, end);
      InsertCounts(chunks, d, a, drafts[i..end]);
      var after := Insert(chunks, d, a, drafts[i..end]);
      inserted := inserted + (|after| - |chunks|);
      chunks := after;
      i := i + INSERT_BATCH_SIZE;
    }
    InsertAll(rows, d, a, drafts, i);
  }

  /** The rows after the first n drafts. */
  function InsertSome(chunks: Chunks, d: DocId, a: AssistantId, drafts: seq<ChunkDraft>, n: nat): Chunks {
    Insert(chunks, d, a, if n <= |drafts| then drafts[..n] else drafts)
  }

  lemma InsertNone(chunks: Chunks, d: DocId, a: AssistantId, drafts: seq<ChunkDraft>)
    ensures InsertSome(chunks, d, a, drafts, 0) == chunks
  {
    assert drafts[..0] == [];
  }

  lemma InsertMore(chunks: Chunks, d: DocId, a: AssistantId, drafts: seq<ChunkDraft>, i: nat, end: nat)
    requires i <= end <= |drafts|
    ensures InsertSome(chunks, d, a, drafts, end) == Insert(InsertSome(chunks, d, a, drafts, i), d, a, drafts[i..end])
    ensures end == |drafts| ==> forall n :: n >= end ==> InsertSome(chunks, d, a, drafts, n) == InsertSome(chunks, d, a, drafts, end)
  {
    InsertInBatches(chunks, d, a, drafts[..i], drafts[i..end]);
    assert drafts[..end] == drafts[..i] + drafts[i..end];
    assert drafts[..|drafts|] == drafts;
  }

  lemma InsertAll(chunks: Chunks, d: DocId, a: AssistantId, drafts: seq<ChunkDraft>, n: nat)
    requires n >= |drafts|
    ensures InsertSome(chunks, d, a, drafts, n) == Insert(chunks, d, a, drafts)
  {
    assert drafts[..|drafts|] == drafts;
  }

  lemma {:induction false} InsertCounts(chunks: Chunks, d: DocId, a: AssistantId, drafts: seq<ChunkDraft>)
    ensures |Insert(chunks, d, a, drafts)| >= |chunks|
  {
    InsertRows(chunks, d, a, drafts);
    var r := Insert(chunks, d, a, drafts);
    assert chunks.Keys <= r.Keys;
    KeysGrow(chunks.Keys, r.Keys);
  }
}
