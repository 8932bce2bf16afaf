/** The rows the ingestion worker reads and writes, and every transaction on them
    as a function from the rows before to the rows after.

    One tenant's rows are modelled. A chunk row is identified by its assistant and
    its content: the content hash is unique per assistant and taken as injective. */
module Corpus {
  import opened Common

  type DocId = string
  type AssistantId = string
  type Model = string
  type Content = string

  /** One component of a vector: JSON can carry numbers that are not finite. */
  datatype Number = Finite(value: real) | NonFinite
  type Vector = seq<Number>

  const EMBEDDING_DIMENSIONS := 1536

  predicate ValidVector(v: Vector) {
    |v| == EMBEDDING_DIMENSIONS && forall i :: 0 <= i < |v| ==> v[i].Finite?
  }

  datatype Status = QUEUED | UPLOADED | PARSING | EMBEDDING | READY | FAILED

  /** A chunk as the chunker drafts it. */
  datatype ChunkDraft = ChunkDraft(
    content: Content, text: string, page: int, section: Option<string>,
    charStart: nat, charEnd: nat, tokenCount: nat)

  datatype DocRow = DocRow(
    assistant: AssistantId, status: Status, error: Option<string>,
    pageCount: Option<nat>, warnings: seq<string>)

  datatype Key = Key(assistant: AssistantId, content: Content)
  datatype ChunkRow = ChunkRow(owner: DocId, draft: ChunkDraft, vector: Option<Vector>)
  type Chunks = map<Key, ChunkRow>

  /** `claims` holds the assistants whose embedding_model column is set. */
  datatype Db = Db(docs: map<DocId, DocRow>, chunks: Chunks, claims: map<AssistantId, Model>)

  const EMPTY_DB := Db(map[], map[], map[])

  // ----- Documents -----

  function UploadTx(db: Db, d: DocId, a: AssistantId): Db {
    db.(docs := db.docs[d := DocRow(a, UPLOADED, None, None, [])])
  }

  function SetStatusTx(db: Db, d: DocId, status: Status): Db
    requires d in db.docs
  {
    db.(docs := db.docs[d := db.docs[d].(status := status, error := None)])
  }

  /** READY is never flipped to FAILED. */
  function MarkFailedTx(db: Db, d: DocId, error: string): Db {
    if d in db.docs && db.docs[d].status != READY then
      db.(docs := db.docs[d := db.docs[d].(status := FAILED, error := Some(error))])
    else db
  }

  function SetParseResultTx(db: Db, d: DocId, pageCount: nat, warnings: seq<string>): Db
    requires d in db.docs
  {
    db.(docs := db.docs[d := db.docs[d].(pageCount := Some(pageCount), warnings := warnings)])
  }

  predicate Sweepable(status: Status) {
    status.QUEUED? || status.UPLOADED? || status.PARSING? || status.EMBEDDING?
  }

  /** The reconciler's UPDATE over the rows it finds stale. */
  function SweepTx(db: Db, stale: set<DocId>): Db {
    db.(docs := map d | d in db.docs ::
        if d in stale && Sweepable(db.docs[d].status)
        then db.docs[d].(status := FAILED, error := Some("ingestion timed out"))
        else db.docs[d])
  }

  // ----- Chunks -----

  /** The first draft with the given content. */
  function First(drafts: seq<ChunkDraft>, content: Content): (c: ChunkDraft)
    requires exists c :: c in drafts && c.content == content
    ensures c in drafts && c.content == content
  {
    if drafts[0].content == content then drafts[0] else First(drafts[1..], content)
  }

  /** INSERT ... ON CONFLICT DO NOTHING, draft by draft. */
  function Insert(chunks: Chunks, d: DocId, a: AssistantId, drafts: seq<ChunkDraft>): Chunks
    decreases drafts
  {
    if drafts == [] then chunks
    else
      var k := Key(a, drafts[0].content);
      Insert(if k in chunks then chunks else chunks[k := ChunkRow(d, drafts[0], None)], d, a, drafts[1..])
  }

  function SaveChunksTx(db: Db, d: DocId, a: AssistantId, drafts: seq<ChunkDraft>): Db {
    db.(chunks := Insert(db.chunks, d, a, drafts))
  }

  ghost predicate Drafted(drafts: seq<ChunkDraft>, content: Content) {
    exists c :: c in drafts && c.content == content
  }

  /** What an insert does to every row: old rows stay as they are, every draft has
      a row afterwards, and a new row is the first draft of its content. */
  lemma {:induction false} InsertRows(chunks: Chunks, d: DocId, a: AssistantId, drafts: seq<ChunkDraft>)
    ensures var r := Insert(chunks, d, a, drafts);
            && (forall k :: k in chunks ==> k in r && r[k] == chunks[k])
            && (forall c :: c in drafts ==> Key(a, c.content) in r)
            && (forall k :: k in r && k !in chunks ==>
                  k.assistant == a && Drafted(drafts, k.content)
                  && r[k] == ChunkRow(d, First(drafts, k.content), None))
    decreases drafts
  {
    if drafts != [] {
      var c := drafts[0];
      var k0 := Key(a, c.content);
      var next := if k0 in chunks then chunks else chunks[k0 := ChunkRow(d, c, None)];
      InsertRows(next, d, a, drafts[1..]);
      var r := Insert(chunks, d, a, drafts);
      assert r == Insert(next, d, a, drafts[1..]);
      forall k | k in r && k !in chunks
        ensures k.assistant == a && Drafted(drafts, k.content) && r[k] == ChunkRow(d, First(drafts, k.content), None)
      {
        if k == k0 {
          assert r[k] == next[k];
        } else {
          assert k !in next && Drafted(drafts[1..], k.content);
        }
      }
      assert k0 in next && k0 in r;
    }
  }

  lemma {:induction false} InsertInBatches(chunks: Chunks, d: DocId, a: AssistantId, xs: seq<ChunkDraft>, ys: seq<ChunkDraft>)
    ensures Insert(chunks, d, a, xs + ys) == Insert(Insert(chunks, d, a, xs), d, a, ys)
    decreases xs
  {
    if xs == [] {
      assert xs + ys == ys;
    } else {
      assert (xs + ys)[1..] == xs[1..] + ys;
      var k := Key(a, xs[0].content);
      InsertInBatches(if k in chunks then chunks else chunks[k := ChunkRow(d, xs[0], None)], d, a, xs[1..], ys);
    }
  }

  /** The rows of a document that still need a vector. */
  function Pending(db: Db, d: DocId): set<Key> {
    set k | k in db.chunks && db.chunks[k].owner == d && db.chunks[k].vector == None
  }

  /** UPDATE chunk ... FROM unnest(ids, vectors). */
  function WriteVectors(chunks: Chunks, ids: seq<Key>, vectors: seq<Vector>): Chunks
    requires |ids| == |vectors|
    decreases ids
  {
    if ids == [] then chunks
    else
      var id := ids[0];
      WriteVectors(if id in chunks then chunks[id := chunks[id].(vector := Some(vectors[0]))] else chunks,
            ids[1..], vectors[1..])
  }

  function SetEmbeddingsTx(db: Db, ids: seq<Key>, vectors: seq<Vector>): Db
    requires |ids| == |vectors|
  {
    db.(chunks := WriteVectors(db.chunks, ids, vectors))
  }

  ghost predicate Distinct<T>(s: seq<T>) {
    forall i, j :: 0 <= i < j < |s| ==> s[i] != s[j]
  }

  /** What a write does to every row: exactly the named rows get a new vector, each its own. */
  lemma {:induction false} WriteRows(chunks: Chunks, ids: seq<Key>, vectors: seq<Vector>)
    requires |ids| == |vectors| && Distinct(ids)
    ensures var r := WriteVectors(chunks, ids, vectors);
            && r.Keys == chunks.Keys
            && (forall k :: k in chunks && k !in ids ==> r[k] == chunks[k])
            && (forall i :: 0 <= i < |ids| && ids[i] in chunks ==>
                  r[ids[i]] == chunks[ids[i]].(vector := Some(vectors[i])))
    decreases ids
  {
    if ids != [] {
      var id := ids[0];
      var next := if id in chunks then chunks[id := chunks[id].(vector := Some(vectors[0]))] else chunks;
      WriteRows(next, ids[1..], vectors[1..]);
      var r := WriteVectors(chunks, ids, vectors);
      assert r == WriteVectors(next, ids[1..], vectors[1..]);
      assert id !in ids[1..];
      forall k | k in chunks && k !in ids ensures r[k] == chunks[k] {
        assert k != id && k !in ids[1..];
      }
      forall i | 0 <= i < |ids| && ids[i] in chunks
        ensures r[ids[i]] == chunks[ids[i]].(vector := Some(vectors[i]))
      {
        if i > 0 {
          assert ids[i] == ids[1..][i - 1] && ids[i] != id;
        }
      }
    }
  }

  lemma {:induction false} KeysGrow<T>(s: set<T>, t: set<T>)
    requires s <= t
    ensures |s| <= |t|
    decreases s
  {
    if s != {} {
      var x :| x in s;
      KeysGrow(s - {x}, t - {x});
    }
  }

  // ----- The assistant's model -----

  function ClaimTx(db: Db, a: AssistantId, model: Model): Db {
    if a in db.claims then db else db.(claims := db.claims[a := model])
  }
}
