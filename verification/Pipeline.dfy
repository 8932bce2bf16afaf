/** runIngestion as the worker executes it: the checkpointed stage loop, the two
    stages, and the handler that marks a document FAILED after its last attempt.

    Each method also returns the steps it took. They are steps of the protocol's
    execution machine, one per committed transaction, and between and after them, with
    everybody else at work, the rows keep the protocol's invariant. */
module Pipeline {
  import opened Common
  import opened Corpus
  import opened IngestProtocol
  import opened IngestSafety
  import opened DocumentStore
  import opened Embedder

  const MAX_ERROR_LENGTH := 2000
  const EMBED_ATTEMPTS := 4

  datatype Job = Job(documentId: DocId, assistantId: AssistantId)
  datatype Stage = ParseStage | EmbedStage

  const DEFAULT_STAGES := [ParseStage, EmbedStage]

  function StartStatus(stage: Stage): Status {
    match stage
    case ParseStage => PARSING
    case EmbedStage => EMBEDDING
  }

  // ----- The steps of one execution -----

  datatype OwnStep = OwnStep(before: Db, x: Exec, after: Db, x': Exec)

  /** The store's log is `base` followed by the transactions of the steps, the steps
      lead the machine from `start` to `x`, and between two steps the others were at work. */
  ghost predicate Follows(w: World, base: Log<Tx>, log: Log<Tx>, start: Exec, steps: Log<OwnStep>, x: Exec)
    decreases steps
  {
    match steps
    case Nil => log == base && x == start
    case Snoc(rest, step) =>
      && log.Snoc? && log.last == Tx(step.before, step.after) && step.x' == x
      && ExecStep(w, step.before, step.x, step.after, step.x')
      && Since(w, rest, step.before)
      && Follows(w, base, log.rest, start, rest, step.x)
  }

  /** Since the last of the steps only the others changed the rows. */
  ghost predicate Since(w: World, steps: Log<OwnStep>, db: Db) {
    steps.Snoc? ==> Interfered(w, steps.last.after, db)
  }

  /** The rows keep the invariant, and what the execution knows is true of them. */
  ghost predicate Sound(w: World, db: Db, x: Exec) {
    DbInv(w, db) && (x.pc.ReadStatus? || ExecInv(w, db, x))
  }

  /** The transaction just committed, after what the others did, was the step from x to x'. */
  lemma Took(w: World, was: Db, base: Log<Tx>, log: Log<Tx>, start: Exec, steps: Log<OwnStep>, x: Exec, x': Exec)
      returns (more: Log<OwnStep>)
    requires log.Snoc? && Follows(w, base, log.rest, start, steps, x)
    requires Sound(w, was, x) && Since(w, steps, was) && Interfered(w, was, log.last.before)
    requires ExecStep(w, log.last.before, x, log.last.after, x')
    ensures Follows(w, base, log, start, more, x') && Sound(w, log.last.after, x') && Since(w, more, log.last.after)
  {
    Stayed(w, steps, was, log.last.before, x);
    StepIsSound(w, log.last.before, x, log.last.after, x');
    NothingDone(w, log.last.after);
    hide ExecStep, Sound, Interfered;
    more := Snoc(steps, OwnStep(log.last.before, x, log.last.after, x'));
  }

  lemma StepIsSound(w: World, db: Db, x: Exec, db': Db, x': Exec)
    requires Sound(w, db, x) && ExecStep(w, db, x, db', x')
    ensures Sound(w, db', x')
  {
    assert x.pc.ReadStatus? ==> ExecInv(w, db, x);
    ExecStepKeeps(w, db, x, db', x');
    hide DbInv, ExecInv, ExecStep, Evolves;
  }

  /** What an execution knows stays true whatever the others do. */
  lemma Stayed(w: World, steps: Log<OwnStep>, was: Db, now: Db, x: Exec)
    requires Sound(w, was, x) && Since(w, steps, was) && Interfered(w, was, now)
    ensures Sound(w, now, x) && Since(w, steps, now)
  {
    if steps.Snoc? { EvolvesOn(w, steps.last.after, was, now); }
    if !x.pc.ReadStatus? { OthersKeepExecInv(w, was, now, x); }
    hide DbInv, ExecInv, Evolves;
  }

  lemma DocStays(w: World, was: Db, now: Db, d: DocId)
    requires Interfered(w, was, now) && d in was.docs
    ensures d in now.docs
  {
  }

  lemma HasDoc(w: World, db: Db, x: Exec)
    requires Sound(w, db, x) && !x.pc.ReadStatus?
    ensures x.doc in db.docs
  {
    hide DbInv;
  }

  // The machine's step for each transaction of the code.

  lemma StatusRead(w: World, db: Db, x: Exec)
    requires x.doc in db.docs && x.pc.ReadStatus?
    ensures ExecStep(w, db, x, db, x.(pc := AfterStatus(Rank(db.docs[x.doc].status))))
  {
  }

  lemma StatusWritten(w: World, db: Db, x: Exec, status: Status, after: Pc)
    requires x.doc in db.docs
    requires (x.pc.MarkParsing? && status.PARSING? && after.ReadRef?)
             || (x.pc.MarkEmbedding? && status.EMBEDDING? && after.ReadPending?)
             || (x.pc.MarkReady? && status.READY? && after.Done?)
    ensures ExecStep(w, db, x, SetStatusTx(db, x.doc, status), x.(pc := after))
  {
  }

  lemma RefRead(w: World, db: Db, x: Exec)
    requires x.doc in db.docs && x.pc.ReadRef?
    ensures ExecStep(w, db, x, db, x.(pc := SaveParseResult))
  {
  }

  lemma ParseResultSaved(w: World, db: Db, x: Exec)
    requires x.doc in db.docs && x.pc.SaveParseResult? && Parseable(w, x.doc)
    ensures ExecStep(w, db, x, SetParseResultTx(db, x.doc, w.parse(x.doc).pageCount, w.parse(x.doc).warnings), x.(pc := SaveDrafts))
  {
  }

  lemma DraftsSaved(w: World, db: Db, x: Exec)
    requires x.doc in db.docs && x.pc.SaveDrafts? && Parseable(w, x.doc) && Drafts(w, x.doc) != []
    ensures ExecStep(w, db, x, SaveChunksTx(db, x.doc, db.docs[x.doc].assistant, Drafts(w, x.doc)), x.(pc := MarkEmbedding))
  {
  }

  lemma PendingRead(w: World, db: Db, x: Exec, list: seq<Key>)
    requires x.doc in db.docs && x.pc.ReadPending? && x.dimensions == EMBEDDING_DIMENSIONS
    requires Distinct(list) && forall k :: k in list <==> k in Pending(db, x.doc)
    ensures ExecStep(w, db, x, db, x.(pc := if list == [] then MarkReady else ClaimModel(list)))
  {
    if list == [] {
      assert Pending(db, x.doc) == {};
    } else {
      assert list[0] in Pending(db, x.doc);
    }
  }

  lemma ModelClaimed(w: World, db: Db, x: Exec, after: Db)
    requires x.doc in db.docs && x.pc.ClaimModel?
    requires after == ClaimTx(db, db.docs[x.doc].assistant, x.model) && after.claims[db.docs[x.doc].assistant] == x.model
    ensures ExecStep(w, db, x, after, x.(pc := WriteBatch(x.pc.pending, 0)))
  {
  }

  lemma VectorsWritten(w: World, db: Db, x: Exec, vectors: seq<Vector>)
    requires x.doc in db.docs && x.pc.WriteBatch? && x.pc.next < |x.pc.pending|
    requires GoodVectors(w, x.model, x.pc.pending[x.pc.next..BatchEnd(x.pc.pending, x.pc.next)], vectors)
    ensures var end := BatchEnd(x.pc.pending, x.pc.next);
            ExecStep(w, db, x, SetEmbeddingsTx(db, x.pc.pending[x.pc.next..end], vectors),
                     x.(pc := AfterBatch(x.pc.pending, end)))
  {
    var end := BatchEnd(x.pc.pending, x.pc.next);
    assert BatchWritten(w, db, x, vectors, SetEmbeddingsTx(db, x.pc.pending[x.pc.next..end], vectors));
  }

  // ----- The worker -----

  class IngestWorker {
    const store: PrismaDocumentStatusStore
    const embedder: OpenAIEmbedder
    /** The object storage has every uploaded file and can be reached at all times. */
    const storageHealthy: bool

    constructor (store: PrismaDocumentStatusStore, embedder: OpenAIEmbedder, storageHealthy: bool)
      ensures this.store == store && this.embedder == embedder && this.storageHealthy == storageHealthy
    {
      this.store := store;
      this.embedder := embedder;
      this.storageHealthy := storageHealthy;
    }

    /** Why an attempt may stop where it stands: the surroundings fail, the document is
        gone, or the very step it is at refuses. */
    ghost predicate Blame(job: Job, pc: Pc)
      reads this, store
    {
      var a := job.assistantId;
      || !store.healthy || job.documentId !in store.db.docs
      || match pc
         case SaveParseResult => !storageHealthy || !Parseable(store.w, job.documentId)
         case SaveDrafts => Drafts(store.w, job.documentId) == []
         case ReadPending => embedder.dimensions != EMBEDDING_DIMENSIONS
         case ClaimModel(_) => a in store.db.claims && store.db.claims[a] != embedder.model
         case WriteBatch(_, _) => true // the embedder fails or its vectors are refused
         case _ => false
    }

    ghost predicate Fits(job: Job)
      reads this, store
    {
      store.Valid() && embedder.batchSize > 0
      && job.assistantId == store.assistantOf(job.documentId)
    }

    /** This worker's execution on the job, at a point. */
    ghost function At(job: Job, pc: Pc): Exec {
      Exec(job.documentId, embedder.model, embedder.dimensions, pc)
    }

    /** The log so far is the steps of this execution, and the rows are as the protocol promises. */
    ghost predicate OnTrack(job: Job, base: Log<Tx>, steps: Log<OwnStep>, pc: Pc)
      reads this, store
    {
      && Follows(store.w, base, store.history, At(job, ReadStatus), steps, At(job, pc))
      && Sound(store.w, store.db, At(job, pc)) && Since(store.w, steps, store.db)
    }

    /** What a document that is READY has: its status, its page count, a row for every
        draft, and no row of its own without a vector. */
    ghost predicate Complete(d: DocId)
      reads this, store
    {
      && d in store.db.docs && store.db.docs[d].status.READY? && store.db.docs[d].error == None
      && AllPresent(store.w, store.db, d) && Recorded(store.w, store.db, d) && NothingPending(store.db, d)
    }

    /** Download, parse, record the result, chunk and save the chunks. */
    method RunParseStage(job: Job, ghost base: Log<Tx>, ghost steps0: Log<OwnStep>)
      returns (r: Result<()>, ghost pc: Pc, ghost steps: Log<OwnStep>)
      requires Fits(job) && OnTrack(job, base, steps0, ReadRef)
      modifies store
      ensures Fits(job) && OnTrack(job, base, steps, pc)
      ensures if r.Ok? then pc == MarkEmbedding else Blame(job, pc)
    {
      hide ExecStep, Follows, Sound, Since, Interfered;
      ghost var w, start := store.w, At(job, ReadStatus);
      pc, steps := ReadRef, steps0;
      ghost var was := store.db;
      var ref := store.GetRef(job.documentId);
      if ref.Err? { Stayed(w, steps, was, store.db, At(job, pc)); return Err(ref.error), pc, steps; }
      if !ref.value { Stayed(w, steps, was, store.db, At(job, pc)); return Err("document not found"), pc, steps; }
      RefRead(w, store.history.last.before, At(job, pc));
      steps := Took(w, was, base, store.history, start, steps, At(job, pc), At(job, SaveParseResult));
      pc := SaveParseResult;

      if !storageHealthy { if * { return Err("object not found"), pc, steps; } }
      var parsed := store.w.parse(job.documentId);
      if parsed.Unparseable? { return Err(parsed.error), pc, steps; }
      if parsed.blank { return Err("no extractable text"), pc, steps; }
      was := store.db;
      var saved := store.SetParseResult(job.documentId, parsed.pageCount, parsed.warnings);
      if saved.Err? { Stayed(w, steps, was, store.db, At(job, pc)); return Err(saved.error), pc, steps; }
      ParseResultSaved(w, store.history.last.before, At(job, pc));
      steps := Took(w, was, base, store.history, start, steps, At(job, pc), At(job, SaveDrafts));
      pc := SaveDrafts;

      if |parsed.drafts| == 0 { return Err("no chunkable content in document"), pc, steps; }
      r, pc, steps := SaveDraftsOf(job, parsed.drafts, base, steps);
    }

    /** Persist the drafts, deduplicated. */
    method SaveDraftsOf(job: Job, drafts: seq<ChunkDraft>, ghost base: Log<Tx>, ghost steps0: Log<OwnStep>)
      returns (r: Result<()>, ghost pc: Pc, ghost steps: Log<OwnStep>)
      requires Fits(job) && OnTrack(job, base, steps0, SaveDrafts)
      requires Parseable(store.w, job.documentId) && drafts == Drafts(store.w, job.documentId) != []
      modifies store
      ensures Fits(job) && OnTrack(job, base, steps, pc)
      ensures if r.Ok? then pc == MarkEmbedding else Blame(job, pc)
    {
      hide ExecStep, Follows, Sound, Since, Interfered, Insert;
      ghost var w, start := store.w, At(job, ReadStatus);
      pc, steps := SaveDrafts, steps0;
      ghost var was := store.db;
      HasDoc(w, was, At(job, pc));
      var counts := store.SaveChunks(job.documentId, job.assistantId, drafts);
      if counts.Err? { Stayed(w, steps, was, store.db, At(job, pc)); return Err(counts.error), pc, steps; }
      DocStays(w, was, store.history.last.before, job.documentId);
      DraftsSaved(w, store.history.last.before, At(job, pc));
      steps := Took(w, was, base, store.history, start, steps, At(job, pc), At(job, MarkEmbedding));
      r, pc := Ok(()), MarkEmbedding;
    }

    /** Up to four tries, as long as the failure looks transient. */
    method EmbedWithRetry(texts: seq<Content>) returns (r: Result<seq<Vector>>)
      requires embedder.batchSize > 0
      ensures r.Ok? ==> InPlace(store.w, embedder.model, texts, r.value) && |r.value| == |texts|
    {
      var attempt := 1;
      r := embedder.Embed(store.w, texts);
      while r.Err? && attempt < EMBED_ATTEMPTS
        invariant r.Ok? ==> InPlace(store.w, embedder.model, texts, r.value) && |r.value| == |texts|
        decreases EMBED_ATTEMPTS - attempt
      {
        var retryable := *;
        if !retryable { return; }
        r := embedder.Embed(store.w, texts);
        attempt := attempt + 1;
      }
    }

    /** Embed and write the batch that starts at i. */
    method WriteNextBatch(job: Job, pending: seq<Key>, i: nat, ghost base: Log<Tx>, ghost steps0: Log<OwnStep>)
      returns (r: Result<()>, ghost steps: Log<OwnStep>)
      requires Fits(job) && i < |pending|
      requires OnTrack(job, base, steps0, WriteBatch(pending, i))
      modifies store
      ensures Fits(job)
      ensures OnTrack(job, base, steps, if r.Ok? then AfterBatch(pending, BatchEnd(pending, i)) else WriteBatch(pending, i))
    {
      hide ExecStep, InPlace, ValidVector, GoodVectors, Follows, Sound, Since, Interfered;
      steps := steps0;
      ghost var w, x, was := store.w, At(job, WriteBatch(pending, i)), store.db;
      HasDoc(w, was, x);
      var end := if i + EMBED_BATCH_SIZE <= |pending| then i + EMBED_BATCH_SIZE else |pending|;
      var batch := pending[i..end];
      var texts := Contents(batch);
      var vectors := EmbedWithRetry(texts);
      if vectors.Err? { return Err(vectors.error), steps; }
      if |vectors.value| != |batch| {
        return Err("embedder returned another number of vectors"), steps;
      }
      if exists j :: 0 <= j < |vectors.value| && !ValidVector(vectors.value[j]) {
        return Err("embedding has another width or a non-finite value"), steps;
      }
      VectorsAreGood(w, embedder.model, batch, vectors.value);
      var written := store.SetChunkEmbeddings(batch, vectors.value);
      if written.Err? { Stayed(w, steps, was, store.db, x); return Err(written.error), steps; }
      DocStays(w, was, store.history.last.before, job.documentId);
      VectorsWritten(w, store.history.last.before, x, vectors.value);
      steps := Took(w, was, base, store.history, At(job, ReadStatus), steps, x, At(job, AfterBatch(pending, BatchEnd(pending, i))));
      r := Ok(());
    }

    /** Embed and write all batches of the list. */
    method WriteBatches(job: Job, pending: seq<Key>, ghost base: Log<Tx>, ghost steps0: Log<OwnStep>)
      returns (r: Result<()>, ghost pc: Pc, ghost steps: Log<OwnStep>)
      requires Fits(job) && pending != []
      requires OnTrack(job, base, steps0, WriteBatch(pending, 0))
      modifies store
      ensures Fits(job) && OnTrack(job, base, steps, pc)
      ensures if r.Ok? then pc == MarkReady else Blame(job, pc)
    {
      hide ExecStep, Follows, Sound, Since;
      pc, steps := WriteBatch(pending, 0), steps0;
      var i := 0;
      while i < |pending|
        invariant 0 <= i && Fits(job)
        invariant pc == AfterBatch(pending, i) && OnTrack(job, base, steps, pc)
        decreases |pending| - i
      {
        r, steps := WriteNextBatch(job, pending, i, base, steps);
        if r.Err? { return; }
        pc := AfterBatch(pending, BatchEnd(pending, i));
        i := i + EMBED_BATCH_SIZE;
      }
      r := Ok(());
    }

    /** Embed what still needs a vector, batch by batch, writing each batch as it completes. */
    method RunEmbedStage(job: Job, ghost base: Log<Tx>, ghost steps0: Log<OwnStep>)
      returns (r: Result<()>, ghost pc: Pc, ghost steps: Log<OwnStep>)
      requires Fits(job) && OnTrack(job, base, steps0, ReadPending)
      modifies store
      ensures Fits(job) && OnTrack(job, base, steps, pc)
      ensures if r.Ok? then pc == MarkReady else Blame(job, pc)
    {
      hide ExecStep, Follows, Sound, Since, Interfered;
      ghost var w, start := store.w, At(job, ReadStatus);
      pc, steps := ReadPending, steps0;
      if embedder.dimensions != EMBEDDING_DIMENSIONS {
        return Err("embedder dimensions differ from the column width"), pc, steps;
      }
      ghost var was := store.db;
      HasDoc(w, was, At(job, pc));
      var listed := store.GetUnembeddedChunks(job.documentId);
      if listed.Err? { Stayed(w, steps, was, store.db, At(job, pc)); return Err(listed.error), pc, steps; }
      var pending := listed.value;
      DocStays(w, was, store.history.last.before, job.documentId);
      PendingRead(w, store.history.last.before, At(job, pc), pending);
      ghost var next := if pending == [] then MarkReady else ClaimModel(pending);
      steps := Took(w, was, base, store.history, start, steps, At(job, pc), At(job, next));
      pc := next;
      if |pending| == 0 { return Ok(()), pc, steps; }

      r, steps := ClaimFor(job, pending, base, steps);
      if r.Err? { return; }
      r, pc, steps := WriteBatches(job, pending, base, steps);
    }

    /** Claim or verify the corpus model before any embedding call. */
    method ClaimFor(job: Job, pending: seq<Key>, ghost base: Log<Tx>, ghost steps0: Log<OwnStep>)
      returns (r: Result<()>, ghost steps: Log<OwnStep>)
      requires Fits(job) && OnTrack(job, base, steps0, ClaimModel(pending))
      modifies store
      ensures Fits(job)
      ensures OnTrack(job, base, steps, if r.Ok? then WriteBatch(pending, 0) else ClaimModel(pending))
      ensures r.Err? ==> Blame(job, ClaimModel(pending))
    {
      hide ExecStep, Follows, Sound, Since, Interfered;
      ghost var w, x, was := store.w, At(job, ClaimModel(pending)), store.db;
      steps := steps0;
      HasDoc(w, was, x);
      r := store.EnsureEmbeddingModel(job.assistantId, embedder.model);
      if r.Err? { Stayed(w, steps, was, store.db, x); return; }
      DocStays(w, was, store.history.last.before, job.documentId);
      ModelClaimed(w, store.history.last.before, x, store.history.last.after);
      steps := Took(w, was, base, store.history, At(job, ReadStatus), steps, x, At(job, WriteBatch(pending, 0)));
    }

    /** Write a status; the execution moves to `after`. */
    method MoveStatus(job: Job, status: Status, ghost base: Log<Tx>, ghost steps0: Log<OwnStep>, ghost pc: Pc, ghost after: Pc)
      returns (r: Result<()>, ghost steps: Log<OwnStep>)
      requires Fits(job) && OnTrack(job, base, steps0, pc)
      requires (pc.MarkParsing? && status.PARSING? && after.ReadRef?)
               || (pc.MarkEmbedding? && status.EMBEDDING? && after.ReadPending?)
               || (pc.MarkReady? && status.READY? && after.Done?)
      modifies store
      ensures Fits(job)
      ensures OnTrack(job, base, steps, if r.Ok? then after else pc)
      ensures if r.Ok? then store.StatusIs(job.documentId, status) else Blame(job, pc)
    {
      hide ExecStep, Follows, Sound, Since, Interfered;
      ghost var was := store.db;
      steps := steps0;
      r := store.SetStatus(job.documentId, status);
      if r.Err? { Stayed(store.w, steps, was, store.db, At(job, pc)); return; }
      StatusWritten(store.w, store.history.last.before, At(job, pc), status, after);
      steps := Took(store.w, was, base, store.history, At(job, ReadStatus), steps, At(job, pc), At(job, after));
    }

    /** One unfinished stage: its start status unless already reached, its work, its done status. */
    method RunStage(job: Job, stage: Stage, curRank: nat, doneStatus: Status, ghost base: Log<Tx>, ghost steps0: Log<OwnStep>)
      returns (r: Result<()>, ghost pc: Pc, ghost steps: Log<OwnStep>)
      requires Fits(job)
      requires OnTrack(job, base, steps0, AfterStatus(curRank)) && curRank < Rank(doneStatus)
      requires doneStatus == (if stage == ParseStage then EMBEDDING else READY)
      requires stage == EmbedStage ==> curRank == 2
      modifies store
      ensures Fits(job) && OnTrack(job, base, steps, pc)
      ensures if r.Ok? then pc == AfterStatus(Rank(doneStatus)) && store.StatusIs(job.documentId, doneStatus) else Blame(job, pc)
    {
      hide OnTrack;
      pc, steps := AfterStatus(curRank), steps0;
      if curRank < Rank(StartStatus(stage)) {
        r, steps := MoveStatus(job, StartStatus(stage), base, steps, pc, ReadRef);
        if r.Err? { return; }
        pc := ReadRef;
      }
      if stage == ParseStage {
        r, pc, steps := RunParseStage(job, base, steps);
      } else {
        r, pc, steps := RunEmbedStage(job, base, steps);
      }
      if r.Err? { return; }
      ghost var after := if stage == ParseStage then ReadPending else Done;
      r, steps := MoveStatus(job, doneStatus, base, steps, pc, after);
      if r.Ok? { pc := after; }
    }

    /** One attempt: skip the stages the status says are finished, run the others in
        order, and move the status before and after each. It succeeds only with the
        document complete, whatever the others did meanwhile. */
    method RunIngestion(job: Job)
      returns (r: Result<()>, ghost pc: Pc, ghost steps: Log<OwnStep>)
      requires Fits(job) && DbInv(store.w, store.db)
      modifies store
      ensures Fits(job) && DbInv(store.w, store.db)
      ensures Follows(store.w, old(store.history), store.history, At(job, ReadStatus), steps, At(job, pc))
      ensures if r.Ok? then pc.Done? && Complete(job.documentId) else Blame(job, pc)
    {
      ghost var base := store.history;
      hide ExecStep, Interfered, DbInv, ExecInv;
      r, pc, steps := RunStages(job, base);
      assert Sound(store.w, store.db, At(job, pc));
      if r.Ok? { ReadyIsComplete(store.w, store.db, job.documentId); }
    }

    /** The stage loop. */
    method RunStages(job: Job, ghost base: Log<Tx>)
      returns (r: Result<()>, ghost pc: Pc, ghost steps: Log<OwnStep>)
      requires Fits(job) && base == store.history && DbInv(store.w, store.db)
      modifies store
      ensures Fits(job) && OnTrack(job, base, steps, pc)
      ensures if r.Ok? then pc.Done? && store.StatusIs(job.documentId, READY) else Blame(job, pc)
    {
      hide ExecStep, Interfered, DbInv, ExecInv;
      ghost var x, was := At(job, ReadStatus), store.db;
      pc, steps := ReadStatus, Nil;
      assert OnTrack(job, base, steps, pc);
      hide Follows, Sound, Since;
      var current := store.GetStatus(job.documentId);
      if current.Err? { Stayed(store.w, steps, was, store.db, x); return Err(current.error), pc, steps; }
      if current.value.None? { Stayed(store.w, steps, was, store.db, x); return Err("document not found"), pc, steps; }
      var curRank := Rank(current.value.value);
      StatusRead(store.w, store.history.last.before, x);
      pc := AfterStatus(curRank);
      steps := Took(store.w, was, base, store.history, x, steps, x, At(job, pc));
      hide OnTrack, At, Blame;

      var i := 0;
      while i < |DEFAULT_STAGES|
        invariant 0 <= i <= 2 && Fits(job) && 0 <= curRank <= 3
        invariant (i >= 1 ==> curRank >= 2) && (i == 2 ==> curRank == 3)
        invariant pc == AfterStatus(curRank) && OnTrack(job, base, steps, pc)
        invariant curRank == 3 ==> store.StatusIs(job.documentId, READY)
      {
        var stage := DEFAULT_STAGES[i];
        var doneStatus := if i + 1 < |DEFAULT_STAGES| then StartStatus(DEFAULT_STAGES[i + 1]) else READY;
        if curRank < Rank(doneStatus) {
          r, pc, steps := RunStage(job, stage, curRank, doneStatus, base, steps);
          if r.Err? { return; }
          curRank := Rank(doneStatus);
        }
        i := i + 1;
      }
      r := Ok(());
    }

    lemma ReadyIsComplete(w: World, db: Db, d: DocId)
      requires DbInv(w, db) && d in db.docs && db.docs[d].status.READY?
      ensures AllPresent(w, db, d) && Recorded(w, db, d) && NothingPending(db, d) && db.docs[d].error == None
    {
      assert DocInv(w, db, d);
      hide AllPresent, Recorded, NothingPending, RowInv;
    }

    /** The job has no attempt left. */
    predicate Exhausted(job: Option<Job>, attemptsMade: nat, attempts: Option<nat>) {
      job.Some? && match attempts case None => attemptsMade >= 1 case Some(n) => attemptsMade >= n
    }

    /** The first 2000 characters. */
    ghost function Shortened(message: string): (r: string)
      ensures r <= message && |r| <= 2000 && (|message| <= 2000 ==> r == message) && (|message| > 2000 ==> |r| == 2000)
    {
      message[..if |message| <= MAX_ERROR_LENGTH then |message| else MAX_ERROR_LENGTH]
    }

    /** FAILED only after the last attempt; until then the partial status stays for the retry. */
    method OnFailed(job: Option<Job>, attemptsMade: nat, attempts: Option<nat>, message: string)
      requires store.Valid()
      modifies store
      ensures store.Valid() && (DbInv(store.w, old(store.db)) ==> DbInv(store.w, store.db))
      ensures !Exhausted(job, attemptsMade, attempts) ==> store.history == old(store.history) && store.db == old(store.db)
      ensures store.history == old(store.history) || (
                && store.Committed()
                && MarkedFailed(store.history.last.before, store.db, job.value.documentId, Shortened(message)))
      ensures Exhausted(job, attemptsMade, attempts) && store.healthy ==>
                && store.Committed()
                && var d := job.value.documentId;
                   d in store.db.docs ==>
                     store.db.docs[d].status == READY || (store.db.docs[d].status == FAILED && store.db.docs[d].error == Some(Shortened(message)))
    {
      hide DbInv, Evolves;
      if job.None? { return; }
      if attemptsMade >= attempts.GetOr(1) {
        var length := if |message| <= MAX_ERROR_LENGTH then |message| else MAX_ERROR_LENGTH;
        ghost var was := store.db;
        var marked := store.MarkFailed(job.value.documentId, message[..length]);
        if marked.Ok? && DbInv(store.w, was) {
          MarkFailedKeeps(store.w, store.history.last.before, job.value.documentId, message[..length]);
        }
      }
    }
  }

  function Contents(ids: seq<Key>): (r: seq<Content>)
    ensures |r| == |ids| && forall i :: 0 <= i < |ids| ==> r[i] == ids[i].content
  {
    if ids == [] then [] else [ids[0].content] + Contents(ids[1..])
  }

  lemma VectorsAreGood(w: World, model: Model, ids: seq<Key>, vectors: seq<Vector>)
    requires |vectors| == |ids| && InPlace(w, model, Contents(ids), vectors)
    requires forall j :: 0 <= j < |vectors| ==> ValidVector(vectors[j])
    ensures GoodVectors(w, model, ids, vectors)
  {
    hide ValidVector;
  }
}
