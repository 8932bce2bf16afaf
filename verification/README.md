# Verified model of a document assistant's core

The repository ingests documents into a per-assistant corpus of embedded chunks and answers
questions from it over a token stream. This project models the parts whose correctness spans
functions, processes and machines, and proves what they promise, for all inputs, all runs and
all interleavings.

**Ingestion** (`Corpus`, `IngestProtocol`, `IngestSafety`, `IngestConvergence`, `DocumentStore`,
`Embedder`, `Pipeline`, `Retrieval`). Every database transaction is a function on the rows. The
protocol is a state machine: any number of overlapping executions, each a program counter that
moves by one transaction and may die between any two, next to uploads, failure marks and sweeps.
`DocumentStore` and `Pipeline` are the store class and the worker as written, loops and early
exits included. Before every transaction of the code the other processes may change the rows as
any number of protocol steps may (`IngestProtocol.Interfered`; `IngestSafety.StepsInterfere` proves
that they do no more). Against this interference the code is proved to take only steps of the
machine (`Pipeline.Follows`), to keep the machine's invariant, and to succeed only with its document
complete.

**Text to chunks** (`Text`, `Parsing`, `Assembly`, `Outline`, `Sentences`, `ChunkPlan`, `Chunker`,
`ChunkCoverage`, `ChunkUnique`, `WordConservation`). The Markdown line machine, the assembler, the
heading stack, the sentence splitter and the chunking loop. A chunking result is described by a
plan: which blocks, or which part of a block, each chunk comes from. `ChunkPlan.IsPlan` says what a
plan must obey (order, coverage, caps, maximality), `ChunkPlan.Draft` what the chunk of an entry
is; the loop is proved to produce the drafts of a plan (`ChunkPlan.IsChunking`), and the rules are
proved to leave no choice. The tokenizer is any pair of functions, so caps are on sums of token counts.

**Prompt and citations** (`Sorting`, `PromptFence`, `PromptAssembly`, `Citations`). Ranking, the
greedy budget loop, the fenced printer with a reader that inverts it, and the marker scan.

**Rate limit** (`TokenBucket`). The Lua script on a map of buckets, over reals, and laws over whole
call histories.

**Chat stream** (`Sse`, `ChatRepository`, `ChatServer`, `ChatClient`, `ChatEndToEnd`). The request
handler as a class whose methods are its callbacks, the frame parser that the admin console and the
mobile client share, the client's stream reader and its state machine, and their composition. The
frames are a subset of the event stream format of the WHATWG HTML Living Standard, sections 9.2.5
and 9.2.6.

`hide` statements keep definitions out of a proof that does not need them; they only make proofs
shorter for the verifier.

## What the proofs found

- The script stores the caller's time even when it is older, so a clock that moves both ways is
  refilled twice. Under a given configuration the rate bound holds for calls at given times, for all
  costs and in every window, if and only if in every window the capped gains from call to call are
  at most the refill for the whole time (`TokenBucket.BoundIffInflowFits`). It holds under every
  configuration if and only if the times are monotone, non-decreasing or non-increasing
  (`TokenBucket.BoundIffTheClockIsMonotone`). Whatever the clock does, the grants are at most the
  tokens at the start plus those gains (`TokenBucket.GrantedIsPaidByInflow`).
- A retrieval that returns hits scores vectors of its own model exactly if the claimed model id is
  not empty or the query's is empty too (`Retrieval.OwnModelExactlyUnless`): the guard tests the
  claim for truthiness. A configured empty id makes the failing case reachable if the embedding
  service answers for that id (`Retrieval.ForeignHitIsReachable`).
- The replies of the limiter are decided by the rate alone: a call is granted if and only if no
  window that ends with it is over capacity plus refill (`TokenBucket.GrantedIffAffordable`), and no
  other replies are (`TokenBucket.FairRepliesAreUnique`).
- The test for a refusal changes no done frame: a refusal holds no opening bracket, so it cites
  nothing and is ungrounded without it (`ChatServer.RefusalCitesNothing`).
- A payload with U+2028 or U+2029 is cut short by both frame parsers, because JSON leaves these
  characters in and `.` stops at them (`Sse.RecoveredIffClean`, `Sse.SeparatorCutsPayload`).
- A new question does not clear the error of the last one: `copyWith` keeps a field whose argument
  is null, although the handler passes null (`ChatClient.ChatBloc.OnSend`, `ChatClient.ErrorIffAFailure`).
- The state machine alone would answer a send twice on a stream that is cancelled after its done
  event (`ChatClient.SecondAnswerIff`). The stream reader rules such a stream out: it returns at a
  terminal event, so its stream closes there (`ChatRepository.StreamAnswer`,
  `ChatClient.ReaderRunsBehave`), and every send gets at most one answer
  (`ChatClient.AtMostOneAnswerPerSend`).

## Model

| member | source | states |
|---|---|---|
| Corpus.InsertRows | api/src/worker/document-store.ts:84-102 | skip-duplicates insertion keeps every old row untouched, gives every draft a row, and a new row is the first draft of its content, unembedded and owned by the inserting document |
| Corpus.InsertInBatches | api/src/worker/document-store.ts:92-102 | inserting in batches is inserting at once |
| Corpus.WriteRows | api/src/worker/document-store.ts:152-158 | the unnest update gives each named row its own vector and changes nothing else |
| DocumentStore.InsertBatches | api/src/worker/document-store.ts:94-103 | the batch loop inserts exactly what one insertion would, and `inserted` is the number of new rows |
| DocumentStore.PrismaDocumentStatusStore.GetStatus | api/src/worker/document-store.ts:13-21 | reads the status of the row in one transaction; null only if the row is missing |
| DocumentStore.PrismaDocumentStatusStore.SetStatus | api/src/worker/document-store.ts:23-27 | unguarded write of the status that clears the error and leaves every other field and row; fails on a missing row or a lost connection only |
| DocumentStore.PrismaDocumentStatusStore.MarkFailed | api/src/worker/document-store.ts:29-38 | a present row that is not READY, whatever its status, becomes FAILED with the error and keeps its other fields; a READY or missing row, all other rows, chunks and claims stay |
| DocumentStore.PrismaDocumentStatusStore.SetParseResult | api/src/worker/document-store.ts:50-61 | records page count and warnings, and changes no other field and no other row |
| DocumentStore.PrismaDocumentStatusStore.SaveChunks | api/src/worker/document-store.ts:63-105 | one atomic deduplicating insertion of all drafts with the count of new rows; only a new row with a broken foreign key, or a lost connection, undoes it |
| DocumentStore.PrismaDocumentStatusStore.EnsureEmbeddingModel | api/src/worker/document-store.ts:107-125 | claims the model if none is claimed and leaves every other claim; succeeds only if the claim is this model, and refuses only another claim |
| DocumentStore.PrismaDocumentStatusStore.GetUnembeddedChunks | api/src/worker/document-store.ts:127-139 | lists exactly the document's rows without a vector, each once, ordered by offset |
| DocumentStore.PrismaDocumentStatusStore.SetChunkEmbeddings | api/src/worker/document-store.ts:141-164 | writes each vector onto its row in one transaction |
| DocumentStore.PrismaDocumentStatusStore.ReconcileStuckDocuments | api/prisma/migrations/20260630000000_reconcile_stuck_documents/migration.sql:17-24 | a stale document that is QUEUED, UPLOADED, PARSING or EMBEDDING becomes FAILED with "ingestion timed out" and keeps its other fields, every other row stays, and the result is the number of these documents |
| Pipeline.IngestWorker.RunIngestion | api/src/worker/pipeline.ts:199-227 | whatever the other processes do meanwhile, every transaction of an attempt is a step of the protocol machine and the rows keep its invariant; success means the document is READY with every draft present and none of its rows without a vector; it stops early only where the surroundings fail, the document is gone or the step it is at refuses |
| Pipeline.IngestWorker.RunStage | api/src/worker/pipeline.ts:208-222 | one stage moves the machine from its start status to its done status |
| Pipeline.IngestWorker.RunParseStage | api/src/worker/pipeline.ts:97-132 | the parse stage takes the machine's steps from reading the reference to saved chunks, and refuses exactly blank, unparseable and chunkless documents |
| Pipeline.IngestWorker.RunEmbedStage | api/src/worker/pipeline.ts:138-179 | the embed stage lists, claims before it writes, and writes every batch, or stops for a named reason |
| Pipeline.IngestWorker.WriteBatches | api/src/worker/pipeline.ts:153-178 | batches of 128 are embedded and persisted one after the other until the list is done |
| Pipeline.IngestWorker.WriteNextBatch | api/src/worker/pipeline.ts:154-177 | a batch is written only with as many full-width finite vectors as texts, each the model's vector for its own text |
| Pipeline.IngestWorker.OnFailed | api/src/worker/ingest-worker.ts:48-56 | nothing is written before the last attempt; after it, with a database that can be reached, the document is FAILED with the first 2000 characters of the message, READY or gone, and everything else stays; the invariant of the rows is kept |
| IngestProtocol.Rank | api/src/worker/pipeline.ts:86-92 | the rank of a status is its place in the list UPLOADED, PARSING, EMBEDDING, READY, or 0 outside it |
| Embedder.OpenAIEmbedder.Embed | api/src/providers/openai-embedder.ts:28-45 | one vector per text, in the order of the texts, whatever order the service answers in |
| Embedder.OrderRestored | api/src/providers/openai-embedder.ts:39-42 | sorting an answer by index puts every vector at the place of its text |
| IngestSafety.ExecStepKeeps | api/src/worker/pipeline.ts:94-227 | every transaction of an execution keeps the promises of all rows and its own |
| IngestSafety.NextKeeps | api/src/worker/pipeline.ts:191-197 | every step of the system, sweeps and failure marks included, keeps what every other execution knows |
| IngestSafety.StepsInterfere | api/src/worker/pipeline.ts:191-197 | whatever any executions, uploads, failure marks and sweeps do between two states keeps all that an execution relies on |
| IngestSafety.StatusIsAPromise | api/src/worker/pipeline.ts:199-227 | in every interleaving EMBEDDING and READY mean that every content hash of the document is in the corpus, READY that it owns no row without a vector, and only FAILED carries an error |
| IngestSafety.CorpusIsComplete | api/prisma/schema.prisma:165-166 | when all documents of an assistant are READY every draft of every document has its one row, embedded, whichever document owns it |
| IngestSafety.OneVectorSpace | api/src/worker/document-store.ts:107-125 | every stored vector has 1536 finite entries and was produced by the assistant's claimed model for that content, even with workers on different models |
| IngestSafety.ClaimsAndRowsLast | api/src/worker/document-store.ts:107-125 | a claim never changes, a row never disappears, changes owner or loses its vector |
| IngestConvergence.CrashAndResumeEqualsOneRun | api/src/worker/pipeline.ts:184-197 | any overlapping, dying, retried attempts with failure marks and sweeps between, once READY, leave the rows of one uninterrupted run |
| IngestConvergence.ReadyIsDetermined | api/src/worker/document-store.ts:84-103 | two ways to READY from the same rows end in the same rows, vectors, page count, status, error and claim |
| IngestConvergence.CompletedMeansReady | api/src/worker/pipeline.ts:220-226 | an attempt completes only with its document READY |
| IngestConvergence.UnhinderedCompletes | api/src/worker/pipeline.ts:199-227 | from any point an execution that nothing hinders has a run to READY |
| IngestConvergence.EveryLoneRunEndsReady | api/src/worker/pipeline.ts:199-227 | every run of an unhindered execution alone is bounded, and it stops only with its document READY |
| IngestConvergence.CleanRunExists | api/src/worker/pipeline.ts:199-227 | from any rows one attempt on a parseable document completes, so the comparison above is never empty |
| Retrieval.CheckArguments | api/src/retrieval/retrieve.ts:50-69 | accepts exactly a uuid, a full-width finite query that is not all zeros and a finite k; the result is k rounded down into 1..100 |
| Retrieval.AnsweredExactly | api/src/retrieval/retrieve.ts:50-111 | a query is answered exactly if its arguments are good and the claim is missing, empty or its own model; the hits are as many of the assistant's embedded rows as there are up to k, ordered by their own scores, and no row left out scores higher |
| Retrieval.ScoresOwnModelOnly | api/src/retrieval/retrieve.ts:74-111 | in every reachable state the hits are this assistant's rows with vectors that the query's own model produced for their content, unless the claimed id is empty and the query's is not |
| Retrieval.OwnModelExactlyUnless | api/src/retrieval/retrieve.ts:83-88 | a non-empty result scores the query's own model if and only if the claimed id is not empty or the query's id is empty |
| Retrieval.ScoresClaimedModelOnly | api/src/retrieval/retrieve.ts:74-111 | in every reachable state every hit is an embedded row of the assistant, its vector produced by the claimed model for its content |
| Retrieval.ForeignHitIsReachable | api/src/retrieval/retrieve.ts:83-88 | a run that configures the empty model id leaves a corpus from which a query of any other model gets hits |
| Retrieval.RetrievalExists | api/src/retrieval/retrieve.ts:90-111 | a query that passes the guards has a top-k answer, empty only if nothing is embedded |
| Retrieval.NoClaimNoHits | api/src/retrieval/retrieve.ts:75-79 | without a claimed model there is nothing to retrieve |
| TokenBucket.RedisTokenBucket.Eval | api/src/ratelimit/redis-rate-limiter.ts:18-38 | the script computes the reply and the stored bucket of the call machine, for any stored state and time; what the replies of that machine are is `TokenBucket.GrantedIffAffordable` |
| TokenBucket.RedisTokenBucket.Consume | api/src/ratelimit/redis-rate-limiter.ts:48-59 | one call of cost 1 under the prefixed key, other keys untouched |
| TokenBucket.RedisTokenBucket.Expire | api/src/ratelimit/redis-rate-limiter.ts:36-37 | dropping a key after its time to live changes the level of no key at no later time |
| TokenBucket.FullAfterTtl | api/src/ratelimit/redis-rate-limiter.ts:36-37 | a key whose time to live has run out would be full again |
| TokenBucket.TtlIsExact | api/src/ratelimit/redis-rate-limiter.ts:36-37 | the time to live is the whole milliseconds an empty bucket takes to be full again, and one second |
| TokenBucket.RefillInTwoSteps | api/src/ratelimit/redis-rate-limiter.ts:23-24 | refilling in two steps is refilling in one, cap included |
| TokenBucket.GrantedIsPaidFor | api/src/ratelimit/redis-rate-limiter.ts:18-35 | over any history on a clock that does not go back the granted cost is at most the tokens at its start and the refill since |
| TokenBucket.GrantedIsPaidByInflow | api/src/ratelimit/redis-rate-limiter.ts:18-38 | whatever the clock does, the granted cost of any history is at most the tokens at its start and the capped gains from event to event |
| TokenBucket.GrantedIsPaidForward | api/src/ratelimit/redis-rate-limiter.ts:18-38 | whatever the clock does, the granted cost of any history is at most the tokens at its start and the refill of the forward moves |
| TokenBucket.RateBound | api/src/ratelimit/redis-rate-limiter.ts:18-38 | between any two calls of any history on a clock that does not go back the grants are at most capacity plus refill for the time between |
| TokenBucket.GrantedIffAffordable | api/src/ratelimit/redis-rate-limiter.ts:18-38 | whatever the clock does, a call of any history is granted if and only if in every window that ends with it the grants of the window and its own cost are at most the capacity and the refill of the forward moves |
| TokenBucket.FairRepliesAreUnique | api/src/ratelimit/redis-rate-limiter.ts:18-38 | this decides every reply: no other replies to the same calls have that property |
| TokenBucket.DeniedIffOverTheRate | api/src/ratelimit/redis-rate-limiter.ts:18-38 | the converse of the rate bound: on a clock that does not go back a call is denied if and only if in some window the earlier grants and its cost exceed the capacity and the refill for the time between |
| TokenBucket.LevelIsLeastRoom | api/src/ratelimit/redis-rate-limiter.ts:23-30 | the level is the least of what a full bucket at the start or at any earlier event would have left |
| TokenBucket.GoingBackBreaksEveryConfiguration | api/src/ratelimit/redis-rate-limiter.ts:23-35 | under every configuration a move forward that is taken back can break the bound |
| TokenBucket.BoundIffInflowFits | api/src/ratelimit/redis-rate-limiter.ts:18-38 | under a given configuration the bound holds for calls at given times, for all costs and in every window, if and only if in every window the capped gains from call to call are at most the refill for the whole time |
| TokenBucket.BoundIffTheClockIsMonotone | api/src/ratelimit/redis-rate-limiter.ts:18-38 | for calls at given times the bound holds under every configuration if and only if the times are monotone |
| TokenBucket.DrainingFromFull | api/src/ratelimit/redis-rate-limiter.ts:23-30 | costs that drain a full bucket are all granted: its capacity and every gain afterwards |
| TokenBucket.DroppedCallsAreInvisible | api/src/ratelimit/redis-rate-limiter.ts:23-35 | removing any denied calls from a history changes no other reply |
| TokenBucket.ExpiryIsInvisible | api/src/ratelimit/redis-rate-limiter.ts:35-37 | keys that may vanish after their time to live give the replies of keys that never expire |
| TokenBucket.RetryAfterIsExact | api/src/ratelimit/redis-rate-limiter.ts:31-33 | with no grant in between a call `retry` seconds after a denial is granted and one up to `retry` - 1 seconds after is not |
| TokenBucket.WhenAffordable | api/src/ratelimit/redis-rate-limiter.ts:31-33 | when a bucket short of a cost can pay it, from both sides |
| Text.WordsOfConcat | api/src/ingestion/parsing/assemble.ts:15-17 | where no word is cut the words of a concatenation are those of its parts |
| Text.WordsOfTrim | api/src/ingestion/parsing/assemble.ts:13 | trimming loses no word |
| Text.WordsOfCollapse | api/src/ingestion/parsing/txt.ts:9 | collapsing runs of blanks loses no word |
| Text.WordsOfNormalize | api/src/ingestion/parsing/txt.ts:6 | unifying line ends loses no word |
| Text.TrimTakesSpace | api/src/ingestion/parsing/assemble.ts:13 | trimming takes white space off both ends and nothing else |
| Text.TrimOfPadded | api/src/ingestion/parsing/assemble.ts:13 | all white space around a trimmed text is taken off |
| Text.CollapseOfRun | api/src/ingestion/parsing/txt.ts:9 | a run of blanks and tabs becomes one blank, and every other character stays |
| Text.CollapseOfConcat | api/src/ingestion/parsing/txt.ts:9 | collapsing never reaches over a character that is no blank |
| Text.NormalizedIsItsWords | api/src/ingestion/parsing/txt.ts:9 | a paragraph whose only white space is blanks and tabs comes out as its words, one blank apart |
| Text.NormalizeOfConcat | api/src/ingestion/parsing/txt.ts:6 | line ends are unified one by one, a carriage return and the line feed behind it as one |
| Text.CharacterClasses | api/src/ingestion/parsing/markdown.ts:27-32 | the classes of the regular expressions by code point |
| Parsing.ParseMarkdown | api/src/ingestion/parsing/markdown.ts:10-45 | the line loop with buffer and fence flag yields a heading block for every heading line outside fences and one paragraph for every maximal run of other lines; a warning exactly if there is no block |
| Parsing.BlocksOfRun | api/src/ingestion/parsing/markdown.ts:16-23 | a run of text lines that a heading, a blank line or the end closes is one paragraph |
| Parsing.KindIsExact | api/src/ingestion/parsing/markdown.ts:27-39 | a line is a heading of this level and text exactly if it is outside fences and is made of one to six marks, white space, the text and trailing white space; blank exactly if it is white space outside fences; otherwise text |
| Parsing.FenceIsFence | api/src/ingestion/parsing/markdown.ts:27 | a fence is white space followed by three back ticks or three tildes |
| Parsing.KindsAreExact | api/src/ingestion/parsing/markdown.ts:25-42 | a line lies inside a fence exactly if the number of fences before it is odd |
| Parsing.BlocksAreExact | api/src/ingestion/parsing/markdown.ts:25-44 | a block is a heading exactly where a line is one, with its level and text, in order; all other blocks are body text with the words of the other lines |
| Parsing.ParagraphIsItsWords | api/src/ingestion/parsing/markdown.ts:16-23 | a paragraph of lines with no white space but blanks and tabs is their words, one blank apart |
| Parsing.WordsOfHeading | api/src/ingestion/parsing/markdown.ts:32-35 | a heading line is its marker and the words of its text |
| Parsing.MarkdownKeepsWords | api/src/ingestion/parsing/markdown.ts:25-42 | the words of the blocks are the words of the lines in order, heading markers removed |
| Parsing.OneWordPerHeading | api/src/ingestion/parsing/markdown.ts:32-39 | every heading line loses one word, its marker, and no other line loses any |
| Parsing.NoHeadingsNothingRemoved | api/src/ingestion/parsing/markdown.ts:32-39 | every word of the text remains if and only if no line outside fences is a heading |
| Parsing.ParseTxt | api/src/ingestion/parsing/txt.ts:5-13 | no block is a heading or has a level, every page is 1, and the blocks are exactly the paragraphs that are not blank, trimmed, blanks collapsed; the words of the blocks are the words of the file, in order; a warning exactly if there is no block |
| Parsing.ParagraphsHoldNoBlankLine | api/src/ingestion/parsing/txt.ts:7-8 | no paragraph holds a blank line, and only a text without one is a single paragraph |
| Parsing.ParagraphsMakeUpTheText | api/src/ingestion/parsing/txt.ts:7-8 | the paragraphs and the runs of two or more line ends between them make up the text |
| Parsing.WordsOfSplit | api/src/ingestion/parsing/txt.ts:7-8 | splitting at blank lines loses no word |
| Assembly.Assemble | api/src/ingestion/parsing/assemble.ts:9-21 | the blocks that are not blank, trimmed and in order, tile the text with a blank line between neighbours, and each block's offsets delimit its text |
| Assembly.KeptOfBlock | api/src/ingestion/parsing/assemble.ts:12-18 | a parsed block is dropped exactly if it is white space; otherwise it is trimmed and keeps its page, kind and level |
| Assembly.JoinedRun | api/src/ingestion/parsing/assemble.ts:12-19 | the texts of consecutive blocks joined by blank lines are the text under them |
| Assembly.AssemblyKeepsWords | api/src/ingestion/parsing/assemble.ts:9-21 | the words of the assembled text are those of the parsed blocks |
| Outline.UpdateHeadings | api/src/ingestion/chunking/chunker.ts:19-22 | the pop loop removes exactly the headings of the same or a deeper level, and levels stay strictly increasing |
| Outline.OpenAfter | api/src/ingestion/chunking/chunker.ts:19-22 | one more heading changes the declarative outline exactly as the stack changes |
| Outline.OpenIsOpen | api/src/ingestion/chunking/chunker.ts:18-22 | every heading of the outline is one after which no heading of an equal or smaller level follows |
| Outline.OpenIsNested | api/src/ingestion/chunking/chunker.ts:18-22 | the outline is strictly nested |
| Sentences.SentenceEndIsNext | api/src/ingestion/chunking/chunker.ts:32-46 | the regular expression stops exactly at the next place where white space after a terminator ends |
| Sentences.FindSentences | api/src/ingestion/chunking/chunker.ts:31-45 | the matching loop cuts the block into all its sentences, and its guards never drop one |
| Sentences.SplitOversizedBlock | api/src/ingestion/chunking/chunker.ts:30-71 | the pieces follow each other and make up the block, are whole sentences within the cap or a single sentence, and could not have taken the next sentence |
| Sentences.BoundaryCutsNoWord | api/src/ingestion/chunking/chunker.ts:24-29 | a sentence boundary lies between white space and a word |
| Chunker.ChunkDocument | api/src/ingestion/chunking/chunker.ts:81-142 | the chunks follow a plan that covers the document with capped, maximal entries, and every chunk is exactly the draft of its entry: text, offsets, page, section, header, overlap and token count |
| Chunker.Flush | api/src/ingestion/chunking/chunker.ts:93-111 | a flush adds the chunk of the collected body and keeps its tail, or does nothing |
| Chunker.FlushPieces | api/src/ingestion/chunking/chunker.ts:124-133 | every piece of an oversized block becomes one chunk; no tail is carried into the first |
| ChunkPlan.OutlineMoves | api/src/ingestion/chunking/chunker.ts:113-119 | body blocks keep the outline, a heading changes it as the stack does |
| ChunkPlan.SectionIsThePath | api/src/ingestion/chunking/chunker.ts:18-22 | the path is that of the open headings, joined from the outermost to the innermost: exactly the earlier headings behind which only deeper ones follow, level 1 where none is given |
| ChunkCoverage.ChunksAreExactAndDisjoint | api/src/ingestion/chunking/chunker.ts:93-139 | every chunk's text is the document's text at its offsets, and the offsets are strictly increasing and disjoint |
| ChunkCoverage.ChunksCoverTheBody | api/src/ingestion/chunking/chunker.ts:113-139 | a position of a block lies in a chunk exactly if the block is not a heading |
| ChunkCoverage.HeadingApart | api/src/ingestion/chunking/chunker.ts:113-119 | no chunk overlaps a heading |
| ChunkCoverage.SectionIsTheOutline | api/src/ingestion/chunking/chunker.ts:93-104 | a chunk's section is the path, with " > " between, of exactly the earlier headings behind which only deeper ones follow, and its page that of its first block |
| ChunkCoverage.ContentIsHeaderTailText | api/src/ingestion/chunking/chunker.ts:93-111 | what is embedded is exactly the section in its header, the tail of the chunk before unless the chunk is the first, a heading lies between or it starts an oversized block, and the text; the token count is of that |
| ChunkCoverage.NothingBleedsAcrossHeadings | api/src/ingestion/chunking/chunker.ts:114-116 | the first chunk and one that a heading separates from the chunk before embed only their header and their own text |
| ChunkCoverage.ChunkCutsNoWord | api/src/ingestion/chunking/chunker.ts:24-71 | no chunk starts or ends inside a word, pieces of oversized blocks included |
| ChunkUnique.PlanIsUnique | api/src/ingestion/chunking/chunker.ts:113-139 | order, coverage, caps and maximality determine the plan |
| ChunkUnique.ChunksAreUnique | api/src/ingestion/chunking/chunker.ts:81-142 | so the promised properties determine every chunk |
| WordConservation.ChunkingKeepsWords | api/src/ingestion/chunking/chunker.ts:81-142 | the words under headings and chunks, merged by offset, are the words of the document |
| WordConservation.ChunksHoldTheBody | api/src/ingestion/chunking/chunker.ts:113-142 | the words of the chunks alone are exactly the words of the body blocks, in order |
| WordConservation.MergeOrders | api/src/ingestion/chunking/chunker.ts:113-139 | headings and chunks never overlap, so merging them by offset gives an ordered list |
| WordConservation.ChunkMarkdown | api/src/worker/pipeline.ts:103-117 | parse, assemble and chunk a Markdown file: its headings are exactly its heading lines, the words of the chunks alone are exactly the words of all other lines, and there is a chunk exactly if there is such a word; all words come out in order, and every chunk is anchored |
| WordConservation.ChunkTxt | api/src/worker/pipeline.ts:103-117 | the same for a text file: the words of the chunks alone are the words of the file, and there is a chunk unless the file is blank |
| Sorting.SortForgetsOrder | api/src/chat/prompt-assembly.ts:86-92 | sorting permutations of a list without ties gives one list |
| PromptFence.FieldIsSafe | api/src/chat/prompt-assembly.ts:43-48 | a header field holds no quote and no line end |
| PromptFence.FieldKeepsInk | api/src/chat/prompt-assembly.ts:46-48 | a header field loses nothing but white space and quotes |
| PromptFence.FieldKeepsWords | api/src/chat/prompt-assembly.ts:46-48 | a header field has the words of its title or section, each without its quotes, so no two words run together |
| PromptFence.HeaderReadsBack | api/src/chat/prompt-assembly.ts:50-58 | a reader that looks for the next delimiter recovers every field of the header for any values |
| PromptFence.HeaderSaysTheSource | api/src/chat/prompt-assembly.ts:50-58 | what is read is what the source is: a numeral of its own marker, a page exactly if it has one and then the numeral of that integer, sign included, a section exactly if it is not empty, and the words of its title and section without quotes |
| PromptFence.HeaderLayout | api/src/chat/prompt-assembly.ts:57 | the header line is these fields and the fixed punctuation, and nothing else |
| PromptFence.NeutralizedHasNoTag | api/src/chat/prompt-assembly.ts:60-67 | neutralized content holds no opening or closing tag in any letter case |
| PromptFence.Neutralize | api/src/chat/prompt-assembly.ts:64-67 | neutralizing keeps the length |
| PromptFence.NeutralizeIsLocal | api/src/chat/prompt-assembly.ts:64-67 | outside tags every character stays at its place |
| PromptFence.NeutralizeTakesTags | api/src/chat/prompt-assembly.ts:64-66 | every tag, wherever it stands, becomes "[source]" or "[/source]" at its place |
| PromptFence.TagIs | api/src/chat/prompt-assembly.ts:65 | a tag is one of the two fence tags, each letter in either case |
| PromptFence.EntryLayout | api/src/chat/prompt-assembly.ts:64-71 | an entry is its header line and the neutralized content between the two tags, each on a line of its own |
| PromptFence.NeutralizeChangesOnlyTags | api/src/chat/prompt-assembly.ts:64-67 | content without tags is left as it is |
| PromptFence.PrintedReadsBack | api/src/chat/prompt-assembly.ts:69-71 | reading headers up to a line end and bodies up to the closing tag recovers exactly the printed list |
| PromptAssembly.AssembleContext | api/src/chat/prompt-assembly.ts:80-129 | the sources are a prefix of the ranked hits with markers from 1, within the cap, ending early only where the next entry would not fit, within budget when two or more, the first truncated if it alone is too long; the text is their printed block and the total its token count |
| PromptAssembly.SourcesAreHits | api/src/chat/prompt-assembly.ts:94-124 | source i is hit i of the ranking with marker i + 1 and the hit's own ids, title, page, section, offsets and score; its content is the hit's, except that a first entry over the budget is cut to the tokens that its header and fence leave, to one at least |
| PromptAssembly.RankedHits | api/src/chat/prompt-assembly.ts:86-92 | the ranking holds all hits; of any two the earlier has the higher score, at equal scores the smaller document id, then the smaller offset with 0 for a missing one, then the smaller id |
| PromptAssembly.SelectionIsUnique | api/src/chat/prompt-assembly.ts:94-125 | ranking, cap and budget determine the sources |
| PromptAssembly.HitOrderIsIrrelevant | api/src/chat/prompt-assembly.ts:73-92 | any permutation of the hits gives the same sources and text |
| PromptAssembly.RankingIsAnOrder | api/src/chat/prompt-assembly.ts:86-92 | the comparator is a total preorder for any consistent string comparison |
| PromptAssembly.RankingHasNoTies | api/src/chat/prompt-assembly.ts:86-92 | hits with distinct ids never tie |
| PromptAssembly.SourcesAreTheBest | api/src/chat/prompt-assembly.ts:86-98 | no hit left out scores higher than a source, and scores do not rise along the markers |
| PromptAssembly.BlockReadsBack | api/src/chat/prompt-assembly.ts:127 | the sources block decodes to exactly the printed entries |
| PromptAssembly.BlockSaysTheSources | api/src/chat/prompt-assembly.ts:50-127 | entry i of the block says the marker, page, title and section of source i, and holds its neutralized content |
| Citations.CitedMarkers | api/src/chat/citations.ts:24-30 | the scan finds exactly the numbers that stand in square brackets |
| Citations.BuildCitations | api/src/chat/citations.ts:38-52 | the citations of exactly the cited sources, in the order of the sources |
| Citations.CitationsAreExact | api/src/chat/citations.ts:32-52 | each cited source once, ascending, with the source's own marker, document, title, place and the first 300 characters of its content; a number without a source yields nothing |
| Citations.MarkerRoundTrip | api/src/chat/prompt-assembly.ts:57 | an answer that repeats a header's number in brackets cites that source |
| Citations.CitesIffBracketed | api/src/chat/citations.ts:22-30 | an answer cites m exactly where it holds the decimal numeral of m, zeros in front allowed, in square brackets |
| Sse.ParseSseFrames | admin/lib/sse.ts:12-24 | the loop yields the frames of all stretches that blank lines end, comments skipped, and the partial rest |
| Sse.StretchYields | mobile/lib/core/network/sse_parser.dart:16-34 | a stretch that starts with a colon yields nothing; any other yields the first event line, or "message" without one, and the first data line, or nothing, each up to a line terminator |
| Sse.ParseInTwo | mobile/lib/core/network/sse_parser.dart:21-35 | parsing two chunks with the rest carried over is parsing both at once |
| Sse.CutsAreInvisible | mobile/lib/features/chat/data/chat_repository.dart:31-38 | however a stream is cut, the frames are those of the whole |
| Sse.RecoveredIffClean | api/src/routes/chat.ts:39-40 | the client recovers exactly the frames sent, pings apart, if and only if no event or payload holds a line terminator |
| Sse.SeparatorCutsPayload | admin/lib/sse.ts:19-20 | a payload with U+2028 arrives cut at it |
| ChatRepository.StreamAnswer | mobile/lib/features/chat/data/chat_repository.dart:31-65 | for any chunks the events are the decoded frames of the whole stream, malformed ones skipped, up to the first terminal one; a failure of the response comes through only if there was no terminal event |
| ChatRepository.DeliverFrames | mobile/lib/features/chat/data/chat_repository.dart:39-63 | one chunk's frames are decoded in order until a terminal one |
| ChatRepository.UnreadableIsSkipped | mobile/lib/features/chat/data/chat_repository.dart:40-58 | a frame of an unknown kind or with a malformed payload is passed over, wherever it stands |
| ChatRepository.FirstFrame | mobile/lib/features/chat/data/chat_repository.dart:42-62 | a token frame is a token event, a done frame and an error frame are the terminal events that end the stream |
| ChatRepository.OneTerminal | mobile/lib/features/chat/data/chat_repository.dart:60-62 | only the last event can be terminal |
| ChatServer.Refuses | api/src/chat/refusal.ts:25-37 | on hits ranked best first the gate refuses exactly if none reaches the threshold |
| ChatServer.RefusesIffNothingReaches | api/src/chat/refusal.ts:19-37 | on the hits of an exact top-k retrieval the gate refuses exactly if no embedded chunk of the assistant's whole corpus reaches the threshold |
| ChatServer.ChatRequest.SafeWrite | api/src/routes/chat.ts:83-86 | nothing is written once the stream is closed |
| ChatServer.ChatRequest.End | api/src/routes/chat.ts:110-116 | ends once and stops both timers |
| ChatServer.ChatRequest.OnClose | api/src/routes/chat.ts:120-127 | a disconnect aborts upstream and closes without a frame |
| ChatServer.ChatRequest.OnLoaded | api/src/routes/chat.ts:134-174 | a missing or unpublished assistant is a plain status; otherwise the stream and its timers start |
| ChatServer.ChatRequest.OnTimeout | api/src/routes/chat.ts:167-174 | an error frame, if the stream is open, then nothing |
| ChatServer.ChatRequest.OnRetrieved | api/src/routes/chat.ts:176-204 | a refusal is one token frame and an ungrounded done frame; otherwise the sources are the selection from these hits |
| ChatServer.ChatRequest.OnText | api/src/routes/chat.ts:218-224 | a token frame and a longer answer, with a wait when the socket is full |
| ChatServer.ChatRequest.OnUpstreamError | api/src/routes/chat.ts:225-229 | one error frame that ends the stream |
| ChatServer.ChatRequest.OnGenerated | api/src/routes/chat.ts:232-249 | one done frame with the citations of the sources the streamed text cites, grounded exactly if there are any; a refusal cites none |
| ChatServer.RefusedExactly | api/src/routes/chat.ts:234 | an answer is a refusal exactly if it is the refusal message with any white space around it |
| ChatServer.RefusalCitesNothing | api/src/routes/chat.ts:234-237 | a refusal cites no source |
| ChatServer.DoneFrameIsExact | api/src/routes/chat.ts:235-247 | a done frame is grounded exactly if the text holds the number of a source in square brackets, and cites exactly the sources whose numbers it holds, each described by its own fields |
| ChatServer.MarkedAnswerIsGrounded | api/src/routes/chat.ts:235-247 | a text with the decimal number of a source in square brackets, anywhere, is grounded and cites that source |
| ChatServer.ChatRequest.OnException | api/src/routes/chat.ts:250-261 | a plain 503 before the headers, one error frame after them, nothing once closed |
| ChatServer.Serve | api/src/routes/chat.ts:79-261 | every run in any order of events writes tokens and pings, then at most one done or error frame, then nothing; the streamed text is exactly what the model produced while the request was generating and open, or the refusal of the gate; it ends with the frame of the first thing that ended it; a done frame tells the truth about the streamed text, with ascending citations; the sources are numbered from 1 and selected from hits that arrived; without a stream nothing is written |
| ChatServer.GeneratedEndsInDone | api/src/routes/chat.ts:232-249 | a model that gets to its end while the request is open is answered with a done frame, and the text before is the whole answer |
| ChatServer.FirstEndCounts | api/src/routes/chat.ts:83-116 | nothing that happens behind the first end adds text or another end |
| ChatClient.ChatBloc.OnSend | mobile/lib/features/chat/bloc/chat_bloc.dart:39-52 | one user message is added, the stream that still runs is superseded, and an old error stays: the whole new state |
| ChatClient.ChatBloc.OnEvent | mobile/lib/features/chat/bloc/chat_bloc.dart:62-83 | the whole new state for each kind of event of the latest stream; events of a superseded stream change nothing |
| ChatClient.ChatBloc.EmitAnswer | mobile/lib/features/chat/bloc/chat_bloc.dart:28-37 | the answer so far becomes an assistant message with its citations, and nothing is left streaming |
| ChatClient.ChatBloc.OnStreamEnd | mobile/lib/features/chat/bloc/chat_bloc.dart:85-86 | a stream that ends without a terminal frame becomes an ungrounded message with the text so far; behind a terminal frame nothing changes |
| ChatClient.ChatBloc.OnStreamFailure | mobile/lib/features/chat/bloc/chat_bloc.dart:87-98 | a cancellation completes the turn, once more if a terminal event came before; any other failure leaves no answer and its own error text |
| ChatClient.ChatBloc.OnCancel | mobile/lib/features/chat/bloc/chat_bloc.dart:101-103 | cancelling alone changes no state |
| ChatClient.Converse | mobile/lib/features/chat/bloc/chat_bloc.dart:28-103 | in every run the transcript is one user message for every send and its answers with the concatenated tokens, at most one if no stream fails behind its terminal event; each turn depends only on its own stream before the next send, the error is that of the last failure, the status that of the last turn, and nothing is shown as streaming outside streaming |
| ChatClient.SecondAnswerIff | mobile/lib/features/chat/bloc/chat_bloc.dart:85-90 | the state machine alone gives a turn at most two answers, and two exactly if a cancellation hits its stream after a done event and before the stream ended |
| ChatClient.UnfinishedTurn | mobile/lib/features/chat/bloc/chat_bloc.dart:85-98 | a stream that closes or is cancelled before any terminal event leaves exactly one message, with the tokens so far, no citations and ungrounded; one that fails otherwise leaves none, and its error; nothing later changes that |
| ChatClient.AtMostOneAnswerPerSend | mobile/lib/features/chat/bloc/chat_bloc.dart:39-98 | with the streams the reader makes every send adds one user message and at most one assistant message |
| ChatClient.ReaderRunsBehave | mobile/lib/features/chat/data/chat_repository.dart:58-62 | in streams the reader makes, cut by superseding sends and interleaved at will, no event and no failure comes behind a terminal event |
| ChatClient.ErrorIffAFailure | mobile/lib/features/chat/bloc/chat_state.dart:35-48 | an error is shown at the end of a run exactly if some turn ever failed |
| ChatEndToEnd.ClientSeesWhatWasWritten | mobile/lib/features/chat/data/chat_repository.dart:31-63 | for payloads without line terminators the client's events are the server's tokens and final frame, however the response is cut |
| ChatEndToEnd.CutResponseIsAPrefix | api/src/routes/chat.ts:120-174 | wherever a disconnect or the timeout cuts the response, the client sees a beginning of what it would have seen |
| ChatEndToEnd.CutAnswerIsABeginning | mobile/lib/features/chat/bloc/chat_bloc.dart:60-90 | an answer that a broken connection leaves unfinished is a beginning of the server's text |
| ChatEndToEnd.AnswerReachesTheTranscript | api/src/routes/chat.ts:232-247 | a run that ends in a done frame leaves one assistant message: the streamed text with the citations of exactly the sources it cites, grounded exactly if there are any |
| ChatEndToEnd.ModelTextReachesTheTranscript | api/src/routes/chat.ts:206-249 | a request answered with a done frame leaves one assistant message: the text the model produced while it was open, or the refusal, with the citations of exactly the sources it cites, grounded exactly if there are any |
| ChatEndToEnd.MarkerReachesTheTranscript | api/src/routes/chat.ts:206-249 | if the model's text holds the number of a source in square brackets, the message on the screen is grounded and carries a citation with that source's marker, document, title, place and snippet |

## Left out

- Document deletion: a shared row cascades with the document that first inserted it, so completeness does not hold once deletes are allowed; uploads, sweeps and failure marks are modelled.
- Tenants and row level security: the rows of one tenant are modelled; random row ids and created times are not.
- Content hashes: a chunk row is identified by its content, as if the hash were injective.
- DocumentStore.PrismaDocumentStatusStore.SetChunkEmbeddings: does not model the heartbeat on the document's updated time, because no time is modelled for rows.
- DocumentStore.PrismaDocumentStatusStore.ReconcileStuckDocuments: takes the stale documents as a parameter for the same reason, so it may sweep any document on its way, also a live one.
- DocumentStore.PrismaDocumentStatusStore.Others: stands for all transactions of other processes and allows any change that keeps what the protocol's steps are proved to keep.
- Embedder.OpenAIEmbedder.Embed: takes an answer with missing or repeated indices for a failed call, where the program passes it on and only the number of vectors is checked later; the order of the vectors rests on the service's promise.
- Pipeline.IngestWorker.RunIngestion: runs the default stages; with them the final status write after the loop is never reached and is left out, and other stage lists are not modelled.
- Pipeline.IngestWorker.EmbedWithRetry: delays and the choice of retryable errors are left to chance.
- Parsing and chunking inside the protocol are one deterministic function of the document; they are modelled on their own from the decoded text on.
- UTF-8 decoding, PDF and DOCX: the parsers start from text. A character is a Unicode scalar value, and offsets count these where the program counts UTF-16 code units.
- Sentences.SplitOversizedBlock: the fallback for a block without pieces and, in the chunking loop, the test for a blank block can never apply to an assembled document and are left out.
- TokenBucket.RedisTokenBucket.Eval: numbers are reals; rounding and the conversion of numbers to text in Lua are not modelled.
- Scores that are not finite: the ranking and the threshold gate are over reals.
- PromptAssembly.AssembleContext: bounds the sum of the entries' token counts, not the token count of the joined block, which the code calls approximate, and does not say how far a truncated single source may overshoot the budget.
- Citations.CitedMarkers: numbers are exact where the program reads them as floating-point numbers; they differ only beyond 2^53.
- The JSON text: encoding and decoding are functions; that decoding undoes encoding, and that payloads hold no line terminator, are hypotheses of the end-to-end lemmas.
- ChatServer: authentication, request validation and the rate limit before the handler; the abort signal reaches the model, but what the model does with it is any sequence of events.
- ChatClient.ChatBloc.OnEvent: is not called behind a terminal event, which the stream reader never delivers (`ChatClient.ReaderRunsBehave`).
- ChatServer.RefusesIffNothingReaches: takes the index scan as exact, as `Retrieval.Retrieves` does; the program's scan is approximate and has a limit on the rows it visits.
- Prompt grounding text, status labels, error sanitizing, object storage, queues and user interfaces: plumbing around what is modelled, or easy members.
