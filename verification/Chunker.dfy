/** The chunking loop, proved to follow a plan. */
module Chunker {
  import opened Text
  import opened Assembly
  import opened Outline
  import opened Sentences
  import opened Corpus
  import opened ChunkPlan

  /** The body blocks hold exactly the text of the entry. */
  ghost predicate Holds(job: ChunkJob, o: Origin, body: seq<AnchoredBlock>) {
    && InBounds(job.doc.blocks, o) && body != []
    && body[0].charStart == CharStart(job.doc.blocks, o)
    && body[|body| - 1].charEnd == CharEnd(job.doc.blocks, o)
    && body[0].page == job.doc.blocks[Start(o).block].page
    && Join(BlockTexts(body), GAP) == TextOf(job.doc, o)
  }

  /** The entry can be added to the plan, and the variables say what its chunk needs. */
  ghost predicate CanFlush(job: ChunkJob, plan: seq<Origin>, o: Origin, headings: seq<HeadingRef>, overlap: string) {
    var prev := Before(plan, |plan|);
    && IsPlan(job, plan, Start(o)) && IsOrigin(job, o)
    && (plan != [] ==> Maximal(job, plan[|plan| - 1], o))
    && (prev.Some? ==> InBounds(job.doc.blocks, prev.value))
    && Start(o).block <= |job.doc.blocks| && headings == OutlineAt(job.doc.blocks, Start(o).block)
    && overlap == Overlap(job, prev, o)
  }

  lemma FlushedDraft(job: ChunkJob, plan: seq<Origin>, o: Origin, headings: seq<HeadingRef>, body: seq<AnchoredBlock>, overlap: string)
    requires CanFlush(job, plan, o, headings, overlap) && Holds(job, o, body)
    ensures IsDraft(job, Before(plan, |plan|), o, Flushed(job, headings, body, overlap))
    ensures IsPlan(job, plan + [o], End(job.doc.blocks, o))
    ensures Join(BlockTexts(body), GAP) == TextOf(job.doc, o)
  {
    hide IsPlan, IsOrigin, Join, BlockTexts, OutlineAt, SectionPath, ContentOf, Overlap, TextOf, CharStart, CharEnd, Maximal;
    PlanGrows(job, plan, o);
  }

  /** The chunk of the collected body blocks. */
  function Flushed(job: ChunkJob, headings: seq<HeadingRef>, body: seq<AnchoredBlock>, overlap: string): ChunkDraft
    requires body != []
  {
    var section := SectionPath(headings);
    var text := Join(BlockTexts(body), GAP);
    var content := ContentOf(section, overlap, text);
    ChunkDraft(content, text, body[0].page, section, body[0].charStart, body[|body| - 1].charEnd, job.tokens.count(content))
  }

  /** Turns the collected body into a chunk, if there is any, and keeps its tail. */
  method Flush(job: ChunkJob, ghost plan: seq<Origin>, ghost o: Origin, chunks: seq<ChunkDraft>,
               headings: seq<HeadingRef>, body: seq<AnchoredBlock>, overlap: string)
    returns (after: seq<ChunkDraft>, tail: string, ghost planned: seq<Origin>)
    requires AreDrafts(job, plan, chunks)
    requires body != [] ==> CanFlush(job, plan, o, headings, overlap) && Holds(job, o, body)
    ensures AreDrafts(job, planned, after)
    ensures body == [] ==> after == chunks && tail == overlap && planned == plan
    ensures body != [] ==> planned == plan + [o] && IsPlan(job, planned, End(job.doc.blocks, o))
    ensures body != [] ==> InBounds(job.doc.blocks, o)
    ensures body != [] ==> tail == job.tokens.takeLast(TextOf(job.doc, o), job.options.overlapTokens)
  {
    hide CanFlush, IsPlan, AreDrafts, Join, IsDraft;
    if body == [] { return chunks, overlap, plan; }
    FlushedDraft(job, plan, o, headings, body, overlap);
    var text := Join(BlockTexts(body), GAP);
    DraftsGrow(job, plan, chunks, o, Flushed(job, headings, body, overlap));
    after := chunks + [Flushed(job, headings, body, overlap)];
    tail := job.tokens.takeLast(text, job.options.overlapTokens);
    planned := plan + [o];
  }

  // ----- What the loop keeps -----

  /** The plan reaches the pending run [lo, i), which is one or empty. */
  ghost predicate Cut(job: ChunkJob, plan: seq<Origin>, lo: nat, i: nat) {
    && lo <= i <= |job.doc.blocks|
    && IsPlan(job, plan, Pos(lo, 0))
    && (lo < i ==> IsBlockRun(job, lo, i) && (plan != [] ==> Maximal(job, plan[|plan| - 1], Run(lo, i))))
    && (lo == i ==> NoRunEndsAt(plan, i))
  }

  ghost predicate NoRunEndsAt(plan: seq<Origin>, i: nat) {
    plan != [] && plan[|plan| - 1].Run? ==> plan[|plan| - 1].hi != i
  }

  ghost predicate Carries(job: ChunkJob, plan: seq<Origin>, pos: Pos, overlap: string) {
    var prev := Before(plan, |plan|);
    && (prev.Some? ==> InBounds(job.doc.blocks, prev.value))
    && overlap == Carried(job, prev, pos)
  }

  /** No heading lies in the pending run. */
  ghost predicate Outlined(job: ChunkJob, headings: seq<HeadingRef>, lo: nat, i: nat) {
    && lo <= i <= |job.doc.blocks|
    && headings == OutlineAt(job.doc.blocks, i) == OutlineAt(job.doc.blocks, lo)
  }

  lemma RunHolds(job: ChunkJob, lo: nat, i: nat)
    requires IsAssembled(job.doc) && IsBlockRun(job, lo, i)
    ensures Holds(job, Run(lo, i), job.doc.blocks[lo..i])
  {
    hide Join, Anchored, Adjacent, IsBlockRun;
    assert lo < i <= |job.doc.blocks| by { RunBounds(job, lo, i); }
    JoinedRun(job.doc.text, job.doc.blocks, lo, i);
  }

  lemma RunBounds(job: ChunkJob, lo: nat, i: nat)
    requires IsBlockRun(job, lo, i)
    ensures lo < i <= |job.doc.blocks|
  {
  }

  lemma RunCanFlush(job: ChunkJob, plan: seq<Origin>, headings: seq<HeadingRef>, overlap: string, lo: nat, i: nat)
    requires lo < i && Cut(job, plan, lo, i) && Outlined(job, headings, lo, i) && Carries(job, plan, Pos(lo, 0), overlap)
    ensures CanFlush(job, plan, Run(lo, i), headings, overlap)
  {
    hide IsPlan, IsBlockRun, OutlineAt, Maximal, Carried;
  }

  /** After a flush at block i the plan ends there. */
  ghost predicate FlushedAt(job: ChunkJob, plan: seq<Origin>, i: nat, overlap: string) {
    && i <= |job.doc.blocks|
    && IsPlan(job, plan, Pos(i, 0))
    && Carries(job, plan, Pos(i, 0), overlap)
  }

  lemma FlushEmpty(job: ChunkJob, plan: seq<Origin>, overlap: string, i: nat)
    requires Cut(job, plan, i, i) && Carries(job, plan, Pos(i, 0), overlap)
    ensures FlushedAt(job, plan, i, overlap)
  {
    hide IsPlan, Carries;
  }

  lemma FlushFull(job: ChunkJob, plan: seq<Origin>, o: Origin, overlap: string)
    requires IsPlan(job, plan + [o], End(job.doc.blocks, o)) && InBounds(job.doc.blocks, o)
    requires overlap == job.tokens.takeLast(TextOf(job.doc, o), job.options.overlapTokens)
    ensures Carries(job, plan + [o], End(job.doc.blocks, o), overlap)
  {
    hide IsPlan, TextOf;
    BeforeStays(plan, o);
  }

  lemma ReachedInOrder(job: ChunkJob, plan: seq<Origin>, k: nat)
    requires IsPlan(job, plan, Pos(k, 0)) && plan != []
    ensures End(job.doc.blocks, plan[|plan| - 1]).block <= k
  {
    hide IsEntry;
  }

  lemma PassHeading(job: ChunkJob, plan: seq<Origin>, i: nat, overlap: string)
    requires FlushedAt(job, plan, i, overlap) && i < |job.doc.blocks| && job.doc.blocks[i].heading
    ensures Cut(job, plan, i + 1, i + 1) && Carries(job, plan, Pos(i + 1, 0), "")
  {
    PlanSkipsHeading(job, plan, i);
    hide IsPlan, TextOf;
    if plan != [] { ReachedInOrder(job, plan, i); }
  }

  lemma PassHeadingOutline(job: ChunkJob, headings: seq<HeadingRef>, lo: nat, i: nat)
    requires Outlined(job, headings, lo, i) && i < |job.doc.blocks| && job.doc.blocks[i].heading
    ensures Nested(headings)
    ensures Outlined(job, Above(headings, job.doc.blocks[i].level.GetOr(1))
                          + [HeadingRef(job.doc.blocks[i].level.GetOr(1), job.doc.blocks[i].text)], i + 1, i + 1)
  {
    hide OutlineAt, Above, Nested;
    OutlineMoves(job.doc.blocks, i);
  }

  lemma OutlineStays(job: ChunkJob, headings: seq<HeadingRef>, lo: nat, i: nat)
    requires Outlined(job, headings, lo, i) && i < |job.doc.blocks| && !job.doc.blocks[i].heading
    ensures Outlined(job, headings, lo, i + 1) && Outlined(job, headings, i, i + 1)
  {
    hide OutlineAt;
    OutlineMoves(job.doc.blocks, i);
  }

  ghost predicate FitsCap(job: ChunkJob, i: nat) {
    && i < |job.doc.blocks| && !job.doc.blocks[i].heading
    && job.tokens.count(job.doc.blocks[i].text) <= job.options.maxTokens
  }

  /** The block joins the pending run. */
  lemma PushOnto(job: ChunkJob, plan: seq<Origin>, lo: nat, i: nat)
    requires Cut(job, plan, lo, i) && FitsCap(job, i) 
    requires BlockSum(job.tokens.count, job.doc.blocks, lo, i) + job.tokens.count(job.doc.blocks[i].text) <= job.options.maxTokens
    ensures Cut(job, plan, lo, i + 1)
    ensures BlockSum(job.tokens.count, job.doc.blocks, lo, i + 1)
            == BlockSum(job.tokens.count, job.doc.blocks, lo, i) + job.tokens.count(job.doc.blocks[i].text)
  {
    hide IsPlan;
  }

  /** The block starts a new run because the pending one, just flushed, has no room. */
  lemma PushAfter(job: ChunkJob, plan: seq<Origin>, lo: nat, i: nat)
    requires lo < i && FitsCap(job, i) && IsPlan(job, plan + [Run(lo, i)], Pos(i, 0))
    requires BlockSum(job.tokens.count, job.doc.blocks, lo, i) + job.tokens.count(job.doc.blocks[i].text) > job.options.maxTokens
    ensures Cut(job, plan + [Run(lo, i)], i, i + 1)
    ensures BlockSum(job.tokens.count, job.doc.blocks, i, i + 1) == job.tokens.count(job.doc.blocks[i].text)
  {
    hide IsPlan;
    assert BlockSum(job.tokens.count, job.doc.blocks, i, i) == 0;
  }

  lemma SumOfNone(job: ChunkJob, i: nat)
    requires i <= |job.doc.blocks|
    ensures BlockSum(job.tokens.count, job.doc.blocks, i, i) == 0
  {
  }

  lemma AtStart(job: ChunkJob)
    ensures Cut(job, [], 0, 0) && AreDrafts(job, [], []) && Carries(job, [], Pos(0, 0), "") && Outlined(job, [], 0, 0)
  {
    EmptyPlan(job);
    assert job.doc.blocks[..0] == [];
  }

  // ----- The pieces of an oversized block -----

  /** Where the plan is once the first `done` characters of block b are in chunks. */
  function PlaceIn(job: ChunkJob, b: nat, done: nat): Pos
    requires b < |job.doc.blocks|
  {
    if done < |job.doc.blocks[b].text| then Pos(b, done) else Pos(b + 1, 0)
  }

  ghost predicate Slicing(job: ChunkJob, plan: seq<Origin>, b: nat, done: nat, overlap: string) {
    && b < |job.doc.blocks|
    && IsPlan(job, plan, PlaceIn(job, b, done))
    && (done == 0 ==> overlap == "")
    && (done > 0 ==> plan != [] && plan[|plan| - 1].Slice?)
    && (done > 0 ==> Carries(job, plan, PlaceIn(job, b, done), overlap))
  }

  ghost predicate Oversized(job: ChunkJob, b: nat) {
    && b < |job.doc.blocks| && !job.doc.blocks[b].heading
    && job.tokens.count(job.doc.blocks[b].text) > job.options.maxTokens
    && Anchored(job.doc.text, job.doc.blocks[b])
  }

  lemma StartSlicing(job: ChunkJob, plan: seq<Origin>, b: nat, overlap: string)
    requires Oversized(job, b) && FlushedAt(job, plan, b, overlap)
    ensures Slicing(job, plan, b, 0, "")
  {
    hide IsPlan, Trimmed;
    assert job.doc.blocks[b].text != "";
  }

  lemma SliceCanFlush(job: ChunkJob, plan: seq<Origin>, b: nat, overlap: string, headings: seq<HeadingRef>, sub: AnchoredBlock, from: nat, to: nat)
    requires Oversized(job, b) && Slicing(job, plan, b, from, overlap)
    requires b < |job.doc.blocks| && headings == OutlineAt(job.doc.blocks, b)
    requires sub.charStart == job.doc.blocks[b].charStart + from && sub.charEnd == job.doc.blocks[b].charStart + to
    requires IsPieceOf(job.tokens.count, job.options.maxTokens, job.doc.blocks[b], sub)
    requires forall j :: 0 <= j < |plan| ==> InBounds(job.doc.blocks, plan[j])
    ensures CanFlush(job, plan, Slice(b, from, to), headings, overlap)
  {
    hide OutlineAt, TextOf, Maximal, IsEntry, Boundary, SentenceSum, SentenceEnd, Trimmed, IsPlan;
    assert Maximal(job, Slice(b, 0, 0), Slice(b, from, to)) by { SlicesAreMaximal(job, Slice(b, 0, 0), b, from, to); }
    if plan != [] { SlicesAreMaximal(job, plan[|plan| - 1], b, from, to); }
    assert from < |job.doc.blocks[b].text|;
  }

  lemma SlicesAreMaximal(job: ChunkJob, o: Origin, b: nat, from: nat, to: nat)
    ensures Maximal(job, o, Slice(b, from, to))
  {
  }

  /** The text of a piece is the document's text at its offsets. */
  lemma SliceHolds(job: ChunkJob, b: nat, sub: AnchoredBlock, from: nat, to: nat)
    requires Oversized(job, b)
    requires sub.charStart == job.doc.blocks[b].charStart + from && sub.charEnd == job.doc.blocks[b].charStart + to
    requires IsPieceOf(job.tokens.count, job.options.maxTokens, job.doc.blocks[b], sub)
    ensures Holds(job, Slice(b, from, to), [sub])
  {
    hide Boundary, SentenceSum, SentenceEnd, Trimmed, IsSpace;
    var block := job.doc.blocks[b];
    assert [sub][0..1] == [sub];
    JoinOfOne([sub], 0);
    assert sub.text == job.doc.text[block.charStart..block.charEnd][from..to];
    assert sub.text == job.doc.text[sub.charStart..sub.charEnd];
  }

  lemma Sliced(job: ChunkJob, plan: seq<Origin>, b: nat, from: nat, to: nat, overlap: string)
    requires b < |job.doc.blocks| && to > 0
    requires IsPlan(job, plan + [Slice(b, from, to)], End(job.doc.blocks, Slice(b, from, to)))
    requires Carries(job, plan + [Slice(b, from, to)], End(job.doc.blocks, Slice(b, from, to)), overlap)
    ensures Slicing(job, plan + [Slice(b, from, to)], b, to, overlap)
  {
    hide IsPlan, Carries;
  }

  /** Every piece becomes a chunk of its own. */
  method FlushPieces(job: ChunkJob, ghost plan: seq<Origin>, ghost b: nat, chunks: seq<ChunkDraft>,
                     headings: seq<HeadingRef>, block: AnchoredBlock)
    returns (after: seq<ChunkDraft>, tail: string, ghost planned: seq<Origin>)
    requires Oversized(job, b) && block == job.doc.blocks[b] && headings == OutlineAt(job.doc.blocks, b)
    requires AreDrafts(job, plan, chunks) && Slicing(job, plan, b, 0, "")
    ensures AreDrafts(job, planned, after) && Slicing(job, planned, b, |block.text|, tail)
  {
    hide AreDrafts, Slicing, Split, Holds, CanFlush, IsPlan, IsPieceOf, Carries, InBounds, TextOf, Trimmed, OutlineAt;
    after, tail, planned := chunks, "", plan;
    var subs := SplitOversizedBlock(job.tokens.count, block, job.options.maxTokens);
    ghost var done := 0;
    var k := 0;
    while k < |subs|
      invariant 0 <= k <= |subs|
      invariant block.charStart + done == EndBefore(block, subs, k)
      invariant AreDrafts(job, planned, after) && Slicing(job, planned, b, done, tail)
    {
      var sub := subs[k];
      ghost var to := SubAt(job.tokens.count, job.options.maxTokens, block, subs, k, done);
      ghost var o := Slice(b, done, to);
      SliceHolds(job, b, sub, done, to);
      DraftsInBounds(job, planned, after);
      SliceCanFlush(job, planned, b, tail, headings, sub, done, to);
      ghost var was := planned;
      after, tail, planned := Flush(job, planned, o, after, headings, [sub], tail);
      FlushFull(job, was, o, tail);
      Sliced(job, was, b, done, to, tail);
      done := to;
      k := k + 1;
    }
    assert done == |block.text| by { AllSplit(job.tokens.count, job.options.maxTokens, block, subs); }
  }

  lemma DraftsInBounds(job: ChunkJob, plan: seq<Origin>, chunks: seq<ChunkDraft>)
    requires AreDrafts(job, plan, chunks)
    ensures forall j :: 0 <= j < |plan| ==> InBounds(job.doc.blocks, plan[j])
  {
    hide Draft;
    forall j | 0 <= j < |plan| ensures InBounds(job.doc.blocks, plan[j]) {
      assert IsDraft(job, Before(plan, j), plan[j], chunks[j]);
    }
  }

  lemma SubAt(count: string -> nat, maxTokens: int, block: AnchoredBlock, subs: seq<AnchoredBlock>, k: nat, done: nat) returns (to: nat)
    requires Split(count, maxTokens, block, subs, |block.text|) && k < |subs|
    requires block.charStart + done == EndBefore(block, subs, k)
    ensures IsPieceOf(count, maxTokens, block, subs[k])
    ensures subs[k].charStart == block.charStart + done && subs[k].charEnd == block.charStart + to && to > 0
    ensures EndBefore(block, subs, k + 1) == block.charStart + to
  {
    hide Boundary, SentenceSum, SentenceEnd, Piece;
    assert IsPieceOf(count, maxTokens, block, subs[k]);
    to := subs[k].charEnd - block.charStart;
  }

  lemma AllSplit(count: string -> nat, maxTokens: int, block: AnchoredBlock, subs: seq<AnchoredBlock>)
    requires Split(count, maxTokens, block, subs, |block.text|)
    ensures EndBefore(block, subs, |subs|) == block.charStart + |block.text|
  {
  }

  lemma SlicedAll(job: ChunkJob, plan: seq<Origin>, b: nat, overlap: string)
    requires Oversized(job, b) && Slicing(job, plan, b, |job.doc.blocks[b].text|, overlap)
    ensures Cut(job, plan, b + 1, b + 1) && Carries(job, plan, Pos(b + 1, 0), overlap)
  {
    hide IsPlan, Carries, Trimmed;
    assert job.doc.blocks[b].text != "";
  }

  // ----- The loop -----

  /** Structure-aware chunking of an assembled document. */
  method ChunkDocument(doc: ParsedDocument, options: ChunkOptions, tokens: Tokenizer)
    returns (chunks: seq<ChunkDraft>)
    requires IsAssembled(doc)
    ensures IsChunking(ChunkJob(doc, options, tokens), chunks)
  {
    hide IsPlan, AreDrafts, Cut, Carries, Outlined, CanFlush, Holds, FlushedAt, Slicing, Above, IsBlockRun, OutlineAt, Nested, Layout, Trimmed,
         BlockSum;
    var job := ChunkJob(doc, options, tokens);
    var headings: seq<HeadingRef> := [];
    var body: seq<AnchoredBlock> := [];
    var bodyTokens := 0;
    var overlap := "";
    chunks := [];
    ghost var plan: seq<Origin>, lo := [], 0;
    AtStart(job);
    SumOfNone(job, 0);
    var i := 0;
    while i < |doc.blocks|
      invariant 0 <= lo <= i <= |doc.blocks|
      invariant body == doc.blocks[lo..i] && bodyTokens == BlockSum(tokens.count, doc.blocks, lo, i)
      invariant AreDrafts(job, plan, chunks) && Cut(job, plan, lo, i)
      invariant Outlined(job, headings, lo, i) && Carries(job, plan, Pos(lo, 0), overlap)
    {
      var block := doc.blocks[i];
      if block.heading {
        chunks, overlap, plan := FlushRun(job, plan, lo, i, chunks, headings, body, overlap);
        PassHeading(job, plan, i, overlap);
        overlap := "";
        PassHeadingOutline(job, headings, lo, i);
        headings := UpdateHeadings(headings, block.level.GetOr(1), block.text);
        lo, body, bodyTokens := i + 1, [], 0;
        SumOfNone(job, i + 1);
      } else if tokens.count(block.text) > options.maxTokens {
        chunks, overlap, plan := FlushRun(job, plan, lo, i, chunks, headings, body, overlap);
        assert Oversized(job, i) by { BlockAnchored(doc, i); }
        StartSlicing(job, plan, i, overlap);
        assert headings == OutlineAt(doc.blocks, i) by { OutlinedAt(job, headings, lo, i); }
        chunks, overlap, plan := FlushPieces(job, plan, i, chunks, headings, block);
        SlicedAll(job, plan, i, overlap);
        OutlineStays(job, headings, lo, i);
        lo, body, bodyTokens := i + 1, [], 0;
        OutlinedAfter(job, headings, i, i + 1);
        SumOfNone(job, i + 1);
      } else {
        var blockTokens := tokens.count(block.text);
        OutlineStays(job, headings, lo, i);
        if bodyTokens + blockTokens > options.maxTokens {
          SumOfNone(job, i);
          ghost var was := plan;
          chunks, overlap, plan := FlushRun(job, plan, lo, i, chunks, headings, body, overlap);
          PushAfter(job, was, lo, i);
          lo, body, bodyTokens := i, [], 0;
        } else {
          PushOnto(job, plan, lo, i);
        }
        OneMore(doc.blocks, lo, i);
        body := body + [block];
        bodyTokens := bodyTokens + blockTokens;
      }
      i := i + 1;
    }
    chunks, overlap, plan := FlushRun(job, plan, lo, i, chunks, headings, body, overlap);
  }

  /** Flushes the pending run. */
  method FlushRun(job: ChunkJob, ghost plan: seq<Origin>, ghost lo: nat, ghost i: nat, chunks: seq<ChunkDraft>,
                  headings: seq<HeadingRef>, body: seq<AnchoredBlock>, overlap: string)
    returns (after: seq<ChunkDraft>, tail: string, ghost planned: seq<Origin>)
    requires IsAssembled(job.doc) && lo <= i <= |job.doc.blocks| && body == job.doc.blocks[lo..i]
    requires AreDrafts(job, plan, chunks) && Cut(job, plan, lo, i)
    requires Outlined(job, headings, lo, i) && Carries(job, plan, Pos(lo, 0), overlap)
    ensures AreDrafts(job, planned, after) && FlushedAt(job, planned, i, tail)
    ensures IsPlan(job, planned, Pos(i, 0)) && Carries(job, planned, Pos(i, 0), tail)
    ensures planned == if lo == i then plan else plan + [Run(lo, i)]
  {
    hide IsPlan, AreDrafts, Cut, Carries, Outlined, CanFlush, Holds, Layout, IsBlockRun, TextOf;
    if lo < i {
      assert IsBlockRun(job, lo, i) by { CutRun(job, plan, lo, i); }
      RunHolds(job, lo, i);
      RunCanFlush(job, plan, headings, overlap, lo, i);
    } else {
      FlushEmpty(job, plan, overlap, i);
    }
    after, tail, planned := Flush(job, plan, Run(lo, i), chunks, headings, body, overlap);
    if lo < i { FlushFull(job, plan, Run(lo, i), tail); }
  }

  lemma OneMore(blocks: seq<AnchoredBlock>, lo: nat, i: nat)
    requires lo <= i < |blocks|
    ensures blocks[lo..i] + [blocks[i]] == blocks[lo..i + 1] && blocks[i..i] == []
  {
  }

  lemma CutRun(job: ChunkJob, plan: seq<Origin>, lo: nat, i: nat)
    requires Cut(job, plan, lo, i) && lo < i
    ensures IsBlockRun(job, lo, i)
  {
  }

  lemma BlockAnchored(doc: ParsedDocument, i: nat)
    requires IsAssembled(doc) && i < |doc.blocks|
    ensures Anchored(doc.text, doc.blocks[i])
  {
  }

  lemma OutlinedAt(job: ChunkJob, headings: seq<HeadingRef>, lo: nat, i: nat)
    requires Outlined(job, headings, lo, i)
    ensures headings == OutlineAt(job.doc.blocks, i)
  {
  }

  lemma OutlinedAfter(job: ChunkJob, headings: seq<HeadingRef>, lo: nat, i: nat)
    requires Outlined(job, headings, lo, i)
    ensures Outlined(job, headings, i, i)
  {
  }
}
