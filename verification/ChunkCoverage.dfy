/** What a plan that reaches the end of an assembled document guarantees about its
    chunks: exact anchors, order, coverage, and that no word is lost or cut. */
module ChunkCoverage {
  import opened Common
  import opened Text
  import opened Assembly
  import opened Sentences
  import opened Corpus
  import opened ChunkPlan
  import opened Outline

  // ----- Blocks in the text -----

  /** Position x belongs to the block. */
  predicate InBlock(b: AnchoredBlock, x: int) {
    b.charStart <= x < b.charEnd
  }

  lemma {:induction false} BlocksInOrder(text: string, blocks: seq<AnchoredBlock>, a: nat, b: nat)
    requires Layout(text, blocks) && a < b < |blocks|
    ensures blocks[a].charStart < blocks[a].charEnd < blocks[b].charStart < blocks[b].charEnd <= |text|
    decreases b
  {
    hide Trimmed;
    assert Anchored(text, blocks[a]) && Anchored(text, blocks[b]) && Anchored(text, blocks[b - 1]);
    assert Adjacent(text, blocks[b - 1], blocks[b]);
    if a < b - 1 { BlocksInOrder(text, blocks, a, b - 1); }
  }

  /** Every position lies in a block or in the blank line between two. */
  lemma {:induction false} BlockOrGap(text: string, blocks: seq<AnchoredBlock>, x: nat, n: nat)
    requires Layout(text, blocks) && x < |text| && n < |blocks| && x < blocks[n].charEnd
    ensures IsSpace(text[x]) || exists b :: 0 <= b < |blocks| && InBlock(blocks[b], x)
    decreases n
  {
    hide Trimmed;
    if x < blocks[n].charStart {
      assert n > 0;
      assert Adjacent(text, blocks[n - 1], blocks[n]);
      if x < blocks[n - 1].charEnd {
        BlockOrGap(text, blocks, x, n - 1);
      } else {
        assert text[x] == GAP[x - blocks[n - 1].charEnd];
      }
    } else {
      assert InBlock(blocks[n], x);
    }
  }

  // ----- Places as offsets -----

  function CharAt(doc: ParsedDocument, p: Pos): nat {
    if p.block < |doc.blocks| then doc.blocks[p.block].charStart + p.offset else |doc.text|
  }

  lemma OriginBounds(job: ChunkJob, o: Origin)
    requires IsAssembled(job.doc) && IsOrigin(job, o)
    ensures InBounds(job.doc.blocks, o)
    ensures CharStart(job.doc.blocks, o) == CharAt(job.doc, Start(o)) < CharEnd(job.doc.blocks, o) <= CharAt(job.doc, End(job.doc.blocks, o)) <= |job.doc.text|
  {
    hide BlockSum, IsPiece, Trimmed, Adjacent;
    OriginInBounds(job, o);
    var blocks := job.doc.blocks;
    match o
    case Run(lo, hi) =>
      assert Anchored(job.doc.text, blocks[lo]) && Anchored(job.doc.text, blocks[hi - 1]);
      if lo < hi - 1 { BlocksInOrder(job.doc.text, blocks, lo, hi - 1); }
      if hi < |blocks| { BlocksInOrder(job.doc.text, blocks, hi - 1, hi); }
    case Slice(b, from, to) =>
      assert Anchored(job.doc.text, blocks[b]);
      if b + 1 < |blocks| { BlocksInOrder(job.doc.text, blocks, b, b + 1); }
  }

  lemma SkipsForward(doc: ParsedDocument, p: Pos, q: Pos)
    requires IsAssembled(doc) && Skips(doc.blocks, p, q)
    ensures CharAt(doc, p) <= CharAt(doc, q)
  {
    hide Anchored, Adjacent;
    if p != q && p.block < q.block {
      if q.block < |doc.blocks| {
        BlocksInOrder(doc.text, doc.blocks, p.block, q.block);
      } else {
        assert Anchored(doc.text, doc.blocks[p.block]);
        AnchoredInside(doc.text, doc.blocks[p.block]);
      }
    }
  }

  lemma AnchoredInside(text: string, b: AnchoredBlock)
    requires Anchored(text, b)
    ensures b.charStart < b.charEnd <= |text|
  {
  }

  /** Between two places with only headings in between, no position belongs to a body block. */
  lemma OnlyHeadingsBetween(doc: ParsedDocument, p: Pos, q: Pos, b: nat, x: nat)
    requires IsAssembled(doc) && Skips(doc.blocks, p, q) && b < |doc.blocks|
    requires CharAt(doc, p) <= x < CharAt(doc, q) && InBlock(doc.blocks[b], x)
    ensures doc.blocks[b].heading
  {
    hide Anchored, Adjacent;
    if b < p.block && p.block < |doc.blocks| { BlocksInOrder(doc.text, doc.blocks, b, p.block); }
    if q.block < |doc.blocks| && q.block < b { BlocksInOrder(doc.text, doc.blocks, q.block, b); }
  }

  lemma EntryAt(job: ChunkJob, plan: seq<Origin>, pos: Pos, j: nat)
    requires IsPlan(job, plan, pos) && j < |plan|
    ensures IsOrigin(job, plan[j]) && Skips(job.doc.blocks, Reached(job.doc.blocks, Before(plan, j)), Start(plan[j]))
  {
    hide IsOrigin, Skips, Reached, Start;
    assert IsEntry(job, Before(plan, j), plan[j]);
  }

  // ----- Order -----

  /** Entries are in document order and do not overlap. */
  lemma {:induction false} EntriesInOrder(job: ChunkJob, plan: seq<Origin>, pos: Pos, j: nat, k: nat)
    requires IsAssembled(job.doc) && IsPlan(job, plan, pos) && j < k < |plan|
    ensures InBounds(job.doc.blocks, plan[j]) && InBounds(job.doc.blocks, plan[k])
    ensures CharEnd(job.doc.blocks, plan[j]) <= CharStart(job.doc.blocks, plan[k])
    decreases k
  {
    hide IsPlan, IsOrigin, Skips, InBounds, Layout, CharAt, Start, End, CharStart, CharEnd;
    EntryAt(job, plan, pos, k);
    EntryAt(job, plan, pos, k - 1);
    OriginBounds(job, plan[k]);
    OriginBounds(job, plan[k - 1]);
    SkipsForward(job.doc, End(job.doc.blocks, plan[k - 1]), Start(plan[k]));
    if j < k - 1 { EntriesInOrder(job, plan, pos, j, k - 1); }
  }

  // ----- Coverage -----

  predicate Covers(blocks: seq<AnchoredBlock>, o: Origin, x: nat) {
    InBounds(blocks, o) && CharStart(blocks, o) <= x < CharEnd(blocks, o)
  }

  lemma LastCovers(job: ChunkJob, o: Origin, b: nat, x: nat)
    requires IsAssembled(job.doc) && IsOrigin(job, o) && b < |job.doc.blocks| && InBlock(job.doc.blocks[b], x)
    requires CharAt(job.doc, Start(o)) <= x < CharAt(job.doc, End(job.doc.blocks, o))
    ensures Covers(job.doc.blocks, o, x)
  {
    hide IsOrigin, Layout;
    OriginBounds(job, o);
    match o
    case Run(lo, hi) => RunCovers(job, lo, hi, b, x);
    case Slice(c, from, to) => SliceCovers(job, c, from, to, b, x);
  }

  lemma InEarlierBlock(doc: ParsedDocument, b: nat, c: nat, x: nat)
    requires IsAssembled(doc) && b < |doc.blocks| && c < |doc.blocks| && InBlock(doc.blocks[b], x)
    ensures x < doc.blocks[c].charStart ==> b < c
    ensures x >= doc.blocks[c].charEnd ==> b > c
    ensures b < c ==> x < doc.blocks[c].charStart
    ensures b > c ==> x >= doc.blocks[c].charEnd
  {
    hide Anchored, Adjacent;
    if b < c { BlocksInOrder(doc.text, doc.blocks, b, c); }
    if b > c { BlocksInOrder(doc.text, doc.blocks, c, b); }
    AnchoredInside(doc.text, doc.blocks[c]);
  }

  lemma RunCovers(job: ChunkJob, lo: nat, hi: nat, b: nat, x: nat)
    requires IsAssembled(job.doc) && lo < hi <= |job.doc.blocks|
    requires b < |job.doc.blocks| && InBlock(job.doc.blocks[b], x)
    requires job.doc.blocks[lo].charStart <= x < CharAt(job.doc, Pos(hi, 0))
    ensures x < job.doc.blocks[hi - 1].charEnd
  {
    hide Layout;
    InEarlierBlock(job.doc, b, hi - 1, x);
    if hi < |job.doc.blocks| { InEarlierBlock(job.doc, b, hi, x); }
  }

  lemma SliceCovers(job: ChunkJob, c: nat, from: nat, to: nat, b: nat, x: nat)
    requires IsAssembled(job.doc) && c < |job.doc.blocks| && from < to <= |job.doc.blocks[c].text|
    requires b < |job.doc.blocks| && InBlock(job.doc.blocks[b], x)
    requires job.doc.blocks[c].charStart + from <= x < CharAt(job.doc, End(job.doc.blocks, Slice(c, from, to)))
    ensures x < job.doc.blocks[c].charStart + to
  {
    hide Trimmed, Adjacent;
    assert Anchored(job.doc.text, job.doc.blocks[c]);
    hide Layout;
    InEarlierBlock(job.doc, b, c, x);
    if c + 1 < |job.doc.blocks| { InEarlierBlock(job.doc, b, c + 1, x); }
  }

  lemma {:induction false} CoveredBefore(job: ChunkJob, plan: seq<Origin>, pos: Pos, m: nat, b: nat, x: nat) returns (j: nat)
    requires IsAssembled(job.doc) && IsPlan(job, plan, pos) && m <= |plan|
    requires b < |job.doc.blocks| && !job.doc.blocks[b].heading && InBlock(job.doc.blocks[b], x)
    requires x < CharAt(job.doc, Reached(job.doc.blocks, Before(plan, m)))
    ensures j < m && Covers(job.doc.blocks, plan[j], x)
    decreases m
  {
    hide IsPlan, IsOrigin, Skips, InBounds, Anchored, Adjacent, Start, End, CharStart, CharEnd, Covers;
    assert m > 0;
    var o := plan[m - 1];
    EntryAt(job, plan, pos, m - 1);
    OriginBounds(job, o);
    var p := Reached(job.doc.blocks, Before(plan, m - 1));
    if x >= CharAt(job.doc, Start(o)) {
      LastCovers(job, o, b, x);
      j := m - 1;
    } else {
      if x >= CharAt(job.doc, p) { OnlyHeadingsBetween(job.doc, p, Start(o), b, x); }
      j := CoveredBefore(job, plan, pos, m - 1, b, x);
    }
  }

  /** Every position of a body block lies in a chunk. */
  lemma Coverage(job: ChunkJob, plan: seq<Origin>, b: nat, x: nat) returns (j: nat)
    requires IsAssembled(job.doc) && IsPlan(job, plan, Pos(|job.doc.blocks|, 0))
    requires b < |job.doc.blocks| && !job.doc.blocks[b].heading && InBlock(job.doc.blocks[b], x)
    ensures j < |plan| && Covers(job.doc.blocks, plan[j], x)
  {
    hide IsOrigin, Skips, InBounds, Adjacent, IsEntry, Covers, Trimmed;
    var pos := Pos(|job.doc.blocks|, 0);
    var p := Reached(job.doc.blocks, Before(plan, |plan|));
    assert Anchored(job.doc.text, job.doc.blocks[b]);
    if x >= CharAt(job.doc, p) { OnlyHeadingsBetween(job.doc, p, pos, b, x); }
    j := CoveredBefore(job, plan, pos, |plan|, b, x);
  }

  /** No position of a heading lies in a chunk. */
  lemma HeadingsApart(job: ChunkJob, o: Origin, h: nat)
    requires IsAssembled(job.doc) && IsOrigin(job, o) && h < |job.doc.blocks| && job.doc.blocks[h].heading
    ensures InBounds(job.doc.blocks, o)
    ensures job.doc.blocks[h].charEnd <= CharStart(job.doc.blocks, o) || CharEnd(job.doc.blocks, o) <= job.doc.blocks[h].charStart
  {
    hide BlockSum, IsPiece, Trimmed, Adjacent;
    OriginInBounds(job, o);
    var blocks := job.doc.blocks;
    match o
    case Run(lo, hi) =>
      if h < lo { BlocksInOrder(job.doc.text, blocks, h, lo); }
      if h > hi - 1 { BlocksInOrder(job.doc.text, blocks, hi - 1, h); }
    case Slice(b, from, to) =>
      assert Anchored(job.doc.text, blocks[b]);
      if h < b { BlocksInOrder(job.doc.text, blocks, h, b); }
      if h > b { BlocksInOrder(job.doc.text, blocks, b, h); }
  }

  // ----- The chunks themselves -----

  predicate InChunk(c: ChunkDraft, x: int) {
    c.charStart <= x < c.charEnd
  }

  /** The chunk's text is the document's text at its offsets. */
  ghost predicate Exact(doc: ParsedDocument, c: ChunkDraft) {
    c.charStart < c.charEnd <= |doc.text| && c.text == doc.text[c.charStart..c.charEnd]
  }

  lemma ChunkIsEntry(job: ChunkJob, plan: seq<Origin>, chunks: seq<ChunkDraft>, j: nat)
    requires AreDrafts(job, plan, chunks) && j < |chunks|
    ensures j < |plan| && InBounds(job.doc.blocks, plan[j])
    ensures chunks[j].charStart == CharStart(job.doc.blocks, plan[j]) && chunks[j].charEnd == CharEnd(job.doc.blocks, plan[j])
    ensures chunks[j].text == TextOf(job.doc, plan[j])
  {
    hide OutlineAt, ContentOf, Overlap, TextOf, CharStart, CharEnd, InBounds;
    assert IsDraft(job, Before(plan, j), plan[j], chunks[j]);
  }

  lemma PlanOf(job: ChunkJob, chunks: seq<ChunkDraft>) returns (plan: seq<Origin>)
    requires IsChunking(job, chunks)
    ensures IsPlan(job, plan, Pos(|job.doc.blocks|, 0)) && AreDrafts(job, plan, chunks) && |plan| == |chunks|
  {
    hide IsPlan;
    plan :| IsPlan(job, plan, Pos(|job.doc.blocks|, 0)) && AreDrafts(job, plan, chunks);
  }

  /** Citations stay exact: every chunk is the document's own text at its offsets, and
      the offsets are strictly increasing and disjoint. */
  lemma ChunksAreExactAndDisjoint(job: ChunkJob, chunks: seq<ChunkDraft>)
    requires IsAssembled(job.doc) && IsChunking(job, chunks)
    ensures forall j :: 0 <= j < |chunks| ==> Exact(job.doc, chunks[j])
    ensures forall j, k :: 0 <= j < k < |chunks| ==> chunks[j].charEnd <= chunks[k].charStart
  {
    hide IsPlan, AreDrafts, Layout, IsOrigin, CharStart, CharEnd, InBounds, CharAt;
    var plan := PlanOf(job, chunks);
    var pos := Pos(|job.doc.blocks|, 0);
    forall j | 0 <= j < |chunks| ensures Exact(job.doc, chunks[j]) {
      ChunkIsEntry(job, plan, chunks, j);
      EntryAt(job, plan, pos, j);
      OriginBounds(job, plan[j]);
    }
    forall j, k | 0 <= j < k < |chunks| ensures chunks[j].charEnd <= chunks[k].charStart {
      ChunkIsEntry(job, plan, chunks, j);
      ChunkIsEntry(job, plan, chunks, k);
      EntriesInOrder(job, plan, pos, j, k);
    }
  }

  /** Together the chunks hold every position of every body block and none of a heading. */
  lemma ChunksCoverTheBody(job: ChunkJob, chunks: seq<ChunkDraft>, b: nat, x: nat)
    requires IsAssembled(job.doc) && IsChunking(job, chunks)
    requires b < |job.doc.blocks| && InBlock(job.doc.blocks[b], x)
    ensures !job.doc.blocks[b].heading <==> exists j :: 0 <= j < |chunks| && InChunk(chunks[j], x)
  {
    hide IsPlan, AreDrafts, Layout, IsOrigin, CharStart, CharEnd, InBounds, CharAt;
    var plan := PlanOf(job, chunks);
    if !job.doc.blocks[b].heading {
      var j := Coverage(job, plan, b, x);
      ChunkIsEntry(job, plan, chunks, j);
      assert InChunk(chunks[j], x);
    } else {
      forall j | 0 <= j < |chunks| ensures !InChunk(chunks[j], x) {
        HeadingApart(job, chunks, j, b);
      }
    }
  }

  /** No heading overlaps a chunk. */
  lemma HeadingApart(job: ChunkJob, chunks: seq<ChunkDraft>, j: nat, h: nat)
    requires IsAssembled(job.doc) && IsChunking(job, chunks) && j < |chunks|
    requires h < |job.doc.blocks| && job.doc.blocks[h].heading
    ensures job.doc.blocks[h].charEnd <= chunks[j].charStart || chunks[j].charEnd <= job.doc.blocks[h].charStart
  {
    hide IsPlan, AreDrafts, Layout, IsOrigin, CharStart, CharEnd, InBounds;
    var plan := PlanOf(job, chunks);
    ChunkIsEntry(job, plan, chunks, j);
    EntryAt(job, plan, Pos(|job.doc.blocks|, 0), j);
    HeadingsApart(job, plan[j], h);
  }

  lemma SectionAt(job: ChunkJob, chunks: seq<ChunkDraft>, j: nat, k: nat)
    requires IsAssembled(job.doc) && IsChunking(job, chunks) && j < |chunks|
    requires k < |job.doc.blocks| && InBlock(job.doc.blocks[k], chunks[j].charStart)
    ensures chunks[j].section == SectionPath(OutlineAt(job.doc.blocks, k)) && chunks[j].page == job.doc.blocks[k].page
  {
    hide IsPlan, Layout, IsOrigin, InBounds, OutlineAt, SectionPath, ContentOf, Overlap, TextOf;
    var plan := PlanOf(job, chunks);
    ChunkIsEntry(job, plan, chunks, j);
    EntryAt(job, plan, Pos(|job.doc.blocks|, 0), j);
    StartsInBlock(job, plan[j]);
    InEarlierBlock(job.doc, k, Start(plan[j]).block, chunks[j].charStart);
    assert IsDraft(job, Before(plan, j), plan[j], chunks[j]);
  }

  /** A chunk's section is the path of the headings open where it starts: exactly the
      earlier headings behind which only deeper ones follow. */
  lemma SectionIsTheOutline(job: ChunkJob, chunks: seq<ChunkDraft>, j: nat, k: nat) returns (open: seq<nat>)
    requires IsAssembled(job.doc) && IsChunking(job, chunks) && j < |chunks|
    requires k < |job.doc.blocks| && InBlock(job.doc.blocks[k], chunks[j].charStart)
    ensures OpenAt(job.doc.blocks, k, open) && forall i :: 0 <= i < |open| ==> open[i] < |job.doc.blocks|
    ensures chunks[j].section == PathOf(job.doc.blocks, open) && chunks[j].page == job.doc.blocks[k].page
  {
    hide IsChunking, Layout, OutlineAt, SectionPath, PathOf, OpenAt;
    SectionAt(job, chunks, j, k);
    open := SectionIsThePath(job.doc.blocks, k);
  }

  lemma StartsInBlock(job: ChunkJob, o: Origin)
    requires IsAssembled(job.doc) && IsOrigin(job, o)
    ensures InBounds(job.doc.blocks, o) && Start(o).block < |job.doc.blocks|
    ensures InBlock(job.doc.blocks[Start(o).block], CharStart(job.doc.blocks, o))
  {
    hide BlockSum, IsPiece, Trimmed, Adjacent;
    OriginInBounds(job, o);
    assert Anchored(job.doc.text, job.doc.blocks[Start(o).block]);
  }

  // ----- What is embedded -----

  lemma DraftContent(job: ChunkJob, plan: seq<Origin>, chunks: seq<ChunkDraft>, j: nat)
    requires AreDrafts(job, plan, chunks) && j < |chunks|
    ensures var prev := Before(plan, j);
            && (prev.Some? ==> InBounds(job.doc.blocks, prev.value))
            && chunks[j].content == ContentOf(chunks[j].section, Overlap(job, prev, plan[j]), chunks[j].text)
            && chunks[j].tokenCount == job.tokens.count(chunks[j].content)
  {
    hide OutlineAt, SectionPath, ContentOf, TextOf, CharStart, CharEnd, InBounds, Overlap;
    assert IsDraft(job, Before(plan, j), plan[j], chunks[j]);
  }

  lemma ContentSplits(section: Option<string>, overlap: string, text: string)
    ensures overlap == "" ==> ContentOf(section, overlap, text) == ContextHeader(section) + text
    ensures overlap != "" ==> ContentOf(section, overlap, text) == ContextHeader(section) + overlap + GAP + text
  {
    hide ContextHeader;
    var header := ContextHeader(section);
    assert header + (overlap + GAP) + text == header + overlap + GAP + text;
    assert header + "" + text == header + text;
  }

  lemma StartsOrdered(doc: ParsedDocument, h: nat, last: nat)
    requires IsAssembled(doc) && h < |doc.blocks| && last < |doc.blocks|
    ensures h <= last ==> doc.blocks[h].charStart < doc.blocks[last].charEnd
    ensures h > last ==> doc.blocks[last + 1].charStart <= doc.blocks[h].charStart
  {
    hide Anchored, Adjacent;
    AnchoredInside(doc.text, doc.blocks[h]);
    if h < last { BlocksInOrder(doc.text, doc.blocks, h, last); }
    if last + 1 < h { BlocksInOrder(doc.text, doc.blocks, last + 1, h); }
  }

  lemma EndsWhere(job: ChunkJob, o: Origin)
    requires IsAssembled(job.doc) && IsOrigin(job, o)
    ensures InBounds(job.doc.blocks, o)
    ensures var end := End(job.doc.blocks, o);
            if end.offset > 0 then CharEnd(job.doc.blocks, o) == CharAt(job.doc, end)
            else 0 < end.block <= |job.doc.blocks| && CharEnd(job.doc.blocks, o) == job.doc.blocks[end.block - 1].charEnd
  {
    hide BlockSum, IsPiece, Trimmed, Adjacent;
    OriginInBounds(job, o);
    if o.Slice? { assert Anchored(job.doc.text, job.doc.blocks[o.block]); }
  }

  /** Where an entry starts right at the end of another, no block starts in between. */
  lemma NothingBetween(job: ChunkJob, o: Origin, p: Origin, h: nat)
    requires IsAssembled(job.doc) && IsOrigin(job, o) && IsOrigin(job, p) && End(job.doc.blocks, o) == Start(p)
    requires h < |job.doc.blocks|
    ensures InBounds(job.doc.blocks, o) && InBounds(job.doc.blocks, p)
    ensures job.doc.blocks[h].charStart < CharEnd(job.doc.blocks, o) || CharStart(job.doc.blocks, p) <= job.doc.blocks[h].charStart
  {
    hide IsOrigin, Layout, End, Start, InBounds, CharStart, CharEnd;
    EndsWhere(job, o);
    OriginBounds(job, p);
    var end := End(job.doc.blocks, o);
    if end.offset == 0 { StartsOrdered(job.doc, h, end.block - 1); }
  }

  /** Between two entries that a heading separates nothing is carried. */
  lemma SeparatedCarriesNothing(job: ChunkJob, o: Origin, p: Origin, h: nat)
    requires IsAssembled(job.doc) && IsEntry(job, Some(o), p) && IsOrigin(job, o) && h < |job.doc.blocks|
    requires InBounds(job.doc.blocks, o) && InBounds(job.doc.blocks, p)
    requires CharEnd(job.doc.blocks, o) <= job.doc.blocks[h].charStart < CharStart(job.doc.blocks, p)
    ensures Overlap(job, Some(o), p) == ""
  {
    hide Layout, IsOrigin, Maximal, HeadingsOnly, InBounds, CharStart, CharEnd, TextOf, End, Start;
    if End(job.doc.blocks, o) == Start(p) {
      NothingBetween(job, o, p, h);
    } else {
      SkipsElsewhere(job.doc.blocks, End(job.doc.blocks, o), Start(p));
    }
  }

  lemma SkipsElsewhere(blocks: seq<AnchoredBlock>, p: Pos, q: Pos)
    requires Skips(blocks, p, q) && p != q
    ensures p.block != q.block
  {
  }

  /** A heading starts in this stretch of the text. */
  ghost predicate HeadingBetween(doc: ParsedDocument, from: nat, to: nat) {
    exists h :: 0 <= h < |doc.blocks| && doc.blocks[h].heading && from <= doc.blocks[h].charStart < to
  }

  /** A body block that alone is over the cap starts here. */
  ghost predicate OversizedStartsAt(job: ChunkJob, at: nat) {
    exists b :: 0 <= b < |job.doc.blocks| && !job.doc.blocks[b].heading && job.doc.blocks[b].charStart == at
                && job.tokens.count(job.doc.blocks[b].text) > job.options.maxTokens
  }

  /** Where nothing separates two entries, the second goes on in the block where the first ends. */
  lemma GoesOnAtTheEnd(job: ChunkJob, o: Origin, p: Origin)
    requires IsAssembled(job.doc) && IsOrigin(job, o) && IsOrigin(job, p) && Skips(job.doc.blocks, End(job.doc.blocks, o), Start(p))
    ensures InBounds(job.doc.blocks, o) && InBounds(job.doc.blocks, p)
    ensures !HeadingBetween(job.doc, CharEnd(job.doc.blocks, o), CharStart(job.doc.blocks, p)) ==> End(job.doc.blocks, o) == Start(p)
  {
    hide IsOrigin, Layout, End, Start, InBounds, CharStart, CharEnd;
    EndsWhere(job, o);
    OriginBounds(job, p);
    StartsInBlock(job, p);
    var end, start := End(job.doc.blocks, o), Start(p);
    if end != start {
      assert job.doc.blocks[end.block].heading;
      BlocksInOrder(job.doc.text, job.doc.blocks, end.block - 1, end.block);
      BlocksInOrder(job.doc.text, job.doc.blocks, end.block, start.block);
      assert HeadingBetween(job.doc, CharEnd(job.doc.blocks, o), CharStart(job.doc.blocks, p));
    }
  }

  /** Nothing is carried exactly into the first piece of an oversized block. */
  lemma FirstPieceStarts(job: ChunkJob, p: Origin)
    requires IsAssembled(job.doc) && IsOrigin(job, p)
    ensures InBounds(job.doc.blocks, p)
    ensures OversizedStartsAt(job, CharStart(job.doc.blocks, p)) <==> p.Slice? && p.from == 0
  {
    hide Layout, BlockSum, SentenceSum, SentenceEnd, Boundary;
    OriginBounds(job, p);
    StartsInBlock(job, p);
    var at := CharStart(job.doc.blocks, p);
    if p.Slice? && p.from == 0 { assert job.doc.blocks[p.block].charStart == at; }
    if b :| 0 <= b < |job.doc.blocks| && !job.doc.blocks[b].heading && job.doc.blocks[b].charStart == at
            && job.tokens.count(job.doc.blocks[b].text) > job.options.maxTokens {
      InEarlierBlock(job.doc, Start(p).block, b, at);
      BlockIsNotEmpty(job.doc, b);
    }
  }

  lemma BlockIsNotEmpty(doc: ParsedDocument, b: nat)
    requires IsAssembled(doc) && b < |doc.blocks|
    ensures doc.blocks[b].charStart < doc.blocks[b].charEnd
  {
    hide Adjacent;
    AnchoredInside(doc.text, doc.blocks[b]);
  }

  lemma OverlapIs(job: ChunkJob, o: Origin, p: Origin)
    requires IsAssembled(job.doc) && IsOrigin(job, o) && IsEntry(job, Some(o), p)
    ensures InBounds(job.doc.blocks, o) && InBounds(job.doc.blocks, p)
    ensures Overlap(job, Some(o), p)
            == if HeadingBetween(job.doc, CharEnd(job.doc.blocks, o), CharStart(job.doc.blocks, p))
                  || OversizedStartsAt(job, CharStart(job.doc.blocks, p))
               then "" else job.tokens.takeLast(TextOf(job.doc, o), job.options.overlapTokens)
  {
    hide Layout, IsOrigin, Maximal, HeadingsOnly, Skips, InBounds, CharStart, CharEnd, TextOf, End, Start, HeadingBetween, OversizedStartsAt;
    GoesOnAtTheEnd(job, o, p);
    FirstPieceStarts(job, p);
    if HeadingBetween(job.doc, CharEnd(job.doc.blocks, o), CharStart(job.doc.blocks, p)) { SeparatedByHeading(job, o, p); }
  }

  lemma SeparatedByHeading(job: ChunkJob, o: Origin, p: Origin)
    requires IsAssembled(job.doc) && IsOrigin(job, o) && IsEntry(job, Some(o), p)
    requires InBounds(job.doc.blocks, o) && InBounds(job.doc.blocks, p)
    requires HeadingBetween(job.doc, CharEnd(job.doc.blocks, o), CharStart(job.doc.blocks, p))
    ensures Overlap(job, Some(o), p) == ""
  {
    hide Layout, IsEntry, IsOrigin, InBounds, CharStart, CharEnd, Overlap;
    var h :| 0 <= h < |job.doc.blocks| && job.doc.blocks[h].heading
             && CharEnd(job.doc.blocks, o) <= job.doc.blocks[h].charStart < CharStart(job.doc.blocks, p);
    SeparatedCarriesNothing(job, o, p, h);
  }

  lemma FirstCarriesNothing(job: ChunkJob, o: Origin)
    ensures Overlap(job, None, o) == ""
  {
  }

  /** The header of a section. */
  lemma HeaderNamesTheSection(section: Option<string>)
    ensures match section
            case None => ContextHeader(section) == ""
            case Some(s) => ContextHeader(section) == if s == "" then "" else "[Section: " + s + "]\n\n"
  {
  }

  /** The chunk repeats the tail of the one before: neither is it the first, nor does a
      heading lie between, nor does it start an oversized block. */
  ghost predicate Repeats(job: ChunkJob, chunks: seq<ChunkDraft>, j: nat)
    requires j < |chunks|
  {
    && j > 0 && !HeadingBetween(job.doc, chunks[j - 1].charEnd, chunks[j].charStart)
    && !OversizedStartsAt(job, chunks[j].charStart)
  }

  lemma OverlapOfChunk(job: ChunkJob, plan: seq<Origin>, chunks: seq<ChunkDraft>, j: nat)
    requires IsAssembled(job.doc) && IsPlan(job, plan, Pos(|job.doc.blocks|, 0)) && AreDrafts(job, plan, chunks) && j < |chunks| == |plan|
    ensures Before(plan, j).Some? ==> InBounds(job.doc.blocks, Before(plan, j).value)
    ensures Overlap(job, Before(plan, j), plan[j])
            == if Repeats(job, chunks, j) then job.tokens.takeLast(chunks[j - 1].text, job.options.overlapTokens) else ""
  {
    hide Layout, AreDrafts, TextOf, CharStart, CharEnd, InBounds, IsOrigin, IsEntry, Overlap, HeadingBetween, OversizedStartsAt;
    ChunkIsEntry(job, plan, chunks, j);
    if j > 0 {
      ChunkIsEntry(job, plan, chunks, j - 1);
      EntryAt(job, plan, Pos(|job.doc.blocks|, 0), j - 1);
      assert IsEntry(job, Before(plan, j), plan[j]);
      OverlapIs(job, plan[j - 1], plan[j]);
    } else {
      FirstCarriesNothing(job, plan[j]);
    }
  }

  /** What is embedded, exactly: the section's path in its header, then, behind a blank
      line of its own, the tail of the chunk before wherever the chunk repeats it, then the text. */
  lemma ContentIsHeaderTailText(job: ChunkJob, chunks: seq<ChunkDraft>, j: nat)
    requires IsAssembled(job.doc) && IsChunking(job, chunks) && j < |chunks|
    ensures chunks[j].tokenCount == job.tokens.count(chunks[j].content)
    ensures var header := if chunks[j].section.None? || chunks[j].section.value == "" then "" else "[Section: " + chunks[j].section.value + "]\n\n";
            var tail := if Repeats(job, chunks, j) then job.tokens.takeLast(chunks[j - 1].text, job.options.overlapTokens) else "";
            chunks[j].content == if tail == "" then header + chunks[j].text else header + tail + "\n\n" + chunks[j].text
  {
    hide IsPlan, AreDrafts, Layout, ContextHeader, ContentOf, TextOf, CharStart, CharEnd, InBounds, Overlap, Repeats;
    var plan := PlanOf(job, chunks);
    DraftContent(job, plan, chunks, j);
    OverlapOfChunk(job, plan, chunks, j);
    HeaderNamesTheSection(chunks[j].section);
    ContentSplits(chunks[j].section, Overlap(job, Before(plan, j), plan[j]), chunks[j].text);
  }

  /** Nothing bleeds into a new section: the first chunk, and one that a heading
      separates from the chunk before, embeds only its header and its own text. */
  lemma NothingBleedsAcrossHeadings(job: ChunkJob, chunks: seq<ChunkDraft>, j: nat, h: nat)
    requires IsAssembled(job.doc) && IsChunking(job, chunks) && j < |chunks|
    requires j > 0 ==> h < |job.doc.blocks| && job.doc.blocks[h].heading
    requires j > 0 ==> chunks[j - 1].charEnd <= job.doc.blocks[h].charStart < chunks[j].charStart
    ensures chunks[j].content == ContextHeader(chunks[j].section) + chunks[j].text
  {
    hide IsChunking, Layout, ContextHeader, OversizedStartsAt;
    ContentIsHeaderTailText(job, chunks, j);
    HeaderNamesTheSection(chunks[j].section);
    assert !Repeats(job, chunks, j);
  }

  // ----- No word is cut -----

  /** A cut at this offset goes through no word. */
  predicate CutsNoWord(text: string, c: nat)
    requires c <= |text|
  {
    c == 0 || c == |text| || IsSpace(text[c - 1]) || IsSpace(text[c])
  }

  lemma {:induction false} BlockCutsNoWord(text: string, blocks: seq<AnchoredBlock>, b: nat)
    requires Layout(text, blocks) && b < |blocks|
    ensures blocks[b].charStart <= blocks[b].charEnd <= |text|
    ensures CutsNoWord(text, blocks[b].charStart) && CutsNoWord(text, blocks[b].charEnd)
  {
    hide Trimmed, IsSpace;
    assert Anchored(text, blocks[b]);
    assert IsSpace('\n') by { LineFeedIsSpace(); }
    if b > 0 {
      assert Adjacent(text, blocks[b - 1], blocks[b]);
      assert text[blocks[b].charStart - 1] == GAP[1];
    }
    if b + 1 < |blocks| {
      assert Adjacent(text, blocks[b], blocks[b + 1]);
      assert text[blocks[b].charEnd] == GAP[0];
    }
  }

  lemma LineFeedIsSpace()
    ensures IsSpace('\n')
  {
  }

  lemma PieceCutsNoWord(text: string, block: AnchoredBlock, c: nat)
    requires Anchored(text, block) && 0 < c < |block.text| && Boundary(block.text, c)
    ensures CutsNoWord(text, block.charStart + c)
  {
    hide IsSpace, Boundary;
    BoundaryCutsNoWord(block.text, c);
    assert text[block.charStart..block.charEnd][c] == text[block.charStart + c];
  }

  lemma EntryCutsNoWord(job: ChunkJob, o: Origin)
    requires IsAssembled(job.doc) && IsOrigin(job, o)
    ensures InBounds(job.doc.blocks, o) && CharStart(job.doc.blocks, o) <= CharEnd(job.doc.blocks, o) <= |job.doc.text|
    ensures CutsNoWord(job.doc.text, CharStart(job.doc.blocks, o)) && CutsNoWord(job.doc.text, CharEnd(job.doc.blocks, o))
  {
    hide IsBlockRun, IsSlice, Layout, CutsNoWord, IsSpace, BlockSum, CharAt, End;
    OriginBounds(job, o);
    match o
    case Run(lo, hi) =>
      assert InBounds(job.doc.blocks, Run(lo, hi));
      BlockCutsNoWord(job.doc.text, job.doc.blocks, lo);
      BlockCutsNoWord(job.doc.text, job.doc.blocks, hi - 1);
    case Slice(b, from, to) => SliceCutsNoWord(job, b, from, to);
  }

  /** No chunk starts or ends inside a word, the pieces of an oversized block included. */
  lemma ChunkCutsNoWord(job: ChunkJob, chunks: seq<ChunkDraft>, j: nat)
    requires IsAssembled(job.doc) && IsChunking(job, chunks) && j < |chunks|
    ensures chunks[j].charStart <= chunks[j].charEnd <= |job.doc.text|
    ensures CutsNoWord(job.doc.text, chunks[j].charStart) && CutsNoWord(job.doc.text, chunks[j].charEnd)
  {
    hide IsPlan, AreDrafts, Layout, IsOrigin, CharStart, CharEnd, InBounds, CutsNoWord;
    var plan := PlanOf(job, chunks);
    ChunkIsEntry(job, plan, chunks, j);
    EntryAt(job, plan, Pos(|job.doc.blocks|, 0), j);
    EntryCutsNoWord(job, plan[j]);
  }

  lemma SliceCutsNoWord(job: ChunkJob, b: nat, from: nat, to: nat)
    requires IsAssembled(job.doc) && IsSlice(job, b, from, to)
    ensures b < |job.doc.blocks| && from < to <= |job.doc.blocks[b].text|
    ensures job.doc.blocks[b].charStart + to <= |job.doc.text|
    ensures CutsNoWord(job.doc.text, job.doc.blocks[b].charStart + from)
    ensures CutsNoWord(job.doc.text, job.doc.blocks[b].charStart + to)
  {
    hide SentenceSum, SentenceEnd, Trimmed, Adjacent, Boundary, CutsNoWord, IsSpace;
    var block := job.doc.blocks[b];
    BlockCutsNoWord(job.doc.text, job.doc.blocks, b);
    assert Anchored(job.doc.text, block);
    if from > 0 { PieceCutsNoWord(job.doc.text, block, from); }
    if to < |block.text| { PieceCutsNoWord(job.doc.text, block, to); }
  }
}
