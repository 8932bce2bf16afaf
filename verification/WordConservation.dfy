/** From the input text to the chunks no word is lost, added, cut or moved. */
module WordConservation {
  import opened Text
  import opened Parsing
  import opened Assembly
  import opened Sentences
  import opened Corpus
  import opened ChunkPlan
  import opened Chunker
  import opened ChunkCoverage

  // ----- Spans of a text -----

  predicate HasPosition(s: Span, x: int) {
    s.from <= x < s.to
  }

  predicate Covered(spans: seq<Span>, x: int) {
    exists i :: 0 <= i < |spans| && HasPosition(spans[i], x)
  }

  /** In order, without overlap, none empty. */
  ghost predicate Ordered(spans: seq<Span>) {
    && (forall i :: 0 <= i < |spans| ==> spans[i].from < spans[i].to)
    && (forall i, j :: 0 <= i < j < |spans| ==> spans[i].to <= spans[j].from)
  }

  predicate Apart(s: Span, t: Span) {
    s.to <= t.from || t.to <= s.from
  }

  /** Two lists of spans, merged by offset. */
  function Merge(a: seq<Span>, b: seq<Span>): seq<Span> {
    if a == [] then b
    else if b == [] then a
    else if a[0].from < b[0].from then [a[0]] + Merge(a[1..], b)
    else [b[0]] + Merge(a, b[1..])
  }

  lemma {:induction false} MergeHolds(a: seq<Span>, b: seq<Span>)
    ensures forall s :: s in Merge(a, b) <==> s in a || s in b
    decreases |a| + |b|
  {
    if a != [] && b != [] {
      assert a == [a[0]] + a[1..] && b == [b[0]] + b[1..];
      if a[0].from < b[0].from { MergeHolds(a[1..], b); } else { MergeHolds(a, b[1..]); }
    }
  }

  lemma OrderedTail(a: seq<Span>)
    requires Ordered(a) && a != []
    ensures Ordered(a[1..])
    ensures forall s :: s in a[1..] ==> a[0].to <= s.from && s.from < s.to
  {
  }

  lemma OrderedCons(s: Span, rest: seq<Span>)
    requires s.from < s.to && Ordered(rest) && forall t :: t in rest ==> s.to <= t.from
    ensures Ordered([s] + rest)
  {
    var all := [s] + rest;
    forall i, j | 0 <= i < j < |all| ensures all[i].to <= all[j].from {
      assert all[j] == rest[j - 1] && rest[j - 1] in rest;
    }
  }

  /** The head that starts first comes before everything else. */
  lemma HeadFirst(s: Span, other: seq<Span>)
    requires s.from < s.to && other != [] && Ordered(other) && s.from <= other[0].from
    requires forall t :: t in other ==> Apart(s, t)
    ensures forall t :: t in other ==> s.to <= t.from
  {
    forall t | t in other ensures s.to <= t.from {
      var k :| 0 <= k < |other| && other[k] == t;
      assert other[0].from <= t.from && other[k].from < other[k].to;
      assert Apart(s, t);
    }
  }

  lemma {:induction false} MergeOrders(a: seq<Span>, b: seq<Span>)
    requires Ordered(a) && Ordered(b) && forall s, t :: s in a && t in b ==> Apart(s, t)
    ensures Ordered(Merge(a, b))
    decreases |a| + |b|
  {
    if a != [] && b != [] {
      assert a[0] in a && b[0] in b;
      if a[0].from < b[0].from {
        OrderedTail(a);
        HeadFirst(a[0], b);
        MergeHolds(a[1..], b);
        MergeOrders(a[1..], b);
        OrderedCons(a[0], Merge(a[1..], b));
      } else {
        OrderedTail(b);
        HeadFirst(b[0], a);
        MergeHolds(a, b[1..]);
        MergeOrders(a, b[1..]);
        OrderedCons(b[0], Merge(a, b[1..]));
      }
    }
  }

  /** The texts under the spans. */
  function Slices(text: string, spans: seq<Span>): seq<string> {
    if spans == [] then [] else [Extract(text, spans[0].from, spans[0].to)] + Slices(text, spans[1..])
  }

  /** Every position from pos on that no span holds is white space, and no span ends inside a word. */
  ghost predicate Tidy(text: string, spans: seq<Span>, pos: nat) {
    && (forall x :: pos <= x < |text| && !Covered(spans, x) ==> IsSpace(text[x]))
    && (forall i :: 0 <= i < |spans| ==> pos <= spans[i].from && spans[i].to <= |text| && CutsNoWord(text, spans[i].to))
  }

  lemma CleanTail(text: string, spans: seq<Span>, pos: nat)
    requires Ordered(spans) && Tidy(text, spans, pos) && spans != []
    ensures Tidy(text, spans[1..], spans[0].to) && Ordered(spans[1..])
    ensures pos <= spans[0].from < spans[0].to <= |text| && CutsNoWord(text, spans[0].to)
    ensures forall x :: pos <= x < spans[0].from ==> IsSpace(text[x])
  {
    hide IsSpace;
    hide CutsNoWord;
    OrderedTail(spans);
    var rest := spans[1..];
    forall x | spans[0].to <= x < |text| && !Covered(rest, x) ensures IsSpace(text[x]) {
      TailCovers(spans, x);
    }
    forall x | pos <= x < spans[0].from ensures IsSpace(text[x]) {
      NothingBefore(spans, x);
    }
  }

  lemma TailCovers(spans: seq<Span>, x: int)
    requires spans != [] && x >= spans[0].to
    ensures Covered(spans, x) ==> Covered(spans[1..], x)
  {
    if i :| 0 <= i < |spans| && HasPosition(spans[i], x) {
      assert HasPosition(spans[1..][i - 1], x);
    }
  }

  lemma NothingBefore(spans: seq<Span>, x: int)
    requires Ordered(spans) && spans != [] && x < spans[0].from
    ensures !Covered(spans, x)
  {
    forall i | 0 <= i < |spans| ensures !HasPosition(spans[i], x) {
      assert i == 0 || spans[0].to <= spans[i].from;
    }
  }

  /** The words under the spans are the words of the text. */
  lemma {:induction false} WordsOfSpans(text: string, spans: seq<Span>, pos: nat)
    requires Ordered(spans) && pos <= |text| && Tidy(text, spans, pos)
    ensures AllWords(Slices(text, spans)) == Words(text[pos..])
    decreases spans
  {
    hide Words, IsSpace, Tidy, Ordered, CutsNoWord;
    if spans == [] {
      assert AllSpace(text[pos..]) by { CleanEnd(text, pos); }
      WordsOfSpace(text[pos..]);
    } else {
      CleanTail(text, spans, pos);
      var from, to := spans[0].from, spans[0].to;
      WordsOfSpans(text, spans[1..], to);
      WordsOfSplitText(text, pos, from, to);
      assert Slices(text, spans)[1..] == Slices(text, spans[1..]);
    }
  }

  lemma CleanEnd(text: string, pos: nat)
    requires pos <= |text| && Tidy(text, [], pos)
    ensures AllSpace(text[pos..])
  {
    hide IsSpace;
    forall i | 0 <= i < |text[pos..]| ensures IsSpace(text[pos..][i]) {
      assert !Covered([], pos + i);
    }
  }

  lemma WordsOfSplitText(text: string, pos: nat, from: nat, to: nat)
    requires pos <= from < to <= |text| && CutsNoWord(text, to)
    requires forall x :: pos <= x < from ==> IsSpace(text[x])
    ensures Words(text[pos..]) == Words(text[from..to]) + Words(text[to..])
  {
    hide Words, IsSpace;
    var gap, own, rest := text[pos..from], text[from..to], text[to..];
    assert text[pos..] == gap + (own + rest);
    WordsOfSpace(gap);
    assert Breaks(gap, own + rest);
    WordsOfConcat(gap, own + rest);
    assert Breaks(own, rest);
    WordsOfConcat(own, rest);
  }

  // ----- Headings and chunks together -----

  function HeadingSpans(blocks: seq<AnchoredBlock>, n: nat): seq<Span>
    requires n <= |blocks|
    decreases n
  {
    if n == 0 then []
    else
      HeadingSpans(blocks, n - 1)
      + if blocks[n - 1].heading then [Span(blocks[n - 1].charStart, blocks[n - 1].charEnd)] else []
  }

  function ChunkSpans(chunks: seq<ChunkDraft>): (spans: seq<Span>)
    ensures |spans| == |chunks|
    ensures forall i :: 0 <= i < |chunks| ==> spans[i] == Span(chunks[i].charStart, chunks[i].charEnd)
  {
    seq(|chunks|, i requires 0 <= i < |chunks| => Span(chunks[i].charStart, chunks[i].charEnd))
  }

  lemma {:induction false} HeadingSpansHold(text: string, blocks: seq<AnchoredBlock>, n: nat)
    requires Layout(text, blocks) && n <= |blocks|
    ensures forall s :: s in HeadingSpans(blocks, n) ==>
                          exists h :: 0 <= h < n && blocks[h].heading && s == Span(blocks[h].charStart, blocks[h].charEnd)
    ensures forall h :: 0 <= h < n && blocks[h].heading ==> Span(blocks[h].charStart, blocks[h].charEnd) in HeadingSpans(blocks, n)
    decreases n
  {
    hide Layout;
    if n > 0 {
      HeadingSpansHold(text, blocks, n - 1);
      forall s | s in HeadingSpans(blocks, n)
        ensures exists h :: 0 <= h < n && blocks[h].heading && s == Span(blocks[h].charStart, blocks[h].charEnd)
      {
        if s !in HeadingSpans(blocks, n - 1) {
          assert blocks[n - 1].heading && s == Span(blocks[n - 1].charStart, blocks[n - 1].charEnd);
        }
      }
    }
  }

  lemma {:induction false} HeadingSpansOrdered(text: string, blocks: seq<AnchoredBlock>, n: nat)
    requires Layout(text, blocks) && n <= |blocks|
    ensures Ordered(HeadingSpans(blocks, n))
    decreases n
  {
    hide Anchored, Adjacent;
    if n > 0 {
      HeadingSpansOrdered(text, blocks, n - 1);
      HeadingSpansHold(text, blocks, n - 1);
      var before := HeadingSpans(blocks, n - 1);
      if blocks[n - 1].heading {
        AnchoredInside(text, blocks[n - 1]);
        forall s | s in before ensures s.to <= blocks[n - 1].charStart {
          var h :| 0 <= h < n - 1 && blocks[h].heading && s == Span(blocks[h].charStart, blocks[h].charEnd);
          BlocksInOrder(text, blocks, h, n - 1);
        }
        OrderedSnoc(before, Span(blocks[n - 1].charStart, blocks[n - 1].charEnd));
      } else {
        assert HeadingSpans(blocks, n) == before;
      }
    }
  }

  lemma OrderedSnoc(spans: seq<Span>, s: Span)
    requires s.from < s.to && Ordered(spans) && forall t :: t in spans ==> t.to <= s.from
    ensures Ordered(spans + [s])
  {
  }

  /** The document's headings and its chunks, merged by offset. */
  function MergedSpans(doc: ParsedDocument, chunks: seq<ChunkDraft>): seq<Span> {
    Merge(HeadingSpans(doc.blocks, |doc.blocks|), ChunkSpans(chunks))
  }

  /** All chunks of an assembled document. */
  ghost predicate Chunked(job: ChunkJob, chunks: seq<ChunkDraft>) {
    IsAssembled(job.doc) && IsChunking(job, chunks)
  }

  lemma ChunkSpansOrdered(job: ChunkJob, chunks: seq<ChunkDraft>)
    requires Chunked(job, chunks)
    ensures Ordered(ChunkSpans(chunks))
  {
    hide IsChunking, Layout;
    ChunksAreExactAndDisjoint(job, chunks);
    forall i | 0 <= i < |chunks| ensures chunks[i].charStart < chunks[i].charEnd {
      assert Exact(job.doc, chunks[i]);
    }
  }

  lemma HeadingsApartFromChunks(job: ChunkJob, chunks: seq<ChunkDraft>, h: nat, j: nat)
    requires Chunked(job, chunks) && h < |job.doc.blocks| && job.doc.blocks[h].heading && j < |chunks|
    ensures Apart(Span(job.doc.blocks[h].charStart, job.doc.blocks[h].charEnd), ChunkSpans(chunks)[j])
  {
    hide IsChunking, Layout;
    HeadingApart(job, chunks, j, h);
  }

  lemma OutcomeOrdered(job: ChunkJob, chunks: seq<ChunkDraft>)
    requires Chunked(job, chunks)
    ensures Ordered(MergedSpans(job.doc, chunks))
  {
    hide IsChunking, Layout, Ordered, Apart;
    var blocks := job.doc.blocks;
    var headings := HeadingSpans(blocks, |blocks|);
    HeadingSpansOrdered(job.doc.text, blocks, |blocks|);
    HeadingSpansHold(job.doc.text, blocks, |blocks|);
    ChunkSpansOrdered(job, chunks);
    forall s, t | s in headings && t in ChunkSpans(chunks) ensures Apart(s, t) {
      var h :| 0 <= h < |blocks| && blocks[h].heading && s == Span(blocks[h].charStart, blocks[h].charEnd);
      var j :| 0 <= j < |chunks| && ChunkSpans(chunks)[j] == t;
      HeadingsApartFromChunks(job, chunks, h, j);
    }
    MergeOrders(headings, ChunkSpans(chunks));
  }

  /** A position that neither a heading nor a chunk holds is white space. */
  lemma RestIsSpace(job: ChunkJob, chunks: seq<ChunkDraft>, x: nat)
    requires Chunked(job, chunks) && x < |job.doc.text| && !Covered(MergedSpans(job.doc, chunks), x)
    ensures IsSpace(job.doc.text[x])
  {
    hide IsChunking, Anchored, Adjacent, IsSpace, InBlock;
    var blocks := job.doc.blocks;
    var headings := HeadingSpans(blocks, |blocks|);
    BlockOrGap(job.doc.text, blocks, x, |blocks| - 1);
    if b :| 0 <= b < |blocks| && InBlock(blocks[b], x) {
      MergeHolds(headings, ChunkSpans(chunks));
      HeadingSpansHold(job.doc.text, blocks, |blocks|);
      ChunksCoverTheBody(job, chunks, b, x);
      SpanCovers(job, chunks, b, x);
      assert false;
    }
  }

  lemma SpanCovers(job: ChunkJob, chunks: seq<ChunkDraft>, b: nat, x: nat)
    requires b < |job.doc.blocks| && InBlock(job.doc.blocks[b], x)
    requires forall s :: s in ChunkSpans(chunks) ==> s in MergedSpans(job.doc, chunks)
    requires job.doc.blocks[b].heading ==> Span(job.doc.blocks[b].charStart, job.doc.blocks[b].charEnd) in MergedSpans(job.doc, chunks)
    requires !job.doc.blocks[b].heading <==> exists j :: 0 <= j < |chunks| && InChunk(chunks[j], x)
    ensures Covered(MergedSpans(job.doc, chunks), x)
  {
    var all := MergedSpans(job.doc, chunks);
    hide MergedSpans;
    var s: Span;
    if job.doc.blocks[b].heading {
      s := Span(job.doc.blocks[b].charStart, job.doc.blocks[b].charEnd);
    } else {
      var j :| 0 <= j < |chunks| && InChunk(chunks[j], x);
      s := ChunkSpans(chunks)[j];
    }
    assert s in all && HasPosition(s, x);
    var i :| 0 <= i < |all| && all[i] == s;
  }

  lemma SpanIsClean(job: ChunkJob, chunks: seq<ChunkDraft>, s: Span)
    requires Chunked(job, chunks) && s in MergedSpans(job.doc, chunks)
    ensures s.to <= |job.doc.text| && CutsNoWord(job.doc.text, s.to)
  {
    hide IsChunking, Layout, CutsNoWord;
    var blocks := job.doc.blocks;
    MergeHolds(HeadingSpans(blocks, |blocks|), ChunkSpans(chunks));
    HeadingSpansHold(job.doc.text, blocks, |blocks|);
    if s in ChunkSpans(chunks) {
      var j :| 0 <= j < |chunks| && ChunkSpans(chunks)[j] == s;
      ChunkCutsNoWord(job, chunks, j);
    } else {
      var h :| 0 <= h < |blocks| && blocks[h].heading && s == Span(blocks[h].charStart, blocks[h].charEnd);
      BlockCutsNoWord(job.doc.text, blocks, h);
    }
  }

  lemma OutcomeClean(job: ChunkJob, chunks: seq<ChunkDraft>)
    requires Chunked(job, chunks)
    ensures Tidy(job.doc.text, MergedSpans(job.doc, chunks), 0)
  {
    hide IsSpace, CutsNoWord, MergedSpans, Chunked, Covered;
    var all := MergedSpans(job.doc, chunks);
    forall x | 0 <= x < |job.doc.text| && !Covered(all, x) ensures IsSpace(job.doc.text[x]) {
      RestIsSpace(job, chunks, x);
    }
    forall i | 0 <= i < |all| ensures all[i].to <= |job.doc.text| && CutsNoWord(job.doc.text, all[i].to) {
      SpanIsClean(job, chunks, all[i]);
    }
  }

  /** The words of a document are the words of its headings and chunks, merged by offset. */
  lemma ChunkingKeepsWords(job: ChunkJob, chunks: seq<ChunkDraft>)
    requires Chunked(job, chunks)
    ensures AllWords(Slices(job.doc.text, MergedSpans(job.doc, chunks))) == Words(job.doc.text)
  {
    hide Words, MergedSpans, Chunked, Ordered, Tidy;
    OutcomeOrdered(job, chunks);
    OutcomeClean(job, chunks);
    WordsOfSpans(job.doc.text, MergedSpans(job.doc, chunks), 0);
    assert job.doc.text[0..] == job.doc.text;
  }

  // ----- The chunks alone -----

  function ChunkTexts(chunks: seq<ChunkDraft>): seq<string> {
    if chunks == [] then [] else ChunkTexts(chunks[..|chunks| - 1]) + [chunks[|chunks| - 1].text]
  }

  /** The words of the body blocks among the first k. */
  function BodyBefore(blocks: seq<AnchoredBlock>, k: nat): seq<string>
    requires k <= |blocks|
  {
    if k == 0 then [] else BodyBefore(blocks, k - 1) + if blocks[k - 1].heading then [] else Words(blocks[k - 1].text)
  }

  /** The words of the body text before a place. */
  function WordsUpTo(blocks: seq<AnchoredBlock>, p: Pos): seq<string> {
    if p.block < |blocks| then
      BodyBefore(blocks, p.block) + if 0 < p.offset <= |blocks[p.block].text| then Words(blocks[p.block].text[..p.offset]) else []
    else BodyBefore(blocks, |blocks|)
  }

  lemma {:induction false} HeadingsAddNoBody(blocks: seq<AnchoredBlock>, lo: nat, hi: nat)
    requires HeadingsOnly(blocks, lo, hi)
    ensures BodyBefore(blocks, hi) == BodyBefore(blocks, lo)
    decreases hi
  {
    hide Words;
    if lo < hi { HeadingsAddNoBody(blocks, lo, hi - 1); }
  }

  lemma SkippingAddsNoBody(blocks: seq<AnchoredBlock>, p: Pos, q: Pos)
    requires Skips(blocks, p, q)
    ensures WordsUpTo(blocks, p) == WordsUpTo(blocks, q)
  {
    hide Words, BodyBefore;
    if p != q { HeadingsAddNoBody(blocks, p.block, q.block); }
  }

  lemma {:induction false} RunAddsBody(blocks: seq<AnchoredBlock>, lo: nat, hi: nat)
    requires lo <= hi <= |blocks| && forall i :: lo <= i < hi ==> !blocks[i].heading
    ensures BodyBefore(blocks, hi) == BodyBefore(blocks, lo) + AllWords(BlockTexts(blocks[lo..hi]))
    decreases hi
  {
    if lo == hi {
      hide Words, BodyBefore;
      assert blocks[lo..hi] == [];
    } else {
      hide Words, AllWords, BlockTexts;
      RunAddsBody(blocks, lo, hi - 1);
      assert BodyBefore(blocks, hi) == BodyBefore(blocks, hi - 1) + Words(blocks[hi - 1].text);
      OneMoreText(blocks, lo, hi);
    }
  }

  lemma OneMoreText(blocks: seq<AnchoredBlock>, lo: nat, hi: nat)
    requires lo < hi <= |blocks|
    ensures AllWords(BlockTexts(blocks[lo..hi])) == AllWords(BlockTexts(blocks[lo..hi - 1])) + Words(blocks[hi - 1].text)
  {
    hide Words, AllWords, BlockTexts;
    assert blocks[lo..hi] == blocks[lo..hi - 1] + [blocks[hi - 1]];
    BlockTextsOfMore(blocks[lo..hi - 1], blocks[hi - 1]);
    AllWordsOfConcat(BlockTexts(blocks[lo..hi - 1]), [blocks[hi - 1].text]);
    AllWordsOfOne(blocks[hi - 1].text);
  }

  lemma {:induction false} BlockTextsOfMore(blocks: seq<AnchoredBlock>, b: AnchoredBlock)
    ensures BlockTexts(blocks + [b]) == BlockTexts(blocks) + [b.text]
    decreases blocks
  {
    if blocks == [] {
      assert [b][1..] == [];
    } else {
      assert (blocks + [b])[1..] == blocks[1..] + [b];
      BlockTextsOfMore(blocks[1..], b);
    }
  }

  lemma AllWordsOfOne(text: string)
    ensures AllWords([text]) == Words(text)
  {
    assert [text][1..] == [];
  }

  lemma RunText(job: ChunkJob, lo: nat, hi: nat)
    requires IsAssembled(job.doc) && lo < hi <= |job.doc.blocks|
    ensures Words(TextOf(job.doc, Run(lo, hi))) == AllWords(BlockTexts(job.doc.blocks[lo..hi]))
  {
    hide Layout, Join, Words, AllWords, BlockTexts, Extract;
    JoinedRun(job.doc.text, job.doc.blocks, lo, hi);
    WordsOfJoin(BlockTexts(job.doc.blocks[lo..hi]), GAP);
  }

  lemma BodyRun(job: ChunkJob, lo: nat, hi: nat)
    requires IsBlockRun(job, lo, hi)
    ensures lo < hi <= |job.doc.blocks| && forall i :: lo <= i < hi ==> !job.doc.blocks[i].heading
  {
    hide BlockSum;
  }

  lemma UpToBlock(blocks: seq<AnchoredBlock>, k: nat)
    requires k <= |blocks|
    ensures WordsUpTo(blocks, Pos(k, 0)) == BodyBefore(blocks, k)
  {
    hide BodyBefore;
    if k < |blocks| { assert BodyBefore(blocks, k) + [] == BodyBefore(blocks, k); }
  }

  lemma RunEntry(job: ChunkJob, lo: nat, hi: nat)
    requires IsAssembled(job.doc) && IsBlockRun(job, lo, hi)
    ensures InBounds(job.doc.blocks, Run(lo, hi))
    ensures WordsUpTo(job.doc.blocks, Pos(hi, 0)) == WordsUpTo(job.doc.blocks, Pos(lo, 0)) + Words(TextOf(job.doc, Run(lo, hi)))
  {
    BodyRun(job, lo, hi);
    hide IsBlockRun, Layout, TextOf, Words, WordsUpTo, BodyBefore, AllWords, BlockTexts;
    RunText(job, lo, hi);
    RunAddsBody(job.doc.blocks, lo, hi);
    UpToBlock(job.doc.blocks, lo);
    UpToBlock(job.doc.blocks, hi);
  }

  lemma SliceText(job: ChunkJob, b: nat, from: nat, to: nat)
    requires IsAssembled(job.doc) && IsSlice(job, b, from, to)
    ensures InBounds(job.doc.blocks, Slice(b, from, to))
    ensures TextOf(job.doc, Slice(b, from, to)) == job.doc.blocks[b].text[from..to]
  {
    hide Boundary, SentenceSum, SentenceEnd, Trimmed, Adjacent;
    var block := job.doc.blocks[b];
    assert Anchored(job.doc.text, block);
    assert job.doc.text[block.charStart..block.charEnd][from..to] == job.doc.text[block.charStart + from..block.charStart + to];
  }

  lemma PieceAddsWords(s: string, from: nat, to: nat)
    requires from < to <= |s| && Boundary(s, from)
    ensures Words(s[..to]) == Words(s[..from]) + Words(s[from..to])
  {
    if from > 0 { BoundaryCutsNoWord(s, from); }
    hide Words, IsSpace, Boundary;
    assert s[..to] == s[..from] + s[from..to];
    WordsOfConcat(s[..from], s[from..to]);
  }

  /** The words of the body before an offset of a body block. */
  lemma UpToOffset(blocks: seq<AnchoredBlock>, b: nat, offset: nat)
    requires b < |blocks| && offset <= |blocks[b].text|
    ensures WordsUpTo(blocks, Pos(b, offset)) == BodyBefore(blocks, b) + Words(blocks[b].text[..offset])
  {
    hide Words, BodyBefore;
    if offset == 0 {
      NoWordsAtAll();
      assert blocks[b].text[..0] == "";
    }
  }

  lemma UpToEnd(blocks: seq<AnchoredBlock>, b: nat, from: nat, to: nat)
    requires b < |blocks| && !blocks[b].heading && from < to <= |blocks[b].text|
    ensures WordsUpTo(blocks, End(blocks, Slice(b, from, to))) == BodyBefore(blocks, b) + Words(blocks[b].text[..to])
  {
    hide Words, WordsUpTo;
    if to < |blocks[b].text| {
      hide BodyBefore;
      UpToOffset(blocks, b, to);
    } else {
      assert blocks[b].text[..to] == blocks[b].text;
      assert BodyBefore(blocks, b + 1) == BodyBefore(blocks, b) + Words(blocks[b].text);
      UpToBlock(blocks, b + 1);
    }
  }

  lemma SliceBounds(job: ChunkJob, b: nat, from: nat, to: nat)
    requires IsSlice(job, b, from, to)
    ensures b < |job.doc.blocks| && !job.doc.blocks[b].heading && from < to <= |job.doc.blocks[b].text|
    ensures Boundary(job.doc.blocks[b].text, from)
  {
    hide SentenceSum, SentenceEnd, Stop;
  }

  lemma SliceEntry(job: ChunkJob, b: nat, from: nat, to: nat)
    requires IsAssembled(job.doc) && IsSlice(job, b, from, to)
    ensures InBounds(job.doc.blocks, Slice(b, from, to))
    ensures WordsUpTo(job.doc.blocks, End(job.doc.blocks, Slice(b, from, to)))
            == WordsUpTo(job.doc.blocks, Pos(b, from)) + Words(TextOf(job.doc, Slice(b, from, to)))
  {
    hide IsSlice, Boundary, Layout, TextOf, Words, WordsUpTo, BodyBefore, End, InBounds;
    SliceText(job, b, from, to);
    SliceBounds(job, b, from, to);
    PieceAddsWords(job.doc.blocks[b].text, from, to);
    UpToOffset(job.doc.blocks, b, from);
    UpToEnd(job.doc.blocks, b, from, to);
  }

  lemma NoWordsAtAll()
    ensures Words("") == []
  {
  }

  lemma EntryAddsBody(job: ChunkJob, o: Origin)
    requires IsAssembled(job.doc) && IsOrigin(job, o)
    ensures InBounds(job.doc.blocks, o)
    ensures WordsUpTo(job.doc.blocks, End(job.doc.blocks, o)) == WordsUpTo(job.doc.blocks, Start(o)) + Words(TextOf(job.doc, o))
  {
    OriginInBounds(job, o);
    hide IsBlockRun, IsSlice, Layout, WordsUpTo, TextOf, Words;
    match o
    case Run(lo, hi) => RunEntry(job, lo, hi);
    case Slice(b, from, to) => SliceEntry(job, b, from, to);
  }

  lemma {:induction false} ChunksUpTo(job: ChunkJob, plan: seq<Origin>, chunks: seq<ChunkDraft>, n: nat)
    requires IsAssembled(job.doc) && IsPlan(job, plan, Pos(|job.doc.blocks|, 0)) && AreDrafts(job, plan, chunks)
    requires n <= |chunks| == |plan|
    ensures AllWords(ChunkTexts(chunks[..n])) == WordsUpTo(job.doc.blocks, Reached(job.doc.blocks, Before(plan, n)))
    decreases n
  {
    hide IsPlan, AreDrafts, Layout, IsOrigin, Words, TextOf, End, Start, Skips, InBounds;
    if n == 0 {
      assert chunks[..0] == [];
      NoBodyBefore(job.doc.blocks);
    } else {
      var most, o := chunks[..n - 1], plan[n - 1];
      assert chunks[..n][..n - 1] == most;
      ChunksUpTo(job, plan, chunks, n - 1);
      ChunkIsEntry(job, plan, chunks, n - 1);
      EntryAt(job, plan, Pos(|job.doc.blocks|, 0), n - 1);
      SkippingAddsNoBody(job.doc.blocks, Reached(job.doc.blocks, Before(plan, n - 1)), Start(o));
      EntryAddsBody(job, o);
      hide WordsUpTo;
      AllWordsOfConcat(ChunkTexts(most), [chunks[n - 1].text]);
      AllWordsOfOne(chunks[n - 1].text);
    }
  }

  lemma NoBodyBefore(blocks: seq<AnchoredBlock>)
    ensures WordsUpTo(blocks, Pos(0, 0)) == []
  {
  }

  /** The words of the chunks are exactly the words of the body blocks, in order. */
  lemma ChunksHoldTheBody(job: ChunkJob, chunks: seq<ChunkDraft>)
    requires Chunked(job, chunks)
    ensures AllWords(ChunkTexts(chunks)) == BodyBefore(job.doc.blocks, |job.doc.blocks|)
  {
    hide AreDrafts, Layout, Words, BodyBefore, IsEntry;
    var plan := PlanOf(job, chunks);
    ChunksUpTo(job, plan, chunks, |chunks|);
    assert chunks[..|chunks|] == chunks;
    SkippingAddsNoBody(job.doc.blocks, Reached(job.doc.blocks, Before(plan, |plan|)), Pos(|job.doc.blocks|, 0));
  }

  /** No chunk is blank. */
  lemma ChunkHasWords(job: ChunkJob, chunks: seq<ChunkDraft>, j: nat)
    requires Chunked(job, chunks) && j < |chunks|
    ensures Words(chunks[j].text) != []
  {
    hide IsPlan, AreDrafts, Layout, IsOrigin, CharStart, CharEnd, InBounds;
    var plan := PlanOf(job, chunks);
    ChunkIsEntry(job, plan, chunks, j);
    EntryAt(job, plan, Pos(|job.doc.blocks|, 0), j);
    OriginBounds(job, plan[j]);
    StartsWithInk(job, plan[j]);
    WordlessIsBlank(chunks[j].text);
  }

  lemma StartsWithInk(job: ChunkJob, o: Origin)
    requires IsAssembled(job.doc) && IsOrigin(job, o)
    ensures InBounds(job.doc.blocks, o) && TextOf(job.doc, o) != "" && !IsSpace(TextOf(job.doc, o)[0])
  {
    hide BlockSum, SentenceSum, SentenceEnd, Layout, IsSpace, Stop, IsOrigin, CharEnd;
    OriginBounds(job, o);
    StartsInBlock(job, o);
    StartBoundary(job, o);
    StartsOnInk(job.doc, Start(o).block, Start(o).offset);
  }

  lemma StartBoundary(job: ChunkJob, o: Origin)
    requires IsOrigin(job, o)
    ensures InBounds(job.doc.blocks, o)
    ensures Start(o).block < |job.doc.blocks| && Boundary(job.doc.blocks[Start(o).block].text, Start(o).offset)
  {
    hide BlockSum, SentenceSum, SentenceEnd, Stop;
  }

  lemma StartsOnInk(doc: ParsedDocument, b: nat, offset: nat)
    requires IsAssembled(doc) && b < |doc.blocks|
    requires offset < doc.blocks[b].charEnd - doc.blocks[b].charStart && Boundary(doc.blocks[b].text, offset)
    ensures doc.blocks[b].charStart + offset < |doc.text| && !IsSpace(doc.text[doc.blocks[b].charStart + offset])
  {
    hide Adjacent, IsSpace, Stop;
    var block := doc.blocks[b];
    assert Anchored(doc.text, block);
    assert block.text[offset] == doc.text[block.charStart..block.charEnd][offset];
    if offset > 0 { BoundaryCutsNoWord(block.text, offset); }
  }

  /** There is a chunk exactly if there is a word of body text. */
  lemma ChunksIffBody(job: ChunkJob, chunks: seq<ChunkDraft>)
    requires Chunked(job, chunks)
    ensures chunks == [] <==> AllWords(ChunkTexts(chunks)) == []
  {
    hide Chunked, Words;
    if chunks != [] {
      var most, last := chunks[..|chunks| - 1], chunks[|chunks| - 1];
      ChunkHasWords(job, chunks, |chunks| - 1);
      AllWordsOfConcat(ChunkTexts(most), [last.text]);
      AllWordsOfOne(last.text);
    }
  }

  // ----- From the parsed blocks to the body -----

  lemma {:induction false} KeptBody(blocks: seq<RawBlock>)
    ensures AllWords(Texts(BodyBlocks(Kept(blocks)))) == AllWords(Texts(BodyBlocks(blocks)))
    decreases blocks
  {
    hide Words, Trim;
    if blocks != [] {
      var b, rest := blocks[0], blocks[1..];
      KeptBody(rest);
      KeptOfOne(b, rest);
      WordsOfTrim(b.text);
      NoWordsAtAll();
      hide Kept;
      var own := if Trim(b.text) == "" then [] else [b.(text := Trim(b.text))];
      BlockKindsOfConcat(own, Kept(rest));
      BlockKindsOfConcat([b], rest);
      assert blocks == [b] + rest;
      BodyOfOne(b);
      BodyOfOne(b.(text := Trim(b.text)));
      hide BodyBlocks;
      TextsOfConcat(BodyBlocks(own), BodyBlocks(Kept(rest)));
      TextsOfConcat(BodyBlocks([b]), BodyBlocks(rest));
      AllWordsOfConcat(Texts(BodyBlocks(own)), Texts(BodyBlocks(Kept(rest))));
      AllWordsOfConcat(Texts(BodyBlocks([b])), Texts(BodyBlocks(rest)));
    }
  }

  lemma KeptOfOne(b: RawBlock, rest: seq<RawBlock>)
    ensures Kept([b] + rest) == (if Trim(b.text) == "" then [] else [b.(text := Trim(b.text))]) + Kept(rest)
  {
    hide Trim;
    assert ([b] + rest)[1..] == rest;
  }

  lemma BodyOfOne(b: RawBlock)
    ensures BodyBlocks([b]) == (if b.heading then [] else [b]) && BodyBlocks([]) == []
    ensures AllWords(Texts(BodyBlocks([b]))) == (if b.heading then [] else Words(b.text)) && AllWords(Texts([])) == []
  {
    hide Words;
    assert [b][1..] == [] && Texts([b]) == [b.text] && [b.text][1..] == [];
  }

  lemma {:induction false} BodyBeforeIs(blocks: seq<AnchoredBlock>, k: nat)
    requires k <= |blocks|
    ensures BodyBefore(blocks, k) == AllWords(Texts(BodyBlocks(RawBlocks(blocks[..k]))))
    decreases k
  {
    hide Words;
    if k > 0 {
      BodyBeforeIs(blocks, k - 1);
      assert RawBlocks(blocks[..k]) == RawBlocks(blocks[..k - 1]) + [Raw(blocks[k - 1])];
      BlockKindsOfConcat(RawBlocks(blocks[..k - 1]), [Raw(blocks[k - 1])]);
      BodyOfOne(Raw(blocks[k - 1]));
      hide BodyBlocks;
      TextsOfConcat(BodyBlocks(RawBlocks(blocks[..k - 1])), BodyBlocks([Raw(blocks[k - 1])]));
      AllWordsOfConcat(Texts(BodyBlocks(RawBlocks(blocks[..k - 1]))), Texts(BodyBlocks([Raw(blocks[k - 1])])));
    }
  }

  /** The chunks hold the words of the parsed body blocks, and there is a chunk exactly if
      there is such a word. */
  lemma ChunksHoldTheParsedBody(job: ChunkJob, chunks: seq<ChunkDraft>, raw: seq<RawBlock>)
    requires Chunked(job, chunks) && RawBlocks(job.doc.blocks) == Kept(raw)
    ensures AllWords(ChunkTexts(chunks)) == AllWords(Texts(BodyBlocks(raw)))
    ensures chunks == [] <==> AllWords(Texts(BodyBlocks(raw))) == []
  {
    hide Chunked, Words, ChunkTexts, BodyBefore, Kept, BodyBlocks, Texts, AllWords;
    ChunksHoldTheBody(job, chunks);
    ChunksIffBody(job, chunks);
    BodyBeforeIs(job.doc.blocks, |job.doc.blocks|);
    assert job.doc.blocks[..|job.doc.blocks|] == job.doc.blocks;
    KeptBody(raw);
  }

  lemma {:induction false} KeptHeadings(blocks: seq<RawBlock>)
    ensures HeadingBlocks(Kept(blocks)) == Kept(HeadingBlocks(blocks))
    decreases blocks
  {
    hide Trim;
    if blocks != [] {
      var b, rest := blocks[0], blocks[1..];
      KeptHeadings(rest);
      KeptOfOne(b, rest);
      assert blocks == [b] + rest;
      var own := if Trim(b.text) == "" then [] else [b.(text := Trim(b.text))];
      BlockKindsOfConcat(own, Kept(rest));
      BlockKindsOfConcat([b], rest);
      KeptOfOne(b, HeadingBlocks(rest));
      hide Kept;
      HeadingOfOne(b);
      HeadingOfOne(b.(text := Trim(b.text)));
      hide HeadingBlocks;
      assert HeadingBlocks(Kept(blocks)) == HeadingBlocks(own) + HeadingBlocks(Kept(rest));
      if b.heading {
        assert HeadingBlocks(blocks) == [b] + HeadingBlocks(rest);
        assert HeadingBlocks(own) == own;
      } else {
        assert HeadingBlocks(blocks) == HeadingBlocks(rest);
        assert HeadingBlocks(own) == [];
      }
    }
  }

  lemma HeadingOfOne(b: RawBlock)
    ensures HeadingBlocks([b]) == (if b.heading then [b] else []) && HeadingBlocks([]) == []
  {
    assert [b][1..] == [];
  }

  lemma {:induction false} KeptAsTheyAre(blocks: seq<RawBlock>)
    requires forall b :: b in blocks ==> b.text != "" && Trimmed(b.text)
    ensures Kept(blocks) == blocks
    decreases blocks
  {
    hide Trimmed, Trim;
    if blocks != [] {
      assert blocks[0] in blocks;
      TrimOfTrimmed(blocks[0].text);
      KeptAsTheyAre(blocks[1..]);
    }
  }

  lemma {:induction false} HeadingLinesAreTrimmed(lines: seq<string>, inFence: bool)
    ensures forall b :: b in HeadingLines(Kinds(lines, inFence)) ==> b.text != "" && Trimmed(b.text)
    decreases lines
  {
    hide IsFence, Trim, Trimmed;
    if lines != [] {
      HeadingLinesAreTrimmed(lines[1..], inFence != IsFence(lines[0]));
      assert Kinds(lines, inFence)[1..] == Kinds(lines[1..], inFence != IsFence(lines[0]));
      TrimTrims(lines[0][Hashes(lines[0])..]);
    }
  }

  // ----- End to end -----

  /** Parse, assemble and chunk a Markdown file. The words of its lines, heading markers
      removed, come out in order in the headings and the chunks. The headings are exactly
      the heading lines, and the chunks alone have the words of all other lines. */
  method ChunkMarkdown(text: string, options: ChunkOptions, tokens: Tokenizer)
    returns (doc: ParsedDocument, chunks: seq<ChunkDraft>)
    ensures AllWords(Slices(doc.text, MergedSpans(doc, chunks))) == MarkdownWords(Lines(NormalizeNewlines(text)), false)
    ensures HeadingBlocks(RawBlocks(doc.blocks)) == HeadingLines(Kinds(Lines(NormalizeNewlines(text)), false))
    ensures AllWords(ChunkTexts(chunks)) == BodyWords(Lines(NormalizeNewlines(text)), false)
    ensures chunks == [] <==> BodyWords(Lines(NormalizeNewlines(text)), false) == []
    ensures forall j :: 0 <= j < |chunks| ==> Exact(doc, chunks[j])
    ensures forall j, k :: 0 <= j < k < |chunks| ==> chunks[j].charEnd <= chunks[k].charStart
  {
    hide MergedSpans, Slices, AllWords, MarkdownWords, Words, Layout, IsChunking, Kept, Blocks, Kinds, Texts, Exact, BodyWords, BodyBlocks,
         HeadingBlocks, HeadingLines, ChunkTexts, BodyLineWords, Lines, NormalizeNewlines;
    var result := ParseMarkdown(text);
    doc := Assemble(result);
    chunks := ChunkDocument(doc, options, tokens);
    ChunkingKeepsWords(ChunkJob(doc, options, tokens), chunks);
    ChunksAreExactAndDisjoint(ChunkJob(doc, options, tokens), chunks);
    AssemblyKeepsWords(doc, result.blocks);
    MarkdownKeepsWords(text);
    ghost var lines := Lines(NormalizeNewlines(text));
    BlocksAreExact(Kinds(lines, false));
    ChunksHoldTheParsedBody(ChunkJob(doc, options, tokens), chunks, result.blocks);
    BodyLinesKeepWords(lines, false);
    KeptHeadings(result.blocks);
    HeadingLinesAreTrimmed(lines, false);
    KeptAsTheyAre(HeadingLines(Kinds(lines, false)));
  }

  /** The same for plain text, which has no headings: the chunks alone have every word, in
      order, and there is a chunk unless the text is blank. */
  method ChunkTxt(text: string, options: ChunkOptions, tokens: Tokenizer)
    returns (doc: ParsedDocument, chunks: seq<ChunkDraft>)
    ensures AllWords(ChunkTexts(chunks)) == Words(text)
    ensures chunks == [] <==> AllSpace(text)
    ensures AllWords(Slices(doc.text, MergedSpans(doc, chunks))) == Words(text)
    ensures forall j :: 0 <= j < |chunks| ==> Exact(doc, chunks[j])
    ensures forall j, k :: 0 <= j < k < |chunks| ==> chunks[j].charEnd <= chunks[k].charStart
  {
    hide MergedSpans, Slices, AllWords, MarkdownWords, Words, Layout, IsChunking, Kept, Texts, Exact, BodyBlocks, ChunkTexts, AreParagraphs,
         AllSpace;
    var result := ParseTxt(text);
    doc := Assemble(result);
    chunks := ChunkDocument(doc, options, tokens);
    ChunkingKeepsWords(ChunkJob(doc, options, tokens), chunks);
    ChunksAreExactAndDisjoint(ChunkJob(doc, options, tokens), chunks);
    AssemblyKeepsWords(doc, result.blocks);
    ChunksHoldTheParsedBody(ChunkJob(doc, options, tokens), chunks, result.blocks);
    AllBody(result.blocks);
    WordlessIsBlank(text);
  }

  lemma {:induction false} AllBody(blocks: seq<RawBlock>)
    requires forall b :: b in blocks ==> !b.heading
    ensures BodyBlocks(blocks) == blocks
    decreases blocks
  {
    if blocks != [] {
      assert blocks[0] in blocks;
      AllBody(blocks[1..]);
    }
  }
}
