/** What the chunks of a document are: a plan that says which blocks or which part of
    a block each chunk comes from, and the draft every entry of the plan yields. */
module ChunkPlan {
  import opened Common
  import Text
  import opened Assembly
  import opened Outline
  import opened Sentences
  import opened Corpus

  datatype ChunkOptions = ChunkOptions(minTokens: int, maxTokens: int, overlapTokens: int)

  /** The tokenizer is any pair of functions. */
  datatype Tokenizer = Tokenizer(count: string -> nat, takeLast: (string, int) -> string)

  datatype ChunkJob = ChunkJob(doc: ParsedDocument, options: ChunkOptions, tokens: Tokenizer)

  /** A chunk holds consecutive blocks, or a piece of one oversized block. */
  datatype Origin = Run(lo: nat, hi: nat) | Slice(block: nat, from: nat, to: nat)

  /** A place in a document: an offset into the text of a block. */
  datatype Pos = Pos(block: nat, offset: nat)

  function Start(o: Origin): Pos {
    match o
    case Run(lo, _) => Pos(lo, 0)
    case Slice(b, from, _) => Pos(b, from)
  }

  /** The end of a block is the start of the next. */
  function End(blocks: seq<AnchoredBlock>, o: Origin): Pos {
    match o
    case Run(_, hi) => Pos(hi, 0)
    case Slice(b, _, to) => if b < |blocks| && to < |blocks[b].text| then Pos(b, to) else Pos(b + 1, 0)
  }

  ghost predicate HeadingsOnly(blocks: seq<AnchoredBlock>, lo: nat, hi: nat) {
    lo <= hi <= |blocks| && forall i :: lo <= i < hi ==> blocks[i].heading
  }

  /** Nothing but headings lies between the two places. */
  ghost predicate Skips(blocks: seq<AnchoredBlock>, p: Pos, q: Pos) {
    p == q || (p.offset == 0 && q.offset == 0 && HeadingsOnly(blocks, p.block, q.block))
  }

  /** The token counts of some consecutive blocks, added up. */
  function BlockSum(count: string -> nat, blocks: seq<AnchoredBlock>, lo: nat, hi: nat): nat
    requires lo <= hi <= |blocks|
    decreases hi
  {
    if lo == hi then 0 else BlockSum(count, blocks, lo, hi - 1) + count(blocks[hi - 1].text)
  }

  /** Consecutive body blocks, none oversized, whose counts add up to at most the cap. */
  ghost predicate IsBlockRun(job: ChunkJob, lo: nat, hi: nat) {
    && lo < hi <= |job.doc.blocks|
    && (forall i :: lo <= i < hi ==>
                      !job.doc.blocks[i].heading && job.tokens.count(job.doc.blocks[i].text) <= job.options.maxTokens)
    && BlockSum(job.tokens.count, job.doc.blocks, lo, hi) <= job.options.maxTokens
  }

  /** A piece of a body block that is over the cap. */
  ghost predicate IsSlice(job: ChunkJob, b: nat, from: nat, to: nat) {
    && b < |job.doc.blocks| && !job.doc.blocks[b].heading
    && job.tokens.count(job.doc.blocks[b].text) > job.options.maxTokens
    && IsPiece(job.tokens.count, job.options.maxTokens, job.doc.blocks[b].text, from, to)
  }

  ghost predicate IsOrigin(job: ChunkJob, o: Origin) {
    match o
    case Run(lo, hi) => IsBlockRun(job, lo, hi)
    case Slice(b, from, to) => IsSlice(job, b, from, to)
  }

  /** A run that another run follows directly could not have taken its first block. */
  ghost predicate Maximal(job: ChunkJob, o: Origin, next: Origin) {
    o.Run? && next.Run? && o.hi == next.lo && o.lo <= o.hi < |job.doc.blocks| ==>
      BlockSum(job.tokens.count, job.doc.blocks, o.lo, o.hi) + job.tokens.count(job.doc.blocks[o.hi].text)
      > job.options.maxTokens
  }

  function Before(plan: seq<Origin>, j: nat): Option<Origin>
    requires j <= |plan|
  {
    if j == 0 then None else Some(plan[j - 1])
  }

  /** Where an entry ends, or the start of the document. */
  function Reached(blocks: seq<AnchoredBlock>, prev: Option<Origin>): Pos {
    if prev.None? then Pos(0, 0) else End(blocks, prev.value)
  }

  /** An entry goes on where the one before it ended, headings apart. */
  ghost predicate IsEntry(job: ChunkJob, prev: Option<Origin>, o: Origin) {
    && IsOrigin(job, o)
    && Skips(job.doc.blocks, Reached(job.doc.blocks, prev), Start(o))
    && (prev.Some? ==> Maximal(job, prev.value, o))
  }

  /** The plan covers the document up to the place, entry after entry. */
  ghost predicate IsPlan(job: ChunkJob, plan: seq<Origin>, pos: Pos) {
    && (forall j :: 0 <= j < |plan| ==> IsEntry(job, Before(plan, j), plan[j]))
    && Skips(job.doc.blocks, Reached(job.doc.blocks, Before(plan, |plan|)), pos)
  }

  // ----- The draft of an entry -----

  function HeadingOf(b: AnchoredBlock): seq<HeadingRef> {
    if b.heading then [HeadingRef(b.level.GetOr(1), b.text)] else []
  }

  function HeadingsIn(blocks: seq<AnchoredBlock>): seq<HeadingRef> {
    if blocks == [] then [] else HeadingOf(blocks[0]) + HeadingsIn(blocks[1..])
  }

  /** The headings still open where block k starts. */
  function OutlineAt(blocks: seq<AnchoredBlock>, k: nat): seq<HeadingRef>
    requires k <= |blocks|
  {
    OpenHeadings(HeadingsIn(blocks[..k]))
  }

  predicate InBounds(blocks: seq<AnchoredBlock>, o: Origin) {
    match o
    case Run(lo, hi) => lo < hi <= |blocks|
    case Slice(b, from, to) => b < |blocks| && from < to <= |blocks[b].text|
  }

  function CharStart(blocks: seq<AnchoredBlock>, o: Origin): nat
    requires InBounds(blocks, o)
  {
    match o
    case Run(lo, _) => blocks[lo].charStart
    case Slice(b, from, _) => blocks[b].charStart + from
  }

  function CharEnd(blocks: seq<AnchoredBlock>, o: Origin): nat
    requires InBounds(blocks, o)
  {
    match o
    case Run(_, hi) => blocks[hi - 1].charEnd
    case Slice(b, _, to) => blocks[b].charStart + to
  }

  /** The document's own text between the offsets of an entry. */
  function TextOf(doc: ParsedDocument, o: Origin): string
    requires InBounds(doc.blocks, o)
  {
    Extract(doc.text, CharStart(doc.blocks, o), CharEnd(doc.blocks, o))
  }

  /** What the next chunk, if it starts at pos, repeats of the chunk before it: nothing
      at the start, nothing across a heading. */
  function Carried(job: ChunkJob, prev: Option<Origin>, pos: Pos): string
    requires prev.Some? ==> InBounds(job.doc.blocks, prev.value)
  {
    if prev.None? || End(job.doc.blocks, prev.value).block != pos.block then ""
    else job.tokens.takeLast(TextOf(job.doc, prev.value), job.options.overlapTokens)
  }

  /** Nothing is carried into the first piece of an oversized block either. */
  function Overlap(job: ChunkJob, prev: Option<Origin>, o: Origin): string
    requires prev.Some? ==> InBounds(job.doc.blocks, prev.value)
  {
    if o.Slice? && o.from == 0 then "" else Carried(job, prev, Start(o))
  }

  function ContentOf(section: Option<string>, overlap: string, text: string): string {
    ContextHeader(section) + (if overlap != "" then overlap + GAP else "") + text
  }

  function Draft(job: ChunkJob, prev: Option<Origin>, o: Origin): ChunkDraft
    requires InBounds(job.doc.blocks, o)
    requires prev.Some? ==> InBounds(job.doc.blocks, prev.value)
  {
    var blocks := job.doc.blocks;
    var section := SectionPath(OutlineAt(blocks, Start(o).block));
    var content := ContentOf(section, Overlap(job, prev, o), TextOf(job.doc, o));
    ChunkDraft(content, TextOf(job.doc, o), blocks[Start(o).block].page, section,
               CharStart(blocks, o), CharEnd(blocks, o), job.tokens.count(content))
  }

  ghost predicate IsDraft(job: ChunkJob, prev: Option<Origin>, o: Origin, chunk: ChunkDraft) {
    && InBounds(job.doc.blocks, o)
    && (prev.Some? ==> InBounds(job.doc.blocks, prev.value))
    && chunk == Draft(job, prev, o)
  }

  /** The chunks are the drafts of the plan, in order. */
  ghost predicate AreDrafts(job: ChunkJob, plan: seq<Origin>, chunks: seq<ChunkDraft>) {
    && |chunks| == |plan|
    && forall j :: 0 <= j < |plan| ==> IsDraft(job, Before(plan, j), plan[j], chunks[j])
  }

  /** The chunks of a document are the drafts of a plan that reaches its end. */
  ghost predicate IsChunking(job: ChunkJob, chunks: seq<ChunkDraft>) {
    exists plan :: IsPlan(job, plan, Pos(|job.doc.blocks|, 0)) && AreDrafts(job, plan, chunks)
  }

  // ----- Growing a plan -----

  lemma OriginInBounds(job: ChunkJob, o: Origin)
    requires IsOrigin(job, o)
    ensures InBounds(job.doc.blocks, o)
  {
  }

  lemma BeforeStays(plan: seq<Origin>, o: Origin)
    ensures forall j :: 0 <= j <= |plan| ==> Before(plan + [o], j) == Before(plan, j)
    ensures Before(plan + [o], |plan| + 1) == Some(o)
  {
  }

  lemma PlanGrows(job: ChunkJob, plan: seq<Origin>, o: Origin)
    requires IsPlan(job, plan, Start(o)) && IsOrigin(job, o)
    requires plan != [] ==> Maximal(job, plan[|plan| - 1], o)
    ensures IsPlan(job, plan + [o], End(job.doc.blocks, o))
  {
    hide IsEntry, IsOrigin, Maximal, HeadingsOnly, End, Start, Before;
    LastEntry(job, plan, o);
    BeforeStays(plan, o);
    var after := plan + [o];
    forall j | 0 <= j < |after| ensures IsEntry(job, Before(after, j), after[j]) {
      if j < |plan| { assert after[j] == plan[j]; }
    }
  }

  lemma LastEntry(job: ChunkJob, plan: seq<Origin>, o: Origin)
    requires IsPlan(job, plan, Start(o)) && IsOrigin(job, o)
    requires plan != [] ==> Maximal(job, plan[|plan| - 1], o)
    ensures IsEntry(job, Before(plan, |plan|), o)
  {
    hide IsOrigin, Maximal, Skips, Start, Reached;
  }

  lemma PlanSkipsHeading(job: ChunkJob, plan: seq<Origin>, k: nat)
    requires k < |job.doc.blocks| && job.doc.blocks[k].heading
    requires IsPlan(job, plan, Pos(k, 0))
    ensures IsPlan(job, plan, Pos(k + 1, 0))
  {
    hide IsEntry, Reached;
  }

  lemma DraftsGrow(job: ChunkJob, plan: seq<Origin>, chunks: seq<ChunkDraft>, o: Origin, chunk: ChunkDraft)
    requires AreDrafts(job, plan, chunks) && IsDraft(job, Before(plan, |plan|), o, chunk)
    ensures AreDrafts(job, plan + [o], chunks + [chunk])
  {
    hide IsDraft, Before;
    BeforeStays(plan, o);
  }

  lemma EmptyPlan(job: ChunkJob)
    ensures IsPlan(job, [], Pos(0, 0)) && AreDrafts(job, [], [])
  {
  }

  lemma OneMoreBlock(blocks: seq<AnchoredBlock>, k: nat)
    requires k < |blocks|
    ensures HeadingsIn(blocks[..k + 1]) == HeadingsIn(blocks[..k]) + HeadingOf(blocks[k])
  {
    assert blocks[..k + 1] == blocks[..k] + [blocks[k]];
    HeadingsOfConcat(blocks[..k], [blocks[k]]);
    assert [blocks[k]][1..] == [];
  }

  lemma {:induction false} HeadingsOfConcat(a: seq<AnchoredBlock>, b: seq<AnchoredBlock>)
    ensures HeadingsIn(a + b) == HeadingsIn(a) + HeadingsIn(b)
    decreases a
  {
    hide HeadingOf;
    if a == [] {
      assert a + b == b;
    } else {
      assert (a + b)[1..] == a[1..] + b;
      HeadingsOfConcat(a[1..], b);
    }
  }

  /** Body blocks leave the outline as it is; a heading changes it as the stack does. */
  lemma OutlineMoves(blocks: seq<AnchoredBlock>, k: nat)
    requires k < |blocks|
    ensures !blocks[k].heading ==> OutlineAt(blocks, k + 1) == OutlineAt(blocks, k)
    ensures blocks[k].heading ==>
              OutlineAt(blocks, k + 1)
              == Above(OutlineAt(blocks, k), blocks[k].level.GetOr(1)) + [HeadingRef(blocks[k].level.GetOr(1), blocks[k].text)]
    ensures Nested(OutlineAt(blocks, k))
  {
    hide HeadingsIn, OpenHeadings, Above, Nested;
    OneMoreBlock(blocks, k);
    OpenIsNested(HeadingsIn(blocks[..k]));
    if blocks[k].heading {
      OpenAfter(HeadingsIn(blocks[..k]), HeadingRef(blocks[k].level.GetOr(1), blocks[k].text));
    } else {
      assert HeadingsIn(blocks[..k]) + [] == HeadingsIn(blocks[..k]);
    }
  }

  // ----- The outline, heading by heading -----

  /** A heading without a level counts as one of level 1. */
  function LevelOf(b: AnchoredBlock): int {
    match b.level
    case None => 1
    case Some(n) => n
  }

  /** Heading h is open at block k: it comes before, and every heading between is deeper. */
  ghost predicate IsOpen(blocks: seq<AnchoredBlock>, k: nat, h: nat)
    requires k <= |blocks|
  {
    && h < k && blocks[h].heading
    && forall i :: h < i < k && blocks[i].heading ==> LevelOf(blocks[i]) > LevelOf(blocks[h])
  }

  /** The open headings, in document order. */
  ghost predicate OpenAt(blocks: seq<AnchoredBlock>, k: nat, open: seq<nat>)
    requires k <= |blocks|
  {
    && (forall i, j :: 0 <= i < j < |open| ==> open[i] < open[j])
    && (forall h: nat :: h in open <==> IsOpen(blocks, k, h))
  }

  /** Their texts, from the outermost to the innermost, with " > " between. */
  function PathOf(blocks: seq<AnchoredBlock>, open: seq<nat>): Option<string>
    requires forall i :: 0 <= i < |open| ==> open[i] < |blocks|
  {
    if open == [] then None
    else
      var most, innermost := open[..|open| - 1], blocks[open[|open| - 1]].text;
      match PathOf(blocks, most)
      case None => Some(innermost)
      case Some(path) => Some(path + " > " + innermost)
  }

  /** The stack holds these headings. */
  ghost predicate Refers(blocks: seq<AnchoredBlock>, stack: seq<HeadingRef>, open: seq<nat>) {
    && |stack| == |open|
    && forall i :: 0 <= i < |open| ==> open[i] < |blocks| && stack[i] == HeadingRef(LevelOf(blocks[open[i]]), blocks[open[i]].text)
  }

  /** How many headings of a nested stack have a smaller level. */
  lemma {:induction false} StackSplits(stack: seq<HeadingRef>, level: int) returns (n: nat)
    requires Nested(stack)
    ensures n <= |stack| && forall i :: 0 <= i < |stack| ==> (stack[i].level < level <==> i < n)
    ensures Above(stack, level) == stack[..n]
    decreases stack
  {
    n := |stack|;
    while n > 0 && stack[n - 1].level >= level
      invariant n <= |stack| && forall i :: n <= i < |stack| ==> stack[i].level >= level
    {
      n := n - 1;
    }
    AboveIsAPrefix(stack, level, n);
  }

  lemma BodyOpensNothing(blocks: seq<AnchoredBlock>, k: nat, open: seq<nat>)
    requires k < |blocks| && OpenAt(blocks, k, open) && !blocks[k].heading
    ensures OpenAt(blocks, k + 1, open)
  {
    forall h: nat ensures IsOpen(blocks, k + 1, h) <==> IsOpen(blocks, k, h) {
    }
  }

  lemma HeadingOpens(blocks: seq<AnchoredBlock>, k: nat, open: seq<nat>, n: nat)
    requires k < |blocks| && OpenAt(blocks, k, open) && blocks[k].heading && n <= |open|
    requires forall i :: 0 <= i < |open| ==> open[i] < k && (LevelOf(blocks[open[i]]) < LevelOf(blocks[k]) <==> i < n)
    ensures OpenAt(blocks, k + 1, open[..n] + [k])
  {
    hide LevelOf;
    var after := open[..n] + [k];
    forall h: nat ensures h in after <==> IsOpen(blocks, k + 1, h) {
      if h in open[..n] { assert h in open && IsOpen(blocks, k, h); }
      if IsOpen(blocks, k + 1, h) && h != k {
        assert IsOpen(blocks, k, h) && h in open;
        var i :| 0 <= i < |open| && open[i] == h;
        assert i < n && open[..n][i] == h;
      }
    }
  }

  /** The stack of the chunker is the list of the open headings. */
  lemma {:induction false} OutlineRefers(blocks: seq<AnchoredBlock>, k: nat) returns (open: seq<nat>)
    requires k <= |blocks|
    ensures OpenAt(blocks, k, open) && Refers(blocks, OutlineAt(blocks, k), open)
    decreases k
  {
    if k == 0 {
      assert blocks[..0] == [];
      open := [];
    } else {
      var was := OutlineRefers(blocks, k - 1);
      OutlineMoves(blocks, k - 1);
      hide OutlineAt, Nested, Above, OpenAt, Refers;
      if blocks[k - 1].heading {
        open := HeadingRefers(blocks, k - 1, OutlineAt(blocks, k - 1), was);
      } else {
        BodyOpensNothing(blocks, k - 1, was);
        open := was;
      }
    }
  }

  /** One more heading changes the list as it changes the stack. */
  lemma HeadingRefers(blocks: seq<AnchoredBlock>, k: nat, stack: seq<HeadingRef>, was: seq<nat>) returns (open: seq<nat>)
    requires k < |blocks| && blocks[k].heading && OpenAt(blocks, k, was) && Refers(blocks, stack, was) && Nested(stack)
    ensures OpenAt(blocks, k + 1, open)
    ensures Refers(blocks, Above(stack, blocks[k].level.GetOr(1)) + [HeadingRef(blocks[k].level.GetOr(1), blocks[k].text)], open)
  {
    var level := LevelOf(blocks[k]);
    assert level == blocks[k].level.GetOr(1);
    var n := StackSplits(stack, level);
    forall i | 0 <= i < |was| ensures was[i] < k && (LevelOf(blocks[was[i]]) < level <==> i < n) {
      assert was[i] in was && stack[i].level == LevelOf(blocks[was[i]]);
    }
    hide LevelOf, OpenAt, Nested, Above;
    HeadingOpens(blocks, k, was, n);
    open := was[..n] + [k];
  }

  lemma {:induction false} TextsOfMore(stack: seq<HeadingRef>, h: HeadingRef)
    ensures HeadingTexts(stack + [h]) == HeadingTexts(stack) + [h.text]
    decreases stack
  {
    if stack == [] {
      assert [h][1..] == [];
    } else {
      assert (stack + [h])[1..] == stack[1..] + [h];
      TextsOfMore(stack[1..], h);
    }
  }

  lemma {:induction false} JoinOfLast(texts: seq<string>, last: string, sep: string)
    ensures Text.Join(texts + [last], sep) == if texts == [] then last else Text.Join(texts, sep) + sep + last
    decreases texts
  {
    if texts == [] {
      assert [] + [last] == [last];
    } else {
      assert (texts + [last])[1..] == texts[1..] + [last];
      JoinOfLast(texts[1..], last, sep);
      if |texts| > 1 {
        assert texts[0] + sep + (Text.Join(texts[1..], sep) + sep + last) == texts[0] + sep + Text.Join(texts[1..], sep) + sep + last;
      }
    }
  }

  lemma {:induction false} PathIsOfOpen(blocks: seq<AnchoredBlock>, stack: seq<HeadingRef>, open: seq<nat>)
    requires Refers(blocks, stack, open)
    ensures SectionPath(stack) == PathOf(blocks, open)
    decreases stack
  {
    if stack != [] {
      var n := |stack| - 1;
      PathIsOfOpen(blocks, stack[..n], open[..n]);
      assert stack == stack[..n] + [stack[n]];
      TextsOfMore(stack[..n], stack[n]);
      hide HeadingTexts, Text.Join;
      JoinOfLast(HeadingTexts(stack[..n]), stack[n].text, " > ");
      assert HeadingTexts(stack[..n]) == [] <==> n == 0 by { TextsCount(stack[..n]); }
    }
  }

  lemma {:induction false} TextsCount(stack: seq<HeadingRef>)
    ensures |HeadingTexts(stack)| == |stack|
    decreases stack
  {
    if stack != [] { TextsCount(stack[1..]); }
  }

  /** The section at block k is the path of the headings open there. */
  lemma SectionIsThePath(blocks: seq<AnchoredBlock>, k: nat) returns (open: seq<nat>)
    requires k <= |blocks|
    ensures OpenAt(blocks, k, open) && forall i :: 0 <= i < |open| ==> open[i] < |blocks|
    ensures SectionPath(OutlineAt(blocks, k)) == PathOf(blocks, open)
  {
    hide OutlineAt, SectionPath, PathOf;
    open := OutlineRefers(blocks, k);
    PathIsOfOpen(blocks, OutlineAt(blocks, k), open);
  }
}
