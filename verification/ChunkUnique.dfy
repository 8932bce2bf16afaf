/** The rules of a plan leave no choice: caps, maximality and coverage determine the chunks. */
module ChunkUnique {
  import opened Assembly
  import opened Sentences
  import opened Corpus
  import opened ChunkPlan
  import opened ChunkCoverage

  // ----- Where the next entry starts -----

  /** The place is in a body block. */
  ghost predicate InBody(blocks: seq<AnchoredBlock>, p: Pos) {
    p.block < |blocks| && !blocks[p.block].heading
  }

  lemma SameStart(blocks: seq<AnchoredBlock>, from: Pos, s: Pos, t: Pos)
    requires Skips(blocks, from, s) && Skips(blocks, from, t) && InBody(blocks, s) && InBody(blocks, t)
    ensures s == t
  {
  }

  lemma BodyIsNotSkipped(blocks: seq<AnchoredBlock>, p: Pos, q: Pos)
    requires Skips(blocks, p, q) && InBody(blocks, p)
    ensures p == q
  {
  }

  lemma StartsInBody(job: ChunkJob, o: Origin)
    requires IsOrigin(job, o)
    ensures InBody(job.doc.blocks, Start(o))
  {
    hide BlockSum, IsPiece;
  }

  // ----- Pieces of an oversized block -----

  lemma {:induction false} SumGrows(count: string -> nat, s: string, from: nat, a: nat, b: nat)
    requires from <= a <= b <= |s| && Boundary(s, from) && Boundary(s, a) && Boundary(s, b)
    ensures SentenceSum(count, s, from, a) <= SentenceSum(count, s, from, b)
    decreases |s| - a
  {
    hide Boundary, SentenceEnd, SentenceSum;
    if a < b {
      SentenceEndIsNext(s, a);
      SumOfOneMore(count, s, from, a);
      SumGrows(count, s, from, SentenceEnd(s, a), b);
    }
  }

  lemma NoLongerPiece(count: string -> nat, maxTokens: int, s: string, from: nat, a: nat, b: nat)
    requires IsPiece(count, maxTokens, s, from, a) && IsPiece(count, maxTokens, s, from, b)
    ensures a >= b
  {
    hide Boundary, SentenceEnd, SentenceSum;
    if a < b {
      SentenceEndIsNext(s, from);
      SentenceEndIsNext(s, a);
      SumOfOneMore(count, s, from, a);
      SumGrows(count, s, from, SentenceEnd(s, a), b);
    }
  }

  // ----- Runs -----

  lemma {:induction false} BlockSumGrows(count: string -> nat, blocks: seq<AnchoredBlock>, lo: nat, a: nat, b: nat)
    requires lo <= a <= b <= |blocks|
    ensures BlockSum(count, blocks, lo, a) <= BlockSum(count, blocks, lo, b)
    decreases b
  {
    if a < b { BlockSumGrows(count, blocks, lo, a, b - 1); }
  }

  /** Where body text follows an entry, the next entry starts right there. */
  lemma NextStarts(job: ChunkJob, plan: seq<Origin>, j: nat)
    requires IsPlan(job, plan, Pos(|job.doc.blocks|, 0)) && j < |plan| && InBody(job.doc.blocks, End(job.doc.blocks, plan[j]))
    ensures j + 1 < |plan| && Start(plan[j + 1]) == End(job.doc.blocks, plan[j])
    ensures IsOrigin(job, plan[j + 1]) && Maximal(job, plan[j], plan[j + 1])
  {
    hide IsOrigin, Maximal, Start, End;
    var blocks := job.doc.blocks;
    if j + 1 == |plan| {
      BodyIsNotSkipped(blocks, End(blocks, plan[j]), Pos(|blocks|, 0));
    } else {
      assert IsEntry(job, Before(plan, j + 1), plan[j + 1]);
      BodyIsNotSkipped(blocks, End(blocks, plan[j]), Start(plan[j + 1]));
    }
  }

  lemma FittingBlockIsRun(job: ChunkJob, o: Origin, lo: nat, hi: nat, a: nat)
    requires IsBlockRun(job, lo, hi) && lo <= a < hi && IsOrigin(job, o) && Start(o).block == a
    ensures o.Run? && o.lo == a && InBody(job.doc.blocks, Pos(a, 0))
  {
    hide BlockSum, IsPiece;
  }

  lemma RunBody(job: ChunkJob, lo: nat, hi: nat, a: nat)
    requires IsBlockRun(job, lo, hi) && lo <= a < hi
    ensures a < hi <= |job.doc.blocks| && InBody(job.doc.blocks, Pos(a, 0))
  {
  }

  /** A plan goes on right behind a run that is too short. */
  lemma RunGoesOn(job: ChunkJob, plan: seq<Origin>, j: nat, a: nat, b: nat)
    requires IsPlan(job, plan, Pos(|job.doc.blocks|, 0)) && j < |plan| && plan[j].Run? && plan[j].hi == a
    requires IsBlockRun(job, plan[j].lo, b) && a < b && plan[j].lo <= a
    ensures j + 1 < |plan| && plan[j + 1].Run? && plan[j + 1].lo == a && Maximal(job, plan[j], plan[j + 1])
  {
    hide IsPlan, IsBlockRun, IsSlice, Maximal, InBody;
    RunBody(job, plan[j].lo, b, a);
    NextStarts(job, plan, j);
    FittingBlockIsRun(job, plan[j + 1], plan[j].lo, b, a);
  }

  lemma NoLongerRun(job: ChunkJob, plan: seq<Origin>, j: nat, hi: nat)
    requires IsPlan(job, plan, Pos(|job.doc.blocks|, 0)) && j < |plan| && plan[j].Run?
    requires IsBlockRun(job, plan[j].lo, hi)
    ensures plan[j].hi >= hi
  {
    hide IsPlan, IsEntry;
    assert IsBlockRun(job, plan[j].lo, plan[j].hi) by { EntryAt(job, plan, Pos(|job.doc.blocks|, 0), j); }
    if plan[j].hi < hi {
      RunGoesOn(job, plan, j, plan[j].hi, hi);
      BlockSumGrows(job.tokens.count, job.doc.blocks, plan[j].lo, plan[j].hi + 1, hi);
    }
  }

  // ----- Plans -----

  lemma SameEntry(job: ChunkJob, p: seq<Origin>, q: seq<Origin>, j: nat)
    requires IsPlan(job, p, Pos(|job.doc.blocks|, 0)) && IsPlan(job, q, Pos(|job.doc.blocks|, 0))
    requires j < |p| && j < |q| && p[..j] == q[..j]
    ensures p[j] == q[j]
  {
    hide IsPlan, Skips, InBody, IsPiece, BlockSum;
    var blocks := job.doc.blocks;
    var pos := Pos(|blocks|, 0);
    assert Before(p, j) == Before(q, j) by {
      if j > 0 { assert p[j - 1] == p[..j][j - 1] && q[j - 1] == q[..j][j - 1]; }
    }
    EntryAt(job, p, pos, j);
    EntryAt(job, q, pos, j);
    StartsInBody(job, p[j]);
    StartsInBody(job, q[j]);
    SameStart(blocks, Reached(blocks, Before(p, j)), Start(p[j]), Start(q[j]));
    SameKind(job, p[j], q[j]);
    match p[j]
    case Run(lo, hi) =>
      NoLongerRun(job, p, j, q[j].hi);
      NoLongerRun(job, q, j, hi);
    case Slice(b, from, to) =>
      NoLongerPiece(job.tokens.count, job.options.maxTokens, blocks[b].text, from, to, q[j].to);
      NoLongerPiece(job.tokens.count, job.options.maxTokens, blocks[b].text, from, q[j].to, to);
  }

  /** Whether a block is oversized decides how it is taken. */
  lemma SameKind(job: ChunkJob, o: Origin, u: Origin)
    requires IsOrigin(job, o) && IsOrigin(job, u) && Start(o) == Start(u)
    ensures o.Run? <==> u.Run?
  {
    hide IsPiece, BlockSum;
  }

  lemma NotShorter(job: ChunkJob, p: seq<Origin>, q: seq<Origin>)
    requires IsPlan(job, p, Pos(|job.doc.blocks|, 0)) && IsPlan(job, q, Pos(|job.doc.blocks|, 0))
    requires |p| <= |q| && q[..|p|] == p
    ensures |p| == |q|
  {
    hide IsEntry;
    var blocks := job.doc.blocks;
    if |p| < |q| {
      EntryAt(job, q, Pos(|blocks|, 0), |p|);
      assert Before(q, |p|) == Before(p, |p|);
      StartsInBody(job, q[|p|]);
      EndsTwice(blocks, Reached(blocks, Before(p, |p|)), Start(q[|p|]));
    }
  }

  lemma EndsTwice(blocks: seq<AnchoredBlock>, from: Pos, s: Pos)
    requires Skips(blocks, from, Pos(|blocks|, 0)) && Skips(blocks, from, s)
    ensures !InBody(blocks, s)
  {
  }

  lemma {:induction false} SamePrefixes(job: ChunkJob, p: seq<Origin>, q: seq<Origin>, j: nat)
    requires IsPlan(job, p, Pos(|job.doc.blocks|, 0)) && IsPlan(job, q, Pos(|job.doc.blocks|, 0))
    requires j <= |p| && j <= |q|
    ensures p[..j] == q[..j]
    decreases j
  {
    hide IsPlan;
    if j > 0 {
      SamePrefixes(job, p, q, j - 1);
      SameEntry(job, p, q, j - 1);
      assert p[..j] == p[..j - 1] + [p[j - 1]] && q[..j] == q[..j - 1] + [q[j - 1]];
    }
  }

  /** Two plans that both reach the end of a document are the same plan. */
  lemma PlanIsUnique(job: ChunkJob, p: seq<Origin>, q: seq<Origin>)
    requires IsPlan(job, p, Pos(|job.doc.blocks|, 0)) && IsPlan(job, q, Pos(|job.doc.blocks|, 0))
    ensures p == q
  {
    hide IsPlan;
    var n := if |p| <= |q| then |p| else |q|;
    SamePrefixes(job, p, q, n);
    assert p[..|p|] == p && q[..|q|] == q;
    if |p| <= |q| { NotShorter(job, p, q); } else { NotShorter(job, q, p); }
  }

  /** So the chunks of a document are determined by what they promise. */
  lemma ChunksAreUnique(job: ChunkJob, chunks: seq<ChunkDraft>, others: seq<ChunkDraft>)
    requires IsChunking(job, chunks) && IsChunking(job, others)
    ensures chunks == others
  {
    hide IsPlan, Draft;
    var p := PlanOf(job, chunks);
    var q := PlanOf(job, others);
    PlanIsUnique(job, p, q);
    forall j | 0 <= j < |chunks| ensures chunks[j] == others[j] {
      assert IsDraft(job, Before(p, j), p[j], chunks[j]) && IsDraft(job, Before(q, j), q[j], others[j]);
    }
  }
}
