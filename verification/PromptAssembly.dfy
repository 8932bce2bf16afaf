/** Ranking the hits and selecting sources under a token budget. */
module PromptAssembly {
  import opened Common
  import opened Sorting
  import opened PromptFence

  /** A retrieved chunk. Scores are finite. */
  datatype ChunkHit = ChunkHit(
    id: string, documentId: string, title: string, page: Option<int>, section: Option<string>,
    charStart: Option<int>, charEnd: Option<int>, content: string, score: real)

  datatype AssembledSource = AssembledSource(
    marker: nat, chunkId: string, documentId: string, title: string, page: Option<int>, section: Option<string>,
    charStart: Option<int>, charEnd: Option<int>, content: string, score: real)

  datatype AssembleOptions = AssembleOptions(maxSources: int, tokenBudget: int)

  /** The tokenizer and the locale's string comparison are any functions. */
  datatype Runtime = Runtime(count: string -> nat, truncate: (string, int) -> string, collate: (string, string) -> int)

  // ----- Ranking -----

  /** The comparator: score descending, then document, offset and id. */
  function Compare(collate: (string, string) -> int, a: ChunkHit, b: ChunkHit): int {
    if a.score != b.score then (if a.score > b.score then -1 else 1)
    else if collate(a.documentId, b.documentId) != 0 then collate(a.documentId, b.documentId)
    else if a.charStart.GetOr(0) != b.charStart.GetOr(0) then a.charStart.GetOr(0) - b.charStart.GetOr(0)
    else collate(a.id, b.id)
  }

  function Ranking(collate: (string, string) -> int): (ChunkHit, ChunkHit) -> bool {
    (a, b) => Compare(collate, a, b) <= 0
  }

  /** The locale's comparison is consistent. */
  ghost predicate Consistent(collate: (string, string) -> int) {
    && (forall x, y :: (collate(x, y) <= 0 <==> collate(y, x) >= 0))
    && (forall x, y, z :: collate(x, y) <= 0 && collate(y, z) <= 0 ==> collate(x, z) <= 0)
  }

  /** No two hits share an id, as the locale sees ids. */
  ghost predicate DistinctIds(collate: (string, string) -> int, hits: seq<ChunkHit>) {
    forall i, j :: 0 <= i < |hits| && 0 <= j < |hits| && i != j ==> collate(hits[i].id, hits[j].id) != 0
  }

  lemma CompareTransitive(collate: (string, string) -> int, a: ChunkHit, b: ChunkHit, c: ChunkHit)
    requires Consistent(collate) && Compare(collate, a, b) <= 0 && Compare(collate, b, c) <= 0
    ensures Compare(collate, a, c) <= 0
  {
    assert collate(a.documentId, b.documentId) == 0 ==> collate(b.documentId, a.documentId) <= 0;
    assert collate(b.documentId, c.documentId) == 0 ==> collate(c.documentId, b.documentId) <= 0;
  }

  lemma RankingIsAnOrder(collate: (string, string) -> int)
    requires Consistent(collate)
    ensures TotalPreorder(Ranking(collate))
  {
    var le := Ranking(collate);
    forall a, b ensures le(a, b) || le(b, a) {
      assert collate(a.documentId, b.documentId) <= 0 || collate(b.documentId, a.documentId) <= 0;
      assert collate(a.id, b.id) <= 0 || collate(b.id, a.id) <= 0;
    }
    forall a, b, c | le(a, b) && le(b, c) ensures le(a, c) {
      CompareTransitive(collate, a, b, c);
    }
  }

  lemma RankingHasNoTies(collate: (string, string) -> int, hits: seq<ChunkHit>)
    requires Consistent(collate) && DistinctIds(collate, hits)
    ensures TieFree(Ranking(collate), hits)
  {
    forall i, j | 0 <= i < |hits| && 0 <= j < |hits| && i != j
      ensures !(Compare(collate, hits[i], hits[j]) <= 0 && Compare(collate, hits[j], hits[i]) <= 0)
    {
      assert collate(hits[i].id, hits[j].id) != 0;
    }
  }

  // ----- Selection -----

  function HeaderOf(marker: nat, hit: ChunkHit): SourceHeader {
    SourceHeader(marker, hit.title, hit.page, hit.section)
  }

  function SourceOf(marker: nat, hit: ChunkHit, content: string): AssembledSource {
    AssembledSource(marker, hit.id, hit.documentId, hit.title, hit.page, hit.section, hit.charStart, hit.charEnd, content, hit.score)
  }

  function EntryOf(s: AssembledSource): Entry {
    Entry(SourceHeader(s.marker, s.title, s.page, s.section), s.content)
  }

  function EntriesOf(sources: seq<AssembledSource>): (entries: seq<Entry>)
    ensures |entries| == |sources| && forall i :: 0 <= i < |sources| ==> entries[i] == EntryOf(sources[i])
  {
    if sources == [] then [] else [EntryOf(sources[0])] + EntriesOf(sources[1..])
  }

  function EntryTokens(rt: Runtime, e: Entry): nat {
    rt.count(EntryText(e.header, e.content))
  }

  /** The token counts of the entries, added up. */
  function UsedTokens(rt: Runtime, sources: seq<AssembledSource>): nat {
    if sources == [] then 0
    else UsedTokens(rt, sources[..|sources| - 1]) + EntryTokens(rt, EntryOf(sources[|sources| - 1]))
  }

  /** The hit as the source with this marker, in full. */
  function Whole(marker: nat, hit: ChunkHit): AssembledSource {
    SourceOf(marker, hit, hit.content)
  }

  function Max(a: int, b: int): int {
    if a > b then a else b
  }

  /** The first source, cut to the budget that its header leaves. */
  function Truncated(rt: Runtime, budget: int, hit: ChunkHit): AssembledSource {
    var headerTokens := EntryTokens(rt, Entry(HeaderOf(1, hit), ""));
    SourceOf(1, hit, rt.truncate(hit.content, Max(budget - headerTokens, 1)))
  }

  function Expected(rt: Runtime, budget: int, ranked: seq<ChunkHit>, i: nat): AssembledSource
    requires i < |ranked|
  {
    if i == 0 && EntryTokens(rt, EntryOf(Whole(1, ranked[0]))) > budget then Truncated(rt, budget, ranked[0])
    else Whole(i + 1, ranked[i])
  }

  /** The sources are a prefix of the ranked hits, numbered from 1, as long as fits:
      it ends early only where the next entry would exceed the budget, and two or more
      sources are within it. */
  ghost predicate IsSelection(rt: Runtime, options: AssembleOptions, ranked: seq<ChunkHit>, sources: seq<AssembledSource>) {
    && |sources| <= |ranked| && |sources| <= Max(options.maxSources, 0)
    && (forall i :: 0 <= i < |sources| ==> sources[i] == Expected(rt, options.tokenBudget, ranked, i))
    && (|sources| >= 2 ==> UsedTokens(rt, sources) <= options.tokenBudget)
    && (|sources| < |ranked| && |sources| < options.maxSources ==>
          |sources| > 0 && Exceeds(rt, options, ranked, sources))
  }

  /** The next hit does not fit any more. */
  predicate Exceeds(rt: Runtime, options: AssembleOptions, ranked: seq<ChunkHit>, sources: seq<AssembledSource>)
    requires |sources| < |ranked|
  {
    UsedTokens(rt, sources) + EntryTokens(rt, EntryOf(Whole(|sources| + 1, ranked[|sources|]))) > options.tokenBudget
  }

  lemma UsedTokensOfMore(rt: Runtime, sources: seq<AssembledSource>, s: AssembledSource)
    ensures UsedTokens(rt, sources + [s]) == UsedTokens(rt, sources) + EntryTokens(rt, EntryOf(s))
  {
    assert (sources + [s])[..|sources|] == sources;
  }

  /** The greedy loop. */
  method AssembleContext(rt: Runtime, hits: seq<ChunkHit>, options: AssembleOptions)
    returns (sources: seq<AssembledSource>, text: string, totalTokens: nat)
    ensures IsSelection(rt, options, Sort(Ranking(rt.collate), hits), sources)
    ensures text == Printed(EntriesOf(sources)) && totalTokens == rt.count(text)
  {
    hide EntryText, Printed, Sort, Ranking;
    var ordered := Sort(Ranking(rt.collate), hits);
    sources := [];
    var usedTokens := 0;
    var i := 0;
    while i < |ordered|
      invariant |sources| == i <= |ordered| && i <= Max(options.maxSources, 0)
      invariant usedTokens == UsedTokens(rt, sources)
      invariant forall k :: 0 <= k < |sources| ==> sources[k] == Expected(rt, options.tokenBudget, ordered, k)
      invariant |sources| >= 2 ==> usedTokens <= options.tokenBudget
    {
      if |sources| >= options.maxSources { break; }
      var hit := ordered[i];
      var source := Whole(|sources| + 1, hit);
      var entryTokens := EntryTokens(rt, EntryOf(source));
      if usedTokens + entryTokens > options.tokenBudget {
        if |sources| > 0 { break; }
        source := Truncated(rt, options.tokenBudget, hit);
        entryTokens := EntryTokens(rt, EntryOf(source));
      }
      UsedTokensOfMore(rt, sources, source);
      sources := sources + [source];
      usedTokens := usedTokens + entryTokens;
      i := i + 1;
    }
    text := Printed(EntriesOf(sources));
    totalTokens := rt.count(text);
  }

  // ----- The selection is unique -----

  lemma {:induction false} UsedTokensGrow(rt: Runtime, sources: seq<AssembledSource>, n: nat)
    requires n <= |sources|
    ensures UsedTokens(rt, sources[..n]) <= UsedTokens(rt, sources)
    decreases |sources|
  {
    hide EntryText;
    if n < |sources| {
      var most := sources[..|sources| - 1];
      UsedTokensGrow(rt, most, n);
      assert most[..n] == sources[..n];
    } else {
      assert sources[..n] == sources;
    }
  }

  /** Within a selection, every hit after the first fits behind the sources before it. */
  lemma NextFits(rt: Runtime, options: AssembleOptions, ranked: seq<ChunkHit>, t: seq<AssembledSource>, n: nat)
    requires IsSelection(rt, options, ranked, t) && 0 < n < |t|
    ensures !Exceeds(rt, options, ranked, t[..n])
  {
    hide EntryTokens, EntryOf, Truncated;
    assert t[..n + 1] == t[..n] + [t[n]];
    UsedTokensGrow(rt, t, n + 1);
    UsedTokensOfMore(rt, t[..n], t[n]);
    assert t[n] == Expected(rt, options.tokenBudget, ranked, n);
    hide UsedTokens;
  }

  lemma SamePrefix(rt: Runtime, options: AssembleOptions, ranked: seq<ChunkHit>, s: seq<AssembledSource>, t: seq<AssembledSource>)
    requires IsSelection(rt, options, ranked, s) && IsSelection(rt, options, ranked, t) && |s| <= |t|
    ensures t[..|s|] == s
  {
    hide Expected, UsedTokens, Exceeds;
  }

  lemma NoShorterSelection(rt: Runtime, options: AssembleOptions, ranked: seq<ChunkHit>, s: seq<AssembledSource>, t: seq<AssembledSource>)
    requires IsSelection(rt, options, ranked, s) && IsSelection(rt, options, ranked, t)
    ensures |s| >= |t|
  {
    hide Expected, UsedTokens, Exceeds;
    if 0 < |s| < |t| {
      SamePrefix(rt, options, ranked, s, t);
      NextFits(rt, options, ranked, t, |s|);
    }
  }

  /** The ranked hits, the cap and the budget determine the sources. */
  lemma SelectionIsUnique(rt: Runtime, options: AssembleOptions, ranked: seq<ChunkHit>, s: seq<AssembledSource>, t: seq<AssembledSource>)
    requires IsSelection(rt, options, ranked, s) && IsSelection(rt, options, ranked, t)
    ensures s == t
  {
    NoShorterSelection(rt, options, ranked, s, t);
    NoShorterSelection(rt, options, ranked, t, s);
    hide Expected, UsedTokens, Exceeds;
  }

  /** The order in which the hits arrive does not matter. */
  lemma HitOrderIsIrrelevant(rt: Runtime, options: AssembleOptions, hits: seq<ChunkHit>, other: seq<ChunkHit>,
                             s: seq<AssembledSource>, t: seq<AssembledSource>)
    requires Consistent(rt.collate) && DistinctIds(rt.collate, hits) && multiset(hits) == multiset(other)
    requires IsSelection(rt, options, Sort(Ranking(rt.collate), hits), s)
    requires IsSelection(rt, options, Sort(Ranking(rt.collate), other), t)
    ensures s == t && Printed(EntriesOf(s)) == Printed(EntriesOf(t))
  {
    hide IsSelection, Printed;
    RankingIsAnOrder(rt.collate);
    RankingHasNoTies(rt.collate, hits);
    SortForgetsOrder(Ranking(rt.collate), hits, other);
    SelectionIsUnique(rt, options, Sort(Ranking(rt.collate), hits), s, t);
  }

  /** Better hits come first, and the sources are the best of the hits. */
  lemma SourcesAreTheBest(rt: Runtime, options: AssembleOptions, hits: seq<ChunkHit>, sources: seq<AssembledSource>)
    requires Consistent(rt.collate) && IsSelection(rt, options, Sort(Ranking(rt.collate), hits), sources)
    ensures forall i, j :: 0 <= i < j < |sources| ==> sources[i].score >= sources[j].score
    ensures forall i :: 0 <= i < |sources| ==> sources[i].marker == i + 1
    ensures multiset(Sort(Ranking(rt.collate), hits)) == multiset(hits)
    ensures forall i, k :: 0 <= i < |sources| <= k < |Sort(Ranking(rt.collate), hits)| ==>
                             sources[i].score >= Sort(Ranking(rt.collate), hits)[k].score
  {
    var le := Ranking(rt.collate);
    RankingIsAnOrder(rt.collate);
    SortSorts(le, hits);
    var ranked := Sort(le, hits);
    hide Sort, UsedTokens, EntryTokens, Exceeds, Consistent, TotalPreorder;
    forall i, k | 0 <= i < k < |ranked| ensures ranked[i].score >= ranked[k].score {
      assert le(ranked[i], ranked[k]);
    }
    forall i | 0 <= i < |sources| ensures sources[i].score == ranked[i].score && sources[i].marker == i + 1 {
      assert sources[i] == Expected(rt, options.tokenBudget, ranked, i);
    }
  }

  // ----- The sources in terms of the hits -----

  /** A comes before b: a higher score, at equal scores an earlier document, within one
      document a smaller offset (a missing one counts as 0), and at one offset a smaller id. */
  ghost predicate Precedes(collate: (string, string) -> int, a: ChunkHit, b: ChunkHit) {
    var offsetOf := (h: ChunkHit) => match h.charStart case None => 0 case Some(n) => n;
    || a.score > b.score
    || (a.score == b.score && collate(a.documentId, b.documentId) < 0)
    || (a.score == b.score && collate(a.documentId, b.documentId) == 0 && offsetOf(a) < offsetOf(b))
    || (a.score == b.score && collate(a.documentId, b.documentId) == 0 && offsetOf(a) == offsetOf(b) && collate(a.id, b.id) <= 0)
  }

  lemma RankingPrecedes(collate: (string, string) -> int, a: ChunkHit, b: ChunkHit)
    ensures Ranking(collate)(a, b) <==> Precedes(collate, a, b)
  {
  }

  /** The ranked hits are all hits, and each comes before all that follow it. */
  lemma RankedHits(collate: (string, string) -> int, hits: seq<ChunkHit>)
    requires Consistent(collate)
    ensures multiset(Sort(Ranking(collate), hits)) == multiset(hits)
    ensures forall i, k :: 0 <= i < k < |Sort(Ranking(collate), hits)| ==>
                             Precedes(collate, Sort(Ranking(collate), hits)[i], Sort(Ranking(collate), hits)[k])
  {
    var le := Ranking(collate);
    RankingIsAnOrder(collate);
    SortSorts(le, hits);
    var ranked := Sort(le, hits);
    hide Sort, Consistent, TotalPreorder, Precedes, Compare;
    forall i, k | 0 <= i < k < |ranked| ensures Precedes(collate, ranked[i], ranked[k]) {
      assert le(ranked[i], ranked[k]);
      RankingPrecedes(collate, ranked[i], ranked[k]);
    }
  }

  /** The source carries the hit's own identity, place, title and score. */
  ghost predicate Carries(s: AssembledSource, hit: ChunkHit) {
    && s.chunkId == hit.id && s.documentId == hit.documentId && s.title == hit.title
    && s.page == hit.page && s.section == hit.section
    && s.charStart == hit.charStart && s.charEnd == hit.charEnd && s.score == hit.score
  }

  /** Source i is hit i of the ranking with marker i + 1. Its content is the hit's, unless
      the first entry alone is over the budget: that one is cut to the tokens its own
      header and fence leave, but to one at least. */
  lemma SourcesAreHits(rt: Runtime, options: AssembleOptions, ranked: seq<ChunkHit>, sources: seq<AssembledSource>, i: nat)
    requires IsSelection(rt, options, ranked, sources) && i < |sources|
    ensures i < |ranked| && sources[i].marker == i + 1 && Carries(sources[i], ranked[i])
    ensures var header := SourceHeader(1, ranked[i].title, ranked[i].page, ranked[i].section);
            var own := rt.count(EntryText(header, ""));
            sources[i].content
            == if i > 0 || rt.count(EntryText(header, ranked[i].content)) <= options.tokenBudget then ranked[i].content
               else if options.tokenBudget - own > 1 then rt.truncate(ranked[i].content, options.tokenBudget - own)
               else rt.truncate(ranked[i].content, 1)
  {
    hide EntryText, UsedTokens, Exceeds;
    assert sources[i] == Expected(rt, options.tokenBudget, ranked, i);
  }

  /** The text of the block reads back as exactly the selected sources. */
  lemma BlockReadsBack(sources: seq<AssembledSource>)
    ensures Read(Printed(EntriesOf(sources))) == EntryViews(EntriesOf(sources))
  {
    PrintedReadsBack(EntriesOf(sources));
  }

  lemma {:induction false} EntryViewAt(entries: seq<Entry>, i: nat)
    requires i < |entries|
    ensures |EntryViews(entries)| == |entries|
    ensures EntryViews(entries)[i] == EntryView(HeaderLine(entries[i].header), Neutralize(entries[i].content))
    decreases entries
  {
    hide HeaderLine, Neutralize;
    if |entries| > 1 {
      EntryViewAt(entries[1..], if i > 0 then i - 1 else 0);
    } else {
      assert entries[1..] == [];
    }
  }

  /** Entry i of the text says what source i is: its marker, page, title and section on
      the header line, its content, tags made harmless, between the tags. */
  lemma BlockSaysTheSources(sources: seq<AssembledSource>, i: nat)
    requires i < |sources|
    ensures |Read(Printed(EntriesOf(sources)))| == |sources|
    ensures var e, s := Read(Printed(EntriesOf(sources)))[i], sources[i];
            && Says(ReadHeader(e.header), SourceHeader(s.marker, s.title, s.page, s.section))
            && e.body == Neutralize(s.content)
  {
    hide Read, Printed, Says, ReadHeader, HeaderLine, Neutralize;
    BlockReadsBack(sources);
    EntryViewAt(EntriesOf(sources), i);
    HeaderSaysTheSource(EntriesOf(sources)[i].header);
  }
}
