/** Blocks become one text, and each block keeps its offsets in it. */
module Assembly {
  import opened Common
  import opened Text
  import opened Parsing

  datatype AnchoredBlock = AnchoredBlock(
    text: string, page: int, heading: bool, level: Option<int>, charStart: nat, charEnd: nat)

  datatype ParsedDocument = ParsedDocument(
    text: string, pageCount: nat, warnings: seq<string>, blocks: seq<AnchoredBlock>)

  const GAP := "\n\n"

  /** The blocks that are not blank, trimmed. */
  function Kept(blocks: seq<RawBlock>): seq<RawBlock> {
    if blocks == [] then []
    else
      var trimmed := Trim(blocks[0].text);
      (if trimmed == "" then [] else [blocks[0].(text := trimmed)]) + Kept(blocks[1..])
  }

  function Raw(b: AnchoredBlock): RawBlock {
    RawBlock(b.text, b.page, b.heading, b.level)
  }

  function RawBlocks(blocks: seq<AnchoredBlock>): (r: seq<RawBlock>)
    ensures |r| == |blocks| && forall i :: 0 <= i < |r| ==> r[i] == Raw(blocks[i])
  {
    if blocks == [] then [] else [Raw(blocks[0])] + RawBlocks(blocks[1..])
  }

  /** The block's offsets delimit its text, which is trimmed and not empty. */
  ghost predicate Anchored(text: string, b: AnchoredBlock) {
    && b.charStart < b.charEnd <= |text|
    && text[b.charStart..b.charEnd] == b.text
    && Trimmed(b.text)
  }

  /** Only a blank line lies between the two blocks. */
  ghost predicate Adjacent(text: string, a: AnchoredBlock, b: AnchoredBlock) {
    && a.charEnd <= b.charStart <= |text|
    && text[a.charEnd..b.charStart] == GAP
  }

  /** Blocks tile the text, a blank line between neighbours. */
  ghost predicate Layout(text: string, blocks: seq<AnchoredBlock>) {
    && (forall i :: 0 <= i < |blocks| ==> Anchored(text, blocks[i]))
    && (forall i :: 0 <= i < |blocks| - 1 ==> Adjacent(text, blocks[i], blocks[i + 1]))
    && (if blocks == [] then text == "" else blocks[0].charStart == 0 && blocks[|blocks| - 1].charEnd == |text|)
  }

  ghost predicate IsAssembled(doc: ParsedDocument) {
    Layout(doc.text, doc.blocks)
  }

  lemma AnchorsStay(text: string, more: string, b: AnchoredBlock)
    requires Anchored(text, b)
    ensures Anchored(text + more, b)
  {
    assert (text + more)[b.charStart..b.charEnd] == text[b.charStart..b.charEnd];
  }

  lemma Appended(text: string, blocks: seq<AnchoredBlock>, sep: string, b: AnchoredBlock)
    requires Layout(text, blocks) && sep == (if blocks == [] then "" else GAP)
    requires b.text != "" && Trimmed(b.text)
    requires b.charStart == |text| + |sep| && b.charEnd == b.charStart + |b.text|
    ensures Layout(text + sep + b.text, blocks + [b])
  {
    hide Trimmed, Anchored, Adjacent;
    var more := sep + b.text;
    var all := text + sep + b.text;
    assert all == text + more;
    forall i | 0 <= i < |blocks| ensures Anchored(all, blocks[i]) {
      AnchorsStay(text, more, blocks[i]);
    }
    AnchoredAtEnd(text + sep, b);
    var after := blocks + [b];
    forall i | 0 <= i < |after| - 1 ensures Adjacent(all, after[i], after[i + 1]) {
      if i < |blocks| - 1 {
        assert Adjacent(text, blocks[i], blocks[i + 1]);
        AdjacentStay(text, more, blocks[i], blocks[i + 1]);
      } else {
        AdjacentAtEnd(text, b.text, blocks[i], b);
      }
    }
  }

  lemma AdjacentStay(text: string, more: string, a: AnchoredBlock, b: AnchoredBlock)
    requires Adjacent(text, a, b)
    ensures Adjacent(text + more, a, b)
  {
    assert (text + more)[a.charEnd..b.charStart] == text[a.charEnd..b.charStart];
  }

  lemma AdjacentAtEnd(text: string, more: string, a: AnchoredBlock, b: AnchoredBlock)
    requires a.charEnd == |text| && b.charStart == |text| + |GAP|
    ensures Adjacent(text + GAP + more, a, b)
  {
  }

  lemma AnchoredAtEnd(before: string, b: AnchoredBlock)
    requires b.text != "" && Trimmed(b.text) && b.charStart == |before| && b.charEnd == |before| + |b.text|
    ensures Anchored(before + b.text, b)
  {
  }

  lemma KeepsNext(blocks: seq<RawBlock>, i: nat)
    requires i < |blocks|
    ensures Kept(blocks[..i + 1])
            == Kept(blocks[..i]) + if Trim(blocks[i].text) == "" then [] else [blocks[i].(text := Trim(blocks[i].text))]
  {
    hide Trim;
    assert blocks[..i + 1] == blocks[..i] + [blocks[i]];
    KeptOfConcat(blocks[..i], [blocks[i]]);
  }

  lemma {:induction false} KeptOfConcat(a: seq<RawBlock>, b: seq<RawBlock>)
    ensures Kept(a + b) == Kept(a) + Kept(b)
    decreases a
  {
    hide Trim;
    if a == [] {
      assert a + b == b;
    } else {
      assert (a + b)[1..] == a[1..] + b;
      KeptOfConcat(a[1..], b);
    }
  }

  /** A block is dropped exactly if it is white space, and otherwise only trimmed. */
  lemma KeptOfBlock(text: string, page: int, heading: bool, level: Option<int>)
    ensures Kept([RawBlock(text, page, heading, level)]) == if AllSpace(text) then [] else [RawBlock(Trim(text), page, heading, level)]
    ensures Kept([]) == []
  {
    var b := RawBlock(text, page, heading, level);
    assert [b][1..] == [];
    BlankLineIs(text);
    hide Trim;
  }

  /** One pass appends every block that is not blank and records where it lies. */
  method Assemble(result: FormatParseResult) returns (doc: ParsedDocument)
    ensures IsAssembled(doc)
    ensures RawBlocks(doc.blocks) == Kept(result.blocks)
    ensures doc.pageCount == result.pageCount && doc.warnings == result.warnings
  {
    hide Trim, Trimmed, Layout, Kept;
    var text := "";
    var blocks: seq<AnchoredBlock> := [];
    assert Layout(text, blocks) by { EmptyLayout(); }
    assert Kept(result.blocks[..0]) == [] by { KeptOfNone(result.blocks[..0]); }
    var i := 0;
    while i < |result.blocks|
      invariant 0 <= i <= |result.blocks|
      invariant Layout(text, blocks)
      invariant text == "" <==> blocks == []
      invariant RawBlocks(blocks) == Kept(result.blocks[..i])
    {
      var block := result.blocks[i];
      var trimmed := Trim(block.text);
      KeepsNext(result.blocks, i);
      if trimmed != "" {
        var sep := if text != "" then GAP else "";
        var charStart := |text| + |sep|;
        var b := AnchoredBlock(trimmed, block.page, block.heading, block.level, charStart, charStart + |trimmed|);
        TrimTrims(block.text);
        Appended(text, blocks, sep, b);
        text := text + sep + trimmed;
        assert RawBlocks(blocks + [b]) == RawBlocks(blocks) + [Raw(b)];
        blocks := blocks + [b];
      }
      i := i + 1;
    }
    assert result.blocks[..i] == result.blocks;
    doc := ParsedDocument(text, result.pageCount, result.warnings, blocks);
  }

  lemma EmptyLayout()
    ensures Layout("", [])
  {
  }

  lemma KeptOfNone(blocks: seq<RawBlock>)
    requires blocks == []
    ensures Kept(blocks) == []
  {
  }

  // ----- No word is lost -----

  lemma {:induction false} KeptKeepsWords(blocks: seq<RawBlock>)
    ensures AllWords(Texts(Kept(blocks))) == AllWords(Texts(blocks))
    decreases blocks
  {
    hide Words, Trim;
    if blocks != [] {
      var rest := Kept(blocks[1..]);
      KeptKeepsWords(blocks[1..]);
      WordsOfTrim(blocks[0].text);
      assert Texts(blocks)[1..] == Texts(blocks[1..]);
      if Trim(blocks[0].text) == "" {
        assert Kept(blocks) == rest;
        NoWords();
      } else {
        assert Kept(blocks)[1..] == rest;
        assert Texts(Kept(blocks))[1..] == Texts(rest);
      }
    }
  }

  lemma NoWords()
    ensures Words("") == []
  {
  }

  function BlockTexts(blocks: seq<AnchoredBlock>): seq<string> {
    if blocks == [] then [] else [blocks[0].text] + BlockTexts(blocks[1..])
  }

  lemma {:induction false} BlockTextsOfRaw(blocks: seq<AnchoredBlock>)
    ensures BlockTexts(blocks) == Texts(RawBlocks(blocks))
    decreases blocks
  {
    if blocks != [] {
      assert RawBlocks(blocks)[1..] == RawBlocks(blocks[1..]);
      BlockTextsOfRaw(blocks[1..]);
    }
  }

  /** slice(from, to) */
  function Extract(text: string, from: nat, to: nat): string {
    if from <= to <= |text| then text[from..to] else ""
  }

  lemma SplitText(text: string, start: nat, mid: nat, next: nat, end: nat)
    requires start <= mid <= next <= end <= |text|
    ensures text[start..end] == text[start..mid] + text[mid..next] + text[next..end]
  {
  }

  lemma JoinUnfold(parts: seq<string>, sep: string)
    requires |parts| > 1
    ensures Join(parts, sep) == parts[0] + sep + Join(parts[1..], sep)
  {
  }

  /** Joining the texts of a run with blank lines gives the text under the run. */
  lemma {:induction false} JoinedRun(text: string, blocks: seq<AnchoredBlock>, lo: nat, hi: nat)
    requires Layout(text, blocks) && lo < hi <= |blocks|
    ensures blocks[lo].charStart < blocks[hi - 1].charEnd <= |text|
    ensures |BlockTexts(blocks[lo..hi])| == hi - lo
    ensures Extract(text, blocks[lo].charStart, blocks[hi - 1].charEnd) == Join(BlockTexts(blocks[lo..hi]), GAP)
    decreases hi - lo
  {
    hide Trimmed, Join;
    assert Anchored(text, blocks[lo]) && Anchored(text, blocks[hi - 1]);
    assert blocks[lo..hi][1..] == blocks[lo + 1..hi];
    if lo + 1 < hi {
      JoinedRun(text, blocks, lo + 1, hi);
      assert Adjacent(text, blocks[lo], blocks[lo + 1]);
      SplitText(text, blocks[lo].charStart, blocks[lo].charEnd, blocks[lo + 1].charStart, blocks[hi - 1].charEnd);
      JoinUnfold(BlockTexts(blocks[lo..hi]), GAP);
    } else {
      JoinOfOne(blocks, lo);
    }
  }

  lemma JoinOfOne(blocks: seq<AnchoredBlock>, lo: nat)
    requires lo < |blocks|
    ensures BlockTexts(blocks[lo..lo + 1]) == [blocks[lo].text]
    ensures Join(BlockTexts(blocks[lo..lo + 1]), GAP) == blocks[lo].text
  {
    assert blocks[lo..lo + 1] == [blocks[lo]];
    assert [blocks[lo]][1..] == [];
  }

  /** The words of the assembled text are the words of the parsed blocks, in order. */
  lemma AssemblyKeepsWords(doc: ParsedDocument, raw: seq<RawBlock>)
    requires IsAssembled(doc) && RawBlocks(doc.blocks) == Kept(raw)
    ensures Words(doc.text) == AllWords(Texts(raw))
  {
    hide Words, Trim, Layout, Join, Kept;
    KeptKeepsWords(raw);
    WordsOfJoin(Texts(Kept(raw)), GAP);
    BlockTextsOfRaw(doc.blocks);
    TextIsJoined(doc);
  }

  lemma TextIsJoined(doc: ParsedDocument)
    requires IsAssembled(doc)
    ensures doc.text == Join(BlockTexts(doc.blocks), GAP)
  {
    hide Anchored, Adjacent;
    if doc.blocks != [] {
      JoinedRun(doc.text, doc.blocks, 0, |doc.blocks|);
      assert doc.blocks[0..|doc.blocks|] == doc.blocks;
      assert doc.text[0..|doc.text|] == doc.text;
    }
  }
}
