/** The two text formats: Markdown, read line by line, and plain text. Both yield
    blocks; no word of the input is lost on the way. */
module Parsing {
  import opened Common
  import opened Text

  /** A structural segment of a document, before it has offsets. */
  datatype RawBlock = RawBlock(text: string, page: int, heading: bool, level: Option<int>)

  datatype FormatParseResult = FormatParseResult(blocks: seq<RawBlock>, pageCount: nat, warnings: seq<string>)

  function Texts(blocks: seq<RawBlock>): seq<string> {
    if blocks == [] then [] else [blocks[0].text] + Texts(blocks[1..])
  }

  lemma {:induction false} TextsOfConcat(a: seq<RawBlock>, b: seq<RawBlock>)
    ensures Texts(a + b) == Texts(a) + Texts(b)
    decreases a
  {
    if a == [] {
      assert a + b == b;
    } else {
      assert (a + b)[1..] == a[1..] + b;
      TextsOfConcat(a[1..], b);
    }
  }

  function Warnings(blocks: seq<RawBlock>): seq<string> {
    if blocks == [] then ["no text content"] else []
  }

  // ----- Markdown lines -----

  /** The line opens or closes a fenced code block. */
  predicate IsFence(line: string) {
    "```" <= TrimStart(line) || "~~~" <= TrimStart(line)
  }

  function Hashes(line: string): (n: nat)
    ensures n <= |line| && (forall i :: 0 <= i < n ==> line[i] == '#') && (n < |line| ==> line[n] != '#')
  {
    if line == [] || line[0] != '#' then 0 else 1 + Hashes(line[1..])
  }

  /** An ATX heading: one to six hashes, white space, and text on one line. */
  predicate IsHeading(line: string) {
    var n := Hashes(line);
    && 1 <= n <= 6 && n < |line| && IsSpace(line[n])
    && HeadingText(line) != "" && forall c :: c in HeadingText(line) ==> !IsLineTerminator(c)
  }

  function HeadingText(line: string): string {
    Trim(line[Hashes(line)..])
  }

  datatype LineKind = BlankLine | TextLine(text: string) | HeadingLine(level: int, text: string)

  function KindOf(line: string, inFence: bool): LineKind {
    if IsFence(line) then TextLine(Trim(line))
    else if !inFence && IsHeading(line) then HeadingLine(Hashes(line), HeadingText(line))
    else if !inFence && Trim(line) == "" then BlankLine
    else TextLine(Trim(line))
  }

  /** What each line is, given the fences before it. */
  function Kinds(lines: seq<string>, inFence: bool): seq<LineKind> {
    if lines == [] then []
    else [KindOf(lines[0], inFence)] + Kinds(lines[1..], inFence != IsFence(lines[0]))
  }

  // ----- What the lines are, character by character -----

  /** White space, then three backticks or tildes. */
  predicate Fences(line: string, i: nat) {
    i + 3 <= |line| && AllSpace(line[..i]) && (line[i..i + 3] == "```" || line[i..i + 3] == "~~~")
  }

  lemma FenceIsFence(line: string)
    ensures IsFence(line) <==> exists i: nat :: Fences(line, i)
  {
    var n := TrimStartDrops(line);
    hide TrimStart, IsSpace;
    if IsFence(line) {
      assert line[n..][..3] == line[n..n + 3];
      assert Fences(line, n);
    }
    if i: nat :| Fences(line, i) {
      TickIsInk();
      assert line == line[..i] + line[i..] && line[i..][..3] == line[i..i + 3];
      TrimStartOfPadded(line[..i], line[i..]);
    }
  }

  lemma TickIsInk()
    ensures !IsSpace('`') && !IsSpace('~') && !IsSpace('#')
  {
  }

  function Marks(n: nat): (marks: string)
    ensures |marks| == n && forall i :: 0 <= i < n ==> marks[i] == '#'
  {
    if n == 0 then "" else "#" + Marks(n - 1)
  }

  /** One to six hashes, white space, a text on one line, and perhaps white space. */
  ghost predicate AtxParts(line: string, level: nat, gap: string, text: string, tail: string) {
    && 1 <= level <= 6 && line == Marks(level) + gap + text + tail
    && gap != "" && AllSpace(gap) && AllSpace(tail) && text != "" && Trimmed(text)
    && forall c :: c in text ==> c != '\n' && c != '\r' && c != '\U{2028}' && c != '\U{2029}'
  }

  ghost predicate Atx(line: string, level: nat, text: string) {
    exists gap, tail :: AtxParts(line, level, gap, text, tail)
  }

  lemma {:induction false} HashesAre(n: nat, rest: string)
    requires rest == "" || rest[0] != '#'
    ensures Hashes(Marks(n) + rest) == n
    decreases n
  {
    if n == 0 {
      assert Marks(0) + rest == rest;
    } else {
      assert (Marks(n) + rest)[1..] == Marks(n - 1) + rest;
      HashesAre(n - 1, rest);
    }
  }

  lemma AtxIsHeading(line: string, level: nat, text: string)
    requires Atx(line, level, text)
    ensures IsHeading(line) && Hashes(line) == level && HeadingText(line) == text
  {
    TickIsInk();
    var gap, tail :| AtxParts(line, level, gap, text, tail);
    hide Trim, IsSpace, Marks, Hashes;
    assert line == Marks(level) + (gap + text + tail);
    HashesAre(level, gap + text + tail);
    TrimOfPadded(gap, text, tail);
    assert line[level..] == gap + text + tail;
  }

  lemma {:induction false} HashesAreMarks(line: string)
    ensures line[..Hashes(line)] == Marks(Hashes(line))
  {
  }

  lemma StartsWithGap(s: string, p: string, t: string, q: string)
    requires s != "" && IsSpace(s[0]) && s == p + t + q && t != "" && Trimmed(t)
    ensures p != ""
  {
    hide IsSpace;
    assert (p + t + q)[|p|] == t[0];
  }

  lemma HeadingIsAtx(line: string)
    requires IsHeading(line)
    ensures Atx(line, Hashes(line), HeadingText(line))
  {
    var n := Hashes(line);
    HashesAreMarks(line);
    var p, q := TrimTakesSpace(line[n..]);
    TrimTrims(line[n..]);
    hide Trim, Marks, Hashes;
    assert line == line[..n] + line[n..];
    var text := HeadingText(line);
    hide IsSpace;
    StartsWithGap(line[n..], p, text, q);
    assert line == Marks(n) + p + text + q;
    assert AtxParts(line, n, p, text, q);
  }

  /** Outside fences a line is a heading exactly if it has the parts of one, a blank line
      exactly if it is white space, and otherwise text; inside it is always text. */
  lemma KindIsExact(line: string, inFence: bool, level: nat, text: string)
    ensures KindOf(line, inFence) == HeadingLine(level, text)
            <==> !inFence && (forall i: nat :: !Fences(line, i)) && Atx(line, level, text)
    ensures KindOf(line, inFence) == BlankLine <==> !inFence && AllSpace(line)
    ensures KindOf(line, inFence).TextLine? ==> KindOf(line, inFence).text == Trim(line)
  {
    FenceIsFence(line);
    BlankLineIs(line);
    hide IsFence, Fences, Hashes, HeadingText, IsSpace, Trim;
    if Atx(line, level, text) { AtxIsHeading(line, level, text); }
    if IsHeading(line) { HeadingIsAtx(line); }
    hide IsHeading, Atx;
  }

  lemma BlankLineIs(line: string)
    ensures Trim(line) == "" <==> AllSpace(line)
    ensures AllSpace(line) ==> !IsFence(line) && !IsHeading(line)
  {
    TickIsInk();
    var p, q := TrimTakesSpace(line);
    hide Trim, IsSpace;
    if AllSpace(line) {
      assert line == line + "" + "";
      TrimOfPadded(line, "", "");
      FenceIsFence(line);
      forall i: nat ensures !Fences(line, i) {
        if i + 3 <= |line| { assert line[i..i + 3][0] == line[i]; }
      }
      hide IsFence, Fences;
      HeadingHasMark(line);
      hide IsHeading;
    }
  }

  lemma HeadingHasMark(line: string)
    ensures IsHeading(line) ==> line != "" && line[0] == '#'
  {
  }

  /** How many of the lines are fences. */
  function FenceCount(lines: seq<string>): nat {
    if lines == [] then 0 else (if IsFence(lines[0]) then 1 else 0) + FenceCount(lines[1..])
  }

  /** A line lies inside a fence exactly if the number of fences before it is odd. */
  lemma {:induction false} KindsAreExact(lines: seq<string>, inFence: bool, i: nat)
    requires i < |lines|
    ensures |Kinds(lines, inFence)| == |lines|
    ensures Kinds(lines, inFence)[i] == KindOf(lines[i], inFence != (FenceCount(lines[..i]) % 2 == 1))
    decreases lines
  {
    hide KindOf, IsFence;
    var next := inFence != IsFence(lines[0]);
    if i > 0 {
      KindsAreExact(lines[1..], next, i - 1);
      assert lines[..i][1..] == lines[1..][..i - 1];
    } else {
      KindsLength(lines, inFence);
      assert lines[..0] == [];
    }
  }

  lemma {:induction false} KindsLength(lines: seq<string>, inFence: bool)
    ensures |Kinds(lines, inFence)| == |lines|
    decreases lines
  {
    hide KindOf, IsFence;
    if lines != [] { KindsLength(lines[1..], inFence != IsFence(lines[0])); }
  }

  // ----- Markdown blocks -----

  function TextRun(kinds: seq<LineKind>): (n: nat)
    ensures n <= |kinds| && (forall i :: 0 <= i < n ==> kinds[i].TextLine?) && (n < |kinds| ==> !kinds[n].TextLine?)
  {
    if kinds == [] || !kinds[0].TextLine? then 0 else 1 + TextRun(kinds[1..])
  }

  function LineTexts(kinds: seq<LineKind>): seq<string>
    requires forall i :: 0 <= i < |kinds| ==> kinds[i].TextLine?
  {
    if kinds == [] then [] else [kinds[0].text] + LineTexts(kinds[1..])
  }

  /** The paragraph made of some lines, unless it is empty. */
  function Paragraph(lines: seq<string>): seq<RawBlock> {
    var text := Trim(CollapseBlanks(Join(lines, " ")));
    if text == "" then [] else [RawBlock(text, 1, false, None)]
  }

  /** The blocks of classified lines: a heading line is a heading block, a maximal run
      of text lines is a paragraph, a blank line only separates. */
  function Blocks(kinds: seq<LineKind>): seq<RawBlock>
    decreases |kinds|
  {
    if kinds == [] then []
    else match kinds[0]
      case BlankLine => Blocks(kinds[1..])
      case HeadingLine(level, text) => [RawBlock(text, 1, true, Some(level))] + Blocks(kinds[1..])
      case TextLine(_) =>
        var n := TextRun(kinds);
        Paragraph(LineTexts(kinds[..n])) + Blocks(kinds[n..])
  }

  function AsLines(texts: seq<string>): (r: seq<LineKind>)
    ensures |r| == |texts| && forall i :: 0 <= i < |r| ==> r[i] == TextLine(texts[i])
  {
    if texts == [] then [] else [TextLine(texts[0])] + AsLines(texts[1..])
  }

  lemma {:induction false} LineTextsOfAsLines(texts: seq<string>)
    ensures LineTexts(AsLines(texts)) == texts
    decreases texts
  {
    if texts != [] {
      assert AsLines(texts)[1..] == AsLines(texts[1..]);
      LineTextsOfAsLines(texts[1..]);
    }
  }

  lemma {:induction false} TextRunIs(kinds: seq<LineKind>, n: nat)
    requires n <= |kinds| && (forall i :: 0 <= i < n ==> kinds[i].TextLine?) && (n < |kinds| ==> !kinds[n].TextLine?)
    ensures TextRun(kinds) == n
  {
  }

  /** A run of text lines that something else ends is one paragraph. */
  lemma BlocksOfRun(texts: seq<string>, kinds: seq<LineKind>)
    requires kinds == [] || !kinds[0].TextLine?
    ensures Blocks(AsLines(texts) + kinds) == Paragraph(texts) + Blocks(kinds)
  {
    var all := AsLines(texts) + kinds;
    if texts == [] {
      assert all == kinds && Join([], " ") == "";
    } else {
      TextRunIs(all, |texts|);
      assert all[..|texts|] == AsLines(texts) && all[|texts|..] == kinds;
      LineTextsOfAsLines(texts);
    }
  }

  /** The blocks emitted so far, the buffered lines and the lines still to come make up `all`. */
  ghost predicate OnCourse(blocks: seq<RawBlock>, buffer: seq<string>, rest: seq<LineKind>, all: seq<RawBlock>) {
    blocks + Blocks(AsLines(buffer) + rest) == all
  }

  lemma AfterLine(blocks: seq<RawBlock>, buffer: seq<string>, text: string, rest: seq<LineKind>, all: seq<RawBlock>)
    requires OnCourse(blocks, buffer, [TextLine(text)] + rest, all)
    ensures OnCourse(blocks, buffer + [text], rest, all)
  {
    assert AsLines(buffer) + ([TextLine(text)] + rest) == AsLines(buffer + [text]) + rest;
  }

  lemma AfterFlush(blocks: seq<RawBlock>, buffer: seq<string>, kind: LineKind, rest: seq<LineKind>, all: seq<RawBlock>)
    requires OnCourse(blocks, buffer, [kind] + rest, all) && !kind.TextLine?
    ensures kind.BlankLine? ==> OnCourse(blocks + Paragraph(buffer), [], rest, all)
    ensures kind.HeadingLine? ==>
              OnCourse(blocks + Paragraph(buffer) + [RawBlock(kind.text, 1, true, Some(kind.level))], [], rest, all)
  {
    hide Blocks, Paragraph, AsLines;
    BlocksOfRun(buffer, [kind] + rest);
    assert AsLines([]) + rest == rest by { NoLines(rest); }
    NotALine(kind, rest);
    if kind.HeadingLine? {
      var b := [RawBlock(kind.text, 1, true, Some(kind.level))];
      assert blocks + (Paragraph(buffer) + (b + Blocks(rest))) == blocks + Paragraph(buffer) + b + Blocks(rest);
    } else {
      assert blocks + (Paragraph(buffer) + Blocks(rest)) == blocks + Paragraph(buffer) + Blocks(rest);
    }
  }

  lemma NoLines(rest: seq<LineKind>)
    ensures AsLines([]) + rest == rest
  {
  }

  lemma NotALine(kind: LineKind, rest: seq<LineKind>)
    requires !kind.TextLine?
    ensures Blocks([kind] + rest)
            == (if kind.BlankLine? then [] else [RawBlock(kind.text, 1, true, Some(kind.level))]) + Blocks(rest)
  {
    hide Paragraph;
    assert ([kind] + rest)[1..] == rest;
  }

  lemma BeforeFirst(kinds: seq<LineKind>)
    ensures OnCourse([], [], kinds, Blocks(kinds))
  {
    hide Blocks;
    NoLines(kinds);
    assert [] + Blocks(kinds) == Blocks(kinds);
  }

  lemma AfterLast(blocks: seq<RawBlock>, buffer: seq<string>, all: seq<RawBlock>)
    requires OnCourse(blocks, buffer, [], all)
    ensures blocks + Paragraph(buffer) == all
  {
    BlocksOfRun(buffer, []);
  }

  lemma NextKind(lines: seq<string>, i: nat, inFence: bool)
    requires i < |lines|
    ensures Kinds(lines[i..], inFence)
            == [KindOf(lines[i], inFence)] + Kinds(lines[i + 1..], inFence != IsFence(lines[i]))
  {
    assert lines[i..][1..] == lines[i + 1..];
  }

  /** The line loop with its paragraph buffer and fence flag. */
  method ParseMarkdown(text: string) returns (r: FormatParseResult)
    ensures r.blocks == Blocks(Kinds(Lines(NormalizeNewlines(text)), false))
    ensures forall b :: b in r.blocks ==> b.page == 1 && (b.heading <==> b.level.Some?)
    ensures r.pageCount == 1 && r.warnings == if r.blocks == [] then ["no text content"] else []
  {
    var lines := Lines(NormalizeNewlines(text));
    var blocks: seq<RawBlock> := [];
    var buffer: seq<string> := [];
    var inFence := false;
    ghost var all := Blocks(Kinds(lines, false));
    hide OnCourse, Blocks, Paragraph, Trim, IsHeading, IsFence, Kinds, Lines, NormalizeNewlines, Join, CollapseBlanks, AsLines,
         Hashes, HeadingText, Words;
    BeforeFirst(Kinds(lines, false));
    assert lines[0..] == lines;
    var i := 0;
    while i < |lines|
      invariant 0 <= i <= |lines|
      invariant OnCourse(blocks, buffer, Kinds(lines[i..], inFence), all)
    {
      var line := lines[i];
      NextKind(lines, i, inFence);
      ghost var rest := Kinds(lines[i + 1..], inFence != IsFence(line));
      if IsFence(line) {
        AfterLine(blocks, buffer, Trim(line), rest, all);
        inFence := !inFence;
        buffer := buffer + [Trim(line)];
      } else if !inFence && IsHeading(line) {
        AfterFlush(blocks, buffer, HeadingLine(Hashes(line), HeadingText(line)), rest, all);
        blocks := blocks + Paragraph(buffer) + [RawBlock(HeadingText(line), 1, true, Some(Hashes(line)))];
        buffer := [];
      } else if !inFence && Trim(line) == "" {
        AfterFlush(blocks, buffer, BlankLine, rest, all);
        blocks := blocks + Paragraph(buffer);
        buffer := [];
      } else {
        AfterLine(blocks, buffer, Trim(line), rest, all);
        buffer := buffer + [Trim(line)];
      }
      i := i + 1;
    }
    NoKinds(lines[|lines|..], inFence);
    AfterLast(blocks, buffer, all);
    blocks := blocks + Paragraph(buffer);
    BlocksAreExact(Kinds(Lines(NormalizeNewlines(text)), false));
    r := FormatParseResult(blocks, 1, if |blocks| > 0 then [] else ["no text content"]);
  }

  lemma NoKinds(lines: seq<string>, inFence: bool)
    requires lines == []
    ensures Kinds(lines, inFence) == []
  {
  }

  // ----- What the blocks are -----

  /** The heading blocks; the blocks that are body text. */
  function HeadingBlocks(blocks: seq<RawBlock>): seq<RawBlock> {
    if blocks == [] then [] else (if blocks[0].heading then [blocks[0]] else []) + HeadingBlocks(blocks[1..])
  }

  function BodyBlocks(blocks: seq<RawBlock>): seq<RawBlock> {
    if blocks == [] then [] else (if blocks[0].heading then [] else [blocks[0]]) + BodyBlocks(blocks[1..])
  }

  lemma BlockKindsOfConcat(a: seq<RawBlock>, b: seq<RawBlock>)
    ensures HeadingBlocks(a + b) == HeadingBlocks(a) + HeadingBlocks(b)
    ensures BodyBlocks(a + b) == BodyBlocks(a) + BodyBlocks(b)
  {
    HeadingBlocksOfConcat(a, b);
    BodyBlocksOfConcat(a, b);
  }

  lemma {:induction false} HeadingBlocksOfConcat(a: seq<RawBlock>, b: seq<RawBlock>)
    ensures HeadingBlocks(a + b) == HeadingBlocks(a) + HeadingBlocks(b)
    decreases a
  {
    if a == [] {
      assert a + b == b;
    } else {
      assert (a + b)[1..] == a[1..] + b;
      HeadingBlocksOfConcat(a[1..], b);
      var own := if a[0].heading then [a[0]] else [];
      assert own + (HeadingBlocks(a[1..]) + HeadingBlocks(b)) == own + HeadingBlocks(a[1..]) + HeadingBlocks(b);
    }
  }

  lemma {:induction false} BodyBlocksOfConcat(a: seq<RawBlock>, b: seq<RawBlock>)
    ensures BodyBlocks(a + b) == BodyBlocks(a) + BodyBlocks(b)
    decreases a
  {
    if a == [] {
      assert a + b == b;
    } else {
      assert (a + b)[1..] == a[1..] + b;
      BodyBlocksOfConcat(a[1..], b);
      var own := if a[0].heading then [] else [a[0]];
      assert own + (BodyBlocks(a[1..]) + BodyBlocks(b)) == own + BodyBlocks(a[1..]) + BodyBlocks(b);
    }
  }

  function HeadingLines(kinds: seq<LineKind>): seq<RawBlock> {
    if kinds == [] then []
    else (if kinds[0].HeadingLine? then [RawBlock(kinds[0].text, 1, true, Some(kinds[0].level))] else []) + HeadingLines(kinds[1..])
  }

  function BodyLineWords(kinds: seq<LineKind>): seq<string> {
    if kinds == [] then [] else (if kinds[0].TextLine? then Words(kinds[0].text) else []) + BodyLineWords(kinds[1..])
  }

  lemma {:induction false} RunLines(kinds: seq<LineKind>, n: nat)
    requires n <= |kinds| && forall i :: 0 <= i < n ==> kinds[i].TextLine?
    ensures HeadingLines(kinds) == HeadingLines(kinds[n..])
    ensures BodyLineWords(kinds) == AllWords(LineTexts(kinds[..n])) + BodyLineWords(kinds[n..])
    decreases n
  {
    hide Words;
    if n > 0 {
      var run := kinds[..n];
      RunLines(kinds[1..], n - 1);
      assert run[1..] == kinds[1..][..n - 1] && kinds[1..][n - 1..] == kinds[n..];
      assert LineTexts(run) == [run[0].text] + LineTexts(run[1..]);
      assert LineTexts(run)[1..] == LineTexts(run[1..]);
    } else {
      assert kinds[0..] == kinds && LineTexts(kinds[..0]) == [];
    }
  }

  lemma ParagraphIsBody(lines: seq<string>)
    ensures HeadingBlocks(Paragraph(lines)) == [] && BodyBlocks(Paragraph(lines)) == Paragraph(lines)
    ensures forall b :: b in Paragraph(lines) ==> b.page == 1 && !b.heading && b.level == None
    ensures AllWords(Texts(Paragraph(lines))) == AllWords(lines)
  {
    WordsOfParagraph(lines);
    hide Words, Trim, CollapseBlanks, Join;
    var p := Paragraph(lines);
    if p != [] { assert p[1..] == []; }
  }

  /** A block is a heading exactly where a line is one, with its level and text, in
      order; everything else is body text, on page 1, with the words of the other lines. */
  lemma {:induction false} BlocksAreExact(kinds: seq<LineKind>)
    ensures HeadingBlocks(Blocks(kinds)) == HeadingLines(kinds)
    ensures AllWords(Texts(BodyBlocks(Blocks(kinds)))) == BodyLineWords(kinds)
    ensures forall b :: b in Blocks(kinds) ==> b.page == 1 && (b.heading <==> b.level.Some?)
    decreases |kinds|
  {
    hide Words, Paragraph;
    if kinds != [] {
      if kinds[0].TextLine? {
        var n := TextRun(kinds);
        var p, rest := Paragraph(LineTexts(kinds[..n])), Blocks(kinds[n..]);
        BlocksAreExact(kinds[n..]);
        ParagraphIsBody(LineTexts(kinds[..n]));
        RunLines(kinds, n);
        BlockKindsOfConcat(p, rest);
        TextsOfConcat(BodyBlocks(p), BodyBlocks(rest));
        AllWordsOfConcat(Texts(BodyBlocks(p)), Texts(BodyBlocks(rest)));
      } else {
        BlocksAreExact(kinds[1..]);
        NotALine(kinds[0], kinds[1..]);
        assert [kinds[0]] + kinds[1..] == kinds;
        hide Blocks;
        if kinds[0].HeadingLine? {
          HeadingInFront(RawBlock(kinds[0].text, 1, true, Some(kinds[0].level)), Blocks(kinds[1..]));
        } else {
          assert [] + Blocks(kinds[1..]) == Blocks(kinds[1..]);
        }
        assert [] + BodyLineWords(kinds[1..]) == BodyLineWords(kinds[1..]);
      }
    }
  }

  lemma HeadingInFront(b: RawBlock, rest: seq<RawBlock>)
    requires b.heading
    ensures HeadingBlocks([b] + rest) == [b] + HeadingBlocks(rest) && BodyBlocks([b] + rest) == BodyBlocks(rest)
  {
    assert ([b] + rest)[1..] == rest;
  }

  /** A paragraph of lines whose only white space is blanks and tabs is their words, one
      blank apart. */
  lemma ParagraphIsItsWords(lines: seq<string>)
    requires forall i :: 0 <= i < |lines| ==> OnlyBlanks(lines[i])
    ensures Paragraph(lines)
            == if AllWords(lines) == [] then [] else [RawBlock(Join(AllWords(lines), " "), 1, false, None)]
  {
    BlanksAreSpace();
    JoinedOnlyBlanks(lines);
    WordsOfJoin(lines, " ");
    NormalizedIsItsWords(Join(lines, " "));
    WordsHaveInk(Join(lines, " "));
    JoinIsTrimmed(AllWords(lines), " ");
    JoinOfNone(" ");
    hide IsSpace, Join, Trim, CollapseBlanks, OnlyBlanks, AllWords;
  }

  lemma {:induction false} JoinedOnlyBlanks(lines: seq<string>)
    requires forall i :: 0 <= i < |lines| ==> OnlyBlanks(lines[i])
    ensures OnlyBlanks(Join(lines, " "))
    decreases lines
  {
    assert IsBlank(' ');
    hide IsSpace, IsBlank;
    if |lines| > 1 {
      JoinedOnlyBlanks(lines[1..]);
      OnlyBlanksOfConcat(lines[0], " ");
      OnlyBlanksOfConcat(lines[0] + " ", Join(lines[1..], " "));
    }
  }

  lemma OnlyBlanksOfConcat(a: string, b: string)
    requires OnlyBlanks(a) && OnlyBlanks(b)
    ensures OnlyBlanks(a + b)
  {
    hide IsSpace, IsBlank;
  }

  /** The words of the lines that are no headings. */
  function BodyWords(lines: seq<string>, inFence: bool): seq<string> {
    if lines == [] then []
    else
      (if !inFence && !IsFence(lines[0]) && IsHeading(lines[0]) then [] else Words(lines[0]))
      + BodyWords(lines[1..], inFence != IsFence(lines[0]))
  }

  lemma {:induction false} BodyLinesKeepWords(lines: seq<string>, inFence: bool)
    ensures BodyLineWords(Kinds(lines, inFence)) == BodyWords(lines, inFence)
    decreases lines
  {
    if lines != [] {
      BlankLineIs(lines[0]);
      WordsOfTrim(lines[0]);
      assert Words("") == [];
      hide IsHeading, IsFence, Words, Trim;
      assert Kinds(lines, inFence)[1..] == Kinds(lines[1..], inFence != IsFence(lines[0]));
      BodyLinesKeepWords(lines[1..], inFence != IsFence(lines[0]));
    }
  }

  // ----- No word is lost -----

  /** The words of the input lines, without the marker of each heading. */
  function MarkdownWords(lines: seq<string>, inFence: bool): seq<string> {
    if lines == [] then []
    else
      var words := Words(lines[0]);
      (if !inFence && !IsFence(lines[0]) && IsHeading(lines[0]) && words != [] then words[1..] else words)
      + MarkdownWords(lines[1..], inFence != IsFence(lines[0]))
  }

  function KindWords(kind: LineKind): seq<string> {
    match kind
    case BlankLine => []
    case TextLine(text) => Words(text)
    case HeadingLine(_, text) => Words(text)
  }

  function KindsWords(kinds: seq<LineKind>): seq<string> {
    if kinds == [] then [] else KindWords(kinds[0]) + KindsWords(kinds[1..])
  }

  /** A heading line's words are its marker and the words of its text. */
  lemma WordsOfHeading(line: string)
    requires IsHeading(line)
    ensures Words(line) == [line[..Hashes(line)]] + Words(HeadingText(line))
  {
    var n := Hashes(line);
    assert line == line[..n] + line[n..];
    WordsOfConcat(line[..n], line[n..]);
    WordsOfWord(line[..n]);
    WordsOfTrim(line[n..]);
  }

  lemma KindKeepsWords(line: string, inFence: bool)
    ensures KindWords(KindOf(line, inFence))
            == (if !inFence && !IsFence(line) && IsHeading(line) && Words(line) != [] then Words(line)[1..] else Words(line))
  {
    WordsOfTrim(line);
    if IsHeading(line) { WordsOfHeading(line); }
  }

  lemma {:induction false} KindsKeepWords(lines: seq<string>, inFence: bool)
    ensures KindsWords(Kinds(lines, inFence)) == MarkdownWords(lines, inFence)
    decreases lines
  {
    if lines != [] {
      hide KindOf, IsHeading, Words;
      var rest := Kinds(lines[1..], inFence != IsFence(lines[0]));
      assert Kinds(lines, inFence)[1..] == rest;
      KindsKeepWords(lines[1..], inFence != IsFence(lines[0]));
      KindKeepsWords(lines[0], inFence);
    }
  }

  lemma WordsOfParagraph(lines: seq<string>)
    ensures AllWords(Texts(Paragraph(lines))) == AllWords(lines)
  {
    var joined := Join(lines, " ");
    WordsOfJoin(lines, " ");
    WordsOfCollapse(joined);
    WordsOfTrim(CollapseBlanks(joined));
    var p := Paragraph(lines);
    if p != [] {
      assert p[1..] == [] && Texts(p) == [p[0].text] && AllWords(Texts(p)[1..]) == [];
    }
  }

  lemma {:induction false} KindsWordsOfRun(kinds: seq<LineKind>, n: nat)
    requires n <= |kinds| && forall i :: 0 <= i < n ==> kinds[i].TextLine?
    ensures KindsWords(kinds) == AllWords(LineTexts(kinds[..n])) + KindsWords(kinds[n..])
    decreases n
  {
    hide Words;
    if n > 0 {
      KindsWordsOfRun(kinds[1..], n - 1);
      var run := kinds[..n];
      assert run[1..] == kinds[1..][..n - 1] && kinds[1..][n - 1..] == kinds[n..];
      assert LineTexts(run) == [run[0].text] + LineTexts(run[1..]);
      assert LineTexts(run)[1..] == LineTexts(run[1..]);
    }
  }

  lemma {:induction false} BlocksKeepWords(kinds: seq<LineKind>)
    ensures AllWords(Texts(Blocks(kinds))) == KindsWords(kinds)
    decreases |kinds|
  {
    if kinds != [] {
      hide Words, Paragraph;
      match kinds[0]
      case BlankLine => BlocksKeepWords(kinds[1..]);
      case HeadingLine(level, text) =>
        var b := RawBlock(text, 1, true, Some(level));
        BlocksKeepWords(kinds[1..]);
        assert Blocks(kinds)[1..] == Blocks(kinds[1..]);
        assert Texts(Blocks(kinds)) == [text] + Texts(Blocks(kinds[1..]));
        assert ([text] + Texts(Blocks(kinds[1..])))[1..] == Texts(Blocks(kinds[1..]));
      case TextLine(_) =>
        var n := TextRun(kinds);
        var p := Paragraph(LineTexts(kinds[..n]));
        BlocksKeepWords(kinds[n..]);
        WordsOfParagraph(LineTexts(kinds[..n]));
        KindsWordsOfRun(kinds, n);
        TextsOfConcat(p, Blocks(kinds[n..]));
        AllWordsOfConcat(Texts(p), Texts(Blocks(kinds[n..])));
    }
  }

  /** The words of a Markdown document's blocks are the words of its lines in order,
      the heading markers removed. */
  lemma MarkdownKeepsWords(text: string)
    ensures AllWords(Texts(Blocks(Kinds(Lines(NormalizeNewlines(text)), false))))
            == MarkdownWords(Lines(NormalizeNewlines(text)), false)
  {
    var lines := Lines(NormalizeNewlines(text));
    BlocksKeepWords(Kinds(lines, false));
    KindsKeepWords(lines, false);
  }

  function Headings(kinds: seq<LineKind>): nat {
    if kinds == [] then 0 else (if kinds[0].HeadingLine? then 1 else 0) + Headings(kinds[1..])
  }

  lemma {:induction false} NoHeadings(kinds: seq<LineKind>)
    ensures Headings(kinds) == 0 <==> forall i :: 0 <= i < |kinds| ==> !kinds[i].HeadingLine?
    decreases kinds
  {
    if kinds != [] {
      NoHeadings(kinds[1..]);
      assert forall i :: 0 <= i < |kinds[1..]| ==> kinds[1..][i] == kinds[i + 1];
    }
  }

  /** Every heading line loses one word, its marker, and no other line loses any. */
  lemma {:induction false} OneWordPerHeading(lines: seq<string>, inFence: bool)
    ensures |AllWords(lines)| == |MarkdownWords(lines, inFence)| + Headings(Kinds(lines, inFence))
    ensures Headings(Kinds(lines, inFence)) == 0 ==> MarkdownWords(lines, inFence) == AllWords(lines)
    decreases lines
  {
    hide Words, IsHeading;
    if lines != [] {
      var line, next := lines[0], inFence != IsFence(lines[0]);
      assert Kinds(lines, inFence)[1..] == Kinds(lines[1..], next);
      OneWordPerHeading(lines[1..], next);
      if IsHeading(line) { WordsOfHeading(line); }
    }
  }

  /** Nothing but the markers of headings is removed: every word of the text remains if
      and only if no line outside fences is a heading. */
  lemma NoHeadingsNothingRemoved(text: string)
    ensures var lines := Lines(NormalizeNewlines(text));
            MarkdownWords(lines, false) == Words(text)
            <==> forall i :: 0 <= i < |Kinds(lines, false)| ==> !Kinds(lines, false)[i].HeadingLine?
  {
    hide Words, MarkdownWords, Kinds, AllWords, NormalizeNewlines, Lines;
    var lines := Lines(NormalizeNewlines(text));
    WordsOfNormalize(text);
    WordsOfLines(NormalizeNewlines(text));
    OneWordPerHeading(lines, false);
    NoHeadings(Kinds(lines, false));
  }

  // ----- Plain text -----

  function NewlineEnd(s: string): (n: nat)
    ensures n <= |s| && (forall i :: 0 <= i < n ==> s[i] == '\n') && (n < |s| ==> s[n] != '\n')
  {
    if s == [] || s[0] != '\n' then 0 else 1 + NewlineEnd(s[1..])
  }

  /** Where the first run of two or more line ends starts, or the length. */
  function BlankLineAt(s: string): (n: nat)
    ensures n <= |s| && (n < |s| ==> n + 1 < |s| && s[n] == s[n + 1] == '\n')
    ensures forall i :: 0 <= i < n && i + 1 < |s| ==> !(s[i] == s[i + 1] == '\n')
  {
    if s == [] then 0
    else if |s| > 1 && s[0] == s[1] == '\n' then 0
    else 1 + BlankLineAt(s[1..])
  }

  /** split(/\n{2,}/) */
  function SplitAtBlankLines(s: string): seq<string>
    decreases |s|
  {
    var n := BlankLineAt(s);
    if n == |s| then [s] else [s[..n]] + SplitAtBlankLines(s[n + NewlineEnd(s[n..])..])
  }

  predicate HasBlankLine(s: string) {
    exists i :: 0 <= i < |s| - 1 && s[i] == '\n' == s[i + 1]
  }

  /** No paragraph holds a blank line, and a text without one is one paragraph. */
  lemma {:induction false} ParagraphsHoldNoBlankLine(s: string)
    ensures forall p :: p in SplitAtBlankLines(s) ==> !HasBlankLine(p)
    ensures |SplitAtBlankLines(s)| == 1 <==> !HasBlankLine(s)
    decreases |s|
  {
    BlankLineFound(s);
    hide BlankLineAt, HasBlankLine, NewlineEnd;
    var n := BlankLineAt(s);
    if n < |s| {
      ParagraphsHoldNoBlankLine(s[n + NewlineEnd(s[n..])..]);
    } else {
      assert s[..n] == s;
    }
  }

  lemma BlankLineFound(s: string)
    ensures !HasBlankLine(s[..BlankLineAt(s)]) && (BlankLineAt(s) < |s| <==> HasBlankLine(s))
  {
    var n := BlankLineAt(s);
    assert n < |s| ==> s[n] == '\n' == s[n + 1];
    hide BlankLineAt;
  }

  /** What stands between the paragraphs: two line ends or more. */
  predicate IsParagraphBreak(gap: string) {
    |gap| >= 2 && forall i :: 0 <= i < |gap| ==> gap[i] == '\n'
  }

  function Weave(parts: seq<string>, gaps: seq<string>): string
    requires |parts| == |gaps| + 1
  {
    if gaps == [] then parts[0] else parts[0] + gaps[0] + Weave(parts[1..], gaps[1..])
  }

  /** The paragraphs and the breaks between them make up the text. */
  lemma {:induction false} ParagraphsMakeUpTheText(s: string) returns (gaps: seq<string>)
    ensures |SplitAtBlankLines(s)| == |gaps| + 1 && Weave(SplitAtBlankLines(s), gaps) == s
    ensures forall k :: 0 <= k < |gaps| ==> IsParagraphBreak(gaps[k])
    decreases |s|
  {
    hide IsParagraphBreak, Weave, BlankLineAt, NewlineEnd, SplitAtBlankLines;
    var n := BlankLineAt(s);
    SplitsThere(s);
    if n == |s| {
      gaps := [];
      NothingWoven(s);
    } else {
      var m := BreakLength(s, n);
      var rest := ParagraphsMakeUpTheText(s[n + m..]);
      gaps := [s[n..n + m]] + rest;
      WeaveOfMore(s[..n], s[n..n + m], SplitAtBlankLines(s[n + m..]), rest);
      ThreeParts(s, n, n + m);
    }
  }

  lemma {:induction false} SplitsThere(s: string)
    ensures var n := BlankLineAt(s);
            SplitAtBlankLines(s) == if n == |s| then [s] else [s[..n]] + SplitAtBlankLines(s[n + NewlineEnd(s[n..])..])
  {
    hide BlankLineAt, NewlineEnd;
  }

  lemma NothingWoven(s: string)
    ensures Weave([s], []) == s
  {
  }

  lemma ThreeParts(s: string, n: nat, m: nat)
    requires n <= m <= |s|
    ensures s[..n] + s[n..m] + s[m..] == s
  {
  }

  lemma WeaveOfMore(part: string, gap: string, parts: seq<string>, gaps: seq<string>)
    requires |parts| == |gaps| + 1
    ensures Weave([part] + parts, [gap] + gaps) == part + gap + Weave(parts, gaps)
  {
    assert ([part] + parts)[1..] == parts && ([gap] + gaps)[1..] == gaps;
  }

  lemma BreakLength(s: string, n: nat) returns (m: nat)
    requires n == BlankLineAt(s) < |s|
    ensures m == NewlineEnd(s[n..]) && n + m <= |s| && IsParagraphBreak(s[n..n + m])
  {
    m := NewlineEnd(s[n..]);
    assert s[n..][0] == '\n' && s[n..][1] == '\n';
    assert forall i :: 0 <= i < m ==> s[n..n + m][i] == s[n..][i];
  }

  function TxtBlocks(paragraphs: seq<string>): (blocks: seq<RawBlock>)
    ensures forall b :: b in blocks ==> b.page == 1 && !b.heading && b.level == None
  {
    if paragraphs == [] then []
    else
      var text := Trim(CollapseBlanks(paragraphs[0]));
      (if text == "" then [] else [RawBlock(text, 1, false, None)]) + TxtBlocks(paragraphs[1..])
  }

  /** Every paragraph that is not blank is a block, cleaned up, and nothing else is. */
  ghost predicate AreParagraphs(texts: seq<string>, paragraphs: seq<string>)
    decreases |paragraphs|
  {
    if paragraphs == [] then texts == []
    else if AllSpace(paragraphs[0]) then AreParagraphs(texts, paragraphs[1..])
    else
      texts != [] && texts[0] == Trim(CollapseBlanks(paragraphs[0])) && AreParagraphs(texts[1..], paragraphs[1..])
  }

  lemma {:induction false} TxtBlocksAreParagraphs(paragraphs: seq<string>)
    ensures AreParagraphs(Texts(TxtBlocks(paragraphs)), paragraphs)
    decreases paragraphs
  {
    if paragraphs != [] {
      var p, rest := paragraphs[0], TxtBlocks(paragraphs[1..]);
      var text := Trim(CollapseBlanks(p));
      TxtBlocksAreParagraphs(paragraphs[1..]);
      WordsOfCollapse(p);
      WordsOfTrim(CollapseBlanks(p));
      TrimTrims(CollapseBlanks(p));
      WordlessIsBlank(p);
      WordlessIsBlank(text);
      hide Words, Trim, CollapseBlanks, IsSpace;
      if text == "" {
        assert TxtBlocks(paragraphs) == rest;
      } else {
        assert TxtBlocks(paragraphs)[1..] == rest;
        assert Texts(TxtBlocks(paragraphs))[1..] == Texts(rest);
      }
    }
  }

  lemma WordlessIsBlank(s: string)
    ensures Words(s) == [] <==> AllSpace(s)
    ensures s != "" && Trimmed(s) ==> Words(s) != []
  {
    if Words(s) == [] { AllBlank(s); }
    if AllSpace(s) { WordsOfSpace(s); }
    hide Words, IsSpace;
  }

  function ParseTxt(text: string): (r: FormatParseResult)
    ensures AllWords(Texts(r.blocks)) == Words(text)
    ensures forall b :: b in r.blocks ==> b.page == 1 && !b.heading && b.level == None
    ensures AreParagraphs(Texts(r.blocks), SplitAtBlankLines(NormalizeNewlines(text)))
    ensures r.pageCount == 1 && r.warnings == if r.blocks == [] then ["no text content"] else []
  {
    var paragraphs := SplitAtBlankLines(NormalizeNewlines(text));
    var blocks := TxtBlocks(paragraphs);
    TxtBlocksAreParagraphs(paragraphs);
    TxtKeepsWords(paragraphs);
    WordsOfSplit(NormalizeNewlines(text));
    WordsOfNormalize(text);
    FormatParseResult(blocks, 1, Warnings(blocks))
  }

  lemma {:induction false} TxtKeepsWords(paragraphs: seq<string>)
    ensures AllWords(Texts(TxtBlocks(paragraphs))) == AllWords(paragraphs)
    decreases paragraphs
  {
    if paragraphs != [] {
      var p := paragraphs[0];
      var text := Trim(CollapseBlanks(p));
      WordsOfCollapse(p);
      WordsOfTrim(CollapseBlanks(p));
      TxtKeepsWords(paragraphs[1..]);
      var rest := TxtBlocks(paragraphs[1..]);
      if text == "" {
        assert TxtBlocks(paragraphs) == rest;
      } else {
        assert TxtBlocks(paragraphs)[1..] == rest;
        assert Texts(TxtBlocks(paragraphs))[1..] == Texts(rest);
      }
    }
  }

  lemma WordsAroundGap(s: string, n: nat, m: nat)
    requires n + m <= |s| && m > 0 && AllSpace(s[n..n + m])
    ensures Words(s) == Words(s[..n]) + Words(s[n + m..])
  {
    hide Words, AllSpace;
    var gap, rest := s[n..n + m], s[n + m..];
    assert s == s[..n] + gap + rest;
    WordsAcross(s[..n], gap, rest);
  }

  lemma {:induction false} WordsOfSplit(s: string)
    ensures AllWords(SplitAtBlankLines(s)) == Words(s)
    decreases |s|
  {
    hide Words;
    var n := BlankLineAt(s);
    var parts := SplitAtBlankLines(s);
    if n < |s| {
      var m := NewlineEnd(s[n..]);
      assert s[n..][0] == '\n';
      var gap := s[n..n + m];
      forall i | 0 <= i < |gap| ensures IsSpace(gap[i]) {
        assert gap[i] == s[n..][i];
      }
      WordsAroundGap(s, n, m);
      WordsOfSplit(s[n + m..]);
      assert parts[1..] == SplitAtBlankLines(s[n + m..]);
    } else {
      assert parts[1..] == [];
    }
  }
}
