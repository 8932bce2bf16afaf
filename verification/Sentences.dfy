/** Splitting an oversized paragraph at sentence ends. */
module Sentences {
  import opened Common
  import opened Text
  import opened Assembly

  // ----- The regular expression /[.!?]+(?:\s+|$)/g -----

  predicate IsTerminator(c: char) {
    c == '.' || c == '!' || c == '?'
  }

  function TerminatorEnd(s: string, i: nat): (n: nat)
    requires i <= |s|
    ensures i <= n <= |s| && (forall k :: i <= k < n ==> IsTerminator(s[k])) && (n < |s| ==> !IsTerminator(s[n]))
    decreases |s| - i
  {
    if i == |s| || !IsTerminator(s[i]) then i else TerminatorEnd(s, i + 1)
  }

  function SpaceEnd(s: string, i: nat): (n: nat)
    requires i <= |s|
    ensures i <= n <= |s| && (forall k :: i <= k < n ==> IsSpace(s[k])) && (n < |s| ==> !IsSpace(s[n]))
    decreases |s| - i
  {
    if i == |s| || !IsSpace(s[i]) then i else SpaceEnd(s, i + 1)
  }

  predicate MatchesAt(s: string, i: nat) {
    && i < |s| && IsTerminator(s[i])
    && (TerminatorEnd(s, i) == |s| || IsSpace(s[TerminatorEnd(s, i)]))
  }

  /** The end of the leftmost match at or after `from`. */
  function RegexExec(s: string, from: nat): (end: Option<nat>)
    requires from <= |s|
    ensures end.Some? ==> from < end.value <= |s|
    decreases |s| - from
  {
    if from == |s| then None
    else if MatchesAt(s, from) then Some(SpaceEnd(s, TerminatorEnd(s, from)))
    else RegexExec(s, from + 1)
  }

  /** Where the sentence that starts at `from` ends. */
  function SentenceEnd(s: string, from: nat): (end: nat)
    requires from < |s|
    ensures from < end <= |s|
  {
    RegexExec(s, from).GetOr(|s|)
  }

  // ----- What a sentence end is -----

  /** A terminator ends at q, and from there to e is white space. */
  predicate GapAfter(s: string, q: nat, e: nat)
    requires e <= |s|
  {
    0 < q < e && s[q - 1] in {'.', '!', '?'} && forall k :: q <= k < e ==> IsSpace(s[k])
  }

  /** Only white space, and some of it, lies between a terminator and position e,
      where text goes on. */
  ghost predicate Stop(s: string, e: nat) {
    && 0 < e < |s| && !IsSpace(s[e])
    && exists q: nat :: GapAfter(s, q, e)
  }

  /** A sentence starts or ends here. */
  ghost predicate Boundary(s: string, e: nat) {
    e == 0 || e == |s| || Stop(s, e)
  }

  lemma TerminatorIsInk(c: char)
    requires IsTerminator(c)
    ensures !IsSpace(c)
  {
  }

  lemma {:induction false} ExecIsLeftmost(s: string, from: nat, p: nat)
    requires from <= p < |s| && MatchesAt(s, p) && forall k :: from <= k < p ==> !MatchesAt(s, k)
    ensures RegexExec(s, from) == Some(SpaceEnd(s, TerminatorEnd(s, p)))
    decreases p - from
  {
    if from < p { ExecIsLeftmost(s, from + 1, p); }
  }

  lemma {:induction false} NoMatch(s: string, from: nat)
    requires from <= |s| && forall k :: from <= k < |s| ==> !MatchesAt(s, k)
    ensures RegexExec(s, from) == None
    decreases |s| - from
  {
    if from < |s| { NoMatch(s, from + 1); }
  }

  /** Before every stop there is a match that ends at it. */
  lemma StopHasMatch(s: string, e: nat, from: nat) returns (p: nat)
    requires Stop(s, e) && Boundary(s, from) && from < e
    ensures from <= p < e && MatchesAt(s, p) && SpaceEnd(s, TerminatorEnd(s, p)) == e
  {
    var q: nat :| GapAfter(s, q, e);
    p := q - 1;
    hide IsSpace;
    assert !IsTerminator(s[q]) by { if IsTerminator(s[q]) { TerminatorIsInk(s[q]); } }
    assert TerminatorEnd(s, p) == q;
    assert SpaceEnd(s, q) == e by { SpaceEndIs(s, q, e); }
    assert from != 0 ==> !IsSpace(s[from]);
  }

  lemma {:induction false} SpaceEndIs(s: string, i: nat, n: nat)
    requires i <= n < |s| && (forall k :: i <= k < n ==> IsSpace(s[k])) && !IsSpace(s[n])
    ensures SpaceEnd(s, i) == n
    decreases n - i
  {
    hide IsSpace;
    if i < n { SpaceEndIs(s, i + 1, n); }
  }

  lemma MatchEndsAtBoundary(s: string, p: nat)
    requires MatchesAt(s, p)
    ensures Boundary(s, SpaceEnd(s, TerminatorEnd(s, p)))
  {
    hide IsSpace;
    var q := TerminatorEnd(s, p);
    var e := SpaceEnd(s, q);
    if e < |s| {
      assert GapAfter(s, q, e);
    }
  }

  /** The first match decides: no stop lies inside a match. */
  lemma MatchesDoNotNest(s: string, p: nat, p': nat)
    requires MatchesAt(s, p) && MatchesAt(s, p') && p <= p'
    ensures SpaceEnd(s, TerminatorEnd(s, p)) <= SpaceEnd(s, TerminatorEnd(s, p'))
  {
    hide IsSpace;
    var q, q' := TerminatorEnd(s, p), TerminatorEnd(s, p');
    TerminatorIsInk(s[p']);
    if p' < q {
      assert q' == q;
    } else {
      assert p' >= SpaceEnd(s, q);
    }
  }

  /** Every run of the expression stops at the next sentence boundary. */
  lemma SentenceEndIsNext(s: string, from: nat)
    requires from < |s| && Boundary(s, from)
    ensures Boundary(s, SentenceEnd(s, from))
    ensures forall e :: from < e < SentenceEnd(s, from) ==> !Boundary(s, e)
  {
    hide MatchesAt, Stop;
    var end := SentenceEnd(s, from);
    if any :| from <= any < |s| && MatchesAt(s, any) {
      var p := FirstMatch(s, from, any);
      ExecIsLeftmost(s, from, p);
      MatchEndsAtBoundary(s, p);
      forall e | from < e < end ensures !Boundary(s, e) {
        if Stop(s, e) {
          var p' := StopHasMatch(s, e, from);
          MatchesDoNotNest(s, p, p');
        }
      }
    } else {
      NoMatch(s, from);
      forall e | from < e < end ensures !Boundary(s, e) {
        if Stop(s, e) {
          var p' := StopHasMatch(s, e, from);
          assert false;
        }
      }
    }
  }

  lemma {:induction false} FirstMatch(s: string, from: nat, p: nat) returns (first: nat)
    requires from <= p < |s| && MatchesAt(s, p)
    ensures from <= first <= p && MatchesAt(s, first) && forall k :: from <= k < first ==> !MatchesAt(s, k)
    decreases p
  {
    if k :| from <= k < p && MatchesAt(s, k) {
      first := FirstMatch(s, from, k);
    } else {
      first := p;
    }
  }

  // ----- Sentences -----

  /** A stretch of text, by its offsets. */
  datatype Span = Span(from: nat, to: nat)

  /** Where the first i spans end. */
  function EndOf(spans: seq<Span>, i: nat): nat
    requires i <= |spans|
  {
    if i == 0 then 0 else spans[i - 1].to
  }

  ghost predicate IsSentence(s: string, span: Span) {
    span.from < |s| && Boundary(s, span.from) && span.to == SentenceEnd(s, span.from)
  }

  /** The spans are the sentences from the start of s up to `end`. */
  ghost predicate AreSentences(s: string, spans: seq<Span>, end: nat) {
    && (forall i :: 0 <= i < |spans| ==> IsSentence(s, spans[i]))
    && (forall i :: 0 <= i < |spans| ==> spans[i].from == EndOf(spans, i))
    && end == EndOf(spans, |spans|)
  }

  lemma AddSentence(s: string, spans: seq<Span>, last: nat)
    requires AreSentences(s, spans, last) && last < |s| && Boundary(s, last)
    ensures AreSentences(s, spans + [Span(last, SentenceEnd(s, last))], SentenceEnd(s, last))
    ensures Boundary(s, SentenceEnd(s, last))
  {
    hide Boundary, IsSentence, SentenceEnd;
    SentenceEndIsNext(s, last);
    var next := Span(last, SentenceEnd(s, last));
    assert IsSentence(s, next) by { SentenceIs(s, last); }
    forall i | 0 <= i <= |spans| ensures EndOf(spans + [next], i) == EndOf(spans, i) {
    }
  }

  lemma SentenceIs(s: string, from: nat)
    requires from < |s| && Boundary(s, from)
    ensures IsSentence(s, Span(from, SentenceEnd(s, from)))
  {
  }

  lemma InkStays(s: string, i: nat)
    requires i < |s| && !IsSpace(s[i])
    ensures Trim(s) != ""
  {
    hide IsSpace;
    var k := InkAfterTrimStart(s, i);
    InkAfterTrimEnd(TrimStart(s), k);
  }

  lemma {:induction false} InkAfterTrimStart(s: string, i: nat) returns (k: nat)
    requires i < |s| && !IsSpace(s[i])
    ensures k < |TrimStart(s)| && !IsSpace(TrimStart(s)[k])
    decreases s
  {
    hide IsSpace;
    if IsSpace(s[0]) { k := InkAfterTrimStart(s[1..], i - 1); } else { k := i; }
  }

  lemma {:induction false} InkAfterTrimEnd(s: string, i: nat)
    requires i < |s| && !IsSpace(s[i])
    ensures TrimEnd(s) != ""
    decreases s
  {
    hide IsSpace;
    if IsSpace(s[|s| - 1]) { InkAfterTrimEnd(s[..|s| - 1], i); }
  }

  /** A match holds a terminator, so no sentence is blank. */
  lemma {:induction false} SentenceHasInk(s: string, from: nat) returns (p: nat)
    requires from <= |s| && RegexExec(s, from).Some?
    ensures from <= p < RegexExec(s, from).value && !IsSpace(s[p])
    decreases |s| - from
  {
    hide IsSpace;
    if MatchesAt(s, from) {
      TerminatorIsInk(s[from]);
      p := from;
    } else {
      p := SentenceHasInk(s, from + 1);
    }
  }

  /** The matching loop, with its guards against blank segments. */
  method FindSentences(s: string) returns (spans: seq<Span>)
    requires s != "" && Trimmed(s)
    ensures AreSentences(s, spans, |s|)
  {
    hide AreSentences, IsSpace, Trim, Boundary;
    spans := [];
    var last := 0;
    assert AreSentences(s, [], 0) && Boundary(s, 0) by { NoSentences(s); }
    var found := RegexExec(s, last);
    while found.Some?
      invariant last <= |s| && found == RegexExec(s, last)
      invariant AreSentences(s, spans, last) && Boundary(s, last)
      decreases |s| - last
    {
      var end := found.value;
      var p := SentenceHasInk(s, last);
      assert s[last..end][p - last] == s[p];
      InkStays(s[last..end], p - last);
      AddSentence(s, spans, last);
      if Trim(s[last..end]) != "" { spans := spans + [Span(last, end)]; }
      last := end;
      found := RegexExec(s, last);
    }
    if last < |s| {
      assert s[last..][|s| - 1 - last] == s[|s| - 1];
      InkStays(s[last..], |s| - 1 - last);
      AddSentence(s, spans, last);
    }
    if last < |s| && Trim(s[last..]) != "" { spans := spans + [Span(last, |s|)]; }
  }

  lemma NoSentences(s: string)
    ensures AreSentences(s, [], 0) && Boundary(s, 0)
  {
  }

  // ----- Grouping sentences into pieces -----

  /** The token counts of the sentences between two boundaries, added up. */
  function SentenceSum(count: string -> nat, s: string, from: nat, to: nat): nat
    requires from <= to <= |s|
    decreases |s| - from
  {
    if from == to then 0
    else if SentenceEnd(s, from) >= to then count(s[from..to])
    else count(s[from..SentenceEnd(s, from)]) + SentenceSum(count, s, SentenceEnd(s, from), to)
  }

  lemma {:induction false} SumOfOneMore(count: string -> nat, s: string, from: nat, to: nat)
    requires from <= to < |s| && Boundary(s, from) && Boundary(s, to)
    ensures SentenceSum(count, s, from, SentenceEnd(s, to))
            == SentenceSum(count, s, from, to) + count(s[to..SentenceEnd(s, to)])
    decreases |s| - from
  {
    hide Boundary, RegexExec;
    SentenceEndIsNext(s, from);
    if from < to {
      assert SentenceEnd(s, from) <= to;
      SumOfOneMore(count, s, SentenceEnd(s, from), to);
      if SentenceEnd(s, from) == to { assert SentenceSum(count, s, to, to) == 0; }
    }
  }

  /** A piece of whole sentences: within the cap unless it is a single sentence, and so
      long that the next sentence would not have fitted. */
  ghost predicate IsPiece(count: string -> nat, maxTokens: int, s: string, from: nat, to: nat) {
    && from < to <= |s| && Boundary(s, from) && Boundary(s, to)
    && (SentenceSum(count, s, from, to) <= maxTokens || SentenceEnd(s, from) == to)
    && (to < |s| ==> SentenceSum(count, s, from, to) + count(s[to..SentenceEnd(s, to)]) > maxTokens)
  }

  /** The part of a block between two offsets into its text. */
  function Piece(block: AnchoredBlock, from: nat, to: nat): AnchoredBlock
    requires from <= to <= |block.text|
  {
    AnchoredBlock(block.text[from..to], block.page, false, None, block.charStart + from, block.charStart + to)
  }

  ghost predicate IsPieceOf(count: string -> nat, maxTokens: int, block: AnchoredBlock, sub: AnchoredBlock) {
    && block.charStart <= sub.charStart <= sub.charEnd
    && IsPiece(count, maxTokens, block.text, sub.charStart - block.charStart, sub.charEnd - block.charStart)
    && sub == Piece(block, sub.charStart - block.charStart, sub.charEnd - block.charStart)
  }

  /** Where the first i pieces end. */
  function EndBefore(block: AnchoredBlock, subs: seq<AnchoredBlock>, i: nat): nat
    requires i <= |subs|
  {
    if i == 0 then block.charStart else subs[i - 1].charEnd
  }

  /** The pieces, in order, make up the text of the block up to `end`. */
  ghost predicate Split(count: string -> nat, maxTokens: int, block: AnchoredBlock, subs: seq<AnchoredBlock>, end: nat) {
    && (forall i :: 0 <= i < |subs| ==> IsPieceOf(count, maxTokens, block, subs[i]))
    && (forall i :: 0 <= i < |subs| ==> subs[i].charStart == EndBefore(block, subs, i))
    && block.charStart + end == EndBefore(block, subs, |subs|)
  }

  lemma AddPiece(count: string -> nat, maxTokens: int, block: AnchoredBlock, subs: seq<AnchoredBlock>, from: nat, to: nat)
    requires Split(count, maxTokens, block, subs, from) && IsPiece(count, maxTokens, block.text, from, to)
    ensures Split(count, maxTokens, block, subs + [Piece(block, from, to)], to)
  {
    hide IsPiece, Piece, IsPieceOf;
    PieceInside(count, maxTokens, block.text, from, to);
    PieceIsPiece(count, maxTokens, block, from, to);
    var all := subs + [Piece(block, from, to)];
    forall i | 0 <= i <= |subs| ensures EndBefore(block, all, i) == EndBefore(block, subs, i) {
    }
  }

  lemma PieceInside(count: string -> nat, maxTokens: int, s: string, from: nat, to: nat)
    requires IsPiece(count, maxTokens, s, from, to)
    ensures from < to <= |s|
  {
  }

  lemma PieceIsPiece(count: string -> nat, maxTokens: int, block: AnchoredBlock, from: nat, to: nat)
    requires from <= to <= |block.text| && IsPiece(count, maxTokens, block.text, from, to)
    ensures IsPieceOf(count, maxTokens, block, Piece(block, from, to))
    ensures Piece(block, from, to).charStart == block.charStart + from
    ensures Piece(block, from, to).charEnd == block.charStart + to
  {
    hide IsPiece;
  }

  /** What the grouping loop knows about the piece it is building. */
  ghost predicate Building(count: string -> nat, maxTokens: int, s: string, start: Option<nat>, done: nat, end: nat, tokens: nat) {
    match start
    case None => done == end == tokens == 0
    case Some(c) =>
      && c == done < end <= |s| && Boundary(s, c) && Boundary(s, end)
      && tokens == SentenceSum(count, s, c, end)
      && (tokens <= maxTokens || SentenceEnd(s, c) == end)
  }

  /** Splits at sentence ends into pieces of at most maxTokens; a single sentence over
      the limit is one piece. */
  method SplitOversizedBlock(count: string -> nat, block: AnchoredBlock, maxTokens: int) returns (subs: seq<AnchoredBlock>)
    requires block.text != "" && Trimmed(block.text)
    ensures Split(count, maxTokens, block, subs, |block.text|)
    ensures subs != []
  {
    hide Split, IsPiece, Boundary, SentenceSum, SentenceEnd, Trimmed, AreSentences;
    var s := block.text;
    var sentences := FindSentences(s);
    subs := [];
    var curStart: Option<nat> := None;
    var curEnd, curTokens: nat := 0, 0;
    ghost var done := 0;
    assert Split(count, maxTokens, block, [], 0) by { NothingSplit(count, maxTokens, block); }
    var i := 0;
    while i < |sentences|
      invariant 0 <= i <= |sentences|
      invariant curStart.None? <==> i == 0
      invariant Building(count, maxTokens, s, curStart, done, curEnd, curTokens)
      invariant curEnd == EndOf(sentences, i)
      invariant Split(count, maxTokens, block, subs, done)
    {
      SentenceAt(s, sentences, i);
      var from, to := sentences[i].from, sentences[i].to;
      var t := count(s[from..to]);
      if curStart.Some? && curTokens + t > maxTokens {
        assert IsPiece(count, maxTokens, s, curStart.value, curEnd) by { Full(count, maxTokens, s, curStart.value, curEnd, curTokens); }
        AddPiece(count, maxTokens, block, subs, curStart.value, curEnd);
        subs := subs + [Piece(block, curStart.value, curEnd)];
        done := curEnd;
        curStart := None;
        curTokens := 0;
      }
      if curStart.None? {
        Single(count, s, from);
        curStart := Some(from);
      } else {
        SumOfOneMore(count, s, curStart.value, from);
      }
      curEnd := to;
      curTokens := curTokens + t;
      i := i + 1;
    }
    AllSentences(s, sentences);
    if curStart.Some? {
      assert IsPiece(count, maxTokens, s, curStart.value, curEnd) by { Full(count, maxTokens, s, curStart.value, curEnd, curTokens); }
      AddPiece(count, maxTokens, block, subs, curStart.value, curEnd);
      subs := subs + [Piece(block, curStart.value, curEnd)];
    }
  }

  lemma SentenceAt(s: string, spans: seq<Span>, i: nat)
    requires AreSentences(s, spans, |s|) && i < |spans|
    ensures spans[i].from == EndOf(spans, i) < |s| && spans[i].to == SentenceEnd(s, spans[i].from)
    ensures Boundary(s, spans[i].from) && Boundary(s, spans[i].to)
  {
    hide SentenceEnd, Boundary;
    assert IsSentence(s, spans[i]);
    SentenceEndIsNext(s, spans[i].from);
  }

  lemma AllSentences(s: string, spans: seq<Span>)
    requires s != "" && AreSentences(s, spans, |s|)
    ensures spans != [] && EndOf(spans, |spans|) == |s|
  {
  }

  lemma NothingSplit(count: string -> nat, maxTokens: int, block: AnchoredBlock)
    ensures Split(count, maxTokens, block, [], 0)
  {
  }

  lemma Single(count: string -> nat, s: string, from: nat)
    requires from < |s|
    ensures SentenceSum(count, s, from, SentenceEnd(s, from)) == count(s[from..SentenceEnd(s, from)])
  {
  }

  lemma Full(count: string -> nat, maxTokens: int, s: string, from: nat, to: nat, tokens: nat)
    requires Building(count, maxTokens, s, Some(from), from, to, tokens)
    requires to < |s| ==> tokens + count(s[to..SentenceEnd(s, to)]) > maxTokens
    ensures IsPiece(count, maxTokens, s, from, to)
  {
    hide SentenceEnd, Boundary, SentenceSum;
  }

  /** No boundary cuts a word: before it there is white space. */
  lemma BoundaryCutsNoWord(s: string, e: nat)
    requires Boundary(s, e) && 0 < e < |s|
    ensures IsSpace(s[e - 1]) && !IsSpace(s[e])
  {
    hide IsSpace;
    var q: nat :| GapAfter(s, q, e);
  }
}
