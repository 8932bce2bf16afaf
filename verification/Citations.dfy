/** Reading citation markers out of an answer and mapping them back to the sources. */
module Citations {
  import opened Common
  import opened Text
  import opened PromptFence
  import opened PromptAssembly

  datatype Citation = Citation(
    marker: nat, documentId: string, title: string, page: Option<int>, section: Option<string>,
    charStart: Option<int>, charEnd: Option<int>, snippet: string)

  const SNIPPET_MAX := 300

  // ----- Markers -----

  /** Some digits between square brackets at [i, j]. */
  predicate Bracketed(s: string, i: nat, j: nat) {
    i + 1 < j < |s| && s[i] == '[' && s[j] == ']' && AllDigits(s[i + 1..j])
  }

  /** The answer cites source m. */
  ghost predicate Cites(answer: string, m: nat) {
    exists i: nat, j: nat :: Bracketed(answer, i, j) && NumberOf(answer[i + 1..j]) == m
  }

  function DigitsEnd(s: string, i: nat): (n: nat)
    requires i <= |s|
    ensures i <= n <= |s| && (forall k :: i <= k < n ==> IsDigit(s[k])) && (n < |s| ==> !IsDigit(s[n]))
    decreases |s| - i
  {
    if i == |s| || !IsDigit(s[i]) then i else DigitsEnd(s, i + 1)
  }

  predicate MarkerAt(s: string, i: nat) {
    && i < |s| && s[i] == '['
    && DigitsEnd(s, i + 1) > i + 1
    && DigitsEnd(s, i + 1) < |s| && s[DigitsEnd(s, i + 1)] == ']'
  }

  /** The start of the leftmost match of /\[(\d+)\]/ at or after `from`. */
  function NextMatch(s: string, from: nat): (at: Option<nat>)
    requires from <= |s|
    ensures at.Some? ==> from <= at.value && MarkerAt(s, at.value) && forall i :: from <= i < at.value ==> !MarkerAt(s, i)
    ensures at.None? ==> forall i :: from <= i < |s| ==> !MarkerAt(s, i)
    decreases |s| - from
  {
    if from == |s| then None else if MarkerAt(s, from) then Some(from) else NextMatch(s, from + 1)
  }

  lemma {:induction false} DigitsEndIs(s: string, i: nat, n: nat)
    requires i <= n < |s| && (forall k :: i <= k < n ==> IsDigit(s[k])) && !IsDigit(s[n])
    ensures DigitsEnd(s, i) == n
    decreases n - i
  {
    if i < n { DigitsEndIs(s, i + 1, n); }
  }

  /** The expression matches at i exactly where a bracketed number starts. */
  lemma MatchIsBracketed(s: string, i: nat, j: nat)
    ensures i < |s| ==> (Bracketed(s, i, j) <==> MarkerAt(s, i) && j == DigitsEnd(s, i + 1))
  {
    if Bracketed(s, i, j) {
      forall k | i + 1 <= k < j ensures IsDigit(s[k]) {
        assert s[k] == s[i + 1..j][k - (i + 1)];
      }
      DigitsEndIs(s, i + 1, j);
    }
  }

  /** The markers of the matches that start before `end`. */
  ghost predicate MarkersBefore(answer: string, markers: set<nat>, end: nat) {
    forall m: nat :: m in markers <==> exists i: nat, j: nat :: i < end && Bracketed(answer, i, j) && NumberOf(answer[i + 1..j]) == m
  }

  lemma OneMarker(answer: string, markers: set<nat>, last: nat, i: nat, j: nat)
    requires MarkersBefore(answer, markers, last) && last <= i && Bracketed(answer, i, j)
    requires forall k :: last <= k < i ==> !MarkerAt(answer, k)
    ensures MarkersBefore(answer, markers + {NumberOf(answer[i + 1..j])}, j + 1)
  {
    var value := NumberOf(answer[i + 1..j]);
    MatchIsBracketed(answer, i, j);
    InsideBrackets(answer, i, j);
    forall k: nat, l: nat | k < j + 1 && Bracketed(answer, k, l) ensures k < last || (k == i && l == j) {
      MatchIsBracketed(answer, k, l);
    }
    assert i < j + 1 && Bracketed(answer, i, j) && NumberOf(answer[i + 1..j]) == value;
    hide NumberOf;
    hide MarkerAt;
    forall m: nat | m in markers
      ensures exists k: nat, l: nat :: k < j + 1 && Bracketed(answer, k, l) && NumberOf(answer[k + 1..l]) == m
    {
      var k: nat, l: nat :| k < last && Bracketed(answer, k, l) && NumberOf(answer[k + 1..l]) == m;
      assert k < j + 1;
    }
  }

  lemma InsideBrackets(s: string, i: nat, j: nat)
    requires Bracketed(s, i, j)
    ensures forall k :: i < k <= j ==> s[k] != '['
  {
    forall k | i < k < j ensures s[k] != '[' {
      assert IsDigit(s[i + 1..j][k - (i + 1)]);
    }
  }

  lemma NoMoreMarkers(answer: string, markers: set<nat>, last: nat)
    requires MarkersBefore(answer, markers, last) && forall k :: last <= k < |answer| ==> !MarkerAt(answer, k)
    ensures forall m: nat :: m in markers <==> Cites(answer, m)
  {
    hide MarkerAt;
    forall i: nat, j: nat | Bracketed(answer, i, j) ensures i < last {
      MatchIsBracketed(answer, i, j);
    }
  }

  /** The distinct source numbers the answer cites. */
  method CitedMarkers(answer: string) returns (markers: set<nat>)
    ensures forall m: nat :: m in markers <==> Cites(answer, m)
  {
    hide MarkerAt, MarkersBefore;
    markers := {};
    assert MarkersBefore(answer, {}, 0) by { NoMarkersYet(answer); }
    var last := 0;
    var at := NextMatch(answer, last);
    while at.Some?
      invariant last <= |answer| && at == NextMatch(answer, last)
      invariant MarkersBefore(answer, markers, last)
      decreases |answer| - last
    {
      MatchEnds(answer, at.value);
      var end := DigitsEnd(answer, at.value + 1);
      MatchIsBracketed(answer, at.value, end);
      OneMarker(answer, markers, last, at.value, end);
      markers := markers + {NumberOf(answer[at.value + 1..end])};
      last := end + 1;
      at := NextMatch(answer, last);
    }
    NoMoreMarkers(answer, markers, last);
  }

  lemma NoMarkersYet(answer: string)
    ensures MarkersBefore(answer, {}, 0)
  {
  }

  lemma MatchEnds(s: string, i: nat)
    requires MarkerAt(s, i)
    ensures i + 1 < DigitsEnd(s, i + 1) < |s|
  {
  }

  // ----- Citations -----

  function CitationOf(s: AssembledSource): Citation {
    Citation(s.marker, s.documentId, s.title, s.page, s.section, s.charStart, s.charEnd,
             if |s.content| <= SNIPPET_MAX then s.content else s.content[..SNIPPET_MAX])
  }

  /** The citations of the sources whose marker the answer cites, in the order of the sources. */
  ghost function CitationsOf(answer: string, sources: seq<AssembledSource>): seq<Citation> {
    if sources == [] then []
    else (if Cites(answer, sources[0].marker) then [CitationOf(sources[0])] else []) + CitationsOf(answer, sources[1..])
  }

  function Selected(markers: set<nat>, sources: seq<AssembledSource>): seq<Citation> {
    if sources == [] then []
    else (if sources[0].marker in markers then [CitationOf(sources[0])] else []) + Selected(markers, sources[1..])
  }

  lemma {:induction false} SelectedAreCited(answer: string, markers: set<nat>, sources: seq<AssembledSource>)
    requires forall m: nat :: m in markers <==> Cites(answer, m)
    ensures Selected(markers, sources) == CitationsOf(answer, sources)
    decreases sources
  {
    hide Cites;
    if sources != [] { SelectedAreCited(answer, markers, sources[1..]); }
  }

  /** Only what the answer cites, and only what was a source. */
  method BuildCitations(answer: string, sources: seq<AssembledSource>) returns (citations: seq<Citation>)
    ensures citations == CitationsOf(answer, sources)
  {
    hide Cites;
    var cited := CitedMarkers(answer);
    SelectedAreCited(answer, cited, sources);
    citations := Selected(cited, sources);
  }

  /** Markers count up from `first`. */
  ghost predicate Numbered(sources: seq<AssembledSource>, first: nat) {
    forall i :: 0 <= i < |sources| ==> sources[i].marker == first + i
  }

  /** The citation names the source's document and place, and its snippet is the first
      300 characters of the source's content, or all of it. */
  ghost predicate Describes(c: Citation, s: AssembledSource) {
    && c.marker == s.marker && c.documentId == s.documentId && c.title == s.title
    && c.page == s.page && c.section == s.section && c.charStart == s.charStart && c.charEnd == s.charEnd
    && c.snippet <= s.content && (|c.snippet| == 300 || (|c.snippet| < 300 && c.snippet == s.content))
  }

  /** A citation of one of the sources, which the answer cites. */
  ghost predicate Backed(answer: string, sources: seq<AssembledSource>, first: nat, c: Citation) {
    && first <= c.marker < first + |sources|
    && Cites(answer, c.marker) && Describes(c, sources[c.marker - first])
  }

  /** Some citation in the list is of source s. */
  ghost predicate IsCited(citations: seq<Citation>, s: AssembledSource) {
    exists k :: 0 <= k < |citations| && Describes(citations[k], s)
  }

  lemma CitationsSplit(answer: string, sources: seq<AssembledSource>)
    requires sources != []
    ensures CitationsOf(answer, sources)
            == (if Cites(answer, sources[0].marker) then [CitationOf(sources[0])] else []) + CitationsOf(answer, sources[1..])
  {
  }

  lemma {:induction false} CitationsAreBacked(answer: string, sources: seq<AssembledSource>, first: nat)
    requires Numbered(sources, first)
    ensures forall k :: 0 <= k < |CitationsOf(answer, sources)| ==> Backed(answer, sources, first, CitationsOf(answer, sources)[k])
    decreases sources
  {
    if sources != [] {
      CitationsSplit(answer, sources);
      CitationDescribes(sources[0]);
      hide Cites, CitationsOf, Describes, CitationOf;
      var rest, all := CitationsOf(answer, sources[1..]), CitationsOf(answer, sources);
      var own := if Cites(answer, sources[0].marker) then [CitationOf(sources[0])] else [];
      CitationsAreBacked(answer, sources[1..], first + 1);
      assert own != [] ==> own[0].marker == sources[0].marker by { CitationMarker(sources[0]); }
      forall k | 0 <= k < |all| ensures Backed(answer, sources, first, all[k]) {
        if k >= |own| { BackedByMore(answer, sources, first, rest[k - |own|]); }
      }
    }
  }

  lemma CitationMarker(s: AssembledSource)
    ensures CitationOf(s).marker == s.marker
  {
  }

  lemma {:induction false} CitationsAscend(answer: string, sources: seq<AssembledSource>, first: nat)
    requires Numbered(sources, first)
    ensures forall j, k :: 0 <= j < k < |CitationsOf(answer, sources)| ==>
                             CitationsOf(answer, sources)[j].marker < CitationsOf(answer, sources)[k].marker
    decreases sources
  {
    if sources != [] {
      CitationsSplit(answer, sources);
      hide Cites, CitationsOf;
      var rest, all := CitationsOf(answer, sources[1..]), CitationsOf(answer, sources);
      var own := if Cites(answer, sources[0].marker) then [CitationOf(sources[0])] else [];
      CitationsAscend(answer, sources[1..], first + 1);
      CitationsAreBacked(answer, sources[1..], first + 1);
      forall j, k | 0 <= j < k < |all| ensures all[j].marker < all[k].marker {
        assert Backed(answer, sources[1..], first + 1, rest[k - |own|]);
      }
    }
  }

  lemma {:induction false} CitedSourcesAppear(answer: string, sources: seq<AssembledSource>, first: nat, i: nat)
    requires Numbered(sources, first) && i < |sources| && Cites(answer, first + i)
    ensures IsCited(CitationsOf(answer, sources), sources[i])
    decreases sources
  {
    CitationsSplit(answer, sources);
    hide Cites, CitationsOf, Describes;
    var own := if Cites(answer, sources[0].marker) then [CitationOf(sources[0])] else [];
    var rest := CitationsOf(answer, sources[1..]);
    if i > 0 {
      CitedSourcesAppear(answer, sources[1..], first + 1, i - 1);
      var k :| 0 <= k < |rest| && Describes(rest[k], sources[1..][i - 1]);
      assert (own + rest)[|own| + k] == rest[k];
    } else {
      CitationDescribes(sources[0]);
      assert (own + rest)[0] == CitationOf(sources[0]);
    }
  }

  lemma CitationDescribes(s: AssembledSource)
    ensures Describes(CitationOf(s), s)
  {
  }

  /** Exactly the cited sources come out, once each and in ascending order; a number
      without a source yields nothing. */
  lemma CitationsAreExact(answer: string, sources: seq<AssembledSource>, first: nat)
    requires Numbered(sources, first)
    ensures forall k :: 0 <= k < |CitationsOf(answer, sources)| ==> Backed(answer, sources, first, CitationsOf(answer, sources)[k])
    ensures forall j, k :: 0 <= j < k < |CitationsOf(answer, sources)| ==>
                             CitationsOf(answer, sources)[j].marker < CitationsOf(answer, sources)[k].marker
    ensures forall i :: 0 <= i < |sources| && Cites(answer, first + i) ==> IsCited(CitationsOf(answer, sources), sources[i])
  {
    hide Cites, CitationsOf, Numbered, Backed, IsCited;
    CitationsAreBacked(answer, sources, first);
    CitationsAscend(answer, sources, first);
    forall i | 0 <= i < |sources| && Cites(answer, first + i) ensures IsCited(CitationsOf(answer, sources), sources[i]) {
      CitedSourcesAppear(answer, sources, first, i);
    }
  }

  lemma BackedByMore(answer: string, sources: seq<AssembledSource>, first: nat, c: Citation)
    requires sources != [] && Backed(answer, sources[1..], first + 1, c)
    ensures Backed(answer, sources, first, c)
  {
    hide Cites, Describes;
    assert sources[1..][c.marker - (first + 1)] == sources[c.marker - first];
  }

  // ----- What a header prints is what an answer cites -----

  lemma MiddleOf(a: string, b: string, c: string)
    ensures (a + b + c)[|a|..|a| + |b|] == b
  {
  }

  /** An answer that repeats the number of a header in brackets cites that source. */
  lemma MarkerRoundTrip(before: string, m: nat, after: string)
    ensures Cites(before + "[" + Decimal(m) + "]" + after, m)
  {
    hide Decimal;
    var d := Decimal(m);
    DecimalDigits(m);
    var answer := before + "[" + d + "]" + after;
    var i, j := |before|, |before| + 1 + |d|;
    MiddleOf(before + "[", d, "]" + after);
    assert answer == before + "[" + d + ("]" + after);
    assert answer[i] == '[' && answer[j] == ']';
    assert Bracketed(answer, i, j);
  }

  lemma OutsideBrackets(answer: string, i: nat, j: nat)
    requires Bracketed(answer, i, j)
    ensures answer == answer[..i] + "[" + answer[i + 1..j] + "]" + answer[j + 1..]
  {
  }

  /** An answer cites m exactly where it holds the decimal numeral of m in square
      brackets, with any zeros in front of the numeral. */
  lemma CitesIffBracketed(answer: string, m: nat)
    ensures Cites(answer, m)
            <==> exists before: string, zeros: string, after: string ::
                   OnlyZeros(zeros) && answer == before + ("[" + zeros + Decimal(m) + "]") + after
  {
    hide Decimal, NumberOf;
    if Cites(answer, m) {
      var i: nat, j: nat :| Bracketed(answer, i, j) && NumberOf(answer[i + 1..j]) == m;
      OutsideBrackets(answer, i, j);
      var zeros := DigitsAreDecimal(answer[i + 1..j]);
      assert answer == answer[..i] + ("[" + zeros + Decimal(m) + "]") + answer[j + 1..];
    }
    if before: string, zeros: string, after: string :|
      OnlyZeros(zeros) && answer == before + ("[" + zeros + Decimal(m) + "]") + after
    {
      PaddedIsCited(before, zeros, m, after);
    }
  }

  lemma PaddedIsCited(before: string, zeros: string, m: nat, after: string)
    requires OnlyZeros(zeros)
    ensures Cites(before + ("[" + zeros + Decimal(m) + "]") + after, m)
  {
    hide Decimal, NumberOf;
    var d := zeros + Decimal(m);
    DecimalDigits(m);
    ZerosInFront(zeros, Decimal(m));
    var answer := before + ("[" + d + "]") + after;
    var i, j := |before|, |before| + 1 + |d|;
    MiddleOf(before + "[", d, "]" + after);
    assert answer == before + "[" + d + ("]" + after);
    assert answer[i + 1..j] == d;
    assert "[" + zeros + Decimal(m) + "]" == "[" + d + "]";
    assert answer[i] == '[' && answer[j] == ']';
    assert Bracketed(answer, i, j);
  }

  lemma {:induction false} ZerosInFront(zeros: string, digits: string)
    requires OnlyZeros(zeros) && AllDigits(digits)
    ensures AllDigits(zeros + digits) && NumberOf(zeros + digits) == NumberOf(digits)
    decreases |digits|
  {
    if digits == "" {
      assert zeros + digits == zeros;
      if zeros != "" { ZerosAreZero(zeros); }
    } else {
      var n := |digits| - 1;
      ZerosInFront(zeros, digits[..n]);
      assert (zeros + digits)[..|zeros + digits| - 1] == zeros + digits[..n];
    }
  }

  lemma {:induction false} ZerosAreZero(zeros: string)
    requires OnlyZeros(zeros)
    ensures AllDigits(zeros) && NumberOf(zeros) == 0
    decreases zeros
  {
    if zeros != "" { ZerosAreZero(zeros[..|zeros| - 1]); }
  }

  /** No square bracket, no citation. */
  lemma NoBracketCitesNothing(answer: string, sources: seq<AssembledSource>)
    requires '[' !in answer
    ensures CitationsOf(answer, sources) == []
  {
    forall m: nat ensures !Cites(answer, m) {
      forall i: nat, j: nat ensures !Bracketed(answer, i, j) {
        if i < |answer| { assert answer[i] in answer; }
      }
    }
    NothingCited(answer, sources);
  }

  lemma {:induction false} NothingCited(answer: string, sources: seq<AssembledSource>)
    requires forall m: nat :: !Cites(answer, m)
    ensures CitationsOf(answer, sources) == []
    decreases sources
  {
    hide Cites;
    if sources != [] { NothingCited(answer, sources[1..]); }
  }
}
