/** The printer of the sources block: header lines and fenced contents, and a reader
    that recovers exactly what was printed. */
module PromptFence {
  import opened Common
  import opened Text

  datatype SourceHeader = SourceHeader(marker: nat, title: string, page: Option<int>, section: Option<string>)

  // ----- Header fields -----

  function SpaceRun(s: string): (n: nat)
    ensures n <= |s| && (n > 0 <==> s != [] && IsSpace(s[0]))
  {
    if s == [] || !IsSpace(s[0]) then 0 else 1 + SpaceRun(s[1..])
  }

  /** Every run of white space becomes one blank. */
  function Squeeze(s: string): (r: string)
    ensures forall i :: 0 <= i < |r| && IsSpace(r[i]) ==> r[i] == ' '
    decreases |s|
  {
    if s == [] then []
    else if IsSpace(s[0]) then " " + Squeeze(s[SpaceRun(s)..])
    else [s[0]] + Squeeze(s[1..])
  }

  function DropQuotes(s: string): (r: string)
    ensures forall c :: c in r <==> c in s && c != '"'
  {
    if s == [] then [] else (if s[0] == '"' then [] else [s[0]]) + DropQuotes(s[1..])
  }

  function HeaderField(value: string): string {
    Trim(DropQuotes(Squeeze(value)))
  }

  lemma {:induction false} TrimKeepsOnly(s: string, c: char)
    requires c in Trim(s)
    ensures c in s
  {
    TrimEndEnds(TrimStart(s));
    TrimStartIsSuffix(s);
  }

  lemma {:induction false} TrimStartIsSuffix(s: string)
    ensures forall c :: c in TrimStart(s) ==> c in s
    decreases s
  {
    hide IsSpace;
    if s != [] && IsSpace(s[0]) { TrimStartIsSuffix(s[1..]); }
  }

  /** A field holds no quote and no line end, whatever the title or section was. */
  lemma FieldIsSafe(value: string)
    ensures forall c :: c in HeaderField(value) ==> c != '"' && (IsSpace(c) ==> c == ' ')
    ensures '\n' !in HeaderField(value) && '"' !in HeaderField(value)
  {
    assert IsSpace('\n');
    hide Trim, IsSpace;
    forall c | c in HeaderField(value) ensures c != '"' && (IsSpace(c) ==> c == ' ') {
      TrimKeepsOnly(DropQuotes(Squeeze(value)), c);
      assert c in Squeeze(value);
    }
  }

  /** The characters that are neither white space nor quotes. */
  function Ink(s: string): string {
    if s == [] then [] else (if IsSpace(s[0]) || s[0] == '"' then [] else [s[0]]) + Ink(s[1..])
  }

  lemma {:induction false} InkOfConcat(a: string, b: string)
    ensures Ink(a + b) == Ink(a) + Ink(b)
    decreases a
  {
    hide IsSpace;
    if a == [] {
      assert a + b == b;
    } else {
      assert (a + b)[1..] == a[1..] + b;
      InkOfConcat(a[1..], b);
    }
  }

  lemma {:induction false} InkOfSpaces(s: string, n: nat)
    requires n <= SpaceRun(s)
    ensures Ink(s[n..]) == Ink(s)
    decreases s
  {
    hide IsSpace;
    if n > 0 {
      InkOfSpaces(s[1..], n - 1);
      assert s[1..][n - 1..] == s[n..];
    }
  }

  lemma {:induction false} InkOfSqueeze(s: string)
    ensures Ink(Squeeze(s)) == Ink(s)
    decreases |s|
  {
    if s != [] {
      assert IsSpace(' ');
      hide IsSpace;
      var step := if IsSpace(s[0]) then SpaceRun(s) else 1;
      InkOfSqueeze(s[step..]);
      if IsSpace(s[0]) { InkOfSpaces(s, step); }
      assert Squeeze(s)[1..] == Squeeze(s[step..]);
    }
  }

  lemma {:induction false} InkOfDropQuotes(s: string)
    ensures Ink(DropQuotes(s)) == Ink(s)
    decreases s
  {
    hide IsSpace;
    if s != [] {
      InkOfDropQuotes(s[1..]);
      if s[0] == '"' {
        assert DropQuotes(s) == DropQuotes(s[1..]);
      } else {
        assert DropQuotes(s)[1..] == DropQuotes(s[1..]);
      }
    }
  }

  lemma {:induction false} InkOfTrimStart(s: string)
    ensures Ink(TrimStart(s)) == Ink(s)
    decreases s
  {
    hide IsSpace;
    if s != [] && IsSpace(s[0]) { InkOfTrimStart(s[1..]); }
  }

  lemma {:induction false} InkOfTrimEnd(s: string)
    ensures Ink(TrimEnd(s)) == Ink(s)
    decreases s
  {
    hide IsSpace;
    if s != [] && IsSpace(s[|s| - 1]) {
      var n := |s| - 1;
      InkOfTrimEnd(s[..n]);
      InkOfConcat(s[..n], [s[n]]);
      assert s == s[..n] + [s[n]];
      assert Ink([s[n]]) == Ink([s[n]][1..]);
    }
  }

  /** A field loses nothing but white space and quotes. */
  lemma FieldKeepsInk(value: string)
    ensures Ink(HeaderField(value)) == Ink(value)
  {
    hide Ink, Squeeze, DropQuotes;
    InkOfSqueeze(value);
    InkOfDropQuotes(Squeeze(value));
    var s := DropQuotes(Squeeze(value));
    InkOfTrimStart(s);
    InkOfTrimEnd(TrimStart(s));
  }

  /** The words without their quotes; a word of quotes only goes. */
  function Unquoted(words: seq<string>): seq<string> {
    if words == [] then []
    else (if DropQuotes(words[0]) == "" then [] else [DropQuotes(words[0])]) + Unquoted(words[1..])
  }

  lemma {:induction false} UnquotedOfConcat(a: seq<string>, b: seq<string>)
    ensures Unquoted(a + b) == Unquoted(a) + Unquoted(b)
    decreases a
  {
    if a == [] {
      assert a + b == b;
    } else {
      assert (a + b)[1..] == a[1..] + b;
      UnquotedOfConcat(a[1..], b);
    }
  }

  lemma {:induction false} SpaceRunIsSpace(s: string)
    ensures AllSpace(s[..SpaceRun(s)])
    decreases s
  {
    hide IsSpace;
    if SpaceRun(s) > 0 {
      SpaceRunIsSpace(s[1..]);
      assert s[..SpaceRun(s)] == [s[0]] + s[1..][..SpaceRun(s[1..])];
    }
  }

  lemma {:induction false} SqueezeKeepsWord(s: string, n: nat)
    requires n <= |s| && forall i :: 0 <= i < n ==> !IsSpace(s[i])
    ensures Squeeze(s) == s[..n] + Squeeze(s[n..])
    decreases n
  {
    hide IsSpace;
    if n > 0 {
      SqueezeKeepsWord(s[1..], n - 1);
      assert s[1..][n - 1..] == s[n..];
      assert s[..n] == [s[0]] + s[1..][..n - 1];
    } else {
      assert s[0..] == s;
    }
  }

  lemma {:induction false} SqueezeStarts(s: string)
    ensures Squeeze(s) != "" <==> s != ""
    ensures s != "" ==> (IsSpace(Squeeze(s)[0]) <==> IsSpace(s[0]))
  {
    assert IsSpace(' ');
    hide IsSpace;
  }

  lemma {:induction false} WordsOfSqueeze(s: string)
    ensures Words(Squeeze(s)) == Words(s)
    decreases |s|
  {
    if s != [] {
      assert IsSpace(' ');
      if IsSpace(s[0]) {
        var n := SpaceRun(s);
        SpaceRunIsSpace(s);
        hide IsSpace, Words, SpaceRun;
        WordsOfSqueeze(s[n..]);
        assert s == s[..n] + s[n..];
        SpaceInFront(s[..n], s[n..]);
        SpaceInFront(" ", Squeeze(s[n..]));
      } else {
        hide IsSpace, Words;
        var n := WordEnd(s);
        WordsOfSqueeze(s[n..]);
        SqueezeKeepsWord(s, n);
        SqueezeStarts(s[n..]);
        assert s == s[..n] + s[n..];
        WordsOfConcat(s[..n], s[n..]);
        WordsOfConcat(s[..n], Squeeze(s[n..]));
      }
    }
  }

  lemma SpaceInFront(gap: string, s: string)
    requires AllSpace(gap)
    ensures Words(gap + s) == Words(s)
  {
    hide IsSpace, Words;
    WordsOfSpace(gap);
    WordsOfConcat(gap, s);
  }

  lemma {:induction false} DropQuotesOfConcat(a: string, b: string)
    ensures DropQuotes(a + b) == DropQuotes(a) + DropQuotes(b)
    decreases a
  {
    if a == [] {
      assert a + b == b;
    } else {
      assert (a + b)[1..] == a[1..] + b;
      DropQuotesOfConcat(a[1..], b);
    }
  }

  lemma SpaceThenDrop(s: string)
    requires s != "" && IsSpace(s[0])
    ensures Words(s) == Words(s[1..]) && Words(DropQuotes(s)) == Words(DropQuotes(s[1..]))
  {
    assert !IsSpace('"');
    hide IsSpace, Words;
    assert s == [s[0]] + s[1..] && DropQuotes(s) == [s[0]] + DropQuotes(s[1..]);
    SpaceInFront([s[0]], s[1..]);
    SpaceInFront([s[0]], DropQuotes(s[1..]));
  }

  lemma WordThenDrop(s: string, n: nat)
    requires s != "" && !IsSpace(s[0]) && n == WordEnd(s)
    ensures n > 0 && Words(s) == [s[..n]] + Words(s[n..])
    ensures Words(DropQuotes(s)) == Words(DropQuotes(s[..n])) + Words(DropQuotes(s[n..]))
  {
    assert !IsSpace('"');
    assert n > 0;
    hide IsSpace, Words, DropQuotes, WordEnd;
    FirstWord(s, n);
    assert s == s[..n] + s[n..];
    DropQuotesOfConcat(s[..n], s[n..]);
    DropQuotesStarts(s[n..]);
    WordsOfConcat(DropQuotes(s[..n]), DropQuotes(s[n..]));
  }

  lemma {:induction false} WordsOfDropQuotes(s: string)
    ensures Words(DropQuotes(s)) == Unquoted(Words(s))
    decreases |s|
  {
    if s == "" {
      assert Words("") == [] && DropQuotes("") == "";
    } else {
      hide IsSpace, Words, DropQuotes, WordEnd, Unquoted;
      if IsSpace(s[0]) {
        SpaceThenDrop(s);
        WordsOfDropQuotes(s[1..]);
      } else {
        var n := WordEnd(s);
        WordThenDrop(s, n);
        WordsOfDropQuotes(s[n..]);
        UnquotedWord(s[..n]);
        UnquotedOfConcat([s[..n]], Words(s[n..]));
      }
    }
  }

  lemma DropQuotesStarts(s: string)
    requires s != "" ==> s[0] != '"'
    ensures s != "" ==> DropQuotes(s) != "" && DropQuotes(s)[0] == s[0]
    ensures s == "" ==> DropQuotes(s) == ""
  {
  }

  lemma UnquotedWord(word: string)
    requires word != "" && forall i :: 0 <= i < |word| ==> !IsSpace(word[i])
    ensures Words(DropQuotes(word)) == Unquoted([word])
  {
    hide IsSpace;
    assert [word][1..] == [];
    var rest := DropQuotes(word);
    forall i | 0 <= i < |rest| ensures !IsSpace(rest[i]) {
      assert rest[i] in rest;
    }
    hide DropQuotes;
    if rest != "" { WordsOfWord(rest); }
  }

  /** The words of a title or section stay words: each loses its quotes and nothing else. */
  lemma FieldKeepsWords(value: string)
    ensures Words(HeaderField(value)) == Unquoted(Words(value)) && Trimmed(HeaderField(value))
  {
    hide Words, Squeeze, DropQuotes, Unquoted, Trim, Trimmed;
    WordsOfSqueeze(value);
    WordsOfDropQuotes(Squeeze(value));
    WordsOfTrim(DropQuotes(Squeeze(value)));
    TrimTrims(DropQuotes(Squeeze(value)));
  }

  // ----- Numbers -----

  function DigitValue(c: char): nat
    requires IsDigit(c)
  {
    (c - '0') as nat
  }

  predicate AllDigits(s: string) {
    forall i :: 0 <= i < |s| ==> IsDigit(s[i])
  }

  function NumberOf(s: string): nat
    requires AllDigits(s)
  {
    if s == [] then 0 else 10 * NumberOf(s[..|s| - 1]) + DigitValue(s[|s| - 1])
  }

  lemma DigitReads(d: nat)
    requires d < 10
    ensures IsDigit('0' + d as char) && DigitValue('0' + d as char) == d
  {
  }

  predicate IsNumeral(s: string) {
    s != [] && forall i :: 0 <= i < |s| ==> IsDigit(s[i]) || s[i] == '-'
  }

  function Decimal(n: nat): (s: string)
    ensures IsNumeral(s)
  {
    var digit := ['0' + (n % 10) as char];
    if n < 10 then digit else Decimal(n / 10) + digit
  }

  function DecimalInt(n: int): (s: string)
    ensures IsNumeral(s)
  {
    if n < 0 then "-" + Decimal(-n) else Decimal(n)
  }

  lemma {:induction false} DecimalDigits(n: nat)
    ensures AllDigits(Decimal(n)) && NumberOf(Decimal(n)) == n
    decreases n
  {
    var digit := '0' + (n % 10) as char;
    DigitReads(n % 10);
    if n < 10 {
      assert Decimal(n) == [digit] && [digit][..0] == [];
    } else {
      DecimalDigits(n / 10);
      assert Decimal(n)[..|Decimal(n)| - 1] == Decimal(n / 10);
    }
  }

  predicate OnlyZeros(s: string) {
    forall i :: 0 <= i < |s| ==> s[i] == '0'
  }

  /** A decimal numeral has no zero in front unless it is zero. */
  lemma {:induction false} NoZeroInFront(n: nat)
    ensures n > 0 ==> Decimal(n)[0] != '0'
    decreases n
  {
    if n >= 10 { NoZeroInFront(n / 10); }
  }

  /** Digits are the decimal numeral of their number, zeros in front. */
  lemma {:induction false} DigitsAreDecimal(s: string) returns (zeros: string)
    requires s != "" && AllDigits(s)
    ensures OnlyZeros(zeros) && s == zeros + Decimal(NumberOf(s))
    decreases s
  {
    var most, c := s[..|s| - 1], s[|s| - 1];
    var d := DigitValue(c);
    assert ['0' + d as char] == [c];
    assert s == most + [c];
    if most == "" {
      zeros := "";
      assert NumberOf(s) == d;
    } else {
      var z := DigitsAreDecimal(most);
      var n := NumberOf(most);
      assert NumberOf(s) == 10 * n + d && (10 * n + d) / 10 == n && (10 * n + d) % 10 == d;
      if n == 0 {
        zeros := most;
        assert Decimal(0) == "0";
        assert most == z + "0";
      } else {
        zeros := z;
        assert s == z + (Decimal(n) + [c]);
      }
    }
  }

  /** The numeral of an integer: digits, behind a minus sign if it is negative. */
  predicate Denotes(s: string, n: int) {
    if n < 0 then s != "" && s[0] == '-' && s[1..] != "" && AllDigits(s[1..]) && NumberOf(s[1..]) == -n
    else s != "" && AllDigits(s) && NumberOf(s) == n
  }

  lemma DecimalDenotes(n: int)
    ensures Denotes(DecimalInt(n), n)
  {
    DecimalDigits(if n < 0 then -n else n);
    hide Decimal, NumberOf, AllDigits, IsNumeral;
    if n < 0 { assert ("-" + Decimal(-n))[1..] == Decimal(-n); }
  }

  // ----- The header line -----

  const DASH := " \U{2014} "
  const SECTION := "section \""
  const PAGE := "page "

  /** What a header line shows of a source. */
  datatype HeaderView = HeaderView(marker: string, title: string, page: Option<string>, section: Option<string>)

  function View(h: SourceHeader): HeaderView {
    HeaderView(Decimal(h.marker), HeaderField(h.title),
               if h.page.Some? then Some(DecimalInt(h.page.value)) else None,
               if h.section.Some? && h.section.value != "" then Some(HeaderField(h.section.value)) else None)
  }

  function Quoted(section: string): string {
    SECTION + section + ['"']
  }

  function Loc(page: Option<string>, section: Option<string>): string {
    match (page, section)
    case (None, None) => ""
    case (Some(p), None) => PAGE + p
    case (None, Some(s)) => Quoted(s)
    case (Some(p), Some(s)) => PAGE + p + ", " + Quoted(s)
  }

  function Show(v: HeaderView): string {
    var loc := Loc(v.page, v.section);
    "[" + v.marker + "] \"" + v.title + ['"'] + if loc != "" then DASH + loc else ""
  }

  function HeaderLine(h: SourceHeader): string {
    Show(View(h))
  }

  /** Numbers are numerals, and fields hold no quote and no line end. */
  ghost predicate Safe(v: HeaderView) {
    && IsNumeral(v.marker) && SafeField(v.title)
    && (v.page.Some? ==> IsNumeral(v.page.value))
    && (v.section.Some? ==> SafeField(v.section.value))
  }

  predicate SafeField(s: string) {
    '"' !in s && '\n' !in s
  }

  lemma ViewIsSafe(h: SourceHeader)
    ensures Safe(View(h))
  {
    hide HeaderField;
    FieldIsSafe(h.title);
    if h.section.Some? { FieldIsSafe(h.section.value); }
  }

  function Drop(s: string, n: nat): string {
    if n <= |s| then s[n..] else ""
  }

  function UpTo(s: string, c: char): string {
    s[..IndexOf(s, c)]
  }

  /** The section of a location that starts with one. */
  function ReadSection(loc: string): Option<string> {
    if SECTION <= loc then Some(UpTo(Drop(loc, |SECTION|), '"')) else None
  }

  function ReadPage(loc: string): Option<string> {
    if PAGE <= loc then Some(UpTo(Drop(loc, |PAGE|), ',')) else None
  }

  /** Reads a field up to the next delimiter, each in turn. */
  function ReadHeader(line: string): HeaderView {
    var marker := UpTo(Drop(line, 1), ']');
    var afterMarker := Drop(line, |marker| + 4);
    var title := UpTo(afterMarker, '"');
    var loc := Drop(afterMarker, |title| + 1 + |DASH|);
    var page := ReadPage(loc);
    HeaderView(marker, title, page, ReadSection(if page.Some? then Drop(loc, |PAGE| + |page.value| + 2) else loc))
  }

  lemma UpToFirst(a: string, c: char, b: string)
    requires c !in a
    ensures UpTo(a + [c] + b, c) == a
  {
    IndexOfFirst(a, c, b);
  }

  lemma UpToEnd(a: string, c: char)
    requires c !in a
    ensures UpTo(a, c) == a
  {
    IndexOfNone(a, c);
  }

  lemma DropPrefix(a: string, b: string)
    ensures Drop(a + b, |a|) == b
  {
  }

  lemma SectionRead(section: string)
    requires SafeField(section)
    ensures ReadSection(Quoted(section)) == Some(section) && ReadPage(Quoted(section)) == None
  {
    hide UpTo, Drop;
    var loc := Quoted(section);
    assert loc == SECTION + (section + ['"']);
    assert loc[..|SECTION|] == SECTION && loc[0] == 's';
    DropPrefix(SECTION, section + ['"']);
    UpToFirst(section, '"', "");
    assert section + ['"'] + "" == section + ['"'];
  }

  lemma NothingRead()
    ensures ReadSection("") == None && ReadPage("") == None
  {
  }

  lemma PageRead(page: string, rest: string)
    requires IsNumeral(page) && (rest == "" || rest[0] == ',')
    ensures ReadPage(PAGE + page + rest) == Some(page)
  {
    hide UpTo, Drop;
    NumeralHasNo(page, ',');
    assert PAGE + page + rest == PAGE + (page + rest);
    DropPrefix(PAGE, page + rest);
    if rest == "" {
      assert page + rest == page;
      UpToEnd(page, ',');
    } else {
      assert page + rest == page + [','] + rest[1..];
      UpToFirst(page, ',', rest[1..]);
    }
  }

  lemma LocRead(page: Option<string>, section: Option<string>)
    requires page.Some? ==> IsNumeral(page.value)
    requires section.Some? ==> SafeField(section.value)
    ensures ReadPage(Loc(page, section)) == page
    ensures ReadSection(if page.Some? then Drop(Loc(page, section), |PAGE| + |page.value| + 2) else Loc(page, section)) == section
  {
    hide ReadPage, ReadSection, Quoted, IsNumeral, SafeField;
    NothingRead();
    if section.Some? { SectionRead(section.value); }
    match page
    case None =>
    case Some(p) =>
      var rest := if section.Some? then ", " + Quoted(section.value) else "";
      assert Loc(page, section) == PAGE + p + rest;
      PageRead(p, rest);
      if section.Some? { DropPrefix(PAGE + p + ", ", Quoted(section.value)); }
  }

  lemma NumeralHasNo(s: string, c: char)
    requires IsNumeral(s) && !IsDigit(c) && c != '-'
    ensures c !in s
  {
  }

  /** A shown header reads back field by field. */
  lemma ShownReadsBack(v: HeaderView)
    requires Safe(v)
    ensures ReadHeader(Show(v)) == v
  {
    hide Loc, ReadSection, ReadPage, UpTo, Drop, Show, AfterMarker, IsNumeral, SafeField;
    MarkerRead(v);
    TitleRead(v);
    LocRead(v.page, v.section);
  }

  function AfterMarker(v: HeaderView): string {
    var loc := Loc(v.page, v.section);
    v.title + ['"'] + if loc != "" then DASH + loc else ""
  }

  lemma MarkerRead(v: HeaderView)
    requires IsNumeral(v.marker)
    ensures UpTo(Drop(Show(v), 1), ']') == v.marker
    ensures Drop(Show(v), |v.marker| + 4) == AfterMarker(v)
  {
    hide Loc, UpTo, Drop;
    NumeralHasNo(v.marker, ']');
    hide IsNumeral;
    var rest := " \"" + AfterMarker(v);
    assert Show(v) == "[" + (v.marker + [']'] + rest);
    assert Show(v) == ("[" + v.marker + "] \"") + AfterMarker(v);
    DropPrefix("[", v.marker + [']'] + rest);
    DropPrefix("[" + v.marker + "] \"", AfterMarker(v));
    UpToFirst(v.marker, ']', rest);
  }

  lemma TitleRead(v: HeaderView)
    requires SafeField(v.title)
    ensures UpTo(AfterMarker(v), '"') == v.title
    ensures Drop(AfterMarker(v), |v.title| + 1 + |DASH|) == Loc(v.page, v.section)
  {
    hide Loc, UpTo, Drop;
    var loc := Loc(v.page, v.section);
    var tail := if loc != "" then DASH + loc else "";
    UpToFirst(v.title, '"', tail);
    if loc != "" {
      DropPrefix(v.title + ['"'] + DASH, loc);
      assert v.title + ['"'] + DASH + loc == v.title + ['"'] + (DASH + loc);
    } else {
      DropsAll(v.title + ['"'], |v.title| + 1 + |DASH|);
      assert AfterMarker(v) == v.title + ['"'];
    }
  }

  lemma DropsAll(s: string, n: nat)
    requires n > |s|
    ensures Drop(s, n) == ""
  {
  }

  /** No title or section can break the header: a reader that only looks for the next
      delimiter recovers every field. */
  lemma HeaderReadsBack(h: SourceHeader)
    ensures ReadHeader(HeaderLine(h)) == View(h)
  {
    hide View, Show, ReadHeader;
    ViewIsSafe(h);
    ShownReadsBack(View(h));
  }

  /** What a field shows of a title or section: its words, in order, without quotes, and
      no other characters than blanks between them. */
  ghost predicate FieldOf(field: string, value: string) {
    && Words(field) == Unquoted(Words(value))
    && Ink(field) == Ink(value)
    && Trimmed(field) && (forall c :: c in field ==> c != '"' && (IsSpace(c) ==> c == ' '))
  }

  /** What a header line says of a source. */
  ghost predicate Says(v: HeaderView, h: SourceHeader) {
    && Denotes(v.marker, h.marker) && FieldOf(v.title, h.title)
    && (v.page.Some? <==> h.page.Some?)
    && (h.page.Some? ==> Denotes(v.page.value, h.page.value))
    && (v.section.Some? <==> h.section.Some? && h.section.value != "")
    && (v.section.Some? ==> FieldOf(v.section.value, h.section.value))
  }

  lemma FieldIsOf(value: string)
    ensures FieldOf(HeaderField(value), value)
  {
    hide HeaderField, Words, Ink, Unquoted, IsSpace;
    FieldKeepsWords(value);
    FieldKeepsInk(value);
    FieldIsSafe(value);
  }

  /** The model reads the source's own marker, page, title and section off its header line. */
  lemma HeaderSaysTheSource(h: SourceHeader)
    ensures Says(ReadHeader(HeaderLine(h)), h)
  {
    HeaderReadsBack(h);
    hide ReadHeader, HeaderLine, HeaderField, FieldOf, Denotes, Decimal, DecimalInt;
    assert DecimalInt(h.marker) == Decimal(h.marker) by { MarkerIsDecimal(h.marker); }
    DecimalDenotes(h.marker);
    FieldIsOf(h.title);
    if h.page.Some? { DecimalDenotes(h.page.value); }
    if h.section.Some? { FieldIsOf(h.section.value); }
  }

  lemma MarkerIsDecimal(n: nat)
    ensures DecimalInt(n) == Decimal(n)
  {
  }

  /** The page and the section as they stand behind the title. */
  function Place(page: Option<string>, section: Option<string>): string {
    match (page, section)
    case (None, None) => ""
    case (Some(p), None) => " \U{2014} page " + p
    case (None, Some(s)) => " \U{2014} section \"" + s + "\""
    case (Some(p), Some(s)) => " \U{2014} page " + p + ", section \"" + s + "\""
  }

  lemma LocIsPlace(page: Option<string>, section: Option<string>)
    ensures (if Loc(page, section) != "" then DASH + Loc(page, section) else "") == Place(page, section)
  {
    match (page, section) {
      case (None, None) =>
      case (Some(p), None) => assert DASH + (PAGE + p) == " \U{2014} page " + p;
      case (None, Some(s)) => assert DASH + Quoted(s) == " \U{2014} section \"" + s + "\"";
      case (Some(p), Some(s)) =>
        assert DASH + (PAGE + p + ", " + Quoted(s)) == " \U{2014} page " + p + ", section \"" + s + "\"";
    }
  }

  /** The header line is nothing but these fields and the punctuation around them. */
  lemma HeaderLayout(h: SourceHeader)
    ensures var v := ReadHeader(HeaderLine(h));
            HeaderLine(h) == "[" + v.marker + "] \"" + v.title + "\"" + Place(v.page, v.section)
  {
    HeaderReadsBack(h);
    hide ReadHeader, View, Loc, Place;
    LocIsPlace(View(h).page, View(h).section);
  }

  lemma ShownIsOneLine(v: HeaderView)
    requires Safe(v)
    ensures '\n' !in Show(v)
  {
    NumeralHasNo(v.marker, '\n');
    LocIsOneLine(v.page, v.section);
    hide Loc;
  }

  lemma LocIsOneLine(page: Option<string>, section: Option<string>)
    requires page.Some? ==> IsNumeral(page.value)
    requires section.Some? ==> SafeField(section.value)
    ensures '\n' !in Loc(page, section)
  {
    if page.Some? { NumeralHasNo(page.value, '\n'); }
  }

  lemma HeaderIsOneLine(h: SourceHeader)
    ensures '\n' !in HeaderLine(h)
  {
    hide View, Show;
    ViewIsSafe(h);
    ShownIsOneLine(View(h));
  }

  // ----- The fence -----

  function LowerChar(c: char): char {
    if 'A' <= c <= 'Z' then 'a' + (c - 'A') else c
  }

  function Lower(s: string): (r: string)
    ensures |r| == |s| && forall i :: 0 <= i < |s| ==> r[i] == LowerChar(s[i])
  {
    if s == [] then [] else [LowerChar(s[0])] + Lower(s[1..])
  }

  const OPEN := "<source>"
  const CLOSE := "</source>"

  /** The length of the fence tag s starts with, in any letter case, or 0. */
  function TagLen(s: string): (n: nat)
    ensures n <= |s| && n in {0, 8, 9}
  {
    if |s| >= 8 && Lower(s[..8]) == OPEN then 8
    else if |s| >= 9 && Lower(s[..9]) == CLOSE then 9
    else 0
  }

  predicate NoTag(s: string) {
    forall i :: 0 <= i <= |s| ==> TagLen(s[i..]) == 0
  }

  /** Every fence tag loses its angle brackets. */
  function Neutralize(content: string): (r: string)
    ensures |r| == |content|
    decreases |content|
  {
    if content == [] then []
    else if TagLen(content) == 8 then "[source]" + Neutralize(content[8..])
    else if TagLen(content) == 9 then "[/source]" + Neutralize(content[9..])
    else [content[0]] + Neutralize(content[1..])
  }

  /** Up to the first square bracket nothing changes. */
  lemma {:induction false} PrefixKept(content: string, n: nat)
    requires n <= |content| && '[' !in Neutralize(content)[..n]
    ensures Neutralize(content)[..n] == content[..n]
    decreases n
  {
    if n > 0 {
      assert Neutralize(content)[0] == Neutralize(content)[..n][0];
      assert TagLen(content) == 0;
      var rest := Neutralize(content[1..]);
      assert Neutralize(content)[..n] == [content[0]] + rest[..n - 1];
      PrefixKept(content[1..], n - 1);
      assert content[..n] == [content[0]] + content[1..][..n - 1];
    }
  }

  lemma TagHasNoBracket(s: string, n: nat)
    requires n == TagLen(s) > 0
    ensures '[' !in s[..n]
  {
    var tag := Lower(s[..n]);
    assert '[' !in OPEN && '[' !in CLOSE;
    forall i | 0 <= i < n ensures s[i] != '[' {
      assert s[..n][i] == s[i];
      assert tag[i] == LowerChar(s[i]);
    }
  }

  lemma SamePrefixSameTag(s: string, t: string, n: nat)
    requires n == TagLen(s) > 0 && n <= |t| && s[..n] == t[..n]
    ensures TagLen(t) > 0
  {
  }

  /** Neutralized content holds no fence tag, in any letter case. */
  lemma {:induction false} NeutralizedHasNoTag(content: string)
    ensures NoTag(Neutralize(content))
    decreases |content|
  {
    hide Lower;
    var r := Neutralize(content);
    if content != [] {
      var n := TagLen(content);
      var step := if n > 0 then n else 1;
      NeutralizedHasNoTag(content[step..]);
      var rest := Neutralize(content[step..]);
      assert r[step..] == rest;
      forall i | 0 <= i <= |r| ensures TagLen(r[i..]) == 0 {
        if i >= step {
          assert r[i..] == rest[i - step..];
        } else if n > 0 {
          NoAngle(r[i..]);
        } else {
          NotATag(content);
          assert r[0..] == r;
        }
      }
    }
  }

  lemma NoAngle(s: string)
    ensures s != [] && s[0] != '<' ==> TagLen(s) == 0
  {
    assert |s| >= 8 ==> Lower(s[..8])[0] == LowerChar(s[0]);
    assert |s| >= 9 ==> Lower(s[..9])[0] == LowerChar(s[0]);
  }

  lemma NotATag(content: string)
    requires content != [] && TagLen(content) == 0
    ensures TagLen(Neutralize(content)) == 0
  {
    var r := Neutralize(content);
    var n := TagLen(r);
    if n > 0 {
      TagHasNoBracket(r, n);
      PrefixKept(content, n);
      SamePrefixSameTag(r, content, n);
    }
  }

  /** Content without tags is left as it is. */
  lemma {:induction false} NeutralizeChangesOnlyTags(content: string)
    requires NoTag(content)
    ensures Neutralize(content) == content
    decreases |content|
  {
    hide TagLen;
    if content != [] {
      assert content[0..] == content;
      forall i | 0 <= i <= |content[1..]| ensures TagLen(content[1..][i..]) == 0 {
        assert content[1..][i..] == content[i + 1..];
      }
      NeutralizeChangesOnlyTags(content[1..]);
    }
  }

  /** Position i lies in a fence tag. */
  ghost predicate InTag(s: string, i: nat) {
    exists k: nat :: k <= i && k <= |s| && i < k + TagLen(s[k..])
  }

  /** Outside fence tags every character stays as it is, at its place. */
  lemma {:induction false} NeutralizeIsLocal(content: string, i: nat)
    requires i < |content|
    ensures Neutralize(content)[i] == content[i] || InTag(content, i)
    decreases |content|
  {
    hide Lower;
    var n := TagLen(content);
    assert content[0..] == content;
    if n > 0 && i < n {
      assert InTag(content, i);
    } else {
      var step := if n > 0 then n else 1;
      var rest := content[step..];
      assert Neutralize(content)[step..] == Neutralize(rest);
      if i >= step {
        NeutralizeIsLocal(rest, i - step);
        assert Neutralize(content)[i] == Neutralize(rest)[i - step];
        hide TagLen;
        if InTag(rest, i - step) {
          var k: nat :| k <= i - step && k <= |rest| && i - step < k + TagLen(rest[k..]);
          assert rest[k..] == content[step + k..];
          assert InTag(content, i);
        }
      }
    }
  }

  /** Character by character, s starts with one of the two spellings. */
  predicate Spells(s: string, lower: string, upper: string)
    requires |lower| == |upper|
  {
    |s| >= |lower| && forall i :: 0 <= i < |lower| ==> s[i] == lower[i] || s[i] == upper[i]
  }

  lemma LowerSpells(s: string, lower: string, upper: string)
    requires |s| == |lower| == |upper|
    requires forall i :: 0 <= i < |lower| ==> forall c :: LowerChar(c) == lower[i] <==> c == lower[i] || c == upper[i]
    ensures Lower(s) == lower <==> Spells(s, lower, upper)
  {
    if Spells(s, lower, upper) {
      forall i | 0 <= i < |s| ensures Lower(s)[i] == lower[i] { assert LowerChar(s[i]) == lower[i]; }
    }
    if Lower(s) == lower {
      forall i | 0 <= i < |lower| ensures s[i] == lower[i] || s[i] == upper[i] { assert LowerChar(s[i]) == lower[i]; }
    }
  }

  /** A tag is one of the two fence tags, each letter in either case. */
  lemma TagIs(s: string)
    ensures TagLen(s) == 8 <==> Spells(s, "<source>", "<SOURCE>")
    ensures TagLen(s) == 9 <==> Spells(s, "</source>", "</SOURCE>")
    ensures TagLen(s) == 0 <==> !Spells(s, "<source>", "<SOURCE>") && !Spells(s, "</source>", "</SOURCE>")
  {
    if |s| >= 8 { LowerSpells(s[..8], "<source>", "<SOURCE>"); }
    if |s| >= 9 { LowerSpells(s[..9], "</source>", "</SOURCE>"); }
    if |s| >= 8 { assert s[..8][1] == s[1]; }
    if |s| >= 9 { assert s[..9][1] == s[1]; }
    hide Lower;
  }

  /** How much of the content one step of the replacement takes. */
  function Taken(content: string): (n: nat)
    requires content != ""
    ensures 0 < n <= |content|
  {
    if TagLen(content) > 0 then TagLen(content) else 1
  }

  lemma NeutralizeStep(content: string)
    requires content != ""
    ensures Neutralize(content)[Taken(content)..] == Neutralize(content[Taken(content)..])
    ensures TagLen(content) == 8 ==> Neutralize(content)[..8] == "[source]"
    ensures TagLen(content) == 9 ==> Neutralize(content)[..9] == "[/source]"
  {
    hide TagLen;
  }

  /** Every tag, wherever it stands, is replaced by its harmless form at the same place. */
  lemma {:induction false} NeutralizeTakesTags(content: string, i: nat)
    requires i < |content| && TagLen(content[i..]) > 0
    ensures i + TagLen(content[i..]) <= |content|
    ensures Neutralize(content)[i..i + TagLen(content[i..])] == if TagLen(content[i..]) == 8 then "[source]" else "[/source]"
    decreases |content|
  {
    hide TagLen, Neutralize, Taken;
    NeutralizeStep(content);
    if i == 0 {
      assert content[0..] == content;
    } else {
      var step := Taken(content);
      AngleInFront(content, i);
      var rest := content[step..];
      assert rest[i - step..] == content[i..];
      NeutralizeTakesTags(rest, i - step);
      var to := i + TagLen(content[i..]);
      assert Neutralize(content)[i..to] == Neutralize(rest)[i - step..to - step];
    }
  }

  /** A tag does not start inside another. */
  lemma AngleInFront(content: string, i: nat)
    requires 0 < i < |content| && TagLen(content[i..]) > 0
    ensures i >= Taken(content)
  {
    NoAngle(content[i..]);
    TagIs(content);
    hide TagLen, Spells;
    assert "<source>"[1..] == "source>" && "<SOURCE>"[1..] == "SOURCE>";
    assert "</source>"[1..] == "/source>" && "</SOURCE>"[1..] == "/SOURCE>";
    if TagLen(content) == 8 && i < 8 { NoSecondAngle(content, "<source>", "<SOURCE>", i); }
    if TagLen(content) == 9 && i < 9 { NoSecondAngle(content, "</source>", "</SOURCE>", i); }
  }

  lemma NoSecondAngle(s: string, lower: string, upper: string, i: nat)
    requires |lower| == |upper| && Spells(s, lower, upper) && 0 < i < |lower|
    requires '<' !in lower[1..] && '<' !in upper[1..]
    ensures s[i] != '<'
  {
    assert lower[i] == lower[1..][i - 1] && upper[i] == upper[1..][i - 1];
  }

  // ----- Entries and their reader -----

  function FencedContent(content: string): string {
    OPEN + "\n" + Neutralize(content) + "\n" + CLOSE
  }

  function EntryText(h: SourceHeader, content: string): string {
    HeaderLine(h) + "\n" + FencedContent(content)
  }

  /** The header line, then the content between the tags, each on lines of its own. */
  lemma EntryLayout(h: SourceHeader, content: string)
    ensures EntryText(h, content) == HeaderLine(h) + "\n<source>\n" + Neutralize(content) + "\n</source>"
  {
    hide HeaderLine, Neutralize;
    assert FencedContent(content) == "<source>\n" + (Neutralize(content) + ("\n" + "</source>"));
    assert "\n" + "</source>" == "\n</source>" && "\n" + "<source>\n" == "\n<source>\n";
  }

  datatype Entry = Entry(header: SourceHeader, content: string)

  function EntryTexts(entries: seq<Entry>): seq<string> {
    if entries == [] then [] else [EntryText(entries[0].header, entries[0].content)] + EntryTexts(entries[1..])
  }

  /** The sources block. */
  function Printed(entries: seq<Entry>): string {
    Join(EntryTexts(entries), "\n\n")
  }

  /** What can be read of an entry: its header line and its body. */
  datatype EntryView = EntryView(header: string, body: string)

  function EntryViews(entries: seq<Entry>): seq<EntryView> {
    if entries == [] then []
    else [EntryView(HeaderLine(entries[0].header), Neutralize(entries[0].content))] + EntryViews(entries[1..])
  }

  const FENCE := 10 // the length of a line end, OPEN and a line end

  /** Reads a header up to the first line end and a body up to the first closing tag, over and over. */
  function Read(text: string): seq<EntryView>
    decreases |text|
  {
    if text == "" then []
    else
      var header := UpTo(text, '\n');
      var afterFence := Drop(text, |header| + FENCE);
      match Find(afterFence, CLOSE)
      case None => []
      case Some(k) =>
        var body := if k > 0 then afterFence[..k - 1] else "";
        [EntryView(header, body)] + Read(Drop(afterFence, k + |CLOSE| + 2))
  }

  /** The first closing tag after neutralized content is the fence's own. */
  lemma FenceCloses(safe: string, rest: string)
    requires NoTag(safe)
    ensures Find(safe + "\n" + CLOSE + rest, CLOSE) == Some(|safe| + 1)
  {
    var all := safe + "\n" + CLOSE + rest;
    assert all[|safe| + 1..|safe| + 1 + |CLOSE|] == CLOSE;
    forall i | 0 <= i < |safe| + 1 ensures !OccursAt(all, CLOSE, i) {
      if i + |CLOSE| <= |safe| {
        assert safe[i..][..9] == all[i..i + 9];
        ClosingIsTag(safe[i..]);
      } else {
        assert all[|safe|] == '\n';
        HoldsLineEnd(all, i, |safe|);
      }
    }
    FindIs(all, CLOSE, |safe| + 1);
  }

  lemma HoldsLineEnd(s: string, i: nat, k: nat)
    requires i <= k < i + |CLOSE| && k < |s| && s[k] == '\n'
    ensures !OccursAt(s, CLOSE, i)
  {
    if i + |CLOSE| <= |s| { assert s[i..i + |CLOSE|][k - i] == '\n' && CLOSE[k - i] != '\n'; }
  }

  lemma ClosingIsTag(s: string)
    requires |s| >= 9 && TagLen(s) == 0
    ensures s[..9] != CLOSE
  {
    assert Lower(CLOSE) == CLOSE;
  }

  /** One entry is read, whatever follows it. */
  lemma OneRead(h: SourceHeader, content: string, rest: string)
    ensures Read(EntryText(h, content) + rest) == [EntryView(HeaderLine(h), Neutralize(content))] + Read(Drop(rest, 2))
  {
    var header, safe := HeaderLine(h), Neutralize(content);
    HeaderIsOneLine(h);
    NeutralizedHasNoTag(content);
    hide HeaderLine, Neutralize, NoTag, Find, UpTo;
    var text := EntryText(h, content) + rest;
    var inside := safe + "\n" + CLOSE + rest;
    EntrySplits(h, content, rest);
    UpToFirst(header, '\n', OPEN + "\n" + inside);
    FenceCloses(safe, rest);
    assert inside[..|safe|] == safe;
    AfterFence(safe, rest);
  }

  lemma EntrySplits(h: SourceHeader, content: string, rest: string)
    ensures var inside := Neutralize(content) + "\n" + CLOSE + rest;
            && EntryText(h, content) + rest == HeaderLine(h) + ['\n'] + (OPEN + "\n" + inside)
            && Drop(EntryText(h, content) + rest, |HeaderLine(h)| + FENCE) == inside
  {
    hide HeaderLine, Neutralize;
    var inside := Neutralize(content) + "\n" + CLOSE + rest;
    assert EntryText(h, content) + rest == HeaderLine(h) + ['\n'] + (OPEN + "\n" + inside);
    DropPrefix(HeaderLine(h) + ['\n'] + OPEN + "\n", inside);
    assert HeaderLine(h) + ['\n'] + OPEN + "\n" + inside == HeaderLine(h) + ['\n'] + (OPEN + "\n" + inside);
  }

  lemma AfterFence(safe: string, rest: string)
    ensures Drop(safe + "\n" + CLOSE + rest, |safe| + 1 + |CLOSE| + 2) == Drop(rest, 2)
  {
    var head := safe + "\n" + CLOSE;
    assert |rest| >= 2 ==> (head + rest)[|head| + 2..] == rest[2..];
  }

  /** A blank line lies between two entries. */
  lemma PrintedLayout(entries: seq<Entry>)
    ensures entries == [] ==> Printed(entries) == ""
    ensures |entries| == 1 ==> Printed(entries) == EntryText(entries[0].header, entries[0].content)
    ensures |entries| > 1 ==> Printed(entries) == EntryText(entries[0].header, entries[0].content) + "\n\n" + Printed(entries[1..])
  {
    hide EntryText;
    if entries != [] { assert EntryTexts(entries)[1..] == EntryTexts(entries[1..]); }
  }

  /** What follows the first entry. */
  lemma BehindFirst(entries: seq<Entry>) returns (rest: string)
    requires entries != []
    ensures Printed(entries) == EntryText(entries[0].header, entries[0].content) + rest
    ensures Drop(rest, 2) == Printed(entries[1..])
  {
    hide EntryText, Printed;
    PrintedLayout(entries);
    PrintedLayout(entries[1..]);
    var first := EntryText(entries[0].header, entries[0].content);
    if |entries| == 1 {
      rest := "";
      assert first + "" == first;
    } else {
      rest := "\n\n" + Printed(entries[1..]);
      assert first + rest == first + "\n\n" + Printed(entries[1..]);
    }
  }

  /** The printed block decodes uniquely, for any titles, sections and contents. */
  lemma {:induction false} PrintedReadsBack(entries: seq<Entry>)
    ensures Read(Printed(entries)) == EntryViews(entries)
    decreases entries
  {
    hide EntryText, Neutralize, HeaderLine, Drop;
    if entries == [] {
      PrintedLayout(entries);
    } else {
      hide Read, Printed;
      var rest := BehindFirst(entries);
      PrintedReadsBack(entries[1..]);
      OneRead(entries[0].header, entries[0].content, rest);
    }
  }
}
