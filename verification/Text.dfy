/** Characters, white space and words. A character is a Unicode scalar value. */
module Text {
  import opened Common

  /** The white space of trim() and of \s: blanks, line terminators and the Unicode spaces. */
  predicate IsSpace(c: char) {
    c in {'\t', '\n', '\U{000B}', '\U{000C}', '\r', ' ', '\U{00A0}', '\U{1680}',
          '\U{2028}', '\U{2029}', '\U{202F}', '\U{205F}', '\U{3000}', '\U{FEFF}'}
    || '\U{2000}' <= c <= '\U{200A}'
  }

  predicate IsBlank(c: char) {
    c == ' ' || c == '\t'
  }

  /** The characters a regular expression's dot does not match. */
  predicate IsLineTerminator(c: char) {
    c == '\n' || c == '\r' || c == '\U{2028}' || c == '\U{2029}'
  }

  predicate IsDigit(c: char) {
    '0' <= c <= '9'
  }

  predicate AllSpace(s: string) {
    forall i :: 0 <= i < |s| ==> IsSpace(s[i])
  }

  /** The classes by code point: WhiteSpace and LineTerminator of the ECMAScript grammar,
      the line terminators alone, blanks and digits. */
  lemma CharacterClasses(c: char)
    ensures IsSpace(c) <==> 0x9 <= c as int <= 0xD || 0x2000 <= c as int <= 0x200A
                            || c as int in {0x20, 0xA0, 0x1680, 0x2028, 0x2029, 0x202F, 0x205F, 0x3000, 0xFEFF}
    ensures IsLineTerminator(c) <==> c as int in {0xA, 0xD, 0x2028, 0x2029}
    ensures IsBlank(c) <==> c as int in {0x9, 0x20}
    ensures IsDigit(c) <==> 0x30 <= c as int <= 0x39
  {
  }

  lemma InWord(c: char)
    requires !IsSpace(c)
    ensures c != '\r' && c != '\n' && !IsBlank(c)
  {
  }

  // ----- Trimming -----

  function TrimStart(s: string): string {
    if s != [] && IsSpace(s[0]) then TrimStart(s[1..]) else s
  }

  function TrimEnd(s: string): string {
    if s != [] && IsSpace(s[|s| - 1]) then TrimEnd(s[..|s| - 1]) else s
  }

  function Trim(s: string): string {
    TrimEnd(TrimStart(s))
  }

  /** Neither end is white space. */
  predicate Trimmed(s: string) {
    s != [] ==> !IsSpace(s[0]) && !IsSpace(s[|s| - 1])
  }

  lemma {:induction false} TrimStartStarts(s: string)
    ensures TrimStart(s) != [] ==> !IsSpace(TrimStart(s)[0])
    decreases s
  {
    hide IsSpace;
    if s != [] && IsSpace(s[0]) { TrimStartStarts(s[1..]); }
  }

  lemma {:induction false} TrimEndEnds(s: string)
    ensures TrimEnd(s) != [] ==> !IsSpace(TrimEnd(s)[|TrimEnd(s)| - 1]) && TrimEnd(s)[0] == s[0]
    ensures |TrimEnd(s)| <= |s| && TrimEnd(s) == s[..|TrimEnd(s)|]
    decreases s
  {
    hide IsSpace;
    if s != [] && IsSpace(s[|s| - 1]) { TrimEndEnds(s[..|s| - 1]); }
  }

  lemma TrimTrims(s: string)
    ensures Trimmed(Trim(s))
  {
    hide IsSpace;
    TrimStartStarts(s);
    TrimEndEnds(TrimStart(s));
  }

  lemma TrimOfTrimmed(s: string)
    requires Trimmed(s)
    ensures Trim(s) == s
  {
    hide IsSpace;
  }

  lemma {:induction false} TrimStartDrops(s: string) returns (n: nat)
    ensures n <= |s| && TrimStart(s) == s[n..] && AllSpace(s[..n])
    decreases s
  {
    hide IsSpace;
    n := 0;
    if s != [] && IsSpace(s[0]) {
      var m := TrimStartDrops(s[1..]);
      n := m + 1;
      assert s[1..][m..] == s[n..] && s[..n] == [s[0]] + s[1..][..m];
    } else {
      assert s[0..] == s;
    }
  }

  lemma {:induction false} TrimEndDrops(s: string)
    ensures |TrimEnd(s)| <= |s| && TrimEnd(s) == s[..|TrimEnd(s)|] && AllSpace(s[|TrimEnd(s)|..])
    decreases s
  {
    hide IsSpace;
    if s != [] && IsSpace(s[|s| - 1]) {
      var most := s[..|s| - 1];
      TrimEndDrops(most);
      var n := |TrimEnd(most)|;
      assert s[n..] == most[n..] + [s[|s| - 1]];
    } else {
      assert s[|s|..] == [] && s[..|s|] == s;
    }
  }

  /** Trimming takes white space off both ends, and nothing else. */
  lemma TrimTakesSpace(s: string) returns (p: string, q: string)
    ensures s == p + Trim(s) + q && AllSpace(p) && AllSpace(q)
  {
    hide IsSpace, TrimStart, TrimEnd;
    var n := TrimStartDrops(s);
    TrimEndDrops(TrimStart(s));
    p, q := s[..n], TrimStart(s)[|Trim(s)|..];
    assert s == p + TrimStart(s);
  }

  lemma {:induction false} TrimStartOfPadded(p: string, t: string)
    requires AllSpace(p) && (t != "" ==> !IsSpace(t[0]))
    ensures TrimStart(p + t) == t
    decreases p
  {
    hide IsSpace;
    if p == "" {
      assert p + t == t;
    } else {
      assert (p + t)[1..] == p[1..] + t;
      TrimStartOfPadded(p[1..], t);
    }
  }

  lemma {:induction false} TrimEndOfPadded(t: string, q: string)
    requires AllSpace(q) && (t != "" ==> !IsSpace(t[|t| - 1]))
    ensures TrimEnd(t + q) == t
    decreases q
  {
    hide IsSpace;
    if q == "" {
      assert t + q == t;
    } else {
      assert (t + q)[..|t + q| - 1] == t + q[..|q| - 1];
      TrimEndOfPadded(t, q[..|q| - 1]);
    }
  }

  /** White space around a trimmed text is what trimming takes off. */
  lemma TrimOfPadded(p: string, t: string, q: string)
    requires AllSpace(p) && AllSpace(q) && Trimmed(t)
    ensures Trim(p + t + q) == t
  {
    hide IsSpace, TrimStart, TrimEnd;
    if t == "" {
      assert p + t + q == (p + q) + "";
      TrimStartOfPadded(p + q, "");
      assert "" + "" == "";
      TrimEndOfPadded("", "");
    } else {
      assert p + t + q == p + (t + q);
      TrimStartOfPadded(p, t + q);
      TrimEndOfPadded(t, q);
    }
  }

  // ----- Words -----

  /** The end of the run of non-space characters that s starts with. */
  function WordEnd(s: string): (n: nat)
    ensures n <= |s| && (forall i :: 0 <= i < n ==> !IsSpace(s[i])) && (n < |s| ==> IsSpace(s[n]))
  {
    if s == [] || IsSpace(s[0]) then 0 else 1 + WordEnd(s[1..])
  }

  /** The maximal runs of non-space characters, in order. */
  function Words(s: string): seq<string>
    decreases |s|
  {
    if s == [] then []
    else if IsSpace(s[0]) then Words(s[1..])
    else [s[..WordEnd(s)]] + Words(s[WordEnd(s)..])
  }

  lemma WordEndIs(s: string, n: nat)
    requires n <= |s| && (forall i :: 0 <= i < n ==> !IsSpace(s[i])) && (n < |s| ==> IsSpace(s[n]))
    ensures WordEnd(s) == n
  {
    hide IsSpace;
  }

  /** A run of non-space characters that white space or the end follows is a word. */
  lemma FirstWord(s: string, n: nat)
    requires 0 < n <= |s| && (forall i :: 0 <= i < n ==> !IsSpace(s[i])) && (n < |s| ==> IsSpace(s[n]))
    ensures Words(s) == [s[..n]] + Words(s[n..])
  {
    hide IsSpace;
    WordEndIs(s, n);
  }

  /** A and B do not meet inside a word. */
  predicate Breaks(a: string, b: string) {
    a == [] || b == [] || IsSpace(a[|a| - 1]) || IsSpace(b[0])
  }

  /** Where no word is cut, the words of a concatenation are the words of its parts. */
  lemma {:induction false} WordsOfConcat(a: string, b: string)
    requires Breaks(a, b)
    ensures Words(a + b) == Words(a) + Words(b)
    decreases |a|
  {
    hide IsSpace;
    if a == [] {
      assert a + b == b;
    } else if IsSpace(a[0]) {
      assert (a + b)[1..] == a[1..] + b;
      WordsOfConcat(a[1..], b);
    } else {
      hide Words;
      var n := WordEnd(a);
      FirstWord(a, n);
      FirstWord(a + b, n);
      assert (a + b)[..n] == a[..n] && (a + b)[n..] == a[n..] + b;
      WordsOfConcat(a[n..], b);
    }
  }

  lemma {:induction false} WordsOfSpace(s: string)
    requires AllSpace(s)
    ensures Words(s) == []
    decreases s
  {
    hide IsSpace;
    if s != [] { WordsOfSpace(s[1..]); }
  }

  /** A non-space stretch is one word. */
  lemma WordsOfWord(s: string)
    requires s != [] && forall i :: 0 <= i < |s| ==> !IsSpace(s[i])
    ensures Words(s) == [s]
  {
    hide IsSpace;
    WordEndIs(s, |s|);
    assert s[|s|..] == [] && s[..|s|] == s;
  }

  lemma {:induction false} WordsOfTrimStart(s: string)
    ensures Words(TrimStart(s)) == Words(s)
    decreases s
  {
    hide IsSpace;
    if s != [] && IsSpace(s[0]) { WordsOfTrimStart(s[1..]); }
  }

  lemma {:induction false} WordsOfTrimEnd(s: string)
    ensures Words(TrimEnd(s)) == Words(s)
    decreases s
  {
    hide IsSpace;
    if s != [] && IsSpace(s[|s| - 1]) {
      var n := |s| - 1;
      assert s == s[..n] + s[n..];
      WordsOfTrimEnd(s[..n]);
      WordsOfConcat(s[..n], s[n..]);
      WordsOfSpace(s[n..]);
    }
  }

  /** Trimming loses no word. */
  lemma WordsOfTrim(s: string)
    ensures Words(Trim(s)) == Words(s)
  {
    hide IsSpace;
    WordsOfTrimStart(s);
    WordsOfTrimEnd(TrimStart(s));
  }

  /** White space between two texts separates their words. */
  lemma WordsAcross(a: string, gap: string, b: string)
    requires gap != [] && AllSpace(gap)
    ensures Words(a + gap + b) == Words(a) + Words(b)
  {
    hide IsSpace, Words;
    WordsOfSpace(gap);
    assert IsSpace(gap[0]) && IsSpace(gap[|gap| - 1]);
    WordsOfConcat(gap, b);
    assert (gap + b)[0] == gap[0];
    WordsOfConcat(a, gap + b);
    assert a + gap + b == a + (gap + b);
  }

  // ----- Collapsing blanks -----

  function BlankEnd(s: string): (n: nat)
    ensures n <= |s| && (forall i :: 0 <= i < n ==> IsBlank(s[i])) && (n < |s| ==> !IsBlank(s[n]))
  {
    if s == [] || !IsBlank(s[0]) then 0 else 1 + BlankEnd(s[1..])
  }

  /** Every run of blanks and tabs becomes one blank. */
  function CollapseBlanks(s: string): string
    decreases |s|
  {
    if s == [] then []
    else if IsBlank(s[0]) then " " + CollapseBlanks(s[BlankEnd(s)..])
    else [s[0]] + CollapseBlanks(s[1..])
  }

  lemma {:induction false} CollapseKeepsWord(s: string, n: nat)
    requires n <= |s| && forall i :: 0 <= i < n ==> !IsSpace(s[i])
    ensures CollapseBlanks(s) == s[..n] + CollapseBlanks(s[n..])
    decreases n
  {
    hide IsSpace;
    if n > 0 {
      InWord(s[0]);
      CollapseKeepsWord(s[1..], n - 1);
      assert s[1..][n - 1..] == s[n..];
      assert s[..n] == [s[0]] + s[1..][..n - 1];
    }
  }

  /** Collapsing blanks loses no word. */
  lemma {:induction false} WordsOfCollapse(s: string)
    ensures Words(CollapseBlanks(s)) == Words(s)
    decreases |s|
  {
    if s == [] {
    } else if IsBlank(s[0]) {
      var n := BlankEnd(s);
      var rest := CollapseBlanks(s[n..]);
      WordsOfCollapse(s[n..]);
      assert (" " + rest)[1..] == rest;
      assert s == s[..n] + s[n..];
      WordsOfConcat(s[..n], s[n..]);
      WordsOfSpace(s[..n]);
    } else if IsSpace(s[0]) {
      WordsOfCollapse(s[1..]);
      assert CollapseBlanks(s)[1..] == CollapseBlanks(s[1..]);
    } else {
      var n := WordEnd(s);
      var rest := CollapseBlanks(s[n..]);
      CollapseKeepsWord(s, n);
      WordsOfCollapse(s[n..]);
      assert rest == [] || IsSpace(rest[0]);
      FirstWord(s, n);
      FirstWord(s[..n] + rest, n);
      assert (s[..n] + rest)[..n] == s[..n] && (s[..n] + rest)[n..] == rest;
    }
  }

  /** Collapsing works run by run: it never reaches over a character that is no blank. */
  lemma {:induction false} CollapseOfConcat(a: string, b: string)
    requires a == [] || b == [] || !IsBlank(a[|a| - 1]) || !IsBlank(b[0])
    ensures CollapseBlanks(a + b) == CollapseBlanks(a) + CollapseBlanks(b)
    decreases |a|
  {
    hide IsBlank, CollapseBlanks;
    if a == [] {
      NothingCollapsed(b);
    } else {
      var n := if IsBlank(a[0]) then BlankEnd(a) else 1;
      if IsBlank(a[0]) { CollapseBlank(a); }
      assert a[n..] == [] || a[n..][|a[n..]| - 1] == a[|a| - 1];
      CollapseOfConcat(a[n..], b);
      if IsBlank(a[0]) { BlankInFront(a, b); } else { InkInFront(a, b); }
    }
  }

  lemma NothingCollapsed(b: string)
    ensures CollapseBlanks([] + b) == CollapseBlanks([]) + CollapseBlanks(b)
  {
    assert [] + b == b;
  }

  lemma BlankInFront(a: string, b: string)
    requires a != [] && IsBlank(a[0]) && (b == [] || !IsBlank(a[|a| - 1]) || !IsBlank(b[0]))
    requires CollapseBlanks(a[BlankEnd(a)..] + b) == CollapseBlanks(a[BlankEnd(a)..]) + CollapseBlanks(b)
    ensures CollapseBlanks(a + b) == CollapseBlanks(a) + CollapseBlanks(b)
  {
    hide IsBlank, CollapseBlanks;
    var n := BlankEnd(a);
    assert (a + b)[n..] == a[n..] + b;
    BlankEndIs(a + b, n);
    CollapseBlank(a);
    CollapseBlank(a + b);
  }

  lemma InkInFront(a: string, b: string)
    requires a != [] && !IsBlank(a[0])
    requires CollapseBlanks(a[1..] + b) == CollapseBlanks(a[1..]) + CollapseBlanks(b)
    ensures CollapseBlanks(a + b) == CollapseBlanks(a) + CollapseBlanks(b)
  {
    hide IsBlank, CollapseBlanks;
    assert (a + b)[1..] == a[1..] + b;
    CollapseInk(a);
    CollapseInk(a + b);
  }

  lemma CollapseBlank(s: string)
    requires s != [] && IsBlank(s[0])
    ensures BlankEnd(s) > 0 && CollapseBlanks(s) == " " + CollapseBlanks(s[BlankEnd(s)..])
  {
    hide IsBlank;
  }

  lemma CollapseInk(s: string)
    requires s != [] && !IsBlank(s[0])
    ensures CollapseBlanks(s) == [s[0]] + CollapseBlanks(s[1..])
  {
    hide IsBlank;
  }

  lemma BlankEndIs(s: string, n: nat)
    requires n <= |s| && (forall i :: 0 <= i < n ==> IsBlank(s[i])) && (n < |s| ==> !IsBlank(s[n]))
    ensures BlankEnd(s) == n
  {
    hide IsBlank;
  }

  /** A run of blanks and tabs becomes one blank, and any other character stays. */
  lemma CollapseOfRun(run: string)
    requires run != [] && forall i :: 0 <= i < |run| ==> run[i] == ' ' || run[i] == '\t'
    ensures CollapseBlanks(run) == " "
    ensures forall c :: c != ' ' && c != '\t' ==> CollapseBlanks([c]) == [c]
  {
    BlankEndIs(run, |run|);
    assert run[|run|..] == [];
    forall c: char ensures [c][1..] == [] {
    }
  }

  /** The only white space is blanks and tabs. */
  predicate OnlyBlanks(s: string) {
    forall i :: 0 <= i < |s| && IsSpace(s[i]) ==> IsBlank(s[i])
  }

  /** One blank if the text starts (ends) with white space. */
  function Lead(s: string): string {
    if s != [] && IsSpace(s[0]) then " " else ""
  }

  function Trail(s: string): string {
    if Words(s) != [] && IsSpace(s[|s| - 1]) then " " else ""
  }

  lemma BlanksAreSpace()
    ensures IsSpace(' ') && IsSpace('\t') && forall c :: IsBlank(c) ==> IsSpace(c)
  {
  }

  lemma {:induction false} CollapsedIs(s: string)
    requires OnlyBlanks(s)
    ensures CollapseBlanks(s) == Lead(s) + Join(Words(s), " ") + Trail(s)
    decreases |s|
  {
    BlanksAreSpace();
    hide IsSpace, IsBlank;
    if s == [] {
    } else if IsSpace(s[0]) {
      CollapsedAfterBlank(s);
    } else {
      CollapsedAfterWord(s);
    }
  }

  lemma StartsBlank(s: string)
    requires OnlyBlanks(s) && s != [] && IsSpace(s[0])
    ensures BlankEnd(s) > 0 && Words(s) == Words(s[BlankEnd(s)..])
    ensures CollapseBlanks(s) == " " + CollapseBlanks(s[BlankEnd(s)..])
    ensures BlankEnd(s) < |s| ==> !IsSpace(s[BlankEnd(s)])
  {
    BlanksAreSpace();
    hide IsSpace, IsBlank, Words, CollapseBlanks, BlankEnd;
    CollapseBlank(s);
    var n := BlankEnd(s);
    assert s == s[..n] + s[n..] && AllSpace(s[..n]);
    WordsOfSpace(s[..n]);
    WordsOfConcat(s[..n], s[n..]);
    assert [] + Words(s[n..]) == Words(s[n..]);
  }

  lemma {:induction false} CollapsedAfterBlank(s: string)
    requires OnlyBlanks(s) && s != [] && IsSpace(s[0])
    ensures CollapseBlanks(s) == Lead(s) + Join(Words(s), " ") + Trail(s)
    decreases |s|, 0
  {
    StartsBlank(s);
    hide IsSpace, IsBlank, Join, Words, CollapseBlanks;
    var n := BlankEnd(s);
    var rest := s[n..];
    CollapsedIs(rest);
    if rest == [] {
      NoWordsIn(rest);
      JoinOfNone(" ");
    } else {
      assert rest[0] == s[n] && rest[|rest| - 1] == s[|s| - 1];
      assert " " + ("" + Join(Words(rest), " ") + Trail(rest)) == " " + Join(Words(rest), " ") + Trail(rest);
    }
  }

  lemma {:induction false} CollapsedAfterWord(s: string)
    requires OnlyBlanks(s) && s != [] && !IsSpace(s[0])
    ensures CollapseBlanks(s) == Lead(s) + Join(Words(s), " ") + Trail(s)
    decreases |s|, 0
  {
    BlanksAreSpace();
    hide IsSpace, IsBlank, Words, Join, CollapseBlanks;
    var n := WordEnd(s);
    var word, rest := s[..n], s[n..];
    FirstWord(s, n);
    CollapseKeepsWord(s, n);
    CollapsedIs(rest);
    if rest == [] {
      NoWordsIn(rest);
      JoinOfOneWord(word, " ");
    } else {
      assert rest[0] == s[n] && rest[|rest| - 1] == s[|s| - 1];
      if Words(rest) == [] {
        JoinOfOneWord(word, " ");
        AllBlank(rest);
      } else {
        JoinOfMore(word, Words(rest), " ");
      }
    }
  }

  lemma NoWordsIn(s: string)
    requires s == []
    ensures Words(s) == [] && CollapseBlanks(s) == ""
  {
  }

  lemma JoinOfNone(sep: string)
    ensures Join([], sep) == ""
  {
  }

  lemma JoinOfOneWord(word: string, sep: string)
    ensures Join([word] + [], sep) == word && Join([], sep) == ""
  {
  }

  lemma JoinOfMore(first: string, rest: seq<string>, sep: string)
    requires rest != []
    ensures Join([first] + rest, sep) == first + sep + Join(rest, sep)
  {
    assert ([first] + rest)[1..] == rest;
  }

  /** A text without words is white space. */
  lemma {:induction false} AllBlank(s: string)
    requires Words(s) == []
    ensures AllSpace(s)
    decreases s
  {
    hide IsSpace;
    if s != [] { AllBlank(s[1..]); }
  }

  /** Where blanks and tabs are the only white space, collapsing and trimming leaves the
      words, one blank apart. */
  lemma NormalizedIsItsWords(s: string)
    requires OnlyBlanks(s)
    ensures Trim(CollapseBlanks(s)) == Join(Words(s), " ")
  {
    BlanksAreSpace();
    CollapsedIs(s);
    JoinedWordsAreTrimmed(s);
    hide IsSpace, Join, Trim, CollapseBlanks;
    TrimOfPadded(Lead(s), Join(Words(s), " "), Trail(s));
  }

  lemma {:induction false} WordsHaveInk(s: string)
    ensures forall k :: 0 <= k < |Words(s)| ==> Words(s)[k] != "" && Trimmed(Words(s)[k])
    decreases |s|
  {
    hide IsSpace;
    if s != [] { WordsHaveInk(if IsSpace(s[0]) then s[1..] else s[WordEnd(s)..]); }
  }

  lemma {:induction false} JoinIsTrimmed(parts: seq<string>, sep: string)
    requires forall k :: 0 <= k < |parts| ==> parts[k] != "" && Trimmed(parts[k])
    ensures Trimmed(Join(parts, sep)) && (parts != [] ==> Join(parts, sep) != "")
    decreases parts
  {
    hide IsSpace;
    if |parts| > 1 {
      JoinIsTrimmed(parts[1..], sep);
      var rest, all := Join(parts[1..], sep), Join(parts, sep);
      assert all[0] == parts[0][0] && all[|all| - 1] == rest[|rest| - 1];
    }
  }

  lemma JoinedWordsAreTrimmed(s: string)
    ensures Trimmed(Join(Words(s), " "))
  {
    WordsHaveInk(s);
    JoinIsTrimmed(Words(s), " ");
  }

  // ----- Joining and splitting -----

  function Join(parts: seq<string>, sep: string): string {
    if parts == [] then ""
    else if |parts| == 1 then parts[0]
    else parts[0] + sep + Join(parts[1..], sep)
  }

  /** The words of all parts, in order. */
  function AllWords(parts: seq<string>): seq<string> {
    if parts == [] then [] else Words(parts[0]) + AllWords(parts[1..])
  }

  lemma {:induction false} AllWordsOfConcat(a: seq<string>, b: seq<string>)
    ensures AllWords(a + b) == AllWords(a) + AllWords(b)
    decreases a
  {
    if a == [] {
      assert a + b == b;
    } else {
      assert (a + b)[1..] == a[1..] + b;
      AllWordsOfConcat(a[1..], b);
    }
  }

  /** Joining with white space cuts and merges no word. */
  lemma {:induction false} WordsOfJoin(parts: seq<string>, sep: string)
    requires sep != [] && AllSpace(sep)
    ensures Words(Join(parts, sep)) == AllWords(parts)
    decreases parts
  {
    hide IsSpace, Words;
    if |parts| > 1 {
      WordsOfJoin(parts[1..], sep);
      WordsAcross(parts[0], sep, Join(parts[1..], sep));
    } else if |parts| == 1 {
      assert AllWords(parts[1..]) == [];
    } else {
      WordsOfSpace("");
    }
  }

  /** Line ends of all kinds become '\n'. */
  function NormalizeNewlines(s: string): string
    decreases |s|
  {
    if s == [] then []
    else if s[0] == '\r' then "\n" + NormalizeNewlines(if |s| > 1 && s[1] == '\n' then s[2..] else s[1..])
    else [s[0]] + NormalizeNewlines(s[1..])
  }

  lemma {:induction false} NormalizeKeepsWord(s: string, n: nat)
    requires n <= |s| && forall i :: 0 <= i < n ==> !IsSpace(s[i])
    ensures NormalizeNewlines(s) == s[..n] + NormalizeNewlines(s[n..])
    decreases n
  {
    hide IsSpace;
    if n > 0 {
      InWord(s[0]);
      NormalizeKeepsWord(s[1..], n - 1);
      assert s[1..][n - 1..] == s[n..];
      assert s[..n] == [s[0]] + s[1..][..n - 1];
    }
  }

  lemma NormalizeStart(s: string)
    requires s == [] || IsSpace(s[0])
    ensures NormalizeNewlines(s) == [] || IsSpace(NormalizeNewlines(s)[0])
  {
    assert IsSpace('\n');
    hide IsSpace;
  }

  lemma NormalizeSpace(s: string) returns (rest: string)
    requires s != [] && IsSpace(s[0])
    ensures |rest| < |s| && Words(rest) == Words(s) && Words(NormalizeNewlines(rest)) == Words(NormalizeNewlines(s))
  {
    assert IsSpace('\n');
    hide IsSpace;
    rest := if s[0] == '\r' && |s| > 1 && s[1] == '\n' then s[2..] else s[1..];
    assert NormalizeNewlines(s)[1..] == NormalizeNewlines(rest);
    assert Words(s) == Words(s[1..]);
  }

  lemma {:induction false} WordsOfNormalize(s: string)
    ensures Words(NormalizeNewlines(s)) == Words(s)
    decreases |s|
  {
    hide IsSpace;
    if s != [] && IsSpace(s[0]) {
      var rest := NormalizeSpace(s);
      WordsOfNormalize(rest);
    } else if s != [] {
      var n := WordEnd(s);
      var rest := NormalizeNewlines(s[n..]);
      NormalizeKeepsWord(s, n);
      WordsOfNormalize(s[n..]);
      NormalizeStart(s[n..]);
      hide Words;
      FirstWord(s, n);
      FirstWord(s[..n] + rest, n);
      assert (s[..n] + rest)[..n] == s[..n] && (s[..n] + rest)[n..] == rest;
    }
  }

  /** A carriage return and the line feed behind it are one line end. */
  lemma {:induction false} NormalizeOfConcat(a: string, b: string)
    requires a == [] || b == [] || a[|a| - 1] != '\r' || b[0] != '\n'
    ensures NormalizeNewlines(a + b) == NormalizeNewlines(a) + NormalizeNewlines(b)
    decreases |a|
  {
    if a == [] {
      assert a + b == b;
    } else {
      var step := if a[0] == '\r' && |a| > 1 && a[1] == '\n' then 2 else 1;
      assert (a + b)[step..] == a[step..] + b;
      NormalizeOfConcat(a[step..], b);
    }
  }

  lemma NormalizeOfLineEnds()
    ensures NormalizeNewlines("\r\n") == "\n" && NormalizeNewlines("\r") == "\n"
    ensures forall c :: c != '\r' ==> NormalizeNewlines([c]) == [c]
  {
    assert "\r\n"[2..] == "" && "\r"[1..] == "";
    forall c: char ensures [c][1..] == [] {
    }
  }

  function IndexOf(s: string, c: char): (n: nat)
    ensures n <= |s| && (forall i :: 0 <= i < n ==> s[i] != c) && (n < |s| ==> s[n] == c)
  {
    if s == [] || s[0] == c then 0 else 1 + IndexOf(s[1..], c)
  }

  /** split('\n') */
  function Lines(s: string): (r: seq<string>)
    ensures r != [] && forall l :: l in r ==> '\n' !in l
    decreases |s|
  {
    var n := IndexOf(s, '\n');
    if n == |s| then [s] else [s[..n]] + Lines(s[n + 1..])
  }

  /** Joining the lines gives the text back. */
  lemma {:induction false} LinesJoin(s: string)
    ensures Join(Lines(s), "\n") == s
    decreases |s|
  {
    var n := IndexOf(s, '\n');
    if n < |s| {
      var rest := s[n + 1..];
      LinesJoin(rest);
      JoinOfMore(s[..n], Lines(rest), "\n");
      assert s == s[..n] + "\n" + rest;
    }
  }

  lemma {:induction false} WordsOfLines(s: string)
    ensures AllWords(Lines(s)) == Words(s)
    decreases |s|
  {
    assert IsSpace('\n');
    hide IsSpace, Words;
    var n := IndexOf(s, '\n');
    if n < |s| {
      var rest := s[n + 1..];
      WordsOfLines(rest);
      assert s == s[..n] + "\n" + rest;
      WordsAcross(s[..n], "\n", rest);
      assert Lines(s)[1..] == Lines(rest);
    } else {
      assert AllWords([s][1..]) == [];
    }
  }

  // ----- Searching -----

  predicate OccursAt(s: string, pattern: string, i: nat) {
    i + |pattern| <= |s| && s[i..i + |pattern|] == pattern
  }

  /** indexOf: the first occurrence. */
  function Find(s: string, pattern: string): (at: Option<nat>)
    ensures at.Some? ==> OccursAt(s, pattern, at.value) && forall i :: 0 <= i < at.value ==> !OccursAt(s, pattern, i)
    ensures at.None? ==> forall i: nat :: !OccursAt(s, pattern, i)
  {
    if |s| < |pattern| then None
    else if pattern <= s then Some(0)
    else
      var rest := Find(s[1..], pattern);
      FindShifts(s, pattern, rest);
      if rest.Some? then Some(rest.value + 1) else None
  }

  lemma FindShifts(s: string, pattern: string, rest: Option<nat>)
    requires |s| >= |pattern| && !(pattern <= s)
    ensures s != [] && forall i: nat :: i > 0 ==> (OccursAt(s, pattern, i) <==> OccursAt(s[1..], pattern, i - 1))
    ensures !OccursAt(s, pattern, 0)
  {
    forall i: nat | i > 0 ensures OccursAt(s, pattern, i) <==> OccursAt(s[1..], pattern, i - 1) {
      if i + |pattern| <= |s| { assert s[1..][i - 1..i - 1 + |pattern|] == s[i..i + |pattern|]; }
    }
  }

  /** The first occurrence is unique. */
  lemma FindIs(s: string, pattern: string, n: nat)
    requires OccursAt(s, pattern, n) && forall i :: 0 <= i < n ==> !OccursAt(s, pattern, i)
    ensures Find(s, pattern) == Some(n)
  {
    if Find(s, pattern).Some? {
      assert OccursAt(s, pattern, Find(s, pattern).value);
    }
  }

  lemma IndexOfFirst(a: string, c: char, b: string)
    requires c !in a
    ensures IndexOf(a + [c] + b, c) == |a|
  {
    assert (a + [c] + b)[|a|] == c;
    forall i | 0 <= i < |a| ensures (a + [c] + b)[i] != c {
    }
  }

  lemma IndexOfNone(a: string, c: char)
    requires c !in a
    ensures IndexOf(a, c) == |a|
  {
  }
}
