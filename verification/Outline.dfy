/** The heading stack of the chunker is the outline of the headings read so far. */
module Outline {
  import opened Common
  import opened Text

  datatype HeadingRef = HeadingRef(level: int, text: string)

  /** The headings still open: those no later heading of an equal or smaller level closed. */
  function OpenHeadings(headings: seq<HeadingRef>): seq<HeadingRef> {
    if headings == [] then []
    else (if Closed(headings[0], headings[1..]) then [] else [headings[0]]) + OpenHeadings(headings[1..])
  }

  predicate Closed(h: HeadingRef, later: seq<HeadingRef>) {
    exists i :: 0 <= i < |later| && later[i].level <= h.level
  }

  /** Levels strictly increase from the bottom of the stack to its top. */
  ghost predicate Nested(stack: seq<HeadingRef>) {
    forall i, j :: 0 <= i < j < |stack| ==> stack[i].level < stack[j].level
  }

  /** The headings a heading of this level does not close. */
  function Above(stack: seq<HeadingRef>, level: int): seq<HeadingRef> {
    if stack == [] then []
    else (if stack[0].level < level then [stack[0]] else []) + Above(stack[1..], level)
  }

  lemma {:induction false} AboveIsAPrefix(stack: seq<HeadingRef>, level: int, n: nat)
    requires n <= |stack| && forall i :: 0 <= i < |stack| ==> (stack[i].level < level <==> i < n)
    ensures Above(stack, level) == stack[..n]
    decreases stack
  {
    if stack != [] {
      AboveIsAPrefix(stack[1..], level, if n == 0 then 0 else n - 1);
      if n > 0 { assert stack[..n] == [stack[0]] + stack[1..][..n - 1]; }
    }
  }

  /** Pops headings of the same or a deeper level, then pushes the new one. */
  method UpdateHeadings(stack: seq<HeadingRef>, level: int, text: string) returns (r: seq<HeadingRef>)
    requires Nested(stack)
    ensures r == Above(stack, level) + [HeadingRef(level, text)]
    ensures Nested(r)
  {
    r := stack;
    while |r| > 0 && r[|r| - 1].level >= level
      invariant |r| <= |stack| && r == stack[..|r|]
      invariant forall i :: |r| <= i < |stack| ==> stack[i].level >= level
    {
      r := r[..|r| - 1];
    }
    AboveIsAPrefix(stack, level, |r|);
    r := r + [HeadingRef(level, text)];
  }

  lemma {:induction false} AboveOfConcat(a: seq<HeadingRef>, b: seq<HeadingRef>, level: int)
    ensures Above(a + b, level) == Above(a, level) + Above(b, level)
    decreases a
  {
    if a == [] {
      assert a + b == b;
    } else {
      assert (a + b)[1..] == a[1..] + b;
      AboveOfConcat(a[1..], b, level);
    }
  }

  lemma ClosedByOneMore(h: HeadingRef, later: seq<HeadingRef>, next: HeadingRef)
    ensures Closed(h, later + [next]) <==> Closed(h, later) || next.level <= h.level
  {
    if Closed(h, later) {
      var i :| 0 <= i < |later| && later[i].level <= h.level;
      assert (later + [next])[i].level <= h.level;
    }
    if next.level <= h.level {
      assert (later + [next])[|later|].level <= h.level;
    }
  }

  /** One more heading closes exactly what the stack pops. */
  lemma {:induction false} OpenAfter(headings: seq<HeadingRef>, next: HeadingRef)
    ensures OpenHeadings(headings + [next]) == Above(OpenHeadings(headings), next.level) + [next]
    decreases headings
  {
    hide Closed;
    if headings == [] {
      OpenOfOne(next);
    } else {
      var h, rest := headings[0], headings[1..];
      assert (headings + [next])[1..] == rest + [next];
      OpenAfter(rest, next);
      ClosedByOneMore(h, rest, next);
      var own := if Closed(h, rest) then [] else [h];
      AboveOfConcat(own, OpenHeadings(rest), next.level);
      AboveOne(h, next.level);
    }
  }

  lemma OpenOfOne(h: HeadingRef)
    ensures OpenHeadings([]) == [] && OpenHeadings([h]) == [h] && Above([], h.level) == []
  {
    assert [h][1..] == [];
  }

  lemma AboveOne(h: HeadingRef, level: int)
    ensures Above([], level) == []
    ensures Above([h], level) == if h.level < level then [h] else []
  {
    assert [h][1..] == [];
  }

  lemma {:induction false} OpenIsOpen(headings: seq<HeadingRef>, k: nat)
    requires k < |OpenHeadings(headings)|
    ensures exists i :: 0 <= i < |headings| && headings[i] == OpenHeadings(headings)[k] && !Closed(headings[i], headings[i + 1..])
    decreases headings
  {
    var rest := headings[1..];
    if !Closed(headings[0], rest) && k == 0 {
      assert headings[0] == OpenHeadings(headings)[k];
    } else {
      var m := if Closed(headings[0], rest) then k else k - 1;
      OpenIsOpen(rest, m);
      var i :| 0 <= i < |rest| && rest[i] == OpenHeadings(rest)[m] && !Closed(rest[i], rest[i + 1..]);
      assert headings[i + 1..][1..] == rest[i + 1..] && headings[i + 1 + 1..] == rest[i + 1..];
      assert headings[i + 1] == OpenHeadings(headings)[k];
    }
  }

  /** The outline is always strictly nested. */
  lemma {:induction false} OpenIsNested(headings: seq<HeadingRef>)
    ensures Nested(OpenHeadings(headings))
    decreases headings
  {
    if headings != [] {
      var rest := headings[1..];
      OpenIsNested(rest);
      if !Closed(headings[0], rest) {
        forall k | 0 <= k < |OpenHeadings(rest)| ensures headings[0].level < OpenHeadings(rest)[k].level {
          OpenIsOpen(rest, k);
          var i :| 0 <= i < |rest| && rest[i] == OpenHeadings(rest)[k];
          assert !(rest[i].level <= headings[0].level);
        }
        assert OpenHeadings(headings) == [headings[0]] + OpenHeadings(rest);
      }
    }
  }

  function HeadingTexts(headings: seq<HeadingRef>): seq<string> {
    if headings == [] then [] else [headings[0].text] + HeadingTexts(headings[1..])
  }

  function SectionPath(stack: seq<HeadingRef>): Option<string> {
    if stack == [] then None else Some(Join(HeadingTexts(stack), " > "))
  }

  /** A section that is missing or empty gets no header. */
  function ContextHeader(section: Option<string>): string {
    if section.Some? && section.value != "" then "[Section: " + section.value + "]\n\n" else ""
  }
}
