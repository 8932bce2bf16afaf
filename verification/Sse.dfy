/** Server-sent events: the frames the server writes, and the incremental parser that
    both the admin console and the mobile client read them with. */
module Sse {
  import opened Common
  import opened Text

  datatype SseFrame = SseFrame(event: string, data: string)

  /** Complete frames, and the partial text to carry into the next chunk. */
  datatype Parsed = Parsed(frames: seq<SseFrame>, rest: string)

  const BREAK := "\n\n"

  // ----- Parsing -----

  /** What (.*) matches: everything up to a line terminator. */
  function UpToTerminator(s: string): (r: string)
    ensures r <= s && forall i :: 0 <= i < |r| ==> !IsLineTerminator(r[i])
    ensures |r| < |s| ==> IsLineTerminator(s[|r|])
  {
    if s == [] || IsLineTerminator(s[0]) then [] else [s[0]] + UpToTerminator(s[1..])
  }

  /** The value of the first line that starts with the name. */
  function FirstField(lines: seq<string>, name: string): Option<string> {
    if lines == [] then None
    else if name <= lines[0] then Some(UpToTerminator(lines[0][|name|..]))
    else FirstField(lines[1..], name)
  }

  function FrameOf(raw: string): SseFrame {
    SseFrame(FirstField(Lines(raw), "event: ").GetOr("message"), FirstField(Lines(raw), "data: ").GetOr(""))
  }

  /** A comment yields no frame. */
  function FramesOf(raw: string): seq<SseFrame> {
    if ":" <= raw then [] else [FrameOf(raw)]
  }

  /** What a buffer holds: the frames of the stretches that blank lines end, and the rest. */
  function Parse(buffer: string): Parsed
    decreases |buffer|
  {
    match Find(buffer, BREAK)
    case None => Parsed([], buffer)
    case Some(n) =>
      var later := Parse(buffer[n + |BREAK|..]);
      Parsed(FramesOf(buffer[..n]) + later.frames, later.rest)
  }

  /** The parsing loop. */
  method ParseSseFrames(buffer: string) returns (frames: seq<SseFrame>, rest: string)
    ensures Parsed(frames, rest) == Parse(buffer)
  {
    hide FrameOf, Parse, Find;
    frames, rest := [], buffer;
    var idx := Find(rest, BREAK);
    while idx.Some?
      invariant idx == Find(rest, BREAK)
      invariant Parse(buffer) == Parsed(frames + Parse(rest).frames, Parse(rest).rest)
      decreases |rest|
    {
      ParseUnfolds(rest, idx.value);
      var raw := rest[..idx.value];
      rest := rest[idx.value + |BREAK|..];
      idx := Find(rest, BREAK);
      if ":" <= raw { continue; }
      assert frames + ([FrameOf(raw)] + Parse(rest).frames) == frames + [FrameOf(raw)] + Parse(rest).frames;
      frames := frames + [FrameOf(raw)];
    }
    NothingComplete(rest);
  }

  lemma ParseUnfolds(s: string, n: nat)
    requires Find(s, BREAK) == Some(n)
    ensures n + |BREAK| <= |s|
    ensures Parse(s) == Parsed(FramesOf(s[..n]) + Parse(s[n + |BREAK|..]).frames, Parse(s[n + |BREAK|..]).rest)
  {
    hide FramesOf;
  }

  lemma NothingComplete(s: string)
    requires Find(s, BREAK) == None
    ensures Parse(s) == Parsed([], s)
  {
  }

  lemma {:induction false} FirstFieldIs(lines: seq<string>, name: string, i: nat)
    requires i <= |lines| && forall k :: 0 <= k < i ==> !(name <= lines[k])
    requires i < |lines| ==> name <= lines[i]
    ensures i == |lines| ==> FirstField(lines, name) == None
    ensures i < |lines| ==> FirstField(lines, name) == Some(UpToTerminator(lines[i][|name|..]))
    decreases lines
  {
    hide UpToTerminator;
    if i > 0 { FirstFieldIs(lines[1..], name, i - 1); }
  }

  /** What a complete stretch yields, and a comment does not: a frame whose event is that
      of the first line "event: ...", or "message" without one, and whose data is that of
      the first line "data: ...", or empty. Line i and line j stand for these, past the end
      for none. */
  lemma StretchYields(raw: string, after: string, i: nat, j: nat)
    requires raw != [] && raw[|raw| - 1] != '\n'
    requires forall k :: 0 <= k < |raw| - 1 ==> !(raw[k] == '\n' && raw[k + 1] == '\n')
    requires i <= |Lines(raw)| && (forall k :: 0 <= k < i ==> !("event: " <= Lines(raw)[k]))
    requires i < |Lines(raw)| ==> "event: " <= Lines(raw)[i]
    requires j <= |Lines(raw)| && (forall k :: 0 <= k < j ==> !("data: " <= Lines(raw)[k]))
    requires j < |Lines(raw)| ==> "data: " <= Lines(raw)[j]
    ensures raw[0] == ':' ==> Parse(raw + "\n\n" + after) == Parse(after)
    ensures raw[0] != ':' ==>
              Parse(raw + "\n\n" + after).frames
              == [SseFrame(if i < |Lines(raw)| then UpToTerminator(Lines(raw)[i][7..]) else "message",
                           if j < |Lines(raw)| then UpToTerminator(Lines(raw)[j][6..]) else "")]
                 + Parse(after).frames
  {
    FirstFieldIs(Lines(raw), "event: ", i);
    FirstFieldIs(Lines(raw), "data: ", j);
    hide Parse, Lines, UpToTerminator, FirstField;
    OneItem(raw, after);
    assert ":" <= raw <==> raw[0] == ':';
  }

  // ----- Chunks -----

  /** More input never changes where the first break is. */
  lemma FindStays(a: string, b: string)
    requires Find(a, BREAK).Some?
    ensures Find(a + b, BREAK) == Find(a, BREAK)
  {
    var n := Find(a, BREAK).value;
    assert (a + b)[n..n + 2] == a[n..n + 2];
    forall i | 0 <= i < n ensures !OccursAt(a + b, BREAK, i) {
      assert !OccursAt(a, BREAK, i);
      assert (a + b)[i..i + 2] == a[i..i + 2];
    }
    FindIs(a + b, BREAK, n);
  }

  /** Parsing a and then, with the rest carried over, b is parsing both at once. */
  lemma {:induction false} ParseInTwo(a: string, b: string)
    ensures Parse(a + b).frames == Parse(a).frames + Parse(Parse(a).rest + b).frames
    ensures Parse(a + b).rest == Parse(Parse(a).rest + b).rest
    decreases |a|
  {
    hide FramesOf, Find;
    if Find(a, BREAK).Some? {
      var n := Find(a, BREAK).value;
      var later := a[n + |BREAK|..];
      FindStays(a, b);
      ParseUnfolds(a + b, n);
      ParseUnfolds(a, n);
      assert (a + b)[..n] == a[..n] && (a + b)[n + |BREAK|..] == later + b;
      ParseInTwo(later, b);
    } else {
      assert Parse(a) == Parsed([], a);
    }
  }

  function Concat(pieces: seq<string>): string {
    if pieces == [] then "" else pieces[0] + Concat(pieces[1..])
  }

  /** Parsing piece by piece, carrying the rest forward. */
  function Feed(rest: string, pieces: seq<string>): Parsed
    decreases |pieces|
  {
    if pieces == [] then Parsed([], rest)
    else
      var first := Parse(rest + pieces[0]);
      var later := Feed(first.rest, pieces[1..]);
      Parsed(first.frames + later.frames, later.rest)
  }

  /** What is left holds no complete frame. */
  lemma {:induction false} RestIsPartial(s: string)
    ensures Parse(Parse(s).rest) == Parsed([], Parse(s).rest)
    decreases |s|
  {
    hide FramesOf, Find;
    if Find(s, BREAK).Some? { RestIsPartial(s[Find(s, BREAK).value + |BREAK|..]); }
  }

  /** However the stream is cut into pieces, the frames are those of the whole. */
  lemma {:induction false} CutsAreInvisible(rest: string, pieces: seq<string>)
    requires Parse(rest) == Parsed([], rest)
    ensures Feed(rest, pieces) == Parse(rest + Concat(pieces))
    decreases |pieces|
  {
    hide Parse;
    if pieces == [] {
      assert rest + "" == rest;
    } else {
      var first := Parse(rest + pieces[0]);
      RestIsPartial(rest + pieces[0]);
      CutsAreInvisible(first.rest, pieces[1..]);
      ParseInTwo(rest + pieces[0], Concat(pieces[1..]));
      assert rest + Concat(pieces) == rest + pieces[0] + Concat(pieces[1..]);
    }
  }

  // ----- What the server writes -----

  datatype Item = Ping | Event(frame: SseFrame)

  const PING := ": ping\n\n"

  function EventText(f: SseFrame): string {
    "event: " + f.event + "\ndata: " + f.data + BREAK
  }

  function ItemText(item: Item): string {
    match item
    case Ping => PING
    case Event(f) => EventText(f)
  }

  function Wire(items: seq<Item>): string {
    if items == [] then "" else ItemText(items[0]) + Wire(items[1..])
  }

  /** The frames among the items. */
  function Sent(items: seq<Item>): seq<SseFrame> {
    if items == [] then [] else SentBy(items[0]) + Sent(items[1..])
  }

  function SentBy(item: Item): seq<SseFrame> {
    if item.Event? then [item.frame] else []
  }

  predicate OneLine(s: string) {
    forall i :: 0 <= i < |s| ==> !IsLineTerminator(s[i])
  }

  predicate Clean(f: SseFrame) {
    OneLine(f.event) && OneLine(f.data)
  }

  lemma UpToTerminatorOfLine(s: string)
    requires OneLine(s)
    ensures UpToTerminator(s) == s
  {
  }

  lemma NoLineFeed(s: string)
    requires OneLine(s)
    ensures '\n' !in s
  {
  }

  lemma LinesOfOne(a: string)
    requires '\n' !in a
    ensures Lines(a) == [a]
  {
    IndexOfNone(a, '\n');
  }

  lemma LinesOfTwo(a: string, b: string)
    requires '\n' !in a && '\n' !in b
    ensures Lines(a + ['\n'] + b) == [a, b]
  {
    var s := a + ['\n'] + b;
    IndexOfFirst(a, '\n', b);
    LinesOfOne(b);
    assert s[..|a|] == a && s[|a| + 1..] == b;
  }

  lemma FieldsOfTwo(e: string, d: string, lines: seq<string>)
    requires lines == ["event: " + e, "data: " + d]
    ensures FirstField(lines, "event: ") == Some(UpToTerminator(e))
    ensures FirstField(lines, "data: ") == Some(UpToTerminator(d))
  {
    hide UpToTerminator;
    var a, b := lines[0], lines[1];
    assert a[..7] == "event: " && a[7..] == e;
    assert b[..6] == "data: " && b[6..] == d;
    assert a[0] == 'e';
    assert lines[1..] == [b];
  }

  /** A frame's text reads back as the parts of its fields that one line holds. */
  lemma TwoLines(e: string, d: string)
    requires '\n' !in e && '\n' !in d
    ensures FramesOf("event: " + e + ['\n'] + ("data: " + d)) == [SseFrame(UpToTerminator(e), UpToTerminator(d))]
  {
    hide UpToTerminator, Lines, FirstField;
    var a, b := "event: " + e, "data: " + d;
    LinesOfTwo(a, b);
    FieldsOfTwo(e, d, [a, b]);
    assert (a + ['\n'] + b)[0] == a[0] == 'e';
  }

  lemma FrameReadsBack(f: SseFrame)
    requires Clean(f)
    ensures FramesOf("event: " + f.event + ['\n'] + ("data: " + f.data)) == [f]
  {
    hide FramesOf;
    NoLineFeed(f.event);
    NoLineFeed(f.data);
    TwoLines(f.event, f.data);
    UpToTerminatorOfLine(f.event);
    UpToTerminatorOfLine(f.data);
  }

  /** A blank line ends at n, and none before. */
  lemma BreakIs(raw: string, after: string)
    requires raw != [] && raw[|raw| - 1] != '\n'
    requires forall i :: 0 <= i < |raw| - 1 ==> !(raw[i] == '\n' && raw[i + 1] == '\n')
    ensures Find(raw + BREAK + after, BREAK) == Some(|raw|)
  {
    var all := raw + BREAK + after;
    assert all[|raw|..|raw| + 2] == BREAK;
    forall i | 0 <= i < |raw| ensures !OccursAt(all, BREAK, i) {
      assert all[i] == raw[i];
      if i < |raw| - 1 { assert all[i + 1] == raw[i + 1]; }
      assert i + 2 <= |all| ==> all[i..i + 2][0] == all[i] && all[i..i + 2][1] == all[i + 1];
    }
    FindIs(all, BREAK, |raw|);
  }

  lemma OneItem(raw: string, after: string)
    requires raw != [] && raw[|raw| - 1] != '\n'
    requires forall i :: 0 <= i < |raw| - 1 ==> !(raw[i] == '\n' && raw[i + 1] == '\n')
    ensures Parse(raw + BREAK + after) == Parsed(FramesOf(raw) + Parse(after).frames, Parse(after).rest)
  {
    hide FramesOf, Find;
    var all := raw + BREAK + after;
    BreakIs(raw, after);
    ParseUnfolds(all, |raw|);
    assert all[..|raw|] == raw && all[|raw| + |BREAK|..] == after;
  }

  lemma PingParses(after: string)
    ensures Parse(PING + after) == Parse(after)
  {
    hide Parse;
    var raw := ": ping";
    assert PING + after == raw + BREAK + after;
    OneItem(raw, after);
  }

  lemma EventParses(f: SseFrame, after: string)
    requires Clean(f)
    ensures Parse(EventText(f) + after) == Parsed([f] + Parse(after).frames, Parse(after).rest)
  {
    hide Parse, FramesOf;
    var a, b := "event: " + f.event, "data: " + f.data;
    var raw := a + ['\n'] + b;
    FrameReadsBack(f);
    NoLineFeed(f.event);
    NoLineFeed(f.data);
    assert EventText(f) + after == raw + BREAK + after;
    assert '\n' !in a && '\n' !in b;
    assert b[|b| - 1] in b && raw[|raw| - 1] == b[|b| - 1];
    NoBreakInside(a, b);
    OneItem(raw, after);
  }

  lemma NoBreakInside(a: string, b: string)
    requires '\n' !in a && '\n' !in b
    ensures var raw := a + ['\n'] + b; forall i :: 0 <= i < |raw| - 1 ==> !(raw[i] == '\n' && raw[i + 1] == '\n')
  {
    var raw := a + ['\n'] + b;
    forall i | 0 <= i < |raw| - 1 ensures !(raw[i] == '\n' && raw[i + 1] == '\n') {
      assert i < |a| ==> raw[i] in a;
      assert i >= |a| ==> raw[i + 1] in b;
    }
  }

  /** No parsed field ever holds a line terminator. */
  lemma {:induction false} FieldsAreClean(lines: seq<string>, name: string)
    ensures FirstField(lines, name).Some? ==> OneLine(FirstField(lines, name).value)
    decreases lines
  {
    if lines != [] { FieldsAreClean(lines[1..], name); }
  }

  lemma {:induction false} FramesAreClean(buffer: string)
    ensures forall k :: 0 <= k < |Parse(buffer).frames| ==> Clean(Parse(buffer).frames[k])
    decreases |buffer|
  {
    hide FirstField, Lines, OneLine;
    if Find(buffer, BREAK).Some? {
      var n := Find(buffer, BREAK).value;
      FieldsAreClean(Lines(buffer[..n]), "event: ");
      FieldsAreClean(Lines(buffer[..n]), "data: ");
      assert OneLine("message") && OneLine("") by { DefaultsAreClean(); }
      FramesAreClean(buffer[n + |BREAK|..]);
    }
  }

  lemma DefaultsAreClean()
    ensures OneLine("message") && OneLine("")
  {
  }

  lemma {:induction false} CleanItemsReadBack(items: seq<Item>)
    requires forall k :: 0 <= k < |Sent(items)| ==> Clean(Sent(items)[k])
    ensures Parse(Wire(items)) == Parsed(Sent(items), "")
    decreases items
  {
    hide Clean, EventText;
    if items == [] {
      assert Find("", BREAK) == None;
    } else {
      var later := Wire(items[1..]);
      hide Parse, Find;
      var own := SentBy(items[0]);
      forall k | 0 <= k < |Sent(items[1..])| ensures Clean(Sent(items[1..])[k]) {
        assert Sent(items)[|own| + k] == Sent(items[1..])[k];
      }
      CleanItemsReadBack(items[1..]);
      match items[0]
      case Ping => PingParses(later);
      case Event(f) =>
        assert Sent(items)[0] == f;
        EventParses(f, later);
    }
  }

  /** The client recovers exactly the frames sent, whatever pings lie between and
      however the stream is cut, if and only if no event or payload holds a line
      terminator. U+2028 and U+2029 are the ones JSON leaves in. */
  lemma RecoveredIffClean(items: seq<Item>, pieces: seq<string>)
    requires Concat(pieces) == Wire(items)
    ensures Feed("", pieces).frames == Sent(items) <==> forall k :: 0 <= k < |Sent(items)| ==> Clean(Sent(items)[k])
  {
    hide Clean;
    assert Parse("") == Parsed([], "") by { assert Find("", BREAK) == None; }
    hide Parse, Feed;
    CutsAreInvisible("", pieces);
    assert "" + Wire(items) == Wire(items);
    FramesAreClean(Wire(items));
    if forall k :: 0 <= k < |Sent(items)| ==> Clean(Sent(items)[k]) { CleanItemsReadBack(items); }
  }

  /** A payload with such a character arrives cut short. */
  lemma SeparatorCutsPayload(event: string, a: string, b: string)
    requires OneLine(event) && OneLine(a) && '\n' !in b
    ensures Parse(EventText(SseFrame(event, a + ['\U{2028}'] + b))).frames == [SseFrame(event, a)]
  {
    hide FramesOf, UpToTerminator;
    var f := SseFrame(event, a + ['\U{2028}'] + b);
    var x, y := "event: " + event, "data: " + f.data;
    NoLineFeed(event);
    NoLineFeed(a);
    var raw := x + ['\n'] + y;
    assert EventText(f) == raw + BREAK + "";
    assert '\n' !in x && '\n' !in y;
    NoBreakInside(x, y);
    assert y[|y| - 1] in y && raw[|raw| - 1] == y[|y| - 1];
    OneItem(raw, "");
    TwoLines(event, f.data);
    UpToTerminatorOfLine(event);
    UpToTerminatorCuts(a, b);
    assert Parse("") == Parsed([], "") by { assert Find("", BREAK) == None; }
  }

  lemma UpToTerminatorCuts(a: string, b: string)
    requires OneLine(a)
    ensures UpToTerminator(a + ['\U{2028}'] + b) == a
  {
    var s := a + ['\U{2028}'] + b;
    var r := UpToTerminator(s);
    assert s[|a|] == '\U{2028}';
    assert s[..|a|] == a;
    assert forall k :: 0 <= k < |a| ==> s[k] == a[k] && !IsLineTerminator(a[k]);
    assert r == s[..|r|];
  }
}
