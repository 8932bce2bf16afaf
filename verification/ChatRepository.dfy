/** The mobile client's side of the wire: text chunks in, chat events out. */
module ChatRepository {
  import opened Common
  import opened Text
  import opened Sse

  /** A citation as the client keeps it: without the offsets. */
  datatype SourceCitation = SourceCitation(
    marker: int, documentId: string, title: string, page: Option<int>, section: Option<string>, snippet: string)

  datatype ChatStreamEvent =
    | TokenChunk(text: string)
    | StreamDone(grounded: bool, citations: seq<SourceCitation>)
    | StreamErrorFrame(message: string)

  datatype DonePayload = DonePayload(grounded: bool, citations: seq<SourceCitation>)

  /** Decoding JSON payloads; None for a malformed one. */
  datatype Json = Json(tokenOf: string -> Option<string>, doneOf: string -> Option<DonePayload>)

  function EventOf(json: Json, frame: SseFrame): Option<ChatStreamEvent> {
    if frame.event == "token" then
      match json.tokenOf(frame.data)
      case Some(t) => Some(TokenChunk(t))
      case None => None
    else if frame.event == "done" then
      match json.doneOf(frame.data)
      case Some(d) => Some(StreamDone(d.grounded, d.citations))
      case None => None
    else if frame.event == "error" then Some(StreamErrorFrame("Generation failed."))
    else None
  }

  /** The events of the frames, malformed and unknown ones skipped, up to the first terminal one. */
  function Delivered(json: Json, frames: seq<SseFrame>): seq<ChatStreamEvent> {
    if frames == [] then []
    else match EventOf(json, frames[0])
      case None => Delivered(json, frames[1..])
      case Some(e) => [e] + if e.TokenChunk? then Delivered(json, frames[1..]) else []
  }

  ghost predicate Ended(events: seq<ChatStreamEvent>) {
    events != [] && !events[|events| - 1].TokenChunk?
  }

  lemma {:induction false} DeliveredInTwo(json: Json, a: seq<SseFrame>, b: seq<SseFrame>)
    ensures Ended(Delivered(json, a)) ==> Delivered(json, a + b) == Delivered(json, a)
    ensures !Ended(Delivered(json, a)) ==> Delivered(json, a + b) == Delivered(json, a) + Delivered(json, b)
    decreases a
  {
    hide EventOf;
    if a == [] {
      assert a + b == b;
    } else {
      assert (a + b)[1..] == a[1..] + b;
      DeliveredInTwo(json, a[1..], b);
      var rest := Delivered(json, a[1..]);
      match EventOf(json, a[0])
      case None =>
      case Some(e) =>
        if e.TokenChunk? {
          assert Delivered(json, a) == [e] + rest;
          assert Ended(Delivered(json, a)) <==> Ended(rest);
        }
    }
  }

  /** Only the last event can be terminal. */
  lemma {:induction false} OneTerminal(json: Json, frames: seq<SseFrame>)
    ensures forall k :: 0 <= k < |Delivered(json, frames)| - 1 ==> Delivered(json, frames)[k].TokenChunk?
    decreases frames
  {
    hide EventOf;
    if frames != [] { OneTerminal(json, frames[1..]); }
  }

  /** Whatever the client does not know or cannot read is passed over, at any place. */
  lemma UnreadableIsSkipped(json: Json, a: seq<SseFrame>, f: SseFrame, b: seq<SseFrame>)
    requires || f.event !in {"token", "done", "error"}
             || (f.event == "token" && json.tokenOf(f.data) == None)
             || (f.event == "done" && json.doneOf(f.data) == None)
    ensures Delivered(json, a + [f] + b) == Delivered(json, a + b)
  {
    assert EventOf(json, f) == None;
    hide EventOf;
    assert a + [f] + b == a + ([f] + b) && ([f] + b)[1..] == b;
    DeliveredInTwo(json, a, [f] + b);
    DeliveredInTwo(json, a, b);
  }

  /** The events of the three kinds of frames, and that the last two end the stream. */
  lemma FirstFrame(json: Json, data: string, b: seq<SseFrame>)
    ensures json.tokenOf(data).Some? ==>
              Delivered(json, [SseFrame("token", data)] + b) == [TokenChunk(json.tokenOf(data).value)] + Delivered(json, b)
    ensures json.doneOf(data).Some? ==>
              Delivered(json, [SseFrame("done", data)] + b)
              == [StreamDone(json.doneOf(data).value.grounded, json.doneOf(data).value.citations)]
    ensures Delivered(json, [SseFrame("error", data)] + b) == [StreamErrorFrame("Generation failed.")]
  {
    assert ([SseFrame("token", data)] + b)[1..] == b;
  }

  lemma DeliverOne(json: Json, frames: seq<SseFrame>, k: nat)
    requires k < |frames| && !Ended(Delivered(json, frames[..k]))
    ensures Delivered(json, frames[..k + 1])
            == Delivered(json, frames[..k]) + if EventOf(json, frames[k]).Some? then [EventOf(json, frames[k]).value] else []
  {
    hide EventOf;
    assert frames[..k + 1] == frames[..k] + [frames[k]];
    DeliveredInTwo(json, frames[..k], [frames[k]]);
    assert [frames[k]][1..] == [];
  }

  /** The loop over the frames of one chunk; stops after a terminal event. */
  method DeliverFrames(json: Json, frames: seq<SseFrame>) returns (events: seq<ChatStreamEvent>)
    ensures events == Delivered(json, frames)
  {
    hide Delivered, EventOf, Ended;
    events := [];
    NothingYet(json, frames);
    var k := 0;
    assert frames[..0] == [];
    while k < |frames|
      invariant 0 <= k <= |frames|
      invariant events == Delivered(json, frames[..k]) && !Ended(events)
    {
      var event := EventOf(json, frames[k]);
      DeliverOne(json, frames, k);
      k := k + 1;
      if event.None? { continue; }
      events := events + [event.value];
      if !event.value.TokenChunk? {
        TerminalEnds(events);
        DeliveredInTwo(json, frames[..k], frames[k..]);
        assert frames == frames[..k] + frames[k..];
        return;
      }
      TokenGoesOn(events);
    }
    assert frames[..k] == frames;
  }

  /** How a request or its stream can break off. */
  datatype Failure = Cancelled | Connection | Other

  /** The stream of events and how it ended, None for an orderly close: only the last
      event is terminal, and behind a terminal event the stream closes. */
  ghost predicate ReaderStream(events: seq<ChatStreamEvent>, ended: Option<Failure>) {
    && (forall k :: 0 <= k < |events| - 1 ==> events[k].TokenChunk?)
    && (Ended(events) ==> ended == None)
  }

  /** Whatever the chunks, and whether or not the response breaks off behind them, the
      events are those of the frames of the whole stream. The reader returns at a terminal
      event, so a failure of the response comes through only if there was none. */
  method StreamAnswer(json: Json, chunks: seq<string>, failure: Option<Failure>)
    returns (events: seq<ChatStreamEvent>, ended: Option<Failure>)
    ensures events == Delivered(json, Parse(Concat(chunks)).frames)
    ensures ended == (if Ended(events) then None else failure)
    ensures ReaderStream(events, ended)
  {
    ended := None;
    hide Parse, Concat, Delivered, EventOf, Ended, Feed;
    events := [];
    var buffer := "";
    ghost var all := Parse(Concat(chunks)).frames;
    FeedIsParse(chunks);
    NothingYet(json, all);
    OneTerminal(json, all);
    var i := 0;
    while i < |chunks|
      invariant 0 <= i <= |chunks| && !Ended(events)
      invariant events + Delivered(json, Feed(buffer, chunks[i..]).frames) == Delivered(json, all)
    {
      NextChunk(buffer, chunks, i);
      buffer := buffer + chunks[i];
      var frames, rest := ParseSseFrames(buffer);
      buffer := rest;
      var more := DeliverFrames(json, frames);
      ghost var later := Feed(rest, chunks[i + 1..]).frames;
      DeliveredInTwo(json, frames, later);
      assert events + (more + Delivered(json, later)) == events + more + Delivered(json, later);
      EndedOfMore(events, more);
      events := events + more;
      i := i + 1;
      if |more| > 0 && !more[|more| - 1].TokenChunk? {
        TerminalEnds(more);
        assert events == events[..|events| - |more|] + more;
        return;
      }
      NotEnded(more);
    }
    NoChunks(buffer, chunks[i..]);
    assert events + [] == events;
    ended := failure;
  }

  lemma FeedIsParse(chunks: seq<string>)
    ensures Feed("", chunks[0..]).frames == Parse(Concat(chunks)).frames
  {
    hide Parse, Feed;
    assert chunks[0..] == chunks && "" + Concat(chunks) == Concat(chunks);
    assert Parse("") == Parsed([], "") by { EmptyBuffer(); }
    CutsAreInvisible("", chunks);
  }

  lemma EmptyBuffer()
    ensures Parse("") == Parsed([], "")
  {
    assert Find("", BREAK) == None;
  }

  lemma NothingYet(json: Json, all: seq<SseFrame>)
    ensures Delivered(json, []) == [] && !Ended([])
    ensures [] + Delivered(json, all) == Delivered(json, all)
  {
  }

  lemma NoChunks(buffer: string, chunks: seq<string>)
    requires chunks == []
    ensures Feed(buffer, chunks).frames == []
  {
  }

  lemma NextChunk(buffer: string, chunks: seq<string>, i: nat)
    requires i < |chunks|
    ensures Feed(buffer, chunks[i..]).frames
            == Parse(buffer + chunks[i]).frames + Feed(Parse(buffer + chunks[i]).rest, chunks[i + 1..]).frames
  {
    hide Parse;
    assert chunks[i..][1..] == chunks[i + 1..];
  }

  lemma EndedOfMore(events: seq<ChatStreamEvent>, more: seq<ChatStreamEvent>)
    requires !Ended(events)
    ensures Ended(events + more) <==> Ended(more)
  {
  }

  lemma NotEnded(more: seq<ChatStreamEvent>)
    requires more == [] || more[|more| - 1].TokenChunk?
    ensures !Ended(more)
  {
  }

  lemma TerminalEnds(events: seq<ChatStreamEvent>)
    requires events != [] && !events[|events| - 1].TokenChunk?
    ensures Ended(events)
  {
  }

  lemma TokenGoesOn(events: seq<ChatStreamEvent>)
    requires events != [] && events[|events| - 1].TokenChunk?
    ensures !Ended(events)
  {
  }
}
