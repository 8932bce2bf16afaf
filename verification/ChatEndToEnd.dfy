/** From the server's writes to the client's transcript. */
module ChatEndToEnd {
  import opened Common
  import opened Sse
  import opened PromptAssembly
  import opened PromptFence
  import opened ChatServer
  import opened ChatRepository
  import opened ChatClient

  /** Encoding on the server, decoding on the client. */
  datatype Codec = Codec(
    token: string -> string, done: (bool, seq<Citations.Citation>, nat) -> string,
    error: (string, Option<bool>) -> string, json: Json)

  /** A citation without the offsets the client does not keep. */
  function ViewOf(c: Citations.Citation): SourceCitation {
    SourceCitation(c.marker, c.documentId, c.title, c.page, c.section, c.snippet)
  }

  function AllViews(citations: seq<Citations.Citation>): seq<SourceCitation> {
    if citations == [] then [] else [ViewOf(citations[0])] + AllViews(citations[1..])
  }

  /** Decoding undoes encoding. */
  ghost predicate Faithful(codec: Codec) {
    && (forall t :: codec.json.tokenOf(codec.token(t)) == Some(t))
    && (forall g, c, l :: codec.json.doneOf(codec.done(g, c, l)) == Some(DonePayload(g, AllViews(c))))
  }

  // ----- The wire -----

  function FramesFor(codec: Codec, w: Write): seq<SseFrame> {
    match w
    case PingComment => []
    case TokenFrame(t) => [SseFrame("token", codec.token(t))]
    case DoneFrame(g, c, l) => [SseFrame("done", codec.done(g, c, l))]
    case ErrorFrame(m, r) => [SseFrame("error", codec.error(m, r))]
  }

  function ItemOf(codec: Codec, w: Write): Item {
    if w.PingComment? then Ping else Event(FramesFor(codec, w)[0])
  }

  function Items(codec: Codec, out: seq<Write>): seq<Item> {
    if out == [] then [] else Items(codec, out[..|out| - 1]) + [ItemOf(codec, out[|out| - 1])]
  }

  function Frames(codec: Codec, out: seq<Write>): seq<SseFrame> {
    if out == [] then [] else Frames(codec, out[..|out| - 1]) + FramesFor(codec, out[|out| - 1])
  }

  lemma {:induction false} SentOfConcat(a: seq<Item>, b: seq<Item>)
    ensures Sse.Sent(a + b) == Sse.Sent(a) + Sse.Sent(b)
    decreases a
  {
    hide SentBy;
    if a == [] {
      assert a + b == b;
    } else {
      assert (a + b)[1..] == a[1..] + b;
      SentOfConcat(a[1..], b);
    }
  }

  lemma {:induction false} SentFrames(codec: Codec, out: seq<Write>)
    ensures Sse.Sent(Items(codec, out)) == Frames(codec, out)
    decreases out
  {
    if out != [] {
      var w := out[|out| - 1];
      SentFrames(codec, out[..|out| - 1]);
      SentOfConcat(Items(codec, out[..|out| - 1]), [ItemOf(codec, w)]);
      assert [ItemOf(codec, w)][1..] == [];
      assert Sse.Sent([ItemOf(codec, w)]) == FramesFor(codec, w);
    }
  }

  /** No encoded payload holds a line terminator. */
  ghost predicate PlainPayloads(codec: Codec, out: seq<Write>) {
    forall k :: 0 <= k < |Frames(codec, out)| ==> Clean(Frames(codec, out)[k])
  }

  // ----- What the client makes of it -----

  function SeenAs(w: Write): seq<ChatStreamEvent> {
    match w
    case PingComment => []
    case TokenFrame(t) => [TokenChunk(t)]
    case DoneFrame(g, c, _) => [StreamDone(g, AllViews(c))]
    case ErrorFrame(_, _) => [StreamErrorFrame("Generation failed.")]
  }

  function Seen(out: seq<Write>): seq<ChatStreamEvent> {
    if out == [] then [] else Seen(out[..|out| - 1]) + SeenAs(out[|out| - 1])
  }

  lemma OneSeen(codec: Codec, w: Write)
    requires Faithful(codec)
    ensures Delivered(codec.json, FramesFor(codec, w)) == SeenAs(w)
  {
    if !w.PingComment? {
      assert FramesFor(codec, w)[1..] == [];
    }
  }

  lemma {:induction false} OpenIsNotEnded(out: seq<Write>)
    requires Open(out)
    ensures !Ended(Seen(out))
    decreases out
  {
    if out != [] {
      OpenIsNotEnded(out[..|out| - 1]);
      assert !out[|out| - 1].Terminal();
    }
  }

  lemma {:induction false} DeliveredIsSeen(codec: Codec, out: seq<Write>)
    requires Faithful(codec) && WellFormed(out)
    ensures Delivered(codec.json, Frames(codec, out)) == Seen(out)
    decreases out
  {
    hide Faithful, Delivered, FramesFor, SeenAs;
    if out == [] {
      assert Delivered(codec.json, []) == [] by { NoFrames(codec.json); }
    } else {
      var most := out[..|out| - 1];
      assert Open(most);
      DeliveredIsSeen(codec, most);
      OpenIsNotEnded(most);
      OneSeen(codec, out[|out| - 1]);
      DeliveredInTwo(codec.json, Frames(codec, most), FramesFor(codec, out[|out| - 1]));
    }
  }

  lemma NoFrames(json: Json)
    ensures Delivered(json, []) == []
  {
  }

  /** However the response is cut into chunks and whatever pings lie between, the client
      sees the server's tokens and its final frame, in order. */
  lemma ClientSeesWhatWasWritten(codec: Codec, out: seq<Write>, chunks: seq<string>)
    requires Faithful(codec) && WellFormed(out) && PlainPayloads(codec, out)
    requires Concat(chunks) == Wire(Items(codec, out))
    ensures Delivered(codec.json, Parse(Concat(chunks)).frames) == Seen(out)
  {
    hide Delivered, Parse, Feed, Clean, Faithful;
    SentFrames(codec, out);
    RecoveredIffClean(Items(codec, out), chunks);
    assert Parse("") == Parsed([], "") by { EmptyBuffer(); }
    CutsAreInvisible("", chunks);
    assert "" + Concat(chunks) == Concat(chunks);
    DeliveredIsSeen(codec, out);
  }

  // ----- A connection that breaks -----

  lemma WholeStream(codec: Codec, out: seq<Write>)
    requires Faithful(codec) && WellFormed(out) && PlainPayloads(codec, out)
    ensures Delivered(codec.json, Parse(Wire(Items(codec, out))).frames) == Seen(out)
  {
    hide Delivered, Parse, Feed, Faithful, Seen, PlainPayloads, Items;
    assert Wire(Items(codec, out)) + "" == Wire(Items(codec, out));
    assert Concat([Wire(Items(codec, out))]) == Wire(Items(codec, out)) by { OneChunk(Wire(Items(codec, out))); }
    ClientSeesWhatWasWritten(codec, out, [Wire(Items(codec, out))]);
  }

  lemma OneChunk(s: string)
    ensures Concat([s]) == s
  {
    assert [s][1..] == [] && s + "" == s;
  }

  /** Wherever a disconnect or a destroyed socket cuts the response, the client sees a
      beginning of what it would have seen. */
  lemma CutResponseIsAPrefix(codec: Codec, out: seq<Write>, received: string, lost: string, chunks: seq<string>)
    requires Faithful(codec) && WellFormed(out) && PlainPayloads(codec, out)
    requires received + lost == Wire(Items(codec, out)) && Concat(chunks) == received
    ensures Delivered(codec.json, Parse(Concat(chunks)).frames) <= Seen(out)
  {
    hide Delivered, Parse, Faithful, Seen, PlainPayloads, Items;
    WholeStream(codec, out);
    ParseInTwo(received, lost);
    DeliveredInTwo(codec.json, Parse(received).frames, Parse(Parse(received).rest + lost).frames);
  }

  /** A beginning of what is seen is what is seen of a beginning. */
  lemma {:induction false} SeenOfBeginning(out: seq<Write>, events: seq<ChatStreamEvent>) returns (n: nat)
    requires events <= Seen(out)
    ensures n <= |out| && Seen(out[..n]) == events
    decreases out
  {
    if events == Seen(out) {
      n := |out|;
      assert out[..n] == out;
    } else {
      var most := out[..|out| - 1];
      assert |SeenAs(out[|out| - 1])| <= 1;
      assert events <= Seen(most);
      n := SeenOfBeginning(most, events);
      assert most[..n] == out[..n];
    }
  }

  lemma {:induction false} TextOfBeginning(out: seq<Write>, n: nat)
    requires n <= |out|
    ensures TokenText(out[..n]) <= TokenText(out)
    decreases out
  {
    if n < |out| {
      var most := out[..|out| - 1];
      TextOfBeginning(most, n);
      assert most[..n] == out[..n];
    } else {
      assert out[..n] == out;
    }
  }

  /** So an answer that a broken connection leaves unfinished is a beginning of the
      server's text, never something else. */
  lemma CutAnswerIsABeginning(codec: Codec, out: seq<Write>, received: string, lost: string, chunks: seq<string>, question: string, id: nat)
    requires Faithful(codec) && WellFormed(out) && PlainPayloads(codec, out)
    requires received + lost == Wire(Items(codec, out)) && Concat(chunks) == received
    requires !Ended(Delivered(codec.json, Parse(Concat(chunks)).frames))
    ensures var p := Played(question, Delivered(codec.json, Parse(Concat(chunks)).frames), id);
            p.phase.Live? && p.turn.answers == [] && ConcatTokens(p.turn.tokens) <= TokenText(out)
  {
    hide Delivered, Parse, Faithful, PlainPayloads, Items, Played, Wire, TokenText;
    CutResponseIsAPrefix(codec, out, received, lost, chunks);
    var n := SeenOfBeginning(out, Delivered(codec.json, Parse(Concat(chunks)).frames));
    NotEndedIsOpen(out[..n]);
    TokensArrive(question, out[..n], id);
    TextOfBeginning(out, n);
  }

  lemma NotEndedIsOpen(out: seq<Write>)
    requires WellFormed(out) && !Ended(Seen(out))
    ensures Open(out)
  {
    if out != [] { assert Seen(out) == Seen(out[..|out| - 1]) + SeenAs(out[|out| - 1]); }
  }

  // ----- The transcript -----

  /** The turn of send `id` after its stream delivered the events. */
  function Played(question: string, events: seq<ChatStreamEvent>, id: nat): Progress {
    Replay(question, Deliveries(events, id), id)
  }

  lemma OneMorePlayed(question: string, events: seq<ChatStreamEvent>, e: ChatStreamEvent, id: nat)
    ensures Played(question, events + [e], id) == Advance(Played(question, events, id), Deliver(id, e), id)
  {
    hide Advance;
    assert (events + [e])[..|events|] == events;
    var inputs := Deliveries(events, id);
    assert (inputs + [Deliver(id, e)])[..|inputs|] == inputs;
  }

  lemma NonePlayed(question: string, id: nat)
    ensures Played(question, [], id) == FreshTurn(question)
  {
  }

  lemma SplitLast(out: seq<Write>)
    requires out != []
    ensures var most, w := out[..|out| - 1], out[|out| - 1];
            Seen(out) == Seen(most) + SeenAs(w) && TokenText(out) == TokenText(most) + if w.TokenFrame? then w.text else ""
  {
  }

  /** The turn is still open and has collected this text. */
  ghost predicate Collected(p: Progress, question: string, text: string) {
    p.phase.Live? && p.turn.answers == [] && p.turn.question == question && ConcatTokens(p.turn.tokens) == text
  }

  lemma TokenAdds(p: Progress, question: string, text: string, t: string, id: nat)
    requires Collected(p, question, text)
    ensures Collected(Advance(p, Deliver(id, TokenChunk(t)), id), question, text + t)
  {
    TokensOfMore(p.turn.tokens, t);
  }

  /** While the stream is open the turn collects the text of the token frames. */
  lemma {:induction false} TokensArrive(question: string, out: seq<Write>, id: nat)
    requires Open(out)
    ensures Collected(Played(question, Seen(out), id), question, TokenText(out))
    decreases out
  {
    hide Played, Advance;
    if out == [] {
      NonePlayed(question, id);
      assert ConcatTokens([]) == "";
    } else {
      var most, w := out[..|out| - 1], out[|out| - 1];
      assert !w.Terminal();
      TokensArrive(question, most, id);
      SplitLast(out);
      hide Seen, TokenText, Collected;
      if w.TokenFrame? {
        OneMorePlayed(question, Seen(most), TokenChunk(w.text), id);
        TokenAdds(Played(question, Seen(most), id), question, TokenText(most), w.text, id);
      } else {
        assert Seen(most) + [] == Seen(most) && TokenText(most) + "" == TokenText(most);
      }
    }
  }

  lemma DoneCompletes(p: Progress, question: string, text: string, grounded: bool, citations: seq<SourceCitation>, id: nat)
    requires Collected(p, question, text)
    ensures AnswersOf(Advance(p, Deliver(id, StreamDone(grounded, citations)), id).turn)
            == [ChatMessage(Assistant, text, citations, Some(grounded))]
  {
    AnswersOfMore(p.turn, Completion(citations, grounded));
    assert AnswerMessages(text, []) == [];
  }

  lemma DoneArrives(question: string, out: seq<Write>, id: nat)
    requires WellFormed(out) && out != [] && out[|out| - 1].DoneFrame?
    ensures var done := out[|out| - 1];
            AnswersOf(Played(question, Seen(out), id).turn)
            == [ChatMessage(Assistant, TokenText(out), AllViews(done.citations), Some(done.grounded))]
  {
    hide Played, Advance;
    var most, done := out[..|out| - 1], out[|out| - 1];
    assert Open(most);
    TokensArrive(question, most, id);
    SplitLast(out);
    hide Seen, TokenText, Collected;
    assert TokenText(most) + "" == TokenText(most);
    OneMorePlayed(question, Seen(most), StreamDone(done.grounded, AllViews(done.citations)), id);
    DoneCompletes(Played(question, Seen(most), id), question, TokenText(most), done.grounded, AllViews(done.citations), id);
  }

  /** A run that ends in a done frame leaves exactly one assistant message: the text the
      server streamed, with the citations of the sources that text cites. */
  lemma AnswerReachesTheTranscript(codec: Codec, out: seq<Write>, sources: seq<AssembledSource>, chunks: seq<string>, question: string, id: nat)
    requires WellFormed(out) && Truthful(out, sources) && out != [] && out[|out| - 1].DoneFrame?
    requires Faithful(codec) && PlainPayloads(codec, out) && Concat(chunks) == Wire(Items(codec, out))
    ensures var answer, citations := TokenText(out), Citations.CitationsOf(TokenText(out), sources);
            AnswersOf(Played(question, Delivered(codec.json, Parse(Concat(chunks)).frames), id).turn)
            == [ChatMessage(Assistant, answer, AllViews(citations), Some(citations != []))]
  {
    hide Played, Delivered, Parse, Citations.CitationsOf, Wire;
    ClientSeesWhatWasWritten(codec, out, chunks);
    DoneArrives(question, out, id);
  }

  /** From the model to the screen: whatever else happened to the request, once it is
      answered with a done frame the client's message is the text the model produced while
      the request was open (or the refusal), with the citations of exactly the sources it cites. */
  lemma ModelTextReachesTheTranscript(consumer: bool, stimuli: seq<Stimulus>, codec: Codec, out: seq<Write>, sources: seq<AssembledSource>,
                                      chunks: seq<string>, question: string, id: nat)
    requires WellFormed(out) && Truthful(out, sources)
    requires TokenText(out) == Heard(consumer, stimuli) && EndingOf(out) == HowEnded(consumer, stimuli) == WithDone
    requires Faithful(codec) && PlainPayloads(codec, out) && Concat(chunks) == Wire(Items(codec, out))
    ensures var answer, citations := Heard(consumer, stimuli), Citations.CitationsOf(Heard(consumer, stimuli), sources);
            AnswersOf(Played(question, Delivered(codec.json, Parse(Concat(chunks)).frames), id).turn)
            == [ChatMessage(Assistant, answer, AllViews(citations), Some(citations != []))]
  {
    assert out != [] && out[|out| - 1].DoneFrame?;
    hide Played, Delivered, Parse, Citations.CitationsOf, Wire, Heard, HowEnded, TokenText, Truthful, WellFormed, Faithful;
    AnswerReachesTheTranscript(codec, out, sources, chunks, question, id);
  }

  /** What the client shows of a citation is the document, place and text of source s. */
  ghost predicate Names(v: SourceCitation, s: AssembledSource) {
    && v.marker == s.marker && v.documentId == s.documentId && v.title == s.title && v.page == s.page && v.section == s.section
    && v.snippet <= s.content && (|v.snippet| == 300 || v.snippet == s.content)
  }

  lemma {:induction false} AllViewsAt(citations: seq<Citations.Citation>, k: nat)
    requires k < |citations|
    ensures |AllViews(citations)| == |citations| && AllViews(citations)[k] == ViewOf(citations[k])
    decreases citations
  {
    if |citations| > 1 {
      AllViewsAt(citations[1..], if k > 0 then k - 1 else 0);
    } else {
      assert citations[1..] == [];
    }
  }

  lemma CitedIsShown(citations: seq<Citations.Citation>, s: AssembledSource)
    requires Citations.IsCited(citations, s)
    ensures exists k :: 0 <= k < |AllViews(citations)| && Names(AllViews(citations)[k], s)
  {
    var k :| 0 <= k < |citations| && Citations.Describes(citations[k], s);
    AllViewsAt(citations, k);
    assert Names(AllViews(citations)[k], s);
  }

  /** An answer with the number of a source in square brackets, wherever in the model's
      text, is shown as grounded and with a citation of that very source. */
  lemma MarkerReachesTheTranscript(consumer: bool, stimuli: seq<Stimulus>, codec: Codec, out: seq<Write>, sources: seq<AssembledSource>,
                                   chunks: seq<string>, question: string, id: nat, before: string, m: nat, after: string)
    returns (citations: seq<SourceCitation>)
    requires WellFormed(out) && Truthful(out, sources) && Citations.Numbered(sources, 1)
    requires TokenText(out) == Heard(consumer, stimuli) && EndingOf(out) == HowEnded(consumer, stimuli) == WithDone
    requires Faithful(codec) && PlainPayloads(codec, out) && Concat(chunks) == Wire(Items(codec, out))
    requires Heard(consumer, stimuli) == before + "[" + Decimal(m) + "]" + after && 1 <= m <= |sources|
    ensures AnswersOf(Played(question, Delivered(codec.json, Parse(Concat(chunks)).frames), id).turn)
            == [ChatMessage(Assistant, before + "[" + Decimal(m) + "]" + after, citations, Some(true))]
    ensures exists k :: 0 <= k < |citations| && Names(citations[k], sources[m - 1])
  {
    assert out != [] && out[|out| - 1].DoneFrame?;
    Citations.MarkerRoundTrip(before, m, after);
    hide Played, Delivered, Parse, Citations.CitationsOf, Citations.Numbered, Citations.Cites, Citations.IsCited, Wire, Heard, HowEnded,
         TokenText, Truthful, WellFormed, Faithful, Decimal, Names, AllViews, CitesOneOf;
    var answer := Heard(consumer, stimuli);
    ModelTextReachesTheTranscript(consumer, stimuli, codec, out, sources, chunks, question, id);
    CitedSourcesAreCited(answer, sources);
    SomeAreCited(answer, sources);
    assert CitesOneOf(answer, |sources|) by { OneIsCited(answer, m, |sources|); }
    CitedIsShown(Citations.CitationsOf(answer, sources), sources[m - 1]);
    citations := AllViews(Citations.CitationsOf(answer, sources));
  }

  lemma OneIsCited(answer: string, m: nat, n: nat)
    requires 1 <= m <= n && Citations.Cites(answer, m)
    ensures CitesOneOf(answer, n)
  {
  }
}
