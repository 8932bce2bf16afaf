/** The chat endpoint: one request, its callbacks and the stream it writes. */
module ChatServer {
  import opened Common
  import opened Corpus
  import opened Text
  import opened Sorting
  import opened PromptAssembly
  import opened Citations
  import Retrieval
  import opened PromptFence

  const REFUSAL_MESSAGE :=
    "I don't have" + " enough information" + " in the provided" + " sources to answer that."
  const MAX_SOURCES := 5

  /** What goes down the wire. */
  datatype Write =
    | PingComment
    | TokenFrame(text: string)
    | DoneFrame(grounded: bool, citations: seq<Citation>, latencyMs: nat)
    | ErrorFrame(message: string, retryable: Option<bool>)
  {
    predicate Terminal() {
      DoneFrame? || ErrorFrame?
    }
  }

  // ----- The shape of a stream -----

  /** Token frames and pings, then at most one done or error frame, then nothing. */
  ghost predicate WellFormed(out: seq<Write>) {
    forall k :: 0 <= k < |out| - 1 ==> !out[k].Terminal()
  }

  ghost predicate Open(out: seq<Write>) {
    forall k :: 0 <= k < |out| ==> !out[k].Terminal()
  }

  /** The text of the token frames, concatenated. */
  function TokenText(out: seq<Write>): string {
    if out == [] then ""
    else TokenText(out[..|out| - 1]) + if out[|out| - 1].TokenFrame? then out[|out| - 1].text else ""
  }

  /** A done frame tells the truth about the text that was streamed: its citations are
      those of the sources the text cites, and it is grounded exactly if there are any. */
  ghost predicate Truthful(out: seq<Write>, sources: seq<AssembledSource>) {
    out != [] && out[|out| - 1].DoneFrame? ==>
      && out[|out| - 1].citations == CitationsOf(TokenText(out), sources)
      && (out[|out| - 1].grounded <==> out[|out| - 1].citations != [])
  }

  lemma TokenTextOfMore(out: seq<Write>, w: Write)
    ensures TokenText(out + [w]) == TokenText(out) + if w.TokenFrame? then w.text else ""
  {
    assert (out + [w])[..|out|] == out;
  }

  lemma RefusalStarts()
    ensures REFUSAL_MESSAGE[0] == 'I'
  {
    var start := "I don't have";
    StartsAlike(start, " enough information");
    StartsAlike(start + " enough information", " in the provided");
    StartsAlike(start + " enough information" + " in the provided", " sources to answer that.");
  }

  lemma StartsAlike(a: string, b: string)
    requires a != []
    ensures (a + b)[0] == a[0]
  {
  }

  lemma RefusalEnds()
    ensures REFUSAL_MESSAGE[|REFUSAL_MESSAGE| - 1] == '.'
  {
  }

  lemma RefusalIsTrimmed()
    ensures Trimmed(REFUSAL_MESSAGE)
  {
    RefusalStarts();
    RefusalEnds();
  }

  lemma RefusalHasNoBracket()
    ensures '[' !in REFUSAL_MESSAGE
  {
    var a, b, c, d := "I don't have", " enough information", " in the provided", " sources to answer that.";
    assert '[' !in a;
    assert '[' !in b;
    assert '[' !in c;
    assert '[' !in d;
    assert '[' !in a + b + c + d;
  }

  /** The answer is the refusal, white space around it apart. */
  predicate Refused(answer: string) {
    Trim(answer) == REFUSAL_MESSAGE
  }

  lemma RefusedExactly(answer: string)
    ensures Refused(answer)
            <==> exists p: string, q: string :: AllSpace(p) && AllSpace(q) && answer == p + REFUSAL_MESSAGE + q
  {
    RefusalIsTrimmed();
    hide Trim, Trimmed, AllSpace;
    if Refused(answer) {
      var p, q := TrimTakesSpace(answer);
      assert answer == p + REFUSAL_MESSAGE + q;
    }
    if p: string, q: string :| AllSpace(p) && AllSpace(q) && answer == p + REFUSAL_MESSAGE + q {
      TrimOfPadded(p, REFUSAL_MESSAGE, q);
    }
  }

  /** A refusal cites nothing, so leaving its citations out changes nothing. */
  lemma RefusalCitesNothing(answer: string, sources: seq<AssembledSource>)
    requires Refused(answer)
    ensures CitationsOf(answer, sources) == []
  {
    RefusedExactly(answer);
    hide Refused, AllSpace;
    var p: string, q: string :| AllSpace(p) && AllSpace(q) && answer == p + REFUSAL_MESSAGE + q;
    RefusalHasNoBracket();
    SpaceHasNoBracket(p);
    SpaceHasNoBracket(q);
    NoBracketCitesNothing(answer, sources);
  }

  lemma SpaceHasNoBracket(s: string)
    requires AllSpace(s)
    ensures '[' !in s
  {
  }

  /** A frame that is not terminal keeps the stream open. */
  lemma GoesOn(out: seq<Write>, w: Write, sources: seq<AssembledSource>)
    requires Open(out) && !w.Terminal()
    ensures Open(out + [w]) && WellFormed(out + [w]) && Truthful(out + [w], sources)
    ensures TokenText(out + [w]) == TokenText(out) + if w.TokenFrame? then w.text else ""
  {
    hide CitationsOf;
    TokenTextOfMore(out, w);
  }

  lemma OpenIsTruthful(out: seq<Write>)
    requires Open(out)
    ensures forall sources :: Truthful(out, sources)
  {
    hide CitationsOf;
  }

  lemma Fails(out: seq<Write>, w: Write, sources: seq<AssembledSource>)
    requires Open(out) && w.ErrorFrame?
    ensures WellFormed(out + [w]) && Truthful(out + [w], sources)
  {
    hide CitationsOf;
  }

  lemma Finishes(out: seq<Write>, done: Write, sources: seq<AssembledSource>)
    requires Open(out) && done.DoneFrame? && done.citations == CitationsOf(TokenText(out), sources)
    requires done.grounded <==> done.citations != []
    ensures WellFormed(out + [done]) && Truthful(out + [done], sources)
  {
    hide CitationsOf;
    TokenTextOfMore(out, done);
    assert TokenText(out) + "" == TokenText(out);
  }

  lemma GateIsTruthful(out: seq<Write>, sources: seq<AssembledSource>, latencyMs: nat)
    requires Open(out) && TokenText(out) == ""
    ensures WellFormed(out + [TokenFrame(REFUSAL_MESSAGE)] + [DoneFrame(false, [], latencyMs)])
    ensures Truthful(out + [TokenFrame(REFUSAL_MESSAGE)] + [DoneFrame(false, [], latencyMs)], sources)
  {
    hide Open, WellFormed, Truthful, TokenText, CitationsOf;
    RefusalHasNoBracket();
    NoBracketCitesNothing(REFUSAL_MESSAGE, sources);
    GoesOn(out, TokenFrame(REFUSAL_MESSAGE), sources);
    assert "" + REFUSAL_MESSAGE == REFUSAL_MESSAGE;
    Finishes(out + [TokenFrame(REFUSAL_MESSAGE)], DoneFrame(false, [], latencyMs), sources);
  }

  // ----- The threshold gate -----

  /** Best hits first. */
  ghost predicate BestFirst(hits: seq<ChunkHit>) {
    forall i, j :: 0 <= i < j < |hits| ==> hits[i].score >= hits[j].score
  }

  /** Refuse unless the first hit reaches the threshold: on ranked hits, unless any does. */
  function Refuses(hits: seq<ChunkHit>, threshold: real): (refuse: bool)
    ensures hits == [] ==> refuse
    ensures BestFirst(hits) ==> (refuse <==> forall i :: 0 <= i < |hits| ==> hits[i].score < threshold)
  {
    if hits == [] then true else hits[0].score < threshold
  }

  /** The hits of a retrieval, with the titles of their documents and the like. */
  ghost predicate HitsOf(found: seq<Retrieval.Hit>, hits: seq<ChunkHit>) {
    |hits| == |found| && forall i :: 0 <= i < |hits| ==> hits[i].score == found[i].score && hits[i].content == found[i].id.content
  }

  /** The gate looks at one hit only, and yet refuses exactly if no embedded chunk of the
      assistant's whole corpus reaches the threshold. */
  lemma RefusesIffNothingReaches(db: Db, p: Retrieval.Params, similarity: (Vector, Vector) -> real,
                                 r: Result<seq<Retrieval.Hit>>, hits: seq<ChunkHit>, threshold: real)
    requires Retrieval.Retrieves(db, p, similarity, r) && r.Ok? && HitsOf(r.value, hits)
    ensures Refuses(hits, threshold)
            <==> forall k :: k in Retrieval.Candidates(db, p.assistant) ==> similarity(p.query, db.chunks[k].vector.value) < threshold
  {
    hide Retrieval.CheckArguments, Retrieval.ModelGuardPasses;
    var found, candidates := r.value, Retrieval.Candidates(db, p.assistant);
    if hits == [] {
      assert candidates == {};
    } else {
      assert found[0].id in candidates;
      forall k | k in candidates ensures similarity(p.query, db.chunks[k].vector.value) <= found[0].score {
        if i :| 0 <= i < |found| && found[i].id == k { assert found[0].score >= found[i].score; }
      }
    }
  }

  // ----- The request -----

  datatype AssistantInfo = AssistantInfo(published: bool, refusalThreshold: real)

  /** Where the coroutine waits. */
  datatype Point = Loading | Retrieving | Generating | Draining | Finished

  class ChatRequest {
    const rt: Runtime
    const tokenBudget: int
    /** The caller holds a token for one assistant. */
    const consumer: bool

    var pc: Point
    var closed: bool
    var writableEnded: bool
    var headersSent: bool
    var heartbeat: bool
    var maxTimer: bool
    var aborted: bool
    var threshold: real
    var answer: string
    var sources: seq<AssembledSource>
    var status: Option<nat>
    /** Everything written to the response body. */
    var out: seq<Write>

    constructor (rt: Runtime, tokenBudget: int, consumer: bool)
      ensures Valid() && out == [] && sources == [] && pc == Loading && !closed && status == None && threshold == 0.0
      ensures this.rt == rt && this.tokenBudget == tokenBudget && this.consumer == consumer
    {
      this.rt, this.tokenBudget, this.consumer := rt, tokenBudget, consumer;
      pc, closed, writableEnded, headersSent := Loading, false, false, false;
      heartbeat, maxTimer, aborted, threshold := false, false, false, 0.0;
      answer, sources, status, out := "", [], None, [];
    }

    ghost predicate Valid()
      reads this
    {
      && WellFormed(out) && Truthful(out, sources)
      && (closed ==> writableEnded && !heartbeat && !maxTimer)
      && (!closed ==> Open(out))
      && (!headersSent ==> out == [] && !heartbeat && !maxTimer)
      && (headersSent <==> status == Some(200))
      && (heartbeat <==> headersSent && !closed) && (maxTimer <==> headersSent && !closed)
      && (pc == Loading ==> !headersSent && answer == "")
      && (pc != Loading && pc != Finished ==> headersSent)
      && (pc == Retrieving ==> answer == "")
      && (pc == Finished && !closed ==> out == [] && !heartbeat && !maxTimer)
      && (pc != Finished && !closed ==> !writableEnded && TokenText(out) == answer)
    }

    /** Writes unless the stream is over; says whether there is room for more. */
    method SafeWrite(chunk: Write, room: bool) returns (ok: bool)
      modifies this`out
      ensures closed || writableEnded ==> ok && out == old(out)
      ensures !closed && !writableEnded ==> ok == room && out == old(out) + [chunk]
    {
      if closed || writableEnded { return true; }
      out := out + [chunk];
      ok := room;
    }

    /** Stops the timers and ends the response, once. */
    method End()
      modifies this`closed, this`heartbeat, this`maxTimer, this`writableEnded
      ensures closed
      ensures old(closed) ==> heartbeat == old(heartbeat) && maxTimer == old(maxTimer) && writableEnded == old(writableEnded)
      ensures !old(closed) ==> !heartbeat && !maxTimer && writableEnded
    {
      if closed { return; }
      closed := true;
      heartbeat, maxTimer := false, false;
      if !writableEnded { writableEnded := true; }
    }

    /** The client went away, or the response failed. */
    method OnClose()
      requires Valid()
      modifies this`closed, this`heartbeat, this`maxTimer, this`writableEnded, this`aborted
      ensures Valid() && closed && aborted
    {
      aborted := true;
      End();
    }

    method OnHeartbeat()
      requires Valid() && heartbeat
      modifies this`out
      ensures Valid()
      ensures out == if old(closed || writableEnded) then old(out) else old(out) + [PingComment]
    {
      hide WellFormed, Truthful, Open, TokenText, Refused, CitationsOf;
      if !closed { GoesOn(out, PingComment, sources); }
      var _ := SafeWrite(PingComment, true);
    }

    method OnTimeout()
      requires Valid() && maxTimer
      modifies this`closed, this`heartbeat, this`maxTimer, this`writableEnded, this`aborted, this`out
      ensures Valid() && closed && aborted
      ensures out == if old(closed || writableEnded) then old(out) else old(out) + [ErrorFrame("timeout", None)]
    {
      hide WellFormed, Truthful, Open, TokenText, Refused, CitationsOf;
      if !closed { Fails(out, ErrorFrame("timeout", None), sources); }
      var _ := SafeWrite(ErrorFrame("timeout", None), true);
      aborted := true;
      End();
    }

    /** The assistant row has been read. */
    method OnLoaded(assistant: Option<AssistantInfo>)
      requires Valid() && pc == Loading
      modifies this`pc, this`status, this`writableEnded, this`headersSent, this`heartbeat, this`maxTimer, this`threshold
      ensures Valid()
      ensures old(closed) ==> pc == Finished && status == old(status)
      ensures pc == Finished ==> threshold == old(threshold)
      ensures !old(closed) && assistant.None? ==> pc == Finished && status == Some(404)
      ensures !old(closed) && assistant.Some? && consumer && !assistant.value.published ==> pc == Finished && status == Some(403)
      ensures !old(closed) && assistant.Some? && (!consumer || assistant.value.published) ==>
                pc == Retrieving && status == Some(200) && threshold == assistant.value.refusalThreshold && heartbeat && maxTimer
    {
      if closed { pc := Finished; return; }
      if assistant.None? {
        status, writableEnded, pc := Some(404), true, Finished;
        return;
      }
      if consumer && !assistant.value.published {
        status, writableEnded, pc := Some(403), true, Finished;
        return;
      }
      status, headersSent, heartbeat, maxTimer := Some(200), true, true, true;
      threshold := assistant.value.refusalThreshold;
      pc := Retrieving;
    }

    /** Answers with the refusal without asking the model. */
    method Refuse(latencyMs: nat)
      requires Valid() && pc == Retrieving && !closed
      modifies this`closed, this`heartbeat, this`maxTimer, this`writableEnded, this`out, this`pc
      ensures Valid() && pc == Finished && closed
      ensures out == old(out) + [TokenFrame(REFUSAL_MESSAGE)] + [DoneFrame(false, [], latencyMs)]
    {
      hide WellFormed, Truthful, Open, TokenText, Refused, CitationsOf;
      GateIsTruthful(out, sources, latencyMs);
      var _ := SafeWrite(TokenFrame(REFUSAL_MESSAGE), true);
      var _ := SafeWrite(DoneFrame(false, [], latencyMs), true);
      End();
      pc := Finished;
    }

    /** The hits have arrived: refuse at the gate, or assemble the sources and generate. */
    method OnRetrieved(hits: seq<ChunkHit>, latencyMs: nat)
      requires Valid() && pc == Retrieving
      modifies this`closed, this`heartbeat, this`maxTimer, this`writableEnded, this`out, this`pc, this`sources
      ensures Valid()
      ensures old(closed) ==> pc == Finished && out == old(out) && sources == old(sources) && closed
      ensures !old(closed) && Refuses(hits, threshold) ==> pc == Finished && closed && sources == old(sources)
      ensures !old(closed) && Refuses(hits, threshold) ==>
                out == old(out) + [TokenFrame(REFUSAL_MESSAGE)] + [DoneFrame(false, [], latencyMs)]
      ensures !old(closed) && !Refuses(hits, threshold) ==> pc == Generating && out == old(out) && !closed
      ensures !old(closed) && !Refuses(hits, threshold) ==>
                IsSelection(rt, AssembleOptions(MAX_SOURCES, tokenBudget), Sort(Ranking(rt.collate), hits), sources)
    {
      hide IsSelection, WellFormed, Truthful, Open, TokenText, Refused, CitationsOf, Sort, Ranking;
      if closed {
        pc := Finished;
      } else if Refuses(hits, threshold) {
        Refuse(latencyMs);
      } else {
        SelectSources(hits);
      }
    }

    /** Selects the sources within the request's budget and starts the model. */
    method SelectSources(hits: seq<ChunkHit>)
      requires Valid() && pc == Retrieving && !closed
      modifies this`sources, this`pc
      ensures Valid() && pc == Generating
      ensures IsSelection(rt, AssembleOptions(MAX_SOURCES, tokenBudget), Sort(Ranking(rt.collate), hits), sources)
    {
      hide IsSelection, WellFormed, Truthful, Open, TokenText, Refused, CitationsOf, Sort, Ranking;
      OpenIsTruthful(out);
      var selected, text, totalTokens := AssembleContext(rt, hits, AssembleOptions(MAX_SOURCES, tokenBudget));
      sources, pc := selected, Generating;
    }

    /** The model produced text. */
    method OnText(text: string, room: bool)
      requires Valid() && pc == Generating
      modifies this`out, this`pc, this`answer
      ensures Valid()
      ensures old(closed) ==> pc == Finished && out == old(out)
      ensures !old(closed) ==> out == old(out) + [TokenFrame(text)] && answer == old(answer) + text
      ensures !old(closed) ==> pc == if room then Generating else Draining
    {
      hide WellFormed, Truthful, Open, TokenText, Refused, CitationsOf;
      if closed { pc := Finished; return; }
      GoesOn(out, TokenFrame(text), sources);
      answer := answer + text;
      var ok := SafeWrite(TokenFrame(text), room);
      if !ok { pc := Draining; }
    }

    /** The socket drained, closed, or the request was aborted. */
    method OnDrained()
      requires Valid() && pc == Draining
      modifies this`pc
      ensures Valid()
      ensures pc == if closed then Finished else Generating
    {
      pc := if closed then Finished else Generating;
    }

    /** The model failed. */
    method OnUpstreamError(retryable: bool)
      requires Valid() && pc == Generating
      modifies this`closed, this`heartbeat, this`maxTimer, this`writableEnded, this`out, this`pc
      ensures Valid() && closed && pc == Finished
      ensures out == if old(closed) then old(out) else old(out) + [ErrorFrame("generation failed", Some(retryable))]
    {
      hide WellFormed, Truthful, Open, TokenText, Refused, CitationsOf;
      if !closed {
        Fails(out, ErrorFrame("generation failed", Some(retryable)), sources);
        var _ := SafeWrite(ErrorFrame("generation failed", Some(retryable)), true);
        End();
      }
      pc := Finished;
    }

    /** The model is done. */
    method OnGenerated(latencyMs: nat)
      requires Valid() && pc == Generating
      modifies this`closed, this`heartbeat, this`maxTimer, this`writableEnded, this`out, this`pc
      ensures Valid() && closed && pc == Finished
      ensures old(closed) ==> out == old(out)
      ensures !old(closed) ==>
                var citations := CitationsOf(TokenText(old(out)), sources);
                out == old(out) + [DoneFrame(citations != [], citations, latencyMs)]
    {
      hide WellFormed, Truthful, Open, TokenText, Refused, CitationsOf;
      if !closed {
        var refused := Refused(answer);
        if refused { RefusalCitesNothing(answer, sources); }
        var citations := [];
        if !refused { citations := BuildCitations(answer, sources); }
        var done := DoneFrame(!refused && |citations| > 0, citations, latencyMs);
        Finishes(out, done, sources);
        var _ := SafeWrite(done, true);
        End();
      }
      pc := Finished;
    }

    /** An awaited call threw. */
    method OnException()
      requires Valid() && pc in {Loading, Retrieving, Generating}
      modifies this`closed, this`heartbeat, this`maxTimer, this`writableEnded, this`out, this`pc, this`status
      ensures Valid() && closed && pc == Finished
      ensures old(closed) ==> out == old(out) && status == old(status)
      ensures !old(closed) && old(headersSent) ==> out == old(out) + [ErrorFrame("internal error", None)] && status == old(status)
      ensures !old(closed) && !old(headersSent) ==> out == old(out) && status == Some(503)
    {
      hide WellFormed, Truthful, Open, TokenText, Refused, CitationsOf;
      if closed { pc := Finished; return; }
      if headersSent {
        Fails(out, ErrorFrame("internal error", None), sources);
        var _ := SafeWrite(ErrorFrame("internal error", None), true);
      } else {
        status, writableEnded := Some(503), true;
      }
      End();
      pc := Finished;
    }
  }

  // ----- Whole runs -----

  /** What can happen to a request, in any order. */
  datatype Stimulus =
    | Close
    | Heartbeat
    | Timeout
    | Loaded(assistant: Option<AssistantInfo>)
    | Retrieved(hits: seq<ChunkHit>)
    | GotText(text: string, room: bool)
    | Drained
    | UpstreamError(retryable: bool)
    | Generated
    | Thrown

  /** The sources are the selection from the hits that arrived. */
  ghost predicate Assembled(rt: Runtime, tokenBudget: int, stimulus: Stimulus, sources: seq<AssembledSource>) {
    && stimulus.Retrieved?
    && IsSelection(rt, AssembleOptions(MAX_SOURCES, tokenBudget), Sort(Ranking(rt.collate), stimulus.hits), sources)
  }

  /** The citations of a done frame ascend, so each comes once. */
  ghost predicate Ascending(out: seq<Write>) {
    out != [] && out[|out| - 1].DoneFrame? ==> MarkersAscend(out[|out| - 1].citations)
  }

  ghost predicate MarkersAscend(citations: seq<Citation>) {
    forall j, k :: 0 <= j < k < |citations| ==> citations[j].marker < citations[k].marker
  }

  lemma SourcesAreNumbered(rt: Runtime, tokenBudget: int, stimuli: seq<Stimulus>, sources: seq<AssembledSource>)
    requires sources == [] || exists j :: 0 <= j < |stimuli| && Assembled(rt, tokenBudget, stimuli[j], sources)
    ensures Numbered(sources, 1) && |sources| <= 5
  {
    hide Sort, Ranking, UsedTokens, Exceeds, EntryTokens;
    if sources != [] {
      var j :| 0 <= j < |stimuli| && Assembled(rt, tokenBudget, stimuli[j], sources);
      var ranked := Sort(Ranking(rt.collate), stimuli[j].hits);
      forall i | 0 <= i < |sources| ensures sources[i].marker == 1 + i {
        assert sources[i] == Expected(rt, tokenBudget, ranked, i);
      }
    }
  }

  lemma TruthfulAscends(out: seq<Write>, sources: seq<AssembledSource>)
    requires Truthful(out, sources) && Numbered(sources, 1)
    ensures Ascending(out)
  {
    hide CitationsOf, TokenText;
    CitationsAreExact(TokenText(out), sources, 1);
  }

  /** The answer cites one of the first n numbers. */
  ghost predicate CitesOneOf(answer: string, n: nat) {
    exists m: nat :: 1 <= m <= n && Cites(answer, m)
  }

  /** What a done frame says, in terms of the text: it is grounded exactly if the text
      holds the number of one of the sources in square brackets, and it cites exactly the
      sources whose numbers do. */
  lemma DoneFrameIsExact(out: seq<Write>, sources: seq<AssembledSource>)
    requires Truthful(out, sources) && Numbered(sources, 1) && out != [] && out[|out| - 1].DoneFrame?
    ensures var done, answer := out[|out| - 1], TokenText(out);
            && (done.grounded <==> CitesOneOf(answer, |sources|))
            && (forall m: nat :: 1 <= m <= |sources| && Cites(answer, m) ==> IsCited(done.citations, sources[m - 1]))
            && (forall k :: 0 <= k < |done.citations| ==> Backed(answer, sources, 1, done.citations[k]))
  {
    hide CitationsOf, TokenText, Numbered, Cites, CitesOneOf, IsCited, Backed;
    CitationsAreExact(TokenText(out), sources, 1);
    CitedSourcesAreCited(TokenText(out), sources);
    SomeAreCited(TokenText(out), sources);
  }

  lemma CitedSourcesAreCited(answer: string, sources: seq<AssembledSource>)
    requires Numbered(sources, 1)
    ensures forall m: nat :: 1 <= m <= |sources| && Cites(answer, m) ==> IsCited(CitationsOf(answer, sources), sources[m - 1])
  {
    hide CitationsOf, Numbered, Cites, IsCited, Backed;
    forall m: nat | 1 <= m <= |sources| && Cites(answer, m) ensures IsCited(CitationsOf(answer, sources), sources[m - 1]) {
      CitedSourcesAppear(answer, sources, 1, m - 1);
    }
  }

  lemma SomeAreCited(answer: string, sources: seq<AssembledSource>)
    requires Numbered(sources, 1)
    ensures CitationsOf(answer, sources) != [] <==> CitesOneOf(answer, |sources|)
  {
    hide CitationsOf, Numbered, Cites, Describes;
    CitedSourcesAreCited(answer, sources);
    CitationsAreBacked(answer, sources, 1);
    var citations := CitationsOf(answer, sources);
    if m: nat :| 1 <= m <= |sources| && Cites(answer, m) {
      assert IsCited(citations, sources[m - 1]);
    }
    if citations != [] { assert Backed(answer, sources, 1, citations[0]); }
  }

  /** An answer that carries the number of a source in square brackets, wherever, is
      grounded and cites that source. */
  lemma MarkedAnswerIsGrounded(out: seq<Write>, sources: seq<AssembledSource>, before: string, m: nat, after: string)
    requires Truthful(out, sources) && Numbered(sources, 1) && out != [] && out[|out| - 1].DoneFrame?
    requires TokenText(out) == before + "[" + Decimal(m) + "]" + after && 1 <= m <= |sources|
    ensures out[|out| - 1].grounded && IsCited(out[|out| - 1].citations, sources[m - 1])
  {
    MarkerRoundTrip(before, m, after);
    hide Truthful, Numbered, Cites, IsCited, Backed, Decimal, TokenText;
    DoneFrameIsExact(out, sources);
    assert Cites(TokenText(out), m);
  }

  // ----- What a run must have written -----

  /** Where a request stands. */
  datatype Moment = Moment(pc: Point, closed: bool, headersSent: bool, threshold: real)

  const ARRIVED := Moment(Loading, false, false, 0.0)

  /** What a stimulus does to where a request stands; one it does not wait for does nothing. */
  function Reached(consumer: bool, m: Moment, s: Stimulus): Moment {
    match s
    case Close => m.(closed := true)
    case Heartbeat => m
    case Timeout => if m.headersSent then m.(closed := true) else m
    case Loaded(assistant) =>
      if m.pc != Loading then m
      else if m.closed || assistant.None? || (consumer && !assistant.value.published) then m.(pc := Finished)
      else Moment(Retrieving, false, true, assistant.value.refusalThreshold)
    case Retrieved(hits) =>
      if m.pc != Retrieving then m
      else if m.closed then m.(pc := Finished)
      else if Refuses(hits, m.threshold) then m.(pc := Finished, closed := true)
      else m.(pc := Generating)
    case GotText(_, room) =>
      if m.pc != Generating then m
      else if m.closed then m.(pc := Finished)
      else if room then m
      else m.(pc := Draining)
    case Drained => if m.pc != Draining then m else m.(pc := if m.closed then Finished else Generating)
    case UpstreamError(_) => if m.pc != Generating then m else m.(pc := Finished, closed := true)
    case Generated => if m.pc != Generating then m else m.(pc := Finished, closed := true)
    case Thrown => if m.pc == Draining || m.pc == Finished then m else m.(pc := Finished, closed := true)
  }

  /** How a stream ends. */
  datatype Ending = NoEnd | WithDone | WithError(message: string)

  /** The text a stimulus adds to the stream: the model's while the request is generating
      and open, or the refusal of the gate. */
  function TextFrom(m: Moment, s: Stimulus): string {
    if m.closed then ""
    else match s
      case GotText(text, _) => if m.pc == Generating then text else ""
      case Retrieved(hits) => if m.pc == Retrieving && Refuses(hits, m.threshold) then REFUSAL_MESSAGE else ""
      case _ => ""
  }

  function EndFrom(m: Moment, s: Stimulus): Ending {
    if m.closed || !m.headersSent then NoEnd
    else match s
      case Timeout => WithError("timeout")
      case Retrieved(hits) => if m.pc == Retrieving && Refuses(hits, m.threshold) then WithDone else NoEnd
      case UpstreamError(_) => if m.pc == Generating then WithError("generation failed") else NoEnd
      case Generated => if m.pc == Generating then WithDone else NoEnd
      case Thrown => if m.pc == Retrieving || m.pc == Generating then WithError("internal error") else NoEnd
      case _ => NoEnd
  }

  function MomentAfter(consumer: bool, stimuli: seq<Stimulus>): Moment {
    if stimuli == [] then ARRIVED
    else Reached(consumer, MomentAfter(consumer, stimuli[..|stimuli| - 1]), stimuli[|stimuli| - 1])
  }

  /** All that was to be streamed. */
  function Heard(consumer: bool, stimuli: seq<Stimulus>): string {
    if stimuli == [] then ""
    else
      var most := stimuli[..|stimuli| - 1];
      Heard(consumer, most) + TextFrom(MomentAfter(consumer, most), stimuli[|stimuli| - 1])
  }

  function HowEnded(consumer: bool, stimuli: seq<Stimulus>): Ending {
    if stimuli == [] then NoEnd
    else
      var most := stimuli[..|stimuli| - 1];
      var end := EndFrom(MomentAfter(consumer, most), stimuli[|stimuli| - 1]);
      if end.NoEnd? then HowEnded(consumer, most) else end
  }

  function EndingOf(out: seq<Write>): Ending {
    if out == [] then NoEnd
    else match out[|out| - 1]
      case DoneFrame(_, _, _) => WithDone
      case ErrorFrame(message, _) => WithError(message)
      case _ => NoEnd
  }

  lemma EndingOfMore(out: seq<Write>, w: Write)
    requires Open(out)
    ensures EndingOf(out) == NoEnd
    ensures EndingOf(out + [w]) == match w case DoneFrame(_, _, _) => WithDone case ErrorFrame(m, _) => WithError(m) case _ => NoEnd
    ensures TokenText(out + [w]) == TokenText(out) + if w.TokenFrame? then w.text else ""
  {
    if out != [] { assert !out[|out| - 1].Terminal(); }
    TokenTextOfMore(out, w);
  }

  ghost function MomentOf(request: ChatRequest): Moment
    reads request
  {
    Moment(request.pc, request.closed, request.headersSent, request.threshold)
  }

  /** The stimulus had its effect on where the request stands and on the stream. */
  twostate predicate Effect(request: ChatRequest, s: Stimulus)
    reads request
  {
    var m := old(MomentOf(request));
    && MomentOf(request) == Reached(request.consumer, m, s)
    && TokenText(request.out) == old(TokenText(request.out)) + TextFrom(m, s)
    && EndingOf(request.out) == if EndFrom(m, s).NoEnd? then old(EndingOf(request.out)) else EndFrom(m, s)
  }

  /** What interrupts a request from outside. */
  method Interrupt(request: ChatRequest, s: Stimulus)
    requires request.Valid() && (s.Close? || s.Heartbeat? || s.Timeout?)
    modifies request
    ensures request.Valid() && request.sources == old(request.sources) && Effect(request, s)
  {
    hide WellFormed, Truthful, Open, TokenText, Refused, CitationsOf;
    ghost var out := request.out;
    assert TokenText(out) + "" == TokenText(out);
    if !request.closed {
      EndingOfMore(out, PingComment);
      EndingOfMore(out, ErrorFrame("timeout", None));
    }
    match s
    case Close => request.OnClose();
    case Heartbeat => if request.heartbeat { request.OnHeartbeat(); }
    case Timeout => if request.maxTimer { request.OnTimeout(); }
  }

  /** What the coroutine waits for before it generates. */
  method Prepare(request: ChatRequest, s: Stimulus, latencyMs: nat)
    requires request.Valid() && (s.Loaded? || s.Retrieved?)
    modifies request
    ensures request.Valid() && Effect(request, s)
    ensures request.sources == old(request.sources) || Assembled(request.rt, request.tokenBudget, s, request.sources)
  {
    hide WellFormed, Truthful, Open, TokenText, Refused, CitationsOf, IsSelection, Sort, Ranking;
    ghost var out := request.out;
    assert TokenText(out) + "" == TokenText(out);
    match s
    case Loaded(assistant) => if request.pc == Loading { request.OnLoaded(assistant); }
    case Retrieved(hits) =>
      if !request.closed { RefusalIsTheEnd(out, latencyMs, request.sources); }
      if request.pc == Retrieving { request.OnRetrieved(hits, latencyMs); }
  }

  lemma RefusalIsTheEnd(out: seq<Write>, latencyMs: nat, sources: seq<AssembledSource>)
    requires Open(out)
    ensures var after := out + [TokenFrame(REFUSAL_MESSAGE)] + [DoneFrame(false, [], latencyMs)];
            EndingOf(after) == WithDone && TokenText(after) == TokenText(out) + REFUSAL_MESSAGE
  {
    hide WellFormed, Truthful, Open, TokenText;
    GoesOn(out, TokenFrame(REFUSAL_MESSAGE), sources);
    EndingOfMore(out + [TokenFrame(REFUSAL_MESSAGE)], DoneFrame(false, [], latencyMs));
    assert TokenText(out) + REFUSAL_MESSAGE + "" == TokenText(out) + REFUSAL_MESSAGE;
  }

  /** The model streams, and the socket takes it. */
  method Stream(request: ChatRequest, s: Stimulus)
    requires request.Valid() && (s.GotText? || s.Drained?)
    modifies request
    ensures request.Valid() && request.sources == old(request.sources) && Effect(request, s)
  {
    hide WellFormed, Truthful, Open, TokenText, Refused, CitationsOf;
    ghost var out := request.out;
    assert TokenText(out) + "" == TokenText(out);
    if s.GotText? && !request.closed { EndingOfMore(out, TokenFrame(s.text)); }
    match s
    case GotText(text, room) => if request.pc == Generating { request.OnText(text, room); }
    case Drained => if request.pc == Draining { request.OnDrained(); }
  }

  /** The model comes to its end, or something goes wrong. */
  method Conclude(request: ChatRequest, s: Stimulus, latencyMs: nat)
    requires request.Valid() && (s.UpstreamError? || s.Generated? || s.Thrown?)
    modifies request
    ensures request.Valid() && request.sources == old(request.sources) && Effect(request, s)
  {
    hide WellFormed, Truthful, Open, TokenText, Refused, CitationsOf;
    ghost var out := request.out;
    assert TokenText(out) + "" == TokenText(out);
    match s
    case UpstreamError(retryable) =>
      if !request.closed { EndingOfMore(out, ErrorFrame("generation failed", Some(retryable))); }
      if request.pc == Generating { request.OnUpstreamError(retryable); }
    case Generated =>
      if request.pc == Generating {
        request.OnGenerated(latencyMs);
        if request.out != out { EndingOfMore(out, request.out[|out|]); }
      }
    case Thrown =>
      if !request.closed { EndingOfMore(out, ErrorFrame("internal error", None)); }
      if request.pc != Draining && request.pc != Finished { request.OnException(); }
  }

  /** Every run: whatever happens and in whatever order, and whatever the clock says.
      A stimulus the request does not wait for cannot happen and is skipped. */
  method Serve(rt: Runtime, tokenBudget: int, consumer: bool, stimuli: seq<Stimulus>, latencies: seq<nat>)
    returns (out: seq<Write>, sources: seq<AssembledSource>, status: Option<nat>)
    requires |latencies| == |stimuli|
    ensures WellFormed(out) && Truthful(out, sources)
    ensures TokenText(out) == Heard(consumer, stimuli) && EndingOf(out) == HowEnded(consumer, stimuli)
    ensures status != Some(200) ==> out == []
    ensures Numbered(sources, 1) && |sources| <= 5 && Ascending(out)
    ensures sources == [] || exists j :: 0 <= j < |stimuli| && Assembled(rt, tokenBudget, stimuli[j], sources)
  {
    var request := new ChatRequest(rt, tokenBudget, consumer);
    hide WellFormed, Truthful, Open, TokenText, IsSelection, CitationsOf, Refused, Reached, TextFrom, EndFrom;
    assert TokenText([]) == "" by { NoTokens(); }
    assert stimuli[..0] == [];
    var i := 0;
    while i < |stimuli|
      invariant 0 <= i <= |stimuli| && request.Valid() && fresh(request)
      invariant request.rt == rt && request.tokenBudget == tokenBudget && request.consumer == consumer
      invariant MomentOf(request) == MomentAfter(consumer, stimuli[..i])
      invariant TokenText(request.out) == Heard(consumer, stimuli[..i])
      invariant EndingOf(request.out) == HowEnded(consumer, stimuli[..i])
      invariant request.sources == [] || exists j :: 0 <= j < i && Assembled(rt, tokenBudget, stimuli[j], request.sources)
    {
      var s := stimuli[i];
      assert stimuli[..i + 1][..i] == stimuli[..i];
      if s.Close? || s.Heartbeat? || s.Timeout? {
        Interrupt(request, s);
      } else if s.Loaded? || s.Retrieved? {
        Prepare(request, s, latencies[i]);
      } else if s.GotText? || s.Drained? {
        Stream(request, s);
      } else {
        Conclude(request, s, latencies[i]);
      }
      i := i + 1;
    }
    assert stimuli[..i] == stimuli;
    out, sources, status := request.out, request.sources, request.status;
    SourcesAreNumbered(rt, tokenBudget, stimuli, sources);
    TruthfulAscends(out, sources);
  }

  lemma NoTokens()
    ensures TokenText([]) == ""
  {
  }

  // ----- What ends a run -----

  lemma ClosedIsSilent(consumer: bool, m: Moment, s: Stimulus)
    requires m.closed
    ensures Reached(consumer, m, s).closed && TextFrom(m, s) == "" && EndFrom(m, s) == NoEnd
  {
  }

  lemma {:induction false} ClosedForGood(consumer: bool, stimuli: seq<Stimulus>, i: nat)
    requires i <= |stimuli| && MomentAfter(consumer, stimuli[..i]).closed
    ensures MomentAfter(consumer, stimuli).closed
    ensures HowEnded(consumer, stimuli) == HowEnded(consumer, stimuli[..i]) && Heard(consumer, stimuli) == Heard(consumer, stimuli[..i])
    decreases |stimuli|
  {
    hide Reached, TextFrom, EndFrom;
    if i == |stimuli| {
      assert stimuli[..i] == stimuli;
    } else {
      var most := stimuli[..|stimuli| - 1];
      assert most[..i] == stimuli[..i];
      ClosedForGood(consumer, most, i);
      ClosedIsSilent(consumer, MomentAfter(consumer, most), stimuli[|stimuli| - 1]);
      assert Heard(consumer, most) + "" == Heard(consumer, most);
    }
  }

  /** The first end is the end: nothing that happens later adds text or another end. */
  lemma FirstEndCounts(consumer: bool, stimuli: seq<Stimulus>, i: nat)
    requires i < |stimuli| && EndFrom(MomentAfter(consumer, stimuli[..i]), stimuli[i]) != NoEnd
    ensures HowEnded(consumer, stimuli) == EndFrom(MomentAfter(consumer, stimuli[..i]), stimuli[i])
    ensures Heard(consumer, stimuli) == Heard(consumer, stimuli[..i + 1])
  {
    assert stimuli[..i + 1][..i] == stimuli[..i];
    ClosedForGood(consumer, stimuli, i + 1);
  }

  /** A model that gets to its end while the request is open is answered with a done frame,
      and the text streamed before is the whole answer. */
  lemma GeneratedEndsInDone(consumer: bool, stimuli: seq<Stimulus>, i: nat)
    requires i < |stimuli| && stimuli[i].Generated?
    requires MomentAfter(consumer, stimuli[..i]).pc == Generating && !MomentAfter(consumer, stimuli[..i]).closed
    ensures HowEnded(consumer, stimuli) == WithDone && Heard(consumer, stimuli) == Heard(consumer, stimuli[..i])
  {
    OpenedFirst(consumer, stimuli[..i]);
    FirstEndCounts(consumer, stimuli, i);
    assert stimuli[..i + 1][..i] == stimuli[..i];
    assert Heard(consumer, stimuli[..i]) + "" == Heard(consumer, stimuli[..i]);
  }

  lemma {:induction false} OpenedFirst(consumer: bool, stimuli: seq<Stimulus>)
    ensures var m := MomentAfter(consumer, stimuli); m.pc != Loading && m.pc != Finished ==> m.headersSent
    decreases stimuli
  {
    if stimuli != [] { OpenedFirst(consumer, stimuli[..|stimuli| - 1]); }
  }
}
