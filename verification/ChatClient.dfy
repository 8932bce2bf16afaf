/** The mobile chat state machine: sends, streams and cancels, and the transcript they leave. */
module ChatClient {
  import opened Common
  import opened ChatRepository

  datatype ChatStatus = Idle | Streaming | Done | Error

  datatype Role = User | Assistant

  datatype ChatMessage = ChatMessage(role: Role, text: string, citations: seq<SourceCitation>, grounded: Option<bool>)

  datatype ChatState = ChatState(
    status: ChatStatus, messages: seq<ChatMessage>, streamingAnswer: string,
    citations: seq<SourceCitation>, grounded: Option<bool>, error: Option<string>)
  {
    /** A missing argument keeps the field, so no field can be set back to null. */
    function CopyWith(status: Option<ChatStatus>, messages: Option<seq<ChatMessage>>, streamingAnswer: Option<string>,
                      citations: Option<seq<SourceCitation>>, grounded: Option<bool>, error: Option<string>): ChatState {
      ChatState(status.GetOr(this.status), messages.GetOr(this.messages), streamingAnswer.GetOr(this.streamingAnswer),
                citations.GetOr(this.citations), if grounded.Some? then grounded else this.grounded,
                if error.Some? then error else this.error)
    }
  }

  const INITIAL := ChatState(Idle, [], "", [], None, None)

  // ----- The transcript -----

  /** What one send led to: the tokens delivered while it was the latest, the answers
      they were completed to, and the last failure. */
  datatype Turn = Turn(question: string, tokens: seq<string>, answers: seq<Completion>, failure: Option<string>)
  datatype Completion = Completion(citations: seq<SourceCitation>, grounded: bool)

  const NO_COMPLETION := Completion([], false)

  function ConcatTokens(tokens: seq<string>): string {
    if tokens == [] then "" else ConcatTokens(tokens[..|tokens| - 1]) + tokens[|tokens| - 1]
  }

  function Asked(question: string): ChatMessage {
    ChatMessage(User, question, [], None)
  }

  function AnswerMessage(text: string, c: Completion): ChatMessage {
    ChatMessage(Assistant, text, c.citations, Some(c.grounded))
  }

  function AnswerMessages(text: string, completions: seq<Completion>): (messages: seq<ChatMessage>)
    ensures |messages| == |completions|
  {
    if completions == [] then []
    else AnswerMessages(text, completions[..|completions| - 1]) + [AnswerMessage(text, completions[|completions| - 1])]
  }

  /** The assistant messages of a turn, all with the concatenation of its tokens. */
  function AnswersOf(turn: Turn): seq<ChatMessage> {
    AnswerMessages(ConcatTokens(turn.tokens), turn.answers)
  }

  /** One user message for every send, and behind it the turn's assistant messages. */
  function Transcript(turns: seq<Turn>): seq<ChatMessage> {
    if turns == [] then []
    else
      var turn := turns[|turns| - 1];
      Transcript(turns[..|turns| - 1]) + [Asked(turn.question)] + AnswersOf(turn)
  }

  /** The last failure of any turn: nothing ever clears it. */
  function LastFailure(turns: seq<Turn>): Option<string> {
    if turns == [] then None
    else if turns[|turns| - 1].failure.Some? then turns[|turns| - 1].failure
    else LastFailure(turns[..|turns| - 1])
  }

  /** At the end of a run an error is shown exactly if some turn ever failed. */
  lemma {:induction false} ErrorIffAFailure(turns: seq<Turn>)
    ensures LastFailure(turns).Some? <==> exists k :: 0 <= k < |turns| && turns[k].failure.Some?
    decreases turns
  {
    if turns != [] {
      var most := turns[..|turns| - 1];
      ErrorIffAFailure(most);
      if k :| 0 <= k < |most| && most[k].failure.Some? { assert turns[k].failure.Some?; }
      if k :| 0 <= k < |turns| && turns[k].failure.Some? { assert k < |most| ==> most[k].failure.Some?; }
    }
  }

  lemma TranscriptOfMore(turns: seq<Turn>, turn: Turn)
    ensures Transcript(turns + [turn]) == Transcript(turns) + [Asked(turn.question)] + AnswersOf(turn)
    ensures LastFailure(turns + [turn]) == if turn.failure.Some? then turn.failure else LastFailure(turns)
  {
    hide AnswersOf;
    assert (turns + [turn])[..|turns|] == turns;
  }

  lemma TranscriptOfQuestion(turns: seq<Turn>, question: string)
    ensures Transcript(turns + [Turn(question, [], [], None)]) == Transcript(turns) + [Asked(question)]
    ensures LastFailure(turns + [Turn(question, [], [], None)]) == LastFailure(turns)
    ensures ConcatTokens([]) == ""
  {
    var turn := Turn(question, [], [], None);
    TranscriptOfMore(turns, turn);
    assert AnswersOf(turn) == [];
    hide Transcript, LastFailure, AnswersOf;
  }

  lemma {:induction false} LastChanged(turns: seq<Turn>, turn: Turn, more: seq<ChatMessage>)
    requires turns != [] && turn.question == turns[|turns| - 1].question
    requires AnswersOf(turn) == AnswersOf(turns[|turns| - 1]) + more
    requires turn.failure.Some? || turn.failure == turns[|turns| - 1].failure
    ensures Transcript(turns[..|turns| - 1] + [turn]) == Transcript(turns) + more
    ensures turn.failure == turns[|turns| - 1].failure ==> LastFailure(turns[..|turns| - 1] + [turn]) == LastFailure(turns)
    ensures turn.failure.Some? ==> LastFailure(turns[..|turns| - 1] + [turn]) == turn.failure
  {
    hide AnswersOf, Transcript, LastFailure;
    var most, last := turns[..|turns| - 1], turns[|turns| - 1];
    TranscriptOfMore(most, turn);
    TranscriptOfMore(most, last);
    assert turns == most + [last];
    assert Transcript(most) + [Asked(last.question)] + (AnswersOf(last) + more)
        == Transcript(most) + [Asked(last.question)] + AnswersOf(last) + more;
  }

  lemma TokensOfMore(tokens: seq<string>, t: string)
    ensures ConcatTokens(tokens + [t]) == ConcatTokens(tokens) + t
  {
    assert (tokens + [t])[..|tokens|] == tokens;
  }

  lemma AnswersOfMore(turn: Turn, c: Completion)
    ensures AnswersOf(turn.(answers := turn.answers + [c])) == AnswersOf(turn) + [AnswerMessage(ConcatTokens(turn.tokens), c)]
  {
    assert (turn.answers + [c])[..|turn.answers|] == turn.answers;
  }

  // ----- What can happen -----

  /** An id names the send whose stream the input concerns. */
  datatype Input =
    | Send(question: string)
    | Cancel
    | Deliver(id: nat, event: ChatStreamEvent)
    | Close(id: nat)
    | Fail(id: nat, failure: Failure)

  /** Where the stream of a turn stands: events may come; a terminal event came and the
      end is still to come, with what it left; nothing comes any more. */
  datatype Phase = Live | Closing(last: Completion) | Gone

  datatype Progress = Progress(turn: Turn, phase: Phase, status: ChatStatus)

  function Message(failure: Failure): string {
    if failure.Connection? then "Connection error." else "Something went wrong."
  }

  function Completed(p: Progress, c: Completion, phase: Phase): Progress {
    Progress(p.turn.(answers := p.turn.answers + [c]), phase, Done)
  }

  function Failed(p: Progress, message: string, phase: Phase): Progress {
    Progress(p.turn.(failure := Some(message)), phase, Error)
  }

  /** A failure ends the stream; a cancellation completes the answer, even one that a
      terminal event has completed already. */
  function Fell(p: Progress, failure: Failure, c: Completion): Progress {
    if failure.Cancelled? then Completed(p, c, Gone) else Failed(p, Message(failure), Gone)
  }

  predicate Concerns(input: Input, id: nat) {
    !input.Send? && !input.Cancel? && input.id == id
  }

  /** What an input does to the turn of send `id`, seen alone. */
  function Advance(p: Progress, input: Input, id: nat): Progress {
    if !Concerns(input, id) then p
    else match (p.phase, input)
      case (Live, Deliver(_, TokenChunk(t))) => Progress(p.turn.(tokens := p.turn.tokens + [t]), Live, Streaming)
      case (Live, Deliver(_, StreamDone(g, c))) => Completed(p, Completion(c, g), Closing(Completion(c, g)))
      case (Live, Deliver(_, StreamErrorFrame(m))) => Failed(p, m, Closing(NO_COMPLETION))
      case (Live, Close(_)) => Completed(p, NO_COMPLETION, Gone)
      case (Live, Fail(_, failure)) => Fell(p, failure, NO_COMPLETION)
      case (Closing(_), Close(_)) => p.(phase := Gone)
      case (Closing(c), Fail(_, failure)) => Fell(p, failure, c)
      case _ => p
  }

  // ----- The bloc -----

  /** A running send handler with its local variables. */
  datatype Handler = Handler(id: nat, buffer: string, completed: bool, citations: seq<SourceCitation>, grounded: bool)

  class ChatBloc {
    var state: ChatState
    /** The latest handler; restartable() drops what an earlier one still emits. */
    var latest: Option<Handler>
    var sends: nat
    var cancelled: bool
    ghost var turns: seq<Turn>

    constructor ()
      ensures Valid() && state == INITIAL && turns == [] && sends == 0
    {
      state, latest, sends, cancelled, turns := INITIAL, None, 0, false, [];
    }

    ghost predicate Valid()
      reads this
    {
      && ShowsTurns()
      && (turns == [] ==> state.status == Idle)
      && (if Standing().Live?
          then state.status == Streaming && state.streamingAnswer == latest.value.buffer
               && Left(latest.value) == NO_COMPLETION && Last().answers == []
          else state.status != Streaming && state.streamingAnswer == "")
    }

    /** The state shows the turns, and the latest handler has the tokens of the last one. */
    ghost predicate ShowsTurns()
      reads this
    {
      && state.messages == Transcript(turns) && state.error == LastFailure(turns) && |turns| == sends
      && (latest.Some? ==> latest.value.id + 1 == sends && latest.value.buffer == ConcatTokens(Last().tokens))
    }

    ghost function Left(h: Handler): Completion {
      Completion(h.citations, h.grounded)
    }

    /** Where the latest stream stands. */
    ghost function Standing(): Phase
      reads this
    {
      if latest.None? || turns == [] then Gone
      else if latest.value.completed then Closing(Left(latest.value))
      else Live
    }

    ghost function Last(): Turn
      reads this
    {
      if turns == [] then Turn("", [], [], None) else turns[|turns| - 1]
    }

    ghost function Current(): Progress
      reads this
    {
      Progress(Last(), Standing(), state.status)
    }

    /** The stream of handler `id` is the one whose events count. */
    predicate Runs(id: nat)
      reads this
    {
      latest.Some? && latest.value.id == id
    }

    function Finished(answer: string, citations: seq<SourceCitation>, grounded: bool): ChatState
      reads this
    {
      state.CopyWith(Some(Done), Some(state.messages + [ChatMessage(Assistant, answer, citations, Some(grounded))]),
                     Some(""), Some(citations), Some(grounded), None)
    }

    /** No step drops or changes a message, and none clears an error. */
    twostate predicate Grows()
      reads this
    {
      && old(state.messages) <= state.messages
      && (old(state.error).Some? ==> state.error.Some?)
    }

    /** The step advanced the turn of the latest send and nothing else. */
    twostate predicate Advanced(input: Input)
      reads this
    {
      && sends == old(sends) && |turns| == |old(turns)|
      && (turns != [] ==>
            && turns == old(turns)[..|turns| - 1] + [Last()]
            && Current() == Advance(old(Current()), input, |turns| - 1))
    }

    /** A question supersedes the stream that is still running. */
    method OnSend(question: string)
      requires Valid()
      modifies this
      ensures Valid() && Grows() && Standing().Live? && sends == old(sends) + 1
      ensures turns == old(turns) + [Turn(question, [], [], None)]
      ensures state == ChatState(Streaming, old(state.messages) + [ChatMessage(User, question, [], None)], "", [],
                                 old(state.grounded), old(state.error))
    {
      hide Transcript, LastFailure, ConcatTokens;
      latest := Some(Handler(sends, "", false, [], false));
      sends := sends + 1;
      cancelled := false;
      state := state.CopyWith(Some(Streaming), Some(state.messages + [ChatMessage(User, question, [], None)]), Some(""), Some([]), None, None);
      TranscriptOfQuestion(turns, question);
      turns := turns + [Turn(question, [], [], None)];
    }

    /** The turn of the latest send becomes this one. */
    ghost method Record(turn: Turn, more: seq<ChatMessage>)
      requires turns != [] && turn.question == Last().question && AnswersOf(turn) == AnswersOf(Last()) + more
      requires turn.failure.Some? || turn.failure == Last().failure
      modifies this`turns
      ensures turns == old(turns)[..|old(turns)| - 1] + [turn]
      ensures Transcript(turns) == Transcript(old(turns)) + more
      ensures turn.failure == old(Last()).failure ==> LastFailure(turns) == LastFailure(old(turns))
      ensures turn.failure.Some? ==> LastFailure(turns) == turn.failure
    {
      hide AnswersOf, Transcript, LastFailure;
      LastChanged(turns, turn, more);
      turns := turns[..|turns| - 1] + [turn];
    }

    /** Emits the answer so far as a message. */
    method EmitAnswer(citations: seq<SourceCitation>, grounded: bool)
      requires ShowsTurns() && latest.Some?
      modifies this`state, this`turns
      ensures ShowsTurns() && Grows()
      ensures turns == old(turns)[..|old(turns)| - 1] + [old(Last()).(answers := old(Last()).answers + [Completion(citations, grounded)])]
      ensures state == ChatState(Done, old(state.messages) + [ChatMessage(Assistant, latest.value.buffer, citations, Some(grounded))], "",
                                 citations, Some(grounded), old(state.error))
    {
      AnswersOfMore(Last(), Completion(citations, grounded));
      state := Finished(latest.value.buffer, citations, grounded);
      Record(Last().(answers := Last().answers + [Completion(citations, grounded)]),
             [AnswerMessage(latest.value.buffer, Completion(citations, grounded))]);
    }

    /** Emits an error; the answer so far is dropped. */
    method EmitError(message: string)
      requires ShowsTurns() && latest.Some?
      modifies this`state, this`turns
      ensures ShowsTurns() && Grows()
      ensures turns == old(turns)[..|old(turns)| - 1] + [old(Last()).(failure := Some(message))]
      ensures state == ChatState(Error, old(state.messages), "", old(state.citations), old(state.grounded), Some(message))
    {
      state := state.CopyWith(Some(Error), None, Some(""), None, None, Some(message));
      Record(Last().(failure := Some(message)), []);
    }

    /** An event of the stream of handler `id`, which is none behind a terminal one; one
        that was superseded has no effect. */
    method OnEvent(id: nat, event: ChatStreamEvent)
      requires Valid()
      requires latest.Some? && latest.value.id == id ==> !latest.value.completed
      modifies this
      ensures Valid() && Grows() && Advanced(Deliver(id, event))
      ensures latest == old(latest) || (latest.Some? && latest.value.id == id && (latest.value.completed ==> !event.TokenChunk?))
      ensures !old(Runs(id)) ==> state == old(state)
      ensures old(Runs(id)) ==>
                var was := old(state);
                state == match event
                  case TokenChunk(text) =>
                    ChatState(Streaming, was.messages, was.streamingAnswer + text, was.citations, was.grounded, was.error)
                  case StreamDone(g, c) =>
                    ChatState(Done, was.messages + [ChatMessage(Assistant, was.streamingAnswer, c, Some(g))], "", c, Some(g), was.error)
                  case StreamErrorFrame(m) => ChatState(Error, was.messages, "", was.citations, was.grounded, Some(m))
    {
      hide AnswersOf, Transcript, LastFailure, ConcatTokens;
      if latest.None? || latest.value.id != id { return; }
      match event
      case TokenChunk(text) =>
        var buffer := latest.value.buffer + text;
        latest := Some(latest.value.(buffer := buffer));
        state := state.CopyWith(Some(Streaming), None, Some(buffer), None, None, None);
        TokensOfMore(Last().tokens, text);
        NothingAnswered(Last(), Last().tokens + [text]);
        Record(Last().(tokens := Last().tokens + [text]), []);
        assert state.messages + [] == state.messages;
      case StreamDone(grounded, citations) =>
        EmitAnswer(citations, grounded);
        latest := Some(latest.value.(completed := true, citations := citations, grounded := grounded));
      case StreamErrorFrame(message) =>
        EmitError(message);
        latest := Some(latest.value.(completed := true));
    }

    /** The stream of handler `id` closed; without a terminal frame what there is becomes the answer. */
    method OnStreamEnd(id: nat)
      requires Valid()
      modifies this
      ensures Valid() && Grows() && Advanced(Close(id)) && (latest == old(latest) || latest == None)
      ensures !old(Runs(id) && state.status.Streaming?) ==> state == old(state)
      ensures old(Runs(id) && state.status.Streaming?) ==>
                var was := old(state);
                state == ChatState(Done, was.messages + [ChatMessage(Assistant, was.streamingAnswer, [], Some(false))], "", [], Some(false), was.error)
    {
      hide AnswersOf, Transcript, LastFailure, ConcatTokens;
      if latest.None? || latest.value.id != id { return; }
      if !latest.value.completed { EmitAnswer(latest.value.citations, latest.value.grounded); }
      latest := None;
    }

    /** The stream of handler `id` failed. A cancellation is a graceful stop: it emits the
        answer so far, once more if a terminal event came before. */
    method OnStreamFailure(id: nat, failure: Failure)
      requires Valid()
      modifies this
      ensures Valid() && Grows() && Advanced(Fail(id, failure)) && (latest == old(latest) || latest == None)
      ensures !old(Runs(id)) ==> state == old(state)
      ensures old(Runs(id)) && !failure.Cancelled? ==>
                var was, message := old(state), if failure.Connection? then "Connection error." else "Something went wrong.";
                state == ChatState(Error, was.messages, "", was.citations, was.grounded, Some(message))
      ensures old(Runs(id) && state.status.Streaming?) && failure.Cancelled? ==>
                var was := old(state);
                state == ChatState(Done, was.messages + [ChatMessage(Assistant, was.streamingAnswer, [], Some(false))], "", [], Some(false), was.error)
      ensures old(Runs(id) && !state.status.Streaming?) && failure.Cancelled? ==>
                var was, h := old(state), old(latest).value;
                state == ChatState(Done, was.messages + [ChatMessage(Assistant, h.buffer, h.citations, Some(h.grounded))], "",
                                   h.citations, Some(h.grounded), was.error)
    {
      hide AnswersOf, Transcript, LastFailure, ConcatTokens;
      if latest.None? || latest.value.id != id { return; }
      match failure {
        case Cancelled => EmitAnswer(latest.value.citations, latest.value.grounded);
        case Connection => EmitError("Connection error.");
        case Other => EmitError("Something went wrong.");
      }
      latest := None;
    }

    /** Only aborts the request; the state changes when the stream notices. */
    method OnCancel()
      requires Valid()
      modifies this`cancelled
      ensures Valid() && state == old(state) && Advanced(Cancel)
    {
      cancelled := true;
    }
  }

  lemma NothingAnswered(turn: Turn, tokens: seq<string>)
    requires turn.answers == []
    ensures AnswersOf(turn.(tokens := tokens)) == AnswersOf(turn) + []
  {
  }

  // ----- Whole runs -----

  /** A send and everything that happened before the next one. */
  datatype Part = Part(question: string, inputs: seq<Input>)

  /** How the turn of the part turns out, seen alone. */
  function Outcome(part: Part, id: nat): Progress {
    Replay(part.question, part.inputs, id)
  }

  function FreshTurn(question: string): Progress {
    Progress(Turn(question, [], [], None), Live, Streaming)
  }

  function Replay(question: string, inputs: seq<Input>, id: nat): Progress
    decreases |inputs|
  {
    if inputs == [] then FreshTurn(question)
    else Advance(Replay(question, inputs[..|inputs| - 1], id), inputs[|inputs| - 1], id)
  }

  /** The parts, one after the other. */
  function Unroll(parts: seq<Part>): seq<Input> {
    if parts == [] then []
    else Unroll(parts[..|parts| - 1]) + [Send(parts[|parts| - 1].question)] + parts[|parts| - 1].inputs
  }

  ghost predicate NoSend(inputs: seq<Input>) {
    forall i :: 0 <= i < |inputs| ==> !inputs[i].Send?
  }

  /** The run so far, cut at its sends, and the turns, each of which its own part alone determines. */
  ghost predicate Isolated(inputs: seq<Input>, before: seq<Input>, parts: seq<Part>, turns: seq<Turn>) {
    && inputs == before + Unroll(parts) && NoSend(before)
    && |parts| == |turns|
    && forall k :: 0 <= k < |parts| ==> NoSend(parts[k].inputs) && turns[k] == Outcome(parts[k], k).turn
  }

  lemma PartAdded(inputs: seq<Input>, before: seq<Input>, parts: seq<Part>, turns: seq<Turn>, question: string)
    requires Isolated(inputs, before, parts, turns)
    ensures Isolated(inputs + [Send(question)], before, parts + [Part(question, [])], turns + [FreshTurn(question).turn])
    ensures Outcome(Part(question, []), |parts|) == FreshTurn(question)
  {
    var more := parts + [Part(question, [])];
    assert more[..|parts|] == parts;
    assert Unroll(more) == Unroll(parts) + [Send(question)];
    hide Unroll;
    assert Outcome(Part(question, []), |parts|) == FreshTurn(question);
    assert inputs + [Send(question)] == before + (Unroll(parts) + [Send(question)]);
  }

  lemma InputBefore(inputs: seq<Input>, before: seq<Input>, input: Input)
    requires Isolated(inputs, before, [], []) && !input.Send?
    ensures Isolated(inputs + [input], before + [input], [], [])
  {
  }

  lemma InputAdded(inputs: seq<Input>, before: seq<Input>, parts: seq<Part>, turns: seq<Turn>, input: Input) returns (more: seq<Part>)
    requires Isolated(inputs, before, parts, turns) && parts != [] && !input.Send?
    ensures more == parts[..|parts| - 1] + [Part(parts[|parts| - 1].question, parts[|parts| - 1].inputs + [input])]
    ensures Isolated(inputs + [input], before, more,
                     turns[..|turns| - 1] + [Outcome(more[|more| - 1], |more| - 1).turn])
    ensures Outcome(more[|more| - 1], |more| - 1) == Advance(Outcome(parts[|parts| - 1], |parts| - 1), input, |parts| - 1)
  {
    var n := |parts| - 1;
    var last := Part(parts[n].question, parts[n].inputs + [input]);
    more := parts[..n] + [last];
    UnrollOfMore(parts, more, input);
    OutcomeOfMore(parts[n], input, n);
    SendFree(parts, more, turns, inputs, before, input);
    hide Outcome, Unroll, Advance, NoSend;
    assert inputs + [input] == before + (Unroll(parts) + [input]);
  }

  lemma UnrollOfMore(parts: seq<Part>, more: seq<Part>, input: Input)
    requires parts != []
    requires more == parts[..|parts| - 1] + [Part(parts[|parts| - 1].question, parts[|parts| - 1].inputs + [input])]
    ensures Unroll(more) == Unroll(parts) + [input]
  {
    assert more[..|more| - 1] == parts[..|parts| - 1];
  }

  lemma SendFree(parts: seq<Part>, more: seq<Part>, turns: seq<Turn>, inputs: seq<Input>, before: seq<Input>, input: Input)
    requires Isolated(inputs, before, parts, turns) && parts != [] && !input.Send?
    requires more == parts[..|parts| - 1] + [Part(parts[|parts| - 1].question, parts[|parts| - 1].inputs + [input])]
    ensures forall k :: 0 <= k < |more| ==> NoSend(more[k].inputs)
    ensures forall k :: 0 <= k < |more| - 1 ==> turns[k] == Outcome(more[k], k).turn
  {
    hide Outcome, Unroll;
    forall k | 0 <= k < |more| ensures NoSend(more[k].inputs) {
      assert NoSend(parts[k].inputs);
    }
  }

  lemma OutcomeOfMore(part: Part, input: Input, id: nat)
    ensures Outcome(Part(part.question, part.inputs + [input]), id) == Advance(Outcome(part, id), input, id)
  {
    assert (part.inputs + [input])[..|part.inputs|] == part.inputs;
  }

  predicate Terminates(input: Input, id: nat) {
    input.Deliver? && input.id == id && !input.event.TokenChunk?
  }

  /** The stream reader delivers nothing behind a terminal event. */
  ghost predicate NothingBehindTheEnd(inputs: seq<Input>) {
    forall i, j :: 0 <= i < j < |inputs| && inputs[j].Deliver? ==> !Terminates(inputs[i], inputs[j].id)
  }

  /** What the state shows once the parts have happened. */
  ghost predicate Shows(state: ChatState, parts: seq<Part>, turns: seq<Turn>) {
    && state.messages == Transcript(turns) && state.error == LastFailure(turns)
    && state.status == (if parts == [] then Idle else Outcome(parts[|parts| - 1], |parts| - 1).status)
    && (if state.status == Streaming
        then turns != [] && state.streamingAnswer == ConcatTokens(turns[|turns| - 1].tokens)
        else state.streamingAnswer == "")
  }

  /** No stream fails behind its terminal event. */
  ghost predicate NoFailureBehindTheEnd(inputs: seq<Input>) {
    forall i, j :: 0 <= i < j < |inputs| && inputs[j].Fail? ==> !Terminates(inputs[i], inputs[j].id)
  }

  ghost predicate OneAnswerEach(turns: seq<Turn>) {
    forall k :: 0 <= k < |turns| ==> |AnswersOf(turns[k])| <= 1
  }

  /** The state is what the run's turns, each seen alone, add up to, and a turn gets at
      most one answer. */
  ghost predicate Results(inputs: seq<Input>, state: ChatState) {
    exists before, parts, turns ::
      && Isolated(inputs, before, parts, turns) && Shows(state, parts, turns)
      && (NoFailureBehindTheEnd(inputs) ==> OneAnswerEach(turns))
  }

  /** One input reaches the bloc. */
  method Take(bloc: ChatBloc, input: Input)
    requires bloc.Valid()
    requires input.Deliver? && bloc.latest.Some? && bloc.latest.value.id == input.id ==> !bloc.latest.value.completed
    modifies bloc
    ensures bloc.Valid() && bloc.Grows()
    ensures input.Send? ==> bloc.turns == old(bloc.turns) + [FreshTurn(input.question).turn]
    ensures input.Send? ==> bloc.Current() == FreshTurn(input.question) && bloc.latest.Some? && !bloc.latest.value.completed
    ensures !input.Send? ==> bloc.Advanced(input)
    ensures !input.Send? && bloc.latest != old(bloc.latest) && bloc.latest.Some? && bloc.latest.value.completed ==>
              Terminates(input, bloc.latest.value.id)
  {
    match input {
      case Send(question) => bloc.OnSend(question);
      case Cancel => bloc.OnCancel();
      case Deliver(id, event) => bloc.OnEvent(id, event);
      case Close(id) => bloc.OnStreamEnd(id);
      case Fail(id, failure) => bloc.OnStreamFailure(id, failure);
    }
  }

  /** Every run of sends, cancels and streams. The transcript is that of the turns, one
      for every send, and each turn depends only on what its own stream delivered before
      the next send. */
  method Converse(inputs: seq<Input>) returns (state: ChatState)
    requires NothingBehindTheEnd(inputs)
    ensures Results(inputs, state)
  {
    var bloc := new ChatBloc();
    ghost var before: seq<Input>, parts: seq<Part> := [], [];
    hide Isolated, Transcript, ConcatTokens, Advance, Outcome, LastFailure;
    assert Isolated([], [], [], []) by { NothingHappened(); }
    assert inputs[..0] == [];
    var i := 0;
    while i < |inputs|
      invariant 0 <= i <= |inputs| && bloc.Valid() && fresh(bloc)
      invariant |parts| == |bloc.turns| && Isolated(inputs[..i], before, parts, bloc.turns)
      invariant bloc.latest.Some? && bloc.latest.value.completed ==>
                  exists k :: 0 <= k < i && Terminates(inputs[k], bloc.latest.value.id)
      invariant parts != [] ==> Outcome(parts[|parts| - 1], |parts| - 1) == bloc.Current()
    {
      ghost var was, input := bloc.turns, inputs[i];
      assert inputs[..i + 1] == inputs[..i] + [input];
      ghost var more := parts;
      if input.Send? {
        PartAdded(inputs[..i], before, parts, was, input.question);
        more := parts + [Part(input.question, [])];
      } else if parts == [] {
        InputBefore(inputs[..i], before, input);
        before := before + [input];
      } else {
        more := InputAdded(inputs[..i], before, parts, was, input);
      }
      Take(bloc, inputs[i]);
      parts := more;
      i := i + 1;
    }
    assert inputs[..i] == inputs;
    state := bloc.state;
    if NoFailureBehindTheEnd(inputs) { OneAnswerPerSend(inputs, before, parts, bloc.turns); }
    hide NoFailureBehindTheEnd, OneAnswerEach;
    assert Isolated(inputs, before, parts, bloc.turns) && Shows(state, parts, bloc.turns);
  }

  lemma NothingHappened()
    ensures Isolated([], [], [], [])
  {
  }

  // ----- How many answers a turn gets -----

  predicate Stops(input: Input, id: nat) {
    (input.Close? || input.Fail?) && input.id == id
  }

  /** The first thing to end the stream is a done event at i, and the stream has not stopped since. */
  ghost predicate DoneAt(inputs: seq<Input>, id: nat, i: nat) {
    && i < |inputs| && Terminates(inputs[i], id) && inputs[i].event.StreamDone?
    && (forall k :: 0 <= k < i ==> !Terminates(inputs[k], id) && !Stops(inputs[k], id))
    && (forall k :: i < k < |inputs| ==> !Stops(inputs[k], id))
  }

  /** At j the stream, though done, fails by cancellation. */
  ghost predicate CancelledWhenDone(inputs: seq<Input>, id: nat, j: nat) {
    j < |inputs| && inputs[j] == Fail(id, Cancelled) && exists i: nat :: DoneAt(inputs[..j], id, i)
  }

  lemma DoneStays(inputs: seq<Input>, input: Input, id: nat, i: nat)
    ensures DoneAt(inputs + [input], id, i)
            <==> (DoneAt(inputs, id, i) && !Stops(input, id))
                 || (i == |inputs| && Terminates(input, id) && input.event.StreamDone? && Untouched(inputs, id))
  {
    var all := inputs + [input];
    assert forall k :: 0 <= k < |inputs| ==> all[k] == inputs[k];
    assert all[|inputs|] == input;
  }

  /** Nothing has ended the stream. */
  ghost predicate Untouched(inputs: seq<Input>, id: nat) {
    forall k :: 0 <= k < |inputs| ==> !Terminates(inputs[k], id) && !Stops(inputs[k], id)
  }

  /** The inputs tell the phase, and how many answers there are. */
  ghost predicate Explained(inputs: seq<Input>, id: nat, p: Progress) {
    && (p.phase.Live? <==> Untouched(inputs, id))
    && (p.phase.Live? ==> p.turn.answers == [])
    && (p.phase.Closing? && p.turn.answers != [] <==> exists i: nat :: DoneAt(inputs, id, i))
    && (p.phase.Closing? ==> |p.turn.answers| <= 1)
    && |p.turn.answers| <= 2
    && (|p.turn.answers| == 2 <==> exists j: nat :: CancelledWhenDone(inputs, id, j))
  }

  lemma UntouchedGrows(inputs: seq<Input>, input: Input, id: nat)
    ensures Untouched(inputs + [input], id) <==> Untouched(inputs, id) && !Terminates(input, id) && !Stops(input, id)
  {
    var all := inputs + [input];
    assert all[|inputs|] == input;
    assert forall k :: 0 <= k < |inputs| ==> all[k] == inputs[k];
  }

  lemma DoneGrows(inputs: seq<Input>, input: Input, id: nat)
    ensures (exists i: nat :: DoneAt(inputs + [input], id, i))
            <==> ((exists i: nat :: DoneAt(inputs, id, i)) && !Stops(input, id))
                 || (Terminates(input, id) && input.event.StreamDone? && Untouched(inputs, id))
  {
    forall i: nat ensures DoneAt(inputs + [input], id, i)
                          <==> (DoneAt(inputs, id, i) && !Stops(input, id))
                               || (i == |inputs| && Terminates(input, id) && input.event.StreamDone? && Untouched(inputs, id)) {
      DoneStays(inputs, input, id, i);
    }
    hide DoneAt, Untouched;
    if Terminates(input, id) && input.event.StreamDone? && Untouched(inputs, id) {
      assert DoneAt(inputs + [input], id, |inputs|);
    }
  }

  lemma CancelledGrows(inputs: seq<Input>, input: Input, id: nat)
    ensures (exists j: nat :: CancelledWhenDone(inputs + [input], id, j))
            <==> (exists j: nat :: CancelledWhenDone(inputs, id, j))
                 || (input == Fail(id, Cancelled) && exists i: nat :: DoneAt(inputs, id, i))
  {
    hide DoneAt;
    var all := inputs + [input];
    forall j: nat ensures CancelledWhenDone(all, id, j)
                          <==> CancelledWhenDone(inputs, id, j)
                               || (j == |inputs| && input == Fail(id, Cancelled) && exists i: nat :: DoneAt(inputs, id, i)) {
      if j <= |inputs| { assert all[..j] == inputs[..j]; }
      assert inputs[..|inputs|] == inputs;
    }
    if input == Fail(id, Cancelled) && exists i: nat :: DoneAt(inputs, id, i) {
      assert CancelledWhenDone(all, id, |inputs|);
    }
  }

  lemma ExplainedNext(inputs: seq<Input>, input: Input, id: nat, p: Progress)
    requires Explained(inputs, id, p)
    ensures Explained(inputs + [input], id, Advance(p, input, id))
  {
    UntouchedGrows(inputs, input, id);
    DoneGrows(inputs, input, id);
    CancelledGrows(inputs, input, id);
    hide Untouched, DoneAt, CancelledWhenDone;
  }

  lemma {:induction false} TurnIsExplained(question: string, inputs: seq<Input>, id: nat)
    ensures Explained(inputs, id, Replay(question, inputs, id))
    decreases |inputs|
  {
    if inputs != [] {
      var most, input := inputs[..|inputs| - 1], inputs[|inputs| - 1];
      assert inputs == most + [input];
      TurnIsExplained(question, most, id);
      ExplainedNext(most, input, id, Replay(question, most, id));
      hide Explained, Advance;
    }
  }

  /** A turn gets at most two answers, and a second one exactly if a cancellation hits its
      stream after a done event completed it and before the stream ended. */
  lemma SecondAnswerIff(part: Part, id: nat)
    ensures |AnswersOf(Outcome(part, id).turn)| <= 2
    ensures |AnswersOf(Outcome(part, id).turn)| == 2 <==> exists j: nat :: CancelledWhenDone(part.inputs, id, j)
  {
    TurnIsExplained(part.question, part.inputs, id);
    hide Replay, CancelledWhenDone, DoneAt, Untouched;
  }

  // ----- Turns that no terminal event completed -----

  /** The text that the stream of send `id` has delivered. */
  function Streamed(inputs: seq<Input>, id: nat): string {
    if inputs == [] then ""
    else
      var input := inputs[|inputs| - 1];
      Streamed(inputs[..|inputs| - 1], id)
      + if input.Deliver? && input.id == id && input.event.TokenChunk? then input.event.text else ""
  }

  /** Until something ends the stream, the turn collects its text. */
  lemma {:induction false} UntouchedCollects(question: string, inputs: seq<Input>, id: nat)
    requires Untouched(inputs, id)
    ensures var p := Replay(question, inputs, id);
            p.phase.Live? && p.turn.answers == [] && p.turn.failure == None && ConcatTokens(p.turn.tokens) == Streamed(inputs, id)
    decreases |inputs|
  {
    if inputs != [] {
      var most, input := inputs[..|inputs| - 1], inputs[|inputs| - 1];
      assert !Terminates(input, id) && !Stops(input, id);
      UntouchedCollects(question, most, id);
      var p := Replay(question, most, id);
      hide Replay, Streamed;
      if Concerns(input, id) { TokensOfMore(p.turn.tokens, input.event.text); }
      assert Replay(question, inputs, id) == Advance(p, input, id) by { ReplayOfMore(question, most, input, id); }
      assert Streamed(inputs, id) == Streamed(most, id) + if Concerns(input, id) then input.event.text else ""
        by { StreamedOfMore(inputs, id); }
      assert Streamed(most, id) + "" == Streamed(most, id);
    }
  }

  lemma StreamedOfMore(inputs: seq<Input>, id: nat)
    requires inputs != [] && !Terminates(inputs[|inputs| - 1], id) && !Stops(inputs[|inputs| - 1], id)
    ensures Streamed(inputs, id)
            == Streamed(inputs[..|inputs| - 1], id) + if Concerns(inputs[|inputs| - 1], id) then inputs[|inputs| - 1].event.text else ""
  {
  }

  lemma ReplayOfMore(question: string, inputs: seq<Input>, input: Input, id: nat)
    ensures Replay(question, inputs + [input], id) == Advance(Replay(question, inputs, id), input, id)
  {
    assert (inputs + [input])[..|inputs|] == inputs;
  }

  /** Nothing changes a turn whose stream is gone. */
  lemma {:induction false} GoneForGood(question: string, inputs: seq<Input>, more: seq<Input>, id: nat)
    requires Replay(question, inputs, id).phase.Gone?
    ensures Replay(question, inputs + more, id) == Replay(question, inputs, id)
    decreases |more|
  {
    hide Replay;
    if more == [] {
      assert inputs + more == inputs;
    } else {
      var most, input := more[..|more| - 1], more[|more| - 1];
      GoneForGood(question, inputs, most, id);
      ReplayOfMore(question, inputs + most, input, id);
      assert inputs + more == inputs + most + [input];
    }
  }

  /** A stream that closes or is cancelled before any terminal event leaves exactly one
      answer, with the text so far, ungrounded and without citations. One that fails
      otherwise leaves none, and an error. Nothing that comes later changes that. */
  lemma UnfinishedTurn(question: string, inputs: seq<Input>, end: Input, more: seq<Input>, id: nat)
    requires Untouched(inputs, id) && Stops(end, id)
    ensures var turn := Replay(question, inputs + [end] + more, id).turn;
            if end == Fail(id, Connection) then AnswersOf(turn) == [] && turn.failure == Some("Connection error.")
            else if end == Fail(id, Other) then AnswersOf(turn) == [] && turn.failure == Some("Something went wrong.")
            else AnswersOf(turn) == [ChatMessage(Assistant, Streamed(inputs, id), [], Some(false))] && turn.failure == None
  {
    UntouchedCollects(question, inputs, id);
    ReplayOfMore(question, inputs, end, id);
    GoneForGood(question, inputs + [end], more, id);
    var turn := Replay(question, inputs, id).turn;
    hide Replay, Streamed;
    AnswersOfMore(turn, NO_COMPLETION);
    assert AnswersOf(turn) == [];
  }

  // ----- At most one answer for every send -----

  lemma OneAnswer(part: Part, id: nat)
    requires NoFailureBehindTheEnd(part.inputs)
    ensures |AnswersOf(Outcome(part, id).turn)| <= 1
  {
    SecondAnswerIff(part, id);
    hide Outcome, AnswersOf;
    forall j: nat ensures !CancelledWhenDone(part.inputs, id, j) {
      if j < |part.inputs| {
        forall i: nat | i < j ensures part.inputs[..j][i] == part.inputs[i] {
        }
      }
    }
  }

  /** Where a part lies in the run. */
  lemma {:induction false} PartLies(parts: seq<Part>, k: nat) returns (from: nat)
    requires k < |parts|
    ensures from + |parts[k].inputs| <= |Unroll(parts)| && Unroll(parts)[from..from + |parts[k].inputs|] == parts[k].inputs
    decreases parts
  {
    var most := parts[..|parts| - 1];
    if k < |most| {
      from := PartLies(most, k);
      assert Unroll(parts)[..|Unroll(most)|] == Unroll(most);
    } else {
      from := |Unroll(most)| + 1;
    }
  }

  /** If no stream fails behind its terminal event, every send gets at most one answer. */
  lemma OneAnswerPerSend(inputs: seq<Input>, before: seq<Input>, parts: seq<Part>, turns: seq<Turn>)
    requires Isolated(inputs, before, parts, turns) && NoFailureBehindTheEnd(inputs)
    ensures OneAnswerEach(turns)
  {
    hide Outcome, Unroll, AnswersOf, Terminates;
    forall k | 0 <= k < |turns| ensures |AnswersOf(turns[k])| <= 1 {
      var at := PartLies(parts, k);
      var from := |before| + at;
      var part := parts[k].inputs;
      forall i | 0 <= i < |part| ensures part[i] == inputs[from + i] {
        assert Unroll(parts)[at..at + |part|][i] == inputs[from + i];
      }
      forall i, j | 0 <= i < j < |part| && part[j].Fail? ensures !Terminates(part[i], part[j].id) {
        assert inputs[from + j].Fail?;
      }
      OneAnswer(parts[k], k);
    }
  }

  // ----- The streams the reader makes -----

  /** The events, delivered by the stream of one send. */
  function Deliveries(events: seq<ChatStreamEvent>, id: nat): seq<Input> {
    if events == [] then [] else Deliveries(events[..|events| - 1], id) + [Deliver(id, events[|events| - 1])]
  }

  /** The inputs the stream of send `id` makes, if it is not superseded. */
  function StreamInputs(events: seq<ChatStreamEvent>, ended: Option<Failure>, id: nat): seq<Input> {
    Deliveries(events, id) + [if ended.Some? then Fail(id, ended.value) else Close(id)]
  }

  function OfStream(inputs: seq<Input>, id: nat): seq<Input> {
    if inputs == [] then []
    else OfStream(inputs[..|inputs| - 1], id) + if Concerns(inputs[|inputs| - 1], id) then [inputs[|inputs| - 1]] else []
  }

  /** What the run gets of each stream is a beginning of what the stream reader makes of some response. */
  ghost predicate FromReader(inputs: seq<Input>) {
    forall id: nat :: IsReadFor(OfStream(inputs, id), id)
  }

  ghost predicate IsReadFor(inputs: seq<Input>, id: nat) {
    exists events, ended :: ReaderStream(events, ended) && inputs <= StreamInputs(events, ended, id)
  }

  lemma {:induction false} DeliveriesAre(events: seq<ChatStreamEvent>, id: nat)
    ensures |Deliveries(events, id)| == |events|
    ensures forall k :: 0 <= k < |events| ==> Deliveries(events, id)[k] == Deliver(id, events[k])
    decreases events
  {
    if events != [] { DeliveriesAre(events[..|events| - 1], id); }
  }

  /** Behind a terminal event the reader makes nothing but the close. */
  lemma ReaderStopsAtTheEnd(events: seq<ChatStreamEvent>, ended: Option<Failure>, id: nat, i: nat, j: nat)
    requires ReaderStream(events, ended) && i < j < |StreamInputs(events, ended, id)|
    requires Terminates(StreamInputs(events, ended, id)[i], id)
    ensures StreamInputs(events, ended, id)[j] == Close(id)
  {
    DeliveriesAre(events, id);
    hide Deliveries;
  }

  /** The places of a stream's inputs among the inputs of that stream. */
  lemma {:induction false} PlaceInStream(inputs: seq<Input>, id: nat, i: nat, j: nat) returns (a: nat, b: nat)
    requires i < j < |inputs| && Concerns(inputs[i], id) && Concerns(inputs[j], id)
    ensures a < b < |OfStream(inputs, id)| && OfStream(inputs, id)[a] == inputs[i] && OfStream(inputs, id)[b] == inputs[j]
    decreases inputs
  {
    var most := inputs[..|inputs| - 1];
    if j < |most| {
      a, b := PlaceInStream(most, id, i, j);
    } else {
      a := OnePlace(most, id, i);
      b := |OfStream(most, id)|;
    }
  }

  lemma {:induction false} OnePlace(inputs: seq<Input>, id: nat, i: nat) returns (a: nat)
    requires i < |inputs| && Concerns(inputs[i], id)
    ensures a < |OfStream(inputs, id)| && OfStream(inputs, id)[a] == inputs[i]
    decreases inputs
  {
    var most := inputs[..|inputs| - 1];
    a := |OfStream(most, id)|;
    if i < |most| { a := OnePlace(most, id, i); }
  }

  /** The reader rules out what could add a second answer: for the streams it makes, cut
      by superseding sends and interleaved at will, nothing comes behind a terminal event
      but the close. So every such run is one of the state machine, with at most one
      answer for every send. */
  lemma ReaderRunsBehave(inputs: seq<Input>)
    requires FromReader(inputs)
    ensures NothingBehindTheEnd(inputs) && NoFailureBehindTheEnd(inputs)
  {
    hide StreamInputs, ReaderStream, OfStream;
    forall i, j | 0 <= i < j < |inputs| && (inputs[j].Deliver? || inputs[j].Fail?) ensures !Terminates(inputs[i], inputs[j].id) {
      var id := inputs[j].id;
      if Terminates(inputs[i], id) {
        var a, b := PlaceInStream(inputs, id, i, j);
        assert IsReadFor(OfStream(inputs, id), id);
        var events, ended :| ReaderStream(events, ended) && OfStream(inputs, id) <= StreamInputs(events, ended, id);
        ReaderStopsAtTheEnd(events, ended, id, a, b);
      }
    }
  }

  /** So with the streams the client really gets, every send adds one user message and at
      most one assistant message. */
  lemma AtMostOneAnswerPerSend(inputs: seq<Input>, state: ChatState)
    requires FromReader(inputs) && Results(inputs, state)
    ensures exists before, parts, turns ::
              Isolated(inputs, before, parts, turns) && Shows(state, parts, turns) && OneAnswerEach(turns)
  {
    hide FromReader, Isolated, Shows, OneAnswerEach;
    ReaderRunsBehave(inputs);
    hide NoFailureBehindTheEnd, NothingBehindTheEnd;
  }
}
