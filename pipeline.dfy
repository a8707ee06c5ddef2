/** `VoicePipeline`: drives one turn through transcription, generation and
    synthesis. The three engines are collaborators whose results (a value
    and the elapsed seconds, or the message of an exception) are inputs. */
module Pipeline {
  import opened Wrappers
  import opened Models

  datatype Role = SystemRole | UserRole | AssistantRole

  /** The `"role"` string of a chat message. */
  function RoleName(r: Role): string {
    match r
    case SystemRole => "system"
    case UserRole => "user"
    case AssistantRole => "assistant"
  }

  /** A chat message `{"role": ..., "content": ...}`. */
  datatype Message = Message(role: Role, content: string)

  /** What a collaborator call did: returned a value after `seconds`, or
      raised an exception whose `str` is `message`. */
  datatype Outcome<T> = Returned(value: T, seconds: real) | Raised(message: string)

  /** A call made to a collaborator, with its arguments. */
  datatype Call =
    | Transcribe(audioPath: string)
    | Chat(messages: seq<Message>)
    | Synthesize(text: string, outPath: string)

  /** The status the turn is in while the call is made. */
  function CallStage(c: Call): TurnStatus {
    match c
    case Transcribe(_) => Transcribing
    case Chat(_) => Generating
    case Synthesize(_, _) => Synthesizing
  }

  const DefaultSystemPrompt: string := "Tu es un assistant vocal local, concis et utile. Réponds en français."
  const MissingAudio: string := "audio_in_path is missing"

  /** `turn.audio_in_path` is truthy: present and not empty. */
  predicate HasAudio(t: Turn) {
    t.audioInPath.Some? && t.audioInPath.value != ""
  }

  /** `transcript or ""`. */
  function UserText(transcript: Option<string>): string {
    transcript.GetOr("")
  }

  /** The messages sent to the language model: the system prompt, the
      session history, then the user's utterance. */
  function Prompt(systemPrompt: string, history: seq<Message>, transcript: Option<string>): (m: seq<Message>)
    ensures |m| == |history| + 2
    ensures m[0] == Message(SystemRole, systemPrompt)
    ensures m[1..|m| - 1] == history
    ensures m[|m| - 1] == Message(UserRole, UserText(transcript))
  {
    [Message(SystemRole, systemPrompt)] + history + [Message(UserRole, UserText(transcript))]
  }

  /** The two messages one exchange adds to a session's history. */
  function Exchange(transcript: Option<string>, answer: string): seq<Message> {
    [Message(UserRole, UserText(transcript)), Message(AssistantRole, answer)]
  }

  /** Where the synthesizer is asked to write the answer's audio. */
  function OutPath(turnId: string): string {
    "app/tts/outputs/turn_" + turnId + ".wav"
  }

  /** A session's history, or the empty list `setdefault` would insert. */
  function SessionHistory(h: map<string, seq<Message>>, sessionId: string): seq<Message> {
    if sessionId in h then h[sessionId] else []
  }

  /** A history made of whole exchanges: user, assistant, user, ... */
  ghost predicate Alternates(h: seq<Message>) {
    && |h| % 2 == 0
    && forall i :: 0 <= i < |h| ==> h[i].role == (if i % 2 == 0 then UserRole else AssistantRole)
  }

  /** Appending one exchange to a history of whole exchanges leaves a
      history of whole exchanges. */
  lemma ExchangeKeepsAlternation(h: seq<Message>, transcript: Option<string>, answer: string)
    requires Alternates(h)
    ensures Alternates(h + Exchange(transcript, answer))
  {
    var h' := h + Exchange(transcript, answer);
    forall i | 0 <= i < |h'|
      ensures h'[i].role == (if i % 2 == 0 then UserRole else AssistantRole)
    {
      if i >= |h| { assert h'[i] == Exchange(transcript, answer)[i - |h|]; }
    }
  }

  /** The message of the first collaborator, in pipeline order, that raised. */
  function FirstFailure(asr: Outcome<Option<string>>, llm: Outcome<string>, tts: Outcome<string>): Option<string> {
    if asr.Raised? then Some(asr.message)
    else if llm.Raised? then Some(llm.message)
    else if tts.Raised? then Some(tts.message)
    else None
  }

  /** Everything one run of the pipeline produces: the updated turn, the
      exception that escaped (if any), the statuses assigned in order, the
      collaborator calls in order, and the session's history afterwards
      (`None` when the run never reached the generating stage and so never
      touched the history map). */
  datatype RunResult = RunResult(
    turn: Turn,
    raised: Option<string>,
    statuses: seq<TurnStatus>,
    calls: seq<Call>,
    history: Option<seq<Message>>)

  /** `VoicePipeline.run` as a function of the system prompt, the session's
      history before the run, the turn and the three collaborator outcomes.
      `RunTurnStages`, `RunTurnData` and `RunTurnHistory` state what it
      guarantees. */
  function RunTurn(systemPrompt: string, history: seq<Message>, turn: Turn,
                   asr: Outcome<Option<string>>, llm: Outcome<string>, tts: Outcome<string>): (r: RunResult)
    ensures r.turn.turnId == turn.turnId && r.turn.sessionId == turn.sessionId
    ensures 1 <= |r.statuses| <= 4 && |r.calls| <= 3
    ensures r.raised.Some? ==> |r.calls| == |r.statuses|
  {
    if !HasAudio(turn) then
      RunResult(turn.(status := Error, error := Some(MissingAudio)), None, [Error], [], None)
    else
      var path := turn.audioInPath.value;
      var t1 := turn.(status := Transcribing);
      match asr
      case Raised(m) =>
        RunResult(t1, Some(m), [Transcribing], [Transcribe(path)], None)
      case Returned(transcript, dAsr) =>
        var t2 := t1.(transcript := transcript, timings := t1.timings["asr_s" := dAsr]).(status := Generating);
        var messages := Prompt(systemPrompt, history, transcript);
        match llm
        case Raised(m) =>
          RunResult(t2, Some(m), [Transcribing, Generating], [Transcribe(path), Chat(messages)], Some(history))
        case Returned(answer, dLlm) =>
          var t3 := t2.(assistantText := Some(answer), timings := t2.timings["llm_s" := dLlm]);
          var h := history + Exchange(transcript, answer);
          var calls := [Transcribe(path), Chat(messages), Synthesize(answer, OutPath(turn.turnId))];
          var t4 := t3.(status := Synthesizing);
          match tts
          case Raised(m) =>
            RunResult(t4, Some(m), [Transcribing, Generating, Synthesizing], calls, Some(h))
          case Returned(audioPath, dTts) =>
            var t5 := t4.(audioOutPath := Some(audioPath), timings := t4.timings["tts_s" := dTts]).(status := Done);
            RunResult(t5, None, [Transcribing, Generating, Synthesizing, Done], calls, Some(h))
  }

  /** The stages of one run: the statuses follow the pipeline's order and
      each collaborator call is made in the status of its stage. */
  lemma RunTurnStages(systemPrompt: string, history: seq<Message>, turn: Turn,
                      asr: Outcome<Option<string>>, llm: Outcome<string>, tts: Outcome<string>, r: RunResult)
    requires r == RunTurn(systemPrompt, history, turn, asr, llm, tts)
    // identity and input fields are never touched
    ensures r.turn.turnId == turn.turnId && r.turn.sessionId == turn.sessionId
    ensures r.turn.audioInPath == turn.audioInPath && r.turn.createdAt == turn.createdAt
    // a turn without audio fails at once: no collaborator call, no history
    ensures !HasAudio(turn) ==>
      && r.turn == turn.(status := Error, error := Some(MissingAudio))
      && r.raised.None? && r.statuses == [Error] && r.calls == [] && r.history.None?
    ensures HasAudio(turn) ==>
      && r.statuses != [] && r.statuses <= [Transcribing, Generating, Synthesizing, Done]
      && |r.calls| == (if |r.statuses| == 4 then 3 else |r.statuses|)
      && (forall i :: 0 <= i < |r.calls| ==> CallStage(r.calls[i]) == r.statuses[i])
      && r.turn.error == turn.error
  {
  }

  /** How one run ends: in the last status it set, in a terminal status
      exactly when no exception escaped, and with the exception of the first
      collaborator that raised. The statuses assigned, in order, are moves of
      the state machine from `queued`; so a queued turn (as `Turn.new`
      creates it) follows a legal path. `run` does not look at the status it
      is given. */
  lemma RunTurnOutcome(systemPrompt: string, history: seq<Message>, turn: Turn,
                       asr: Outcome<Option<string>>, llm: Outcome<string>, tts: Outcome<string>, r: RunResult)
    requires r == RunTurn(systemPrompt, history, turn, asr, llm, tts)
    ensures r.statuses != [] && r.turn.status == r.statuses[|r.statuses| - 1]
    ensures LegalPath([Queued] + r.statuses)
    ensures turn.status == Queued ==> LegalPath([turn.status] + r.statuses)
    ensures r.raised.None? <==> Terminal(r.turn.status)
    ensures HasAudio(turn) ==> r.raised == FirstFailure(asr, llm, tts)
  {
  }

  /** The data of one run: the collaborators get the audio path, the
      composed prompt, and the answer with the turn's output path; timings
      only gain keys; a successful run records transcript, answer, output
      audio and the three timings. */
  lemma RunTurnData(systemPrompt: string, history: seq<Message>, turn: Turn,
                    asr: Outcome<Option<string>>, llm: Outcome<string>, tts: Outcome<string>, r: RunResult)
    requires r == RunTurn(systemPrompt, history, turn, asr, llm, tts)
    ensures |r.calls| >= 1 ==> r.calls[0] == Transcribe(turn.audioInPath.value)
    ensures |r.calls| >= 2 ==> asr.Returned? && r.calls[1] == Chat(Prompt(systemPrompt, history, asr.value))
    ensures |r.calls| >= 3 ==> llm.Returned? && r.calls[2] == Synthesize(llm.value, OutPath(turn.turnId))
    ensures turn.timings.Keys <= r.turn.timings.Keys
    ensures HasAudio(turn) && r.raised.None? ==>
      && asr.Returned? && llm.Returned? && tts.Returned?
      && r.turn.status == Done
      && r.turn.transcript == asr.value
      && r.turn.assistantText == Some(llm.value)
      && r.turn.audioOutPath == Some(tts.value)
      && r.turn.timings == turn.timings["asr_s" := asr.seconds]["llm_s" := llm.seconds]["tts_s" := tts.seconds]
  {
  }

  /** The history of one run: it is touched once generation starts, grows
      by exactly one exchange once the model has answered, and is never
      trimmed; a failed synthesis still leaves the exchange in the history,
      and a history of whole exchanges stays one. */
  lemma RunTurnHistory(systemPrompt: string, history: seq<Message>, turn: Turn,
                       asr: Outcome<Option<string>>, llm: Outcome<string>, tts: Outcome<string>, r: RunResult)
    requires r == RunTurn(systemPrompt, history, turn, asr, llm, tts)
    ensures r.history.Some? <==> HasAudio(turn) && asr.Returned?
    ensures r.history.Some? ==>
      r.history.value == history + (if llm.Returned? then Exchange(asr.value, llm.value) else [])
    ensures Alternates(history) && r.history.Some? ==> Alternates(r.history.value)
  {
    if HasAudio(turn) && asr.Returned? && llm.Returned? && Alternates(history) {
      ExchangeKeepsAlternation(history, asr.value, llm.value);
    }
  }

  /** The history map after a run that left the session's history as `h`. */
  function Committed(histories: map<string, seq<Message>>, sessionId: string, h: Option<seq<Message>>): map<string, seq<Message>> {
    if h.Some? then histories[sessionId := h.value] else histories
  }

  class VoicePipeline {
    const systemPrompt: string
    /** The `_history` dict: per-session chat history. */
    var history: map<string, seq<Message>>

    /** Every session's history is a run of whole exchanges. */
    ghost predicate Valid()
      reads this
    {
      forall sid :: sid in history ==> Alternates(history[sid])
    }

    constructor (systemPrompt: string)
      ensures Valid()
      ensures this.systemPrompt == systemPrompt && history == map[]
    {
      this.systemPrompt := systemPrompt;
      history := map[];
    }

    /** `run(turn)`, step by step. The session's history is updated in place
        of the map; no other session's history changes. */
    method Run(turn: Turn, asr: Outcome<Option<string>>, llm: Outcome<string>, tts: Outcome<string>)
      returns (t: Turn, raised: Option<string>, statuses: seq<TurnStatus>, calls: seq<Call>)
      requires Valid()
      modifies this
      ensures Valid()
      ensures
        var r := RunTurn(systemPrompt, SessionHistory(old(history), turn.sessionId), turn, asr, llm, tts);
        && (t, raised, statuses, calls) == (r.turn, r.raised, r.statuses, r.calls)
        && history == Committed(old(history), turn.sessionId, r.history)
    {
      t, raised, statuses, calls := turn, None, [], [];
      if !HasAudio(t) {
        t := t.(status := Error, error := Some(MissingAudio));
        statuses := [Error];
        return;
      }

      // 1) transcription
      t := t.(status := Transcribing);
      statuses := statuses + [Transcribing];
      calls := calls + [Transcribe(t.audioInPath.value)];
      if asr.Raised? {
        raised := Some(asr.message);
        assert statuses == [Transcribing] && calls == [Transcribe(turn.audioInPath.value)];
        return;
      }
      var transcript := asr.value;
      t := t.(transcript := transcript, timings := t.timings["asr_s" := asr.seconds]);

      // 2) generation
      t := t.(status := Generating);
      statuses := statuses + [Generating];
      var h := SessionHistory(history, t.sessionId);
      history := history[t.sessionId := h];
      var messages := [Message(SystemRole, systemPrompt)] + h + [Message(UserRole, UserText(transcript))];
      calls := calls + [Chat(messages)];
      if llm.Raised? {
        raised := Some(llm.message);
        assert statuses == [Transcribing, Generating];
        assert calls == [Transcribe(turn.audioInPath.value), Chat(messages)];
        assert history == old(history)[turn.sessionId := h];
        return;
      }
      var answer := llm.value;
      t := t.(assistantText := Some(answer), timings := t.timings["llm_s" := llm.seconds]);
      ExchangeKeepsAlternation(h, transcript, answer);
      h := h + [Message(UserRole, UserText(transcript))];
      h := h + [Message(AssistantRole, answer)];
      assert h == SessionHistory(old(history), turn.sessionId) + Exchange(transcript, answer);
      history := history[t.sessionId := h];
      assert history == old(history)[turn.sessionId := h];

      // 3) synthesis
      t := t.(status := Synthesizing);
      statuses := statuses + [Synthesizing];
      var outPath := "app/tts/outputs/turn_" + t.turnId + ".wav";
      calls := calls + [Synthesize(answer, outPath)];
      if tts.Raised? {
        raised := Some(tts.message);
        assert statuses == [Transcribing, Generating, Synthesizing];
        assert calls == [Transcribe(turn.audioInPath.value), Chat(messages), Synthesize(answer, outPath)];
        return;
      }
      t := t.(audioOutPath := Some(tts.value), timings := t.timings["tts_s" := tts.seconds]);

      t := t.(status := Done);
      statuses := statuses + [Done];
      assert statuses == [Transcribing, Generating, Synthesizing, Done];
      assert calls == [Transcribe(turn.audioInPath.value), Chat(messages), Synthesize(answer, outPath)];
    }
  }
}
