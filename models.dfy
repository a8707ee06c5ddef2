/** The unit of work: a turn record and its six-valued status. */
module Models {
  import opened Wrappers

  /** `TurnStatus`, a string enum with six members. */
  datatype TurnStatus = Queued | Transcribing | Generating | Synthesizing | Done | Error

  /** The string value of each member, as the API reports it. */
  function StatusValue(s: TurnStatus): string {
    match s
    case Queued => "queued"
    case Transcribing => "transcribing"
    case Generating => "generating"
    case Synthesizing => "synthesizing"
    case Done => "done"
    case Error => "error"
  }

  /** `TurnStatus(v)`: looks a member up by its value. */
  function ParseStatus(v: string): (r: Option<TurnStatus>)
    ensures r.Some? ==> StatusValue(r.value) == v
    ensures r.None? ==> forall s: TurnStatus :: StatusValue(s) != v
  {
    if v == "queued" then Some(Queued)
    else if v == "transcribing" then Some(Transcribing)
    else if v == "generating" then Some(Generating)
    else if v == "synthesizing" then Some(Synthesizing)
    else if v == "done" then Some(Done)
    else if v == "error" then Some(Error)
    else None
  }

  const AllStatuses: seq<TurnStatus> := [Queued, Transcribing, Generating, Synthesizing, Done, Error]

  /** The enum has exactly six members with six distinct values. */
  lemma SixDistinctStatuses()
    ensures |AllStatuses| == 6
    ensures forall s: TurnStatus :: s in AllStatuses
    ensures forall i, j :: 0 <= i < j < |AllStatuses| ==>
      StatusValue(AllStatuses[i]) != StatusValue(AllStatuses[j])
    ensures forall s: TurnStatus :: ParseStatus(StatusValue(s)) == Some(s)
  {
    forall s: TurnStatus ensures s in AllStatuses {
      match s
      case Queued => assert AllStatuses[0] == s;
      case Transcribing => assert AllStatuses[1] == s;
      case Generating => assert AllStatuses[2] == s;
      case Synthesizing => assert AllStatuses[3] == s;
      case Done => assert AllStatuses[4] == s;
      case Error => assert AllStatuses[5] == s;
    }
  }

  predicate Terminal(s: TurnStatus) {
    s == Done || s == Error
  }

  /** The turn state machine: the four forward steps of the pipeline, and
      the side step into `error` from any state that is not terminal. */
  predicate CanMove(from: TurnStatus, to: TurnStatus) {
    || (from == Queued && to == Transcribing)
    || (from == Transcribing && to == Generating)
    || (from == Generating && to == Synthesizing)
    || (from == Synthesizing && to == Done)
    || (!Terminal(from) && to == Error)
  }

  /** Every consecutive pair of statuses in `p` is an allowed move. */
  predicate LegalPath(p: seq<TurnStatus>) {
    forall i :: 0 <= i < |p| - 1 ==> CanMove(p[i], p[i + 1])
  }

  /** The `Turn` record. `createdAt` and the values of `timings` are seconds. */
  datatype Turn = Turn(
    turnId: string,
    sessionId: string,
    status: TurnStatus,
    audioInPath: Option<string>,
    transcript: Option<string>,
    assistantText: Option<string>,
    audioOutPath: Option<string>,
    error: Option<string>,
    createdAt: real,
    timings: map<string, real>)

  /** `Turn.new(session_id)`. The two uuid4 strings and the clock reading
      are parameters: `turnUuid` becomes the id, `sessionUuid` is used only
      when no session id (or an empty one) is given. */
  function NewTurn(sessionId: Option<string>, turnUuid: string, sessionUuid: string, now: real): (t: Turn)
    ensures t.turnId == turnUuid
    ensures sessionId.Some? && sessionId.value != "" ==> t.sessionId == sessionId.value
    ensures sessionId.None? || sessionId == Some("") ==> t.sessionId == sessionUuid
    ensures t.status == Queued
    ensures t.audioInPath.None? && t.transcript.None? && t.assistantText.None?
    ensures t.audioOutPath.None? && t.error.None?
    ensures t.timings == map[]
    ensures t.createdAt == now
  {
    var sid := if sessionId.Some? && sessionId.value != "" then sessionId.value else sessionUuid;
    Turn(turnUuid, sid, Queued, None, None, None, None, None, now, map[])
  }
}
