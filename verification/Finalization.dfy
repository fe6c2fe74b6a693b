/**
 How one run task ends (containers/agent/src/main.rs and control_rpc.rs): it
 selects one terminal outcome, and repeats only that one until it is answered.
 */
module Finalization {
  import opened Wrappers
  import opened Conversation
  import opened WireHistory
  import opened Transcript
  import opened ControlRpc
  import opened Usage
  import Checkpoint

  datatype LoopStatus = Running | Paused | Finished | TimedOut | Failed | Cancelled

  datatype SessionResponse = SessionResponse(status: LoopStatus, assistantMessage: Option<string>, turn: seq<Message>)

  /** The body of a `complete-run` request, apart from the task's fixed run and lease ids. */
  datatype Completion = Completion(
    status: string,
    usage: UsageSnapshot,
    output: Option<string>,
    error: Option<string>,
    messages: seq<HistoryMessage>)

  /** An error on its way out of a task: its text, the control-plane error it
      wraps, if any, and whether a finalization had begun. */
  datatype TaskError = TaskError(text: string, rpc: Option<RpcError>, finalization: bool)

  /** How error texts are redacted and worded; nothing below depends on the choice. */
  datatype Wording = Wording(redact: string -> string, visible: string -> string, describe: BuildError -> string)

  /** What became of the engine, as the end of a task finds it. */
  datatype Execution =
    | Quit
    | SetupFailed(error: TaskError)
    | EngineFinished(response: SessionResponse, usage: UsageSnapshot)
    | EngineFailed(text: string, usage: UsageSnapshot, checkpointed: Option<seq<Message>>)

  const UNRECORDED := "Tool execution failed before a result was recorded."

  predicate IsAuthorityLoss(e: TaskError) {
    if e.rpc.Some? then IsAuthorityLost(e.rpc.value)
    else
      && Contains(e.text, "Lease lost")
      && (Contains(e.text, " 409 ") || Contains(e.text, "409 Conflict") || Contains(e.text, "status:409"))
  }

  predicate IsCancellation(text: string) {
    Contains(text, "operation cancelled")
  }

  // ----- The outcome a task selects -----

  function StatusOf(status: LoopStatus): string {
    match status
    case Finished => "completed"
    case Paused | Running => "running"
    case _ => "failed"
  }

  function TerminalError(status: LoopStatus): Option<string> {
    match status
    case TimedOut => Some("agent execution timed out")
    case Failed => Some("agent execution failed")
    case Cancelled => Some("agent execution cancelled without control-plane cancellation")
    case _ => None
  }

  function FinalMessage(w: Wording, response: SessionResponse): Option<string> {
    if response.assistantMessage.Some? then response.assistantMessage
    else if TerminalError(response.status).Some? then Some(w.visible(TerminalError(response.status).value))
    else None
  }

  function SuccessOutcome(w: Wording, response: SessionResponse, usage: UsageSnapshot): Result<Completion, BuildError> {
    var messages := Build(response.turn, FinalMessage(w, response), None);
    if messages.Err? then Err(messages.error)
    else Ok(Completion(
      StatusOf(response.status), usage,
      Some(if response.assistantMessage.Some? then response.assistantMessage.value else ""),
      TerminalError(response.status), messages.value))
  }

  function FailureOutcome(w: Wording, text: string, usage: UsageSnapshot, turn: seq<Message>): Result<Completion,
          BuildError> {
    var error := w.redact(text);
    var messages := Build(turn, Some(w.visible(error)), Some(UNRECORDED));
    if messages.Err? then Err(messages.error)
    else Ok(Completion("failed", usage, None, Some(error), messages.value))
  }

  function Turn(checkpointed: Option<seq<Message>>): seq<Message> {
    if checkpointed.Some? then checkpointed.value else []
  }

  /** The failure reported at the edge of the task, with no usage and no turn. */
  function EdgeOutcome(w: Wording, connects: bool, text: string): Option<Completion> {
    if !connects || IsCancellation(text) then None
    else
      var failure := FailureOutcome(w, text, NO_USAGE, []);
      if failure.Ok? then Some(failure.value) else None
  }

  /** The one outcome a task reports, if any. `connects` says whether a client
      can still be made once the task has failed. */
  function Selected(w: Wording, connects: bool, x: Execution): Option<Completion> {
    match x
    case Quit => None
    case SetupFailed(e) =>
      if IsAuthorityLoss(e) || e.finalization then None else EdgeOutcome(w, connects, e.text)
    case EngineFinished(response, usage) =>
      var outcome := SuccessOutcome(w, response, usage);
      if outcome.Ok? then Some(outcome.value) else Edge(w, connects, outcome.error)
    case EngineFailed(text, usage, checkpointed) =>
      if IsCancellation(text) then None
      else
        var outcome := FailureOutcome(w, text, usage, Turn(checkpointed));
        if outcome.Ok? then Some(outcome.value) else Edge(w, connects, outcome.error)
  }

  /** A transcript that cannot be written turns into an error of the task. */
  function Edge(w: Wording, connects: bool, e: BuildError): Option<Completion> {
    var error := TaskError(w.describe(e), None, false);
    if IsAuthorityLoss(error) then None else EdgeOutcome(w, connects, error.text)
  }

  // ----- What is selected -----

  lemma {:induction false} EdgeAlwaysBuilds(w: Wording, text: string)
    ensures FailureOutcome(w, text, NO_USAGE, []).Ok?
  {
  }

  /** The task quit before starting, was cancelled, lost its authority, or failed
      before it could reach the control plane. */
  predicate Silent(w: Wording, connects: bool, x: Execution) {
    match x
    case Quit => true
    case SetupFailed(e) => IsAuthorityLoss(e) || e.finalization || !connects || IsCancellation(e.text)
    case EngineFinished(response, _) =>
      var built := Build(response.turn, FinalMessage(w, response), None);
      built.Err? && EdgeSilent(w, connects, built.error)
    case EngineFailed(text, _, checkpointed) =>
      IsCancellation(text) ||
      var built := Build(Turn(checkpointed), Some(w.visible(w.redact(text))), Some(UNRECORDED));
      built.Err? && EdgeSilent(w, connects, built.error)
  }

  lemma {:induction false} SilentIff(w: Wording, connects: bool, x: Execution)
    ensures Selected(w, connects, x).None? <==> Silent(w, connects, x)
  {
  }

  predicate EdgeSilent(w: Wording, connects: bool, e: BuildError) {
    !connects || IsCancellation(w.describe(e)) || IsAuthorityLoss(TaskError(w.describe(e), None, false))
  }

  /** Only a finished loop completes a run; every failed outcome says why. */
  lemma {:induction false} OutcomeIsHonest(w: Wording, connects: bool, x: Execution)
    requires Selected(w, connects, x).Some?
    ensures var p := Selected(w, connects, x).value;
            && (p.status == "completed" <==>
                (x.EngineFinished? && x.response.status == Finished && SuccessOutcome(w, x.response, x.usage).Ok?))
            && (p.status == "failed" <==> p.error.Some?)
            && (p.error.Some? ==> p.messages != [])
  {
  }

  /** Where the messages of a failed outcome come from. */
  lemma {:induction false} OutcomeTranscript(w: Wording, connects: bool, x: Execution)
    returns (turn: seq<Message>, final: Option<string>, incomplete: Option<string>)
    requires Selected(w, connects, x).Some?
    ensures Build(turn, final, incomplete) == Ok(Selected(w, connects, x).value.messages)
    ensures Selected(w, connects, x).value.error.Some? ==> final.Some?
    ensures turn == [] || (x.EngineFinished? && turn == x.response.turn)
            || (x.EngineFailed? && x.checkpointed == Some(turn))
  {
    match x
    case SetupFailed(e) =>
      turn, final, incomplete := [], Some(w.visible(w.redact(e.text))), Some(UNRECORDED);
    case EngineFinished(response, usage) =>
      var built := Build(response.turn, FinalMessage(w, response), None);
      if built.Ok? {
        turn, final, incomplete := response.turn, FinalMessage(w, response), None;
      } else {
        turn, final, incomplete := [], Some(w.visible(w.redact(w.describe(built.error)))), Some(UNRECORDED);
      }
    case EngineFailed(text, usage, checkpointed) =>
      var built := Build(Turn(checkpointed), Some(w.visible(w.redact(text))), Some(UNRECORDED));
      if built.Ok? {
        turn, final, incomplete := Turn(checkpointed), Some(w.visible(w.redact(text))), Some(UNRECORDED);
      } else {
        turn, final, incomplete := [], Some(w.visible(w.redact(w.describe(built.error)))), Some(UNRECORDED);
      }
  }

  /** Whatever a task reports about a clean turn, the next run reads the turn
      back word for word, closed by what the task added. */
  lemma {:induction false} OutcomeReadsBack(parse: JsonParser, w: Wording, connects: bool, x: Execution)
    requires Selected(w, connects, x).Some?
    requires x.EngineFinished? ==> Clean(x.response.turn)
    requires x.EngineFailed? ==> Clean(Turn(x.checkpointed))
    ensures exists turn, final, incomplete ::
              && Build(turn, final, incomplete).Ok?
              && ReadBack(parse, Selected(w, connects, x).value.messages) == Intended(turn, final, incomplete)
              && (turn == [] || (x.EngineFinished? && turn == x.response.turn)
                  || (x.EngineFailed? && x.checkpointed == Some(turn)))
  {
    var turn, final, incomplete := OutcomeTranscript(w, connects, x);
    assert Clean(turn);
    TranscriptReadsBack(parse, turn, final, incomplete);
  }

  // ----- What is told, field by field -----

  predicate TellsEdge(w: Wording, text: string, p: Completion) {
    p == Completion("failed", NO_USAGE, None, Some(w.redact(text)),
                    [HistoryMessage("assistant", w.visible(w.redact(text)), [], None)])
  }

  /** What request `p` says of an execution: the usage of the run, the answer or
      the error, and the transcript, if it can be written. */
  predicate Tells(w: Wording, x: Execution, p: Completion) {
    match x
    case Quit => false
    case SetupFailed(e) => TellsEdge(w, e.text, p)
    case EngineFinished(response, usage) =>
      var failure := match response.status
                     case TimedOut => Some("agent execution timed out")
                     case Failed => Some("agent execution failed")
                     case Cancelled => Some("agent execution cancelled without control-plane cancellation")
                     case _ => None;
      var final := if response.assistantMessage.Some? || failure.None? then response.assistantMessage
                   else Some(w.visible(failure.value));
      var written := Build(response.turn, final, None);
      if written.Err? then TellsEdge(w, w.describe(written.error), p)
      else
        && p.usage == usage && p.error == failure && p.messages == written.value
        && p.output == Some(if response.assistantMessage.Some? then response.assistantMessage.value else "")
        && (p.status == "completed" <==> response.status == Finished)
        && (p.status == "failed" <==> failure.Some?) && p.status in {"completed", "running", "failed"}
    case EngineFailed(text, usage, checkpointed) =>
      var turn := if checkpointed.Some? then checkpointed.value else [];
      var written := Build(turn, Some(w.visible(w.redact(text))),
                           Some("Tool execution failed before a result was recorded."));
      if written.Err? then TellsEdge(w, w.describe(written.error), p)
      else p == Completion("failed", usage, None, Some(w.redact(text)), written.value)
  }

  lemma {:induction false} SelectedTells(w: Wording, connects: bool, x: Execution)
    requires Selected(w, connects, x).Some?
    ensures Tells(w, x, Selected(w, connects, x).value)
  {
    match x
    case SetupFailed(e) => EdgeWrites(w, e.text);
    case EngineFinished(response, usage) =>
      var outcome := SuccessOutcome(w, response, usage);
      if outcome.Err? { EdgeWrites(w, w.describe(outcome.error)); }
    case EngineFailed(text, usage, checkpointed) =>
      var outcome := FailureOutcome(w, text, usage, Turn(checkpointed));
      if outcome.Err? { EdgeWrites(w, w.describe(outcome.error)); }
  }

  lemma {:induction false} EdgeWrites(w: Wording, text: string)
    ensures FailureOutcome(w, text, NO_USAGE, []).Ok? && TellsEdge(w, text, FailureOutcome(w, text, NO_USAGE, []).value)
  {
    var last := Message(Assistant, w.visible(w.redact(text)), None, []);
    assert [] + [last] == [last] && [last][1..] == [] && PersistAll([last]) == [Persist(last)];
  }

  // ----- The control plane -----

  /** What the server does on one request, as long as no outcome is on record:
      it may record an earlier request that was delayed until now, or this one. */
  datatype Behaviour = Behaviour(delayed: Option<nat>, commits: bool, reply: Reply)

  /** Requests sent, answers received, and the outcome on record. */
  datatype Log = Log(requests: seq<Completion>, answers: seq<Result<Value, RpcError>>, record: Option<Completion>)

  /** The outcome on record after one more request. */
  function Commit(log: Log, b: Behaviour, payload: Completion): Option<Completion> {
    if log.record.Some? then log.record
    else if b.delayed.Some? && b.delayed.value < |log.requests| then Some(log.requests[b.delayed.value])
    else if b.commits then Some(payload)
    else None
  }

  /** A server acknowledges only the outcome on record, and a repeated request for
      that outcome it acknowledges or turns away because the run has ended; any
      other answer of the script counts as lost. */
  function Answer(record: Option<Completion>, payload: Completion, reply: Reply): Result<Value, RpcError> {
    var answer := Decode(reply);
    var told := if answer.Ok? then record == Some(payload)
                else record != Some(payload) || IsRetryable(answer.error) || IsAuthorityLost(answer.error);
    if told then answer else Decode(SendFailed)
  }

  class ControlPlane {
    const script: nat -> Behaviour
    var log: Log

    constructor (script: nat -> Behaviour)
      ensures this.script == script && log == Log([], [], None)
    {
      this.script := script;
      log := Log([], [], None);
    }

    /** One `complete-run` request. */
    method Post(payload: Completion) returns (result: Result<Value, RpcError>)
      modifies this
      ensures log.requests == old(log.requests) + [payload]
      ensures log.answers == old(log.answers) + [result]
      ensures Records(old(log), log)
      ensures result.Ok? ==> log.record == Some(payload)
      ensures log.record == Some(payload) ==> result.Ok? || IsRetryable(result.error) || IsAuthorityLost(result.error)
    {
      var behaviour := script(|log.requests|);
      var record := Commit(log, behaviour, payload);
      result := Answer(record, payload, behaviour.reply);
      log := Log(log.requests + [payload], log.answers + [result], record);
    }
  }

  /** Turns the last answer into the task's own result. */
  function Settle(answer: Result<Value, RpcError>): Result<(), TaskError> {
    if answer.Ok? || IsAuthorityLost(answer.error) then Ok(())
    else Err(TaskError("run finalization remained unconfirmed", Some(answer.error), true))
  }

  /** What is on record stays, and what comes on record was sent. */
  predicate Records(before: Log, after: Log) {
    after.record == before.record || (before.record.None? && after.record.Some? && after.record.value in after.requests)
  }

  /** From `before` to `after`, only `payload` was sent, under the retry rule. */
  predicate Delivers(before: Log, after: Log, payload: Completion, answers: seq<Result<Value, RpcError>>) {
    && RetryRun(answers)
    && after.requests == before.requests + Copies(payload, |answers|)
    && after.answers == before.answers + answers
    && Records(before, after)
    && (answers[|answers| - 1].Ok? ==> after.record == Some(payload))
    && (after.record == Some(payload) ==> Settle(answers[|answers| - 1]).Ok? || |answers| == MAX_ATTEMPTS)
  }

  method CompleteRun(plane: ControlPlane, payload: Completion)
    returns (result: Result<Value, RpcError>, ghost answers: seq<Result<Value, RpcError>>)
    modifies plane
    ensures Delivers(old(plane.log), plane.log, payload, answers)
    ensures result == answers[|answers| - 1]
  {
    var attempt := 1;
    answers := [];
    while true
      invariant 1 <= attempt <= MAX_ATTEMPTS && |answers| == attempt - 1
      invariant forall i | 0 <= i < |answers| :: Retries(answers[i])
      invariant plane.log.requests == old(plane.log.requests) + Copies(payload, |answers|)
      invariant plane.log.answers == old(plane.log.answers) + answers
      invariant Records(old(plane.log), plane.log)
      decreases MAX_ATTEMPTS - attempt
    {
      assert Copies(payload, |answers| + 1) == Copies(payload, |answers|) + [payload];
      result := plane.Post(payload);
      answers := answers + [result];
      if result.Err? && attempt < MAX_ATTEMPTS && IsRetryable(result.error) {
        attempt := attempt + 1;
      } else {
        break;
      }
    }
  }

  // ----- The end of a task -----

  /** What a task has told the control plane: nothing, or its one outcome. */
  predicate Reports(before: Log, after: Log, outcome: Option<Completion>, answers: seq<Result<Value, RpcError>>) {
    match outcome
    case None => after == before && answers == []
    case Some(payload) => Delivers(before, after, payload, answers)
  }

  /** Against a fresh record, whatever the server delays, loses or repeats: every
      request of the task carries its outcome, and nothing else is on record. */
  lemma {:induction false} OneOutcome(before: Log, after: Log, outcome: Option<Completion>,
          answers: seq<Result<Value, RpcError>>)
    requires before.requests == [] && before.record.None? && Reports(before, after, outcome, answers)
    ensures |after.requests| <= MAX_ATTEMPTS && forall p | p in after.requests :: Some(p) == outcome
    ensures after.record.None? || after.record == outcome
    ensures answers != [] && answers[|answers| - 1].Ok? ==> after.record == outcome
    ensures answers != [] && after.record == outcome ==> Settle(answers[|answers| - 1]).Ok? || |answers| == MAX_ATTEMPTS
  {
  }

  method HandleSuccess(plane: ControlPlane, w: Wording, response: SessionResponse, usage: UsageSnapshot)
    returns (result: Result<(), TaskError>, ghost answers: seq<Result<Value, RpcError>>)
    modifies plane
    ensures match SuccessOutcome(w, response, usage)
            case Err(e) =>
              Reports(old(plane.log), plane.log, None, answers) && result == Err(TaskError(w.describe(e), None, false))
            case Ok(payload) =>
              Delivers(old(plane.log), plane.log, payload, answers) && result == Settle(answers[|answers| - 1])
  {
    hide Delivers, Build, StatusOf, IsAuthorityLost;
    answers := [];
    var terminalError := TerminalError(response.status);
    var finalMessage := response.assistantMessage;
    if finalMessage.None? && terminalError.Some? {
      finalMessage := Some(w.visible(terminalError.value));
    }
    var messages := BuildTerminalTranscriptMessages(response.turn, finalMessage, None);
    if messages.Err? {
      return Err(TaskError(w.describe(messages.error), None, false)), [];
    }
    var output := if response.assistantMessage.Some? then response.assistantMessage.value else "";
    var answer;
    var payload := Completion(StatusOf(response.status), usage, Some(output), terminalError, messages.value);
    answer, answers := CompleteRun(plane, payload);
    if answer.Err? {
      if IsAuthorityLost(answer.error) {
        return Ok(()), answers;
      }
      return Err(TaskError("run finalization remained unconfirmed", Some(answer.error), true)), answers;
    }
    result := Ok(());
  }

  method HandleFailure(plane: ControlPlane, w: Wording, text: string, usage: UsageSnapshot, turn: Option<seq<Message>>)
    returns (result: Result<(), TaskError>, ghost answers: seq<Result<Value, RpcError>>)
    modifies plane
    ensures IsCancellation(text) ==> Reports(old(plane.log), plane.log, None, answers) && result == Ok(())
    ensures !IsCancellation(text) ==>
            match FailureOutcome(w, text, usage, Turn(turn))
            case Err(e) =>
              Reports(old(plane.log), plane.log, None, answers) && result == Err(TaskError(w.describe(e), None, false))
            case Ok(payload) =>
              Delivers(old(plane.log), plane.log, payload, answers) && result == Settle(answers[|answers| - 1])
  {
    hide Delivers, Build, IsCancellation, IsAuthorityLost;
    answers := [];
    if IsCancellation(text) {
      return Ok(()), [];
    }
    var errorMessage := w.redact(text);
    var messages := BuildTerminalTranscriptMessages(
      if turn.Some? then turn.value else [], Some(w.visible(errorMessage)), Some(UNRECORDED));
    if messages.Err? {
      return Err(TaskError(w.describe(messages.error), None, false)), [];
    }
    var answer;
    answer, answers := CompleteRun(plane, Completion("failed", usage, None, Some(errorMessage), messages.value));
    if answer.Err? {
      if IsAuthorityLost(answer.error) {
        return Ok(()), answers;
      }
      return Err(TaskError("run finalization remained unconfirmed", Some(answer.error), true)), answers;
    }
    result := Ok(());
  }

  method HandleRunTaskError(plane: ControlPlane, w: Wording, connects: bool, error: TaskError)
    returns (ghost answers: seq<Result<Value, RpcError>>)
    modifies plane
    ensures Reports(old(plane.log), plane.log,
                    if IsAuthorityLoss(error) || error.finalization then None
                    else EdgeOutcome(w, connects, error.text),
                    answers)
  {
    answers := [];
    if IsAuthorityLoss(error) {
      return [];
    }
    if error.finalization {
      return [];
    }
    if connects {
      var ignored;
      EdgeAlwaysBuilds(w, error.text);
      ignored, answers := HandleFailure(plane, w, error.text, NO_USAGE, None);
    }
  }

  method ExecuteRun(plane: ControlPlane, w: Wording, x: Execution)
    returns (result: Result<(), TaskError>, ghost answers: seq<Result<Value, RpcError>>)
    modifies plane
    ensures result.Err? && !IsAuthorityLoss(result.error) && !result.error.finalization
            ==> plane.log == old(plane.log) && answers == []
    ensures forall connects ::
              if result.Err? && !IsAuthorityLoss(result.error) && !result.error.finalization
              then Selected(w, connects, x) == EdgeOutcome(w, connects, result.error.text)
              else Reports(old(plane.log), plane.log, Selected(w, connects, x), answers)
  {
    match x
    case Quit => return Ok(()), [];
    case SetupFailed(error) => return Err(error), [];
    case EngineFinished(response, usage) =>
      result, answers := HandleSuccess(plane, w, response, usage);
    case EngineFailed(text, usage, checkpointed) =>
      result, answers := HandleFailure(plane, w, text, usage, checkpointed);
  }

  lemma {:induction false} DeliveryIsSent(before: Log, after: Log, outcome: Option<Completion>,
          answers: seq<Result<Value, RpcError>>)
    requires Reports(before, after, outcome, answers)
    ensures after.requests == before.requests <==> outcome.None?
    ensures before.requests <= after.requests
    ensures forall p | p in after.requests[|before.requests|..] :: Some(p) == outcome
  {
  }

  /** For every server behaviour and every way the engine ends, all the requests
      of one task carry its one selected outcome, at most three times; it sends
      none exactly when it has nothing to say; and an outcome on record goes
      unconfirmed only if three answers in a row were lost. */
  method RunTask(plane: ControlPlane, w: Wording, connects: bool, x: Execution)
    returns (ghost answers: seq<Result<Value, RpcError>>)
    modifies plane
    ensures Reports(old(plane.log), plane.log, Selected(w, connects, x), answers)
    ensures plane.log.requests == old(plane.log.requests) <==> Silent(w, connects, x)
    ensures old(plane.log.requests) <= plane.log.requests
    ensures forall p | p in plane.log.requests[|old(plane.log.requests)|..] :: Tells(w, x, p)
  {
    hide Selected, EdgeOutcome, Delivers, IsAuthorityLoss, Silent, Tells;
    SilentIff(w, connects, x);
    if Selected(w, connects, x).Some? { SelectedTells(w, connects, x); }
    var result;
    result, answers := ExecuteRun(plane, w, x);
    if result.Err? {
      ghost var sent := answers;
      answers := HandleRunTaskError(plane, w, connects, result.error);
      if sent != [] {
        answers := sent;
      }
    }
    DeliveryIsSent(old(plane.log), plane.log, Selected(w, connects, x), answers);
  }

  /** The end of a run whose engine failed: the usage is read first, the turn is
      reloaded with the checkpoint, and the failure is reported with both. */
  method FinishFailedRun(plane: ControlPlane, repository: Checkpoint.LoopStateRepository, w: Wording, connects: bool,
          text: string)
    returns (ghost turn: Option<seq<Message>>, ghost answers: seq<Result<Value, RpcError>>)
    modifies plane, repository.store`served, repository.store`loadAnswers
    modifies repository.usageTracker, repository.fatalError
    ensures turn.Some? ==>
              repository.store.stored.Some? && turn.value == repository.store.stored.value.checkpoint.turn
    ensures old(plane.log.requests) <= plane.log.requests
    ensures forall p | p in plane.log.requests[|old(plane.log.requests)|..] ::
              Tells(w, EngineFailed(text, old(repository.usageTracker.inner), turn), p)
  {
    var usage, checkpointed := repository.FailedRunReport();
    turn := checkpointed;
    answers := RunTask(plane, w, connects, EngineFailed(text, usage, checkpointed));
  }
}
