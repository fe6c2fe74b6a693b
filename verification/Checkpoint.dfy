/**
 Checkpoints and token usage that survive the container
 (containers/agent/src/control_rpc.rs and main.rs): the repository the engine
 saves to and loads from, over replies that may be lost.
 */
module Checkpoint {
  import opened Wrappers
  import opened Conversation
  import opened ControlRpc
  import opened Usage

  /** The engine's loop state, of which only the identity is read here. */
  datatype LoopState = LoopState(sessionId: string, loopId: string, turn: seq<Message>)

  /** The body of a save: the checkpoint and the usage it is paired with. */
  datatype Saved = Saved(checkpoint: LoopState, usage: UsageSnapshot)

  datatype Loaded = Loaded(checkpoint: Option<LoopState>, usage: UsageSnapshot, fatalError: Option<string>)

  /** What a load answers for a given stored pair. */
  function LoadAnswer(stored: Option<Saved>, fatalError: Option<string>): Loaded {
    match stored
    case None => Loaded(None, NO_USAGE, fatalError)
    case Some(s) => Loaded(Some(s.checkpoint), s.usage, fatalError)
  }

  /** What the repository's user can observe. */
  datatype View = View(usage: UsageSnapshot, fatalError: Option<string>, stored: Option<Saved>)

  /** The view after a save; `applied` says whether the server took it. */
  function Save(v: View, checkpoint: LoopState, applied: bool): View {
    if v.fatalError.Some? || !applied then v else v.(stored := Some(Saved(checkpoint, v.usage)))
  }

  /** The view after a load: usage and fatal flag are both replaced. */
  function Load(v: View, fatalError: Option<string>): View {
    View(LoadAnswer(v.stored, fatalError).usage, fatalError, v.stored)
  }

  /** The server's side of one request: whether a save is applied, the fatal
      error a load reports, and the reply. */
  datatype Behaviour = Behaviour(applies: bool, fatalError: Option<string>, reply: Reply)

  class CheckpointStore {
    const script: nat -> Behaviour
    var served: nat
    var saves: seq<Saved>
    var stored: Option<Saved>
    ghost var saveAnswers: seq<Result<(), RpcError>>
    ghost var loadAnswers: seq<Result<Loaded, RpcError>>

    constructor (script: nat -> Behaviour)
      ensures this.script == script && saves == [] && stored == None && saveAnswers == [] && loadAnswers == []
    {
      this.script := script;
      served, saves, stored := 0, [], None;
      saveAnswers, loadAnswers := [], [];
    }

    /** One save request. An acknowledgement is only given for an applied save. */
    method PostSave(body: Saved) returns (result: Result<(), RpcError>)
      modifies this
      ensures saves == old(saves) + [body]
      ensures saveAnswers == old(saveAnswers) + [result] && loadAnswers == old(loadAnswers)
      ensures stored == old(stored) || stored == Some(body)
      ensures result.Ok? ==> stored == Some(body)
    {
      var behaviour := script(served);
      served, saves := served + 1, saves + [body];
      if behaviour.applies {
        stored := Some(body);
      }
      var answer := Decode(if Decode(behaviour.reply).Ok? && !behaviour.applies then SendFailed else behaviour.reply);
      result := if answer.Ok? then Ok(()) else Err(answer.error);
      saveAnswers := saveAnswers + [result];
    }

    method PostLoad() returns (result: Result<Loaded, RpcError>)
      modifies this`served, this`loadAnswers
      ensures result.Ok? ==> result.value == LoadAnswer(stored, result.value.fatalError)
      ensures loadAnswers == old(loadAnswers) + [result]
    {
      var behaviour := script(served);
      served := served + 1;
      var answer := Decode(behaviour.reply);
      result := if answer.Ok? then Ok(LoadAnswer(stored, behaviour.fatalError)) else Err(answer.error);
      loadAnswers := loadAnswers + [result];
    }
  }

  /** The fatal flag that the tool executor and the repository share. */
  class FatalError {
    var value: Option<string>

    constructor ()
      ensures value == None
    {
      value := None;
    }
  }

  class LoopStateRepository {
    const store: CheckpointStore
    const usageTracker: UsageTracker
    const fatalError: FatalError

    ghost function Seen(): View
      reads store, usageTracker, fatalError
    {
      View(usageTracker.inner, fatalError.value, store.stored)
    }

    constructor (store: CheckpointStore, usageTracker: UsageTracker, fatalError: FatalError)
      ensures this.store == store && this.usageTracker == usageTracker && this.fatalError == fatalError
    {
      this.store, this.usageTracker, this.fatalError := store, usageTracker, fatalError;
    }

    /** Sends one body at most three times; it stops at the first answer that
        is not worth repeating. */
    method PostSaveWithRetry(body: Saved)
      returns (result: Result<(), RpcError>, ghost answers: seq<Result<(), RpcError>>)
      modifies store
      ensures RetryRun(answers) && result == answers[|answers| - 1]
      ensures store.saves == old(store.saves) + Copies(body, |answers|)
      ensures store.saveAnswers == old(store.saveAnswers) + answers
      ensures store.stored == old(store.stored) || store.stored == Some(body)
      ensures result.Ok? ==> store.stored == Some(body)
    {
      var attempt := 1;
      answers := [];
      while true
        invariant 1 <= attempt <= MAX_ATTEMPTS && |answers| == attempt - 1
        invariant forall i | 0 <= i < |answers| :: Retries(answers[i])
        invariant store.saves == old(store.saves) + Copies(body, |answers|)
        invariant store.saveAnswers == old(store.saveAnswers) + answers
        invariant store.stored == old(store.stored) || store.stored == Some(body)
        decreases MAX_ATTEMPTS - attempt
      {
        assert Copies(body, |answers| + 1) == Copies(body, |answers|) + [body];
        result := store.PostSave(body);
        answers := answers + [result];
        if result.Err? && attempt < MAX_ATTEMPTS && IsRetryable(result.error) {
          attempt := attempt + 1;
        } else {
          break;
        }
      }
    }

    method PostLoadWithRetry() returns (result: Result<Loaded, RpcError>, ghost answers: seq<Result<Loaded, RpcError>>)
      modifies store`served, store`loadAnswers
      ensures RetryRun(answers) && result == answers[|answers| - 1]
      ensures store.loadAnswers == old(store.loadAnswers) + answers
      ensures result.Ok? ==> result.value == LoadAnswer(store.stored, result.value.fatalError)
    {
      var attempt := 1;
      answers := [];
      while true
        invariant 1 <= attempt <= MAX_ATTEMPTS && |answers| == attempt - 1
        invariant forall i | 0 <= i < |answers| :: Retries(answers[i])
        invariant store.loadAnswers == old(store.loadAnswers) + answers
        decreases MAX_ATTEMPTS - attempt
      {
        result := store.PostLoad();
        answers := answers + [result];
        if result.Err? && attempt < MAX_ATTEMPTS && IsRetryable(result.error) {
          attempt := attempt + 1;
        } else {
          break;
        }
      }
    }

    /** With the fatal flag set nothing is sent and the save still succeeds. */
    method SaveCheckpoint(state: LoopState)
      returns (result: Result<(), RpcError>, ghost answers: seq<Result<(), RpcError>>)
      modifies store
      ensures store.saveAnswers == old(store.saveAnswers) + answers
      ensures fatalError.value.None? ==> RetryRun(answers) && result == answers[|answers| - 1]
      ensures Seen() == Save(old(Seen()), state, false) || Seen() == Save(old(Seen()), state, true)
      ensures result.Ok? ==> Seen() == Save(old(Seen()), state, true)
      ensures fatalError.value.Some? ==> result == Ok(()) && store.saves == old(store.saves)
      ensures fatalError.value.None? ==>
                store.saves == old(store.saves) + Copies(Saved(state, usageTracker.inner), |answers|)
    {
      var usage := usageTracker.inner;
      if fatalError.value.Some? {
        return Ok(()), [];
      }
      result, answers := PostSaveWithRetry(Saved(state, usage));
    }

    /** A load replaces the usage and the fatal flag, or leaves both alone. */
    method LoadCurrent()
      returns (result: Result<Option<LoopState>, RpcError>, ghost answers: seq<Result<Loaded, RpcError>>)
      modifies store`served, store`loadAnswers, usageTracker, fatalError
      ensures RetryRun(answers) && store.loadAnswers == old(store.loadAnswers) + answers
      ensures result.Ok? <==> answers[|answers| - 1].Ok?
      ensures result.Ok? ==> fatalError.value == answers[|answers| - 1].value.fatalError
      ensures result.Ok? ==>
                && Seen() == Load(old(Seen()), fatalError.value)
                && result.value == LoadAnswer(store.stored, fatalError.value).checkpoint
      ensures result.Err? ==> Seen() == old(Seen())
    {
      var response;
      response, answers := PostLoadWithRetry();
      if response.Err? {
        return Err(response.error), answers;
      }
      usageTracker.Restore(response.value.usage);
      fatalError.value := response.value.fatalError;
      result := Ok(response.value.checkpoint);
    }

    /** The end of a failed run: the usage is read before the reload, so
        whatever the reload does to the tracker is not reported. */
    method FailedRunReport() returns (usage: UsageSnapshot, turn: Option<seq<Message>>)
      modifies store`served, store`loadAnswers, usageTracker, fatalError
      ensures usage == old(usageTracker.inner)
      ensures turn.Some? ==> store.stored.Some? && turn.value == store.stored.value.checkpoint.turn
      ensures turn.None? && store.stored.Some? ==>
                store.loadAnswers != [] && store.loadAnswers[|store.loadAnswers| - 1].Err?
    {
      usage := usageTracker.inner;
      ghost var answers;
      var checkpoint;
      checkpoint, answers := LoadCurrent();
      turn := if checkpoint.Ok? && checkpoint.value.Some? then Some(checkpoint.value.value.turn) else None;
    }
  }
}
