/**
 The run's row at the control plane (src/worker/application/services/agent and
 src/worker/runtime): claims, recovery and other ends of the run race with the
 completion requests of any number of tasks, current and superseded.
 */
module RunLedger {
  import opened Wrappers
  import Finalization

  datatype Lease = Lease(service: string, version: nat)

  datatype Request = Request(lease: Lease, payload: Finalization.Completion)

  /** `Done` holds the request that ended the run, unless something else did. */
  datatype Status = Queued | Running | Done(outcome: Option<Request>)

  datatype Row = Row(status: Status, service: Option<string>, version: nat, checkpoint: Option<string>)

  predicate Holds(row: Row, lease: Lease) {
    row.service == Some(lease.service) && row.version == lease.version
  }

  /** How far the handler of a request has come: the lease was checked, the
      checkpoint was read, the conditional update changed nothing. */
  datatype Stage = Admitted | Looked(checkpoint: Option<string>) | Missed

  datatype Handler = Handler(request: Request, stage: Stage)

  datatype Answer = Committed | LeaseLost | Invalid

  datatype Reply = Reply(request: Request, answer: Answer)

  /** `holders` are the services that claimed each lease version. A request that
      was sent may arrive any number of times, and any answer may be lost. */
  datatype State = State(
    row: Row,
    holders: map<nat, string>,
    sent: set<Request>,
    handlers: map<nat, Handler>,
    replies: set<Reply>)

  datatype Step =
    | Claim(service: string)
    | Release(runs: bool, keeps: bool)
    | End
    | Save(lease: Lease, checkpoint: Option<string>)
    | Send(request: Request)
    | Receive(h: nat, request: Request)
    | Look(h: nat)
    | Attempt(h: nat, tells: bool)
    | Judge(h: nat)
    | Abandon(h: nat)

  predicate Acceptable(request: Request) {
    request.payload.status == "completed" || request.payload.status == "failed"
  }

  predicate At(s: State, h: nat, stage: Stage) {
    h in s.handlers && s.handlers[h].stage == stage
  }

  /** `Release` is every way in which a row that has not ended becomes queued or
      running again without a claim; `End` is every other way to end a run. */
  predicate Enabled(s: State, step: Step) {
    match step
    case Claim(_) => s.row.status == Queued && s.row.service.None?
    case Release(_, _) => !s.row.status.Done?
    case End => !s.row.status.Done?
    case Save(lease, _) => s.row.status == Running && Holds(s.row, lease)
    case Send(request) =>
      request.lease.version in s.holders && s.holders[request.lease.version] == request.lease.service
    case Receive(h, request) => h !in s.handlers && request in s.sent
    case Look(h) => At(s, h, Admitted)
    case Attempt(h, _) => h in s.handlers && s.handlers[h].stage.Looked?
    case Judge(h) => At(s, h, Missed)
    case Abandon(h) => h in s.handlers
  }

  function Answered(s: State, h: nat, request: Request, answer: Answer): State {
    s.(handlers := s.handlers - {h}, replies := s.replies + {Reply(request, answer)})
  }

  function Moved(s: State, h: nat, request: Request, stage: Stage): State {
    s.(handlers := s.handlers[h := Handler(request, stage)])
  }

  function Next(s: State, step: Step): State
    requires Enabled(s, step)
  {
    match step
    case Claim(service) =>
      var version := s.row.version + 1;
      s.(row := s.row.(status := Running, service := Some(service), version := version),
         holders := s.holders[version := service])
    case Release(runs, keeps) =>
      s.(row := s.row.(status := if runs then Running else Queued, service := if keeps then s.row.service else None))
    case End => s.(row := s.row.(status := Done(None), checkpoint := None))
    case Save(_, checkpoint) => s.(row := s.row.(checkpoint := checkpoint))
    case Send(request) => s.(sent := s.sent + {request})
    case Receive(h, request) =>
      if !Acceptable(request) then Answered(s, h, request, Invalid)
      else if Holds(s.row, request.lease) then Moved(s, h, request, Admitted)
      else Answered(s, h, request, LeaseLost)
    case Look(h) => Moved(s, h, s.handlers[h].request, Looked(s.row.checkpoint))
    case Attempt(h, tells) =>
      var request := s.handlers[h].request;
      if s.row.status == Running && Holds(s.row, request.lease) && s.row.checkpoint == s.handlers[h].stage.checkpoint
      then
        var ended := s.(row := s.row.(status := Done(Some(request)), checkpoint := None));
        if tells then Answered(ended, h, request, Committed) else ended.(handlers := s.handlers - {h})
      else Moved(s, h, request, Missed)
    case Judge(h) =>
      var request := s.handlers[h].request;
      Answered(s, h, request,
        if s.row.status == Done(Some(request)) && Holds(s.row, request.lease) then Committed else LeaseLost)
    case Abandon(h) => s.(handlers := s.handlers - {h})
  }

  predicate Follows(s: State, steps: seq<Step>)
    decreases steps
  {
    steps == [] || (Enabled(s, steps[0]) && Follows(Next(s, steps[0]), steps[1..]))
  }

  function After(s: State, steps: seq<Step>): State
    requires Follows(s, steps)
    decreases steps
  {
    if steps == [] then s else After(Next(s, steps[0]), steps[1..])
  }

  const NEW_RUN := State(Row(Queued, None, 0, None), map[], {}, map[], {})

  // ----- What every step keeps -----

  predicate Recorded(s: State, request: Request) {
    s.row.status == Done(Some(request))
  }

  /** Services hold the leases they claimed, and only holders' requests are about. */
  predicate Claimed(s: State) {
    && (s.row.service.Some? ==> s.row.version in s.holders && s.holders[s.row.version] == s.row.service.value)
    && (forall v | v in s.holders :: v <= s.row.version)
    && (forall r | r in s.sent :: r.lease.version in s.holders && s.holders[r.lease.version] == r.lease.service)
    && (forall h | h in s.handlers :: s.handlers[h].request in s.sent && Acceptable(s.handlers[h].request))
  }

  /** Only the request on record is acknowledged, and the row is still its own. */
  predicate Acknowledged(s: State) {
    && (s.row.status.Done? && s.row.status.outcome.Some? ==>
          && s.row.status.outcome.value in s.sent && Acceptable(s.row.status.outcome.value)
          && Holds(s.row, s.row.status.outcome.value.lease))
    && (forall reply | reply in s.replies && reply.answer == Committed :: Recorded(s, reply.request))
  }

  predicate Sound(s: State) {
    Claimed(s) && Acknowledged(s)
  }

  lemma {:induction false} StepKeepsClaimed(s: State, step: Step)
    requires Claimed(s) && Enabled(s, step)
    ensures Claimed(Next(s, step))
  {
  }

  lemma {:induction false} StepKeepsAcknowledged(s: State, step: Step)
    requires Claimed(s) && Acknowledged(s) && Enabled(s, step)
    ensures Acknowledged(Next(s, step))
  {
  }

  lemma {:induction false} StepKeepsSound(s: State, step: Step)
    requires Sound(s) && Enabled(s, step)
    ensures Sound(Next(s, step))
  {
    hide Claimed, Acknowledged, Enabled, Next;
    StepKeepsClaimed(s, step);
    StepKeepsAcknowledged(s, step);
  }

  /** A run that has ended stays as it ended; versions never fall, and each keeps
      the service that claimed it. */
  predicate Grows(s: State, s': State) {
    && (s.row.status.Done? ==> s'.row == s.row)
    && s.row.version <= s'.row.version
    && (forall v | v in s.holders :: v in s'.holders && s'.holders[v] == s.holders[v])
    && s.sent <= s'.sent && s.replies <= s'.replies
  }

  lemma {:induction false} StepGrows(s: State, step: Step)
    requires Sound(s) && Enabled(s, step)
    ensures Grows(s, Next(s, step))
  {
  }

  lemma {:induction false} RunKeepsSound(s: State, steps: seq<Step>)
    requires Sound(s) && Follows(s, steps)
    ensures Sound(After(s, steps)) && Grows(s, After(s, steps))
    decreases steps
  {
    hide Sound, Enabled, Next;
    if steps == [] {
    } else {
      StepKeepsSound(s, steps[0]);
      StepGrows(s, steps[0]);
      RunKeepsSound(Next(s, steps[0]), steps[1..]);
    }
  }

  /** Over any number of claims, tasks and repeated or delayed requests, at most
      one request of a run is ever acknowledged, it is the one on record, and it
      was sent under the one lease that holds the row for good. */
  lemma {:induction false} OneOutcomePerRun(steps: seq<Step>, more: seq<Step>, a: Request, b: Request)
    requires Follows(NEW_RUN, steps) && Reply(a, Committed) in After(NEW_RUN, steps).replies
    requires Follows(After(NEW_RUN, steps), more)
    ensures var s := After(After(NEW_RUN, steps), more);
            && Recorded(s, a) && a in s.sent && Holds(s.row, a.lease)
            && a.lease.version in s.holders && s.holders[a.lease.version] == a.lease.service
            && (Reply(b, Committed) in s.replies ==> b == a)
  {
    RunKeepsSound(NEW_RUN, steps);
    RunKeepsSound(After(NEW_RUN, steps), more);
  }

  /** Once a newer lease was claimed, no request of an older one gets on record. */
  lemma {:induction false} SupersededNeverRecorded(s: State, steps: seq<Step>, request: Request)
    requires Sound(s) && Follows(s, steps) && request.lease.version < s.row.version
    ensures !Recorded(After(s, steps), request) && Reply(request, Committed) !in After(s, steps).replies
  {
    RunKeepsSound(s, steps);
  }

  /** On record, a request is never refused again. */
  lemma {:induction false} RecordedNeverRefused(s: State, steps: seq<Step>, request: Request)
    requires Sound(s) && Follows(s, steps) && Recorded(s, request)
    ensures forall reply | reply in After(s, steps).replies && reply.request == request ::
              reply in s.replies || reply.answer == Committed
    decreases steps
  {
    if steps == [] {
    } else {
      StepKeepsSound(s, steps[0]);
      StepGrows(s, steps[0]);
      RecordedNeverRefused(Next(s, steps[0]), steps[1..], request);
    }
  }

  // ----- What the record says -----

  /** Each lease is run by one task, whose requests all carry the outcome that the
      task selects. */
  predicate Disciplined(steps: seq<Step>, w: Finalization.Wording, connects: nat -> bool,
          ends: nat -> Finalization.Execution)
  {
    forall step | step in steps && step.Send? ::
      var v := step.request.lease.version;
      Finalization.Selected(w, connects(v), ends(v)) == Some(step.request.payload)
  }

  lemma {:induction false} SentIsSelected(s: State, steps: seq<Step>, w: Finalization.Wording, connects: nat -> bool,
          ends: nat -> Finalization.Execution, request: Request)
    requires Follows(s, steps) && Disciplined(steps, w, connects, ends)
    requires request in After(s, steps).sent && request !in s.sent
    ensures var v := request.lease.version;
            Finalization.Selected(w, connects(v), ends(v)) == Some(request.payload)
    decreases steps
  {
    if steps == [] {
    } else if request in Next(s, steps[0]).sent {
      assert steps[0] in steps && steps[0] == Send(request);
    } else {
      assert forall step | step in steps[1..] :: step in steps;
      SentIsSelected(Next(s, steps[0]), steps[1..], w, connects, ends, request);
    }
  }

  /** Whatever is on record, acknowledged or not, is the outcome selected by the
      task whose lease it was; a run is recorded as completed only after that
      task's loop finished. */
  lemma {:induction false} RecordIsSelected(steps: seq<Step>, w: Finalization.Wording, connects: nat -> bool,
          ends: nat -> Finalization.Execution, request: Request)
    requires Follows(NEW_RUN, steps) && Disciplined(steps, w, connects, ends)
    requires Recorded(After(NEW_RUN, steps), request)
    ensures var v := request.lease.version;
            && Finalization.Selected(w, connects(v), ends(v)) == Some(request.payload)
            && (request.payload.status == "completed" ==>
                ends(v).EngineFinished? && ends(v).response.status == Finalization.Finished)
            && (request.payload.status != "completed" ==> request.payload.error.Some?)
  {
    RunKeepsSound(NEW_RUN, steps);
    SentIsSelected(NEW_RUN, steps, w, connects, ends, request);
    var v := request.lease.version;
    hide Finalization.Selected;
    Finalization.OutcomeIsHonest(w, connects(v), ends(v));
  }

  // ----- When the holder of a run is refused -----

  /** The run is the task's own, and no handler of its request has read another
      checkpoint than the current one. */
  predicate Held(s: State, request: Request) {
    && s.row.status == Running && Holds(s.row, request.lease)
    && (forall r | r in s.sent && r.lease == request.lease :: r == request)
    && forall h | h in s.handlers && s.handlers[h].request == request ::
         s.handlers[h].stage == Admitted || s.handlers[h].stage == Looked(s.row.checkpoint)
  }

  /** Nobody else touches the row, and its task sends no other request. */
  predicate Calm(step: Step, request: Request) {
    && !step.Release? && !step.End? && !step.Save?
    && (step.Send? && step.request.lease == request.lease ==> step.request == request)
  }

  lemma {:induction false} CalmStep(s: State, step: Step, request: Request)
    requires Sound(s) && Held(s, request) && Enabled(s, step) && Calm(step, request)
    ensures Held(Next(s, step), request) || Recorded(Next(s, step), request)
    ensures Reply(request, LeaseLost) in Next(s, step).replies ==> Reply(request, LeaseLost) in s.replies
  {
  }

  /** As long as nothing else touches the row, its holder is never told that it
      lost the lease. */
  lemma {:induction false} HolderNeverRefused(s: State, steps: seq<Step>, request: Request)
    requires Sound(s) && Held(s, request) && Follows(s, steps)
    requires forall step | step in steps :: Calm(step, request)
    ensures Reply(request, LeaseLost) in After(s, steps).replies ==> Reply(request, LeaseLost) in s.replies
    decreases steps
  {
    hide Sound, Held, Enabled, Next, Calm;
    if steps == [] {
    } else {
      assert steps[0] in steps && forall step | step in steps[1..] :: step in steps;
      StepKeepsSound(s, steps[0]);
      CalmStep(s, steps[0], request);
      var next := Next(s, steps[0]);
      if Held(next, request) {
        HolderNeverRefused(next, steps[1..], request);
      } else {
        RecordedNeverRefused(next, steps[1..], request);
      }
    }
  }

  /** Undisturbed, the request of a holder is recorded and acknowledged. */
  lemma {:induction false} HolderRecords(s: State, h: nat, request: Request) returns (steps: seq<Step>)
    requires s.row.status == Running && Holds(s.row, request.lease)
    requires request.payload.status == "completed" || request.payload.status == "failed"
    requires request in s.sent && h !in s.handlers
    ensures Follows(s, steps)
    ensures var after := After(s, steps);
            && Recorded(after, request) && Reply(request, Committed) in after.replies
            && after.row == s.row.(status := Done(Some(request)), checkpoint := None)
            && after.sent == s.sent && after.holders == s.holders && after.handlers == s.handlers
  {
    var s1 := Next(s, Receive(h, request));
    var s2 := Next(s1, Look(h));
    var s3 := Next(s2, Attempt(h, true));
    steps := [Receive(h, request), Look(h), Attempt(h, true)];
    assert steps[1..] == [Look(h), Attempt(h, true)] && steps[1..][1..] == [Attempt(h, true)];
    assert [Attempt(h, true)][1..] == [];
    assert Follows(s3, []) && After(s3, []) == s3;
    assert Follows(s2, [Attempt(h, true)]) && After(s2, [Attempt(h, true)]) == s3;
    assert Follows(s1, steps[1..]) && After(s1, steps[1..]) == s3;
    assert s3.handlers == s.handlers;
  }

  /** A checkpoint saved late is enough to refuse the holder: the run stays its
      own and running, and nothing is on record. */
  lemma {:induction false} LateSaveRefusesHolder(s: State, h: nat, request: Request, checkpoint: Option<string>)
    returns (steps: seq<Step>)
    requires Sound(s) && Held(s, request) && Acceptable(request)
    requires request in s.sent && h !in s.handlers && checkpoint != s.row.checkpoint
    ensures Follows(s, steps)
    ensures After(s, steps).row == s.row.(checkpoint := checkpoint)
    ensures Reply(request, LeaseLost) in After(s, steps).replies
  {
    var s1 := Next(s, Receive(h, request));
    var s2 := Next(s1, Look(h));
    var save := Save(request.lease, checkpoint);
    var s3 := Next(s2, save);
    var s4 := Next(s3, Attempt(h, true));
    var s5 := Next(s4, Judge(h));
    steps := [Receive(h, request), Look(h), save, Attempt(h, true), Judge(h)];
    assert steps[1..] == [Look(h), save, Attempt(h, true), Judge(h)];
    assert steps[1..][1..] == [save, Attempt(h, true), Judge(h)];
    assert [save, Attempt(h, true), Judge(h)][1..] == [Attempt(h, true), Judge(h)];
    assert [Attempt(h, true), Judge(h)][1..] == [Judge(h)] && [Judge(h)][1..] == [];
    assert Follows(s5, []) && After(s5, []) == s5;
    assert Follows(s4, [Judge(h)]) && After(s4, [Judge(h)]) == s5;
    assert Follows(s3, [Attempt(h, true), Judge(h)]) && After(s3, [Attempt(h, true), Judge(h)]) == s5;
    assert Follows(s2, steps[2..]) && After(s2, steps[2..]) == s5;
    assert Follows(s1, steps[1..]) && After(s1, steps[1..]) == s5;
  }
}
