/**
 The registry of active runs (containers/agent/src/main.rs): admission,
 replacement of a stale lease, release by the task's guard, and shutdown.
 */
module Registry {
  import opened Wrappers

  datatype StartPayload = StartPayload(runId: string, workerId: string, serviceId: Option<string>,
      leaseVersion: Option<nat>)
  {
    function ResolvedServiceId(): string {
      if serviceId.Some? && serviceId.value != "" then serviceId.value else workerId
    }
  }

  datatype Identity = Identity(serviceId: string, leaseVersion: Option<nat>)

  function IdentityOf(p: StartPayload): Identity {
    Identity(p.ResolvedServiceId(), p.leaseVersion)
  }

  /** A run without a service of its own is its worker's, and the worker of any
      other run does not matter. */
  lemma {:induction false} IdentityIs(p: StartPayload, worker: string)
    ensures IdentityOf(p).leaseVersion == p.leaseVersion
    ensures p.serviceId == None || p.serviceId == Some("") ==>
              IdentityOf(p).serviceId == p.workerId
    ensures p.serviceId != None && p.serviceId != Some("") ==>
              IdentityOf(p.(workerId := worker)).serviceId == p.serviceId.value
  {
  }

  /** A registered run; the token cancels its task. */
  datatype ActiveRun<T> = ActiveRun(identity: Identity, token: T)

  datatype Decision = ShuttingDown | Duplicate | AtCapacity | Replace | Register

  function Decide<T>(active: map<string, ActiveRun<T>>, shuttingDown: bool, max: nat, runId: string,
          identity: Identity): Decision {
    if shuttingDown then ShuttingDown
    else if runId in active && active[runId].identity == identity then Duplicate
    else if runId in active then Replace
    else if |active| >= max then AtCapacity
    else Register
  }

  /** Which decision is taken when: a stale lease is replaced even at capacity. */
  lemma {:induction false} DecidesBy<T>(active: map<string, ActiveRun<T>>, shuttingDown: bool, max: nat, runId: string,
          identity: Identity)
    ensures var decision := Decide(active, shuttingDown, max, runId, identity);
            && (decision == ShuttingDown <==> shuttingDown)
            && (decision == Duplicate <==> !shuttingDown && runId in active && active[runId].identity == identity)
            && (decision == Replace <==> !shuttingDown && runId in active && active[runId].identity != identity)
            && (decision == AtCapacity <==> !shuttingDown && runId !in active && |active| >= max)
            && (decision == Register <==> !shuttingDown && runId !in active && |active| < max)
  {
  }

  predicate Releases<T>(active: map<string, ActiveRun<T>>, runId: string, identity: Identity) {
    runId in active && active[runId].identity == identity
  }

  class CancellationToken {
    var cancelled: bool

    constructor ()
      ensures !cancelled
    {
      cancelled := false;
    }

    method Cancel()
      modifies this
      ensures cancelled
    {
      cancelled := true;
    }
  }

  datatype RunAdmission =
    | Registered(identity: Identity, token: CancellationToken, replaced: bool)
    | DuplicateRun
    | NoCapacity(active: nat, max: nat)
    | Refused

  class ServiceState {
    var activeRuns: map<string, ActiveRun<CancellationToken>>
    var shuttingDown: bool
    const maxConcurrentRuns: nat

    constructor (max: nat)
      ensures activeRuns == map[] && !shuttingDown && maxConcurrentRuns == max
    {
      activeRuns := map[];
      shuttingDown := false;
      maxConcurrentRuns := max;
    }

    method TryRegisterRun(payload: StartPayload) returns (admission: RunAdmission)
      modifies this`activeRuns
      modifies if payload.runId in activeRuns then {activeRuns[payload.runId].token} else {}
      ensures admission.Refused? <==> shuttingDown
      ensures admission.DuplicateRun? <==>
              && !shuttingDown && payload.runId in old(activeRuns)
              && old(activeRuns)[payload.runId].identity == Identity(payload.ResolvedServiceId(), payload.leaseVersion)
      ensures admission.NoCapacity? <==>
              !shuttingDown && payload.runId !in old(activeRuns) && |old(activeRuns)| >= maxConcurrentRuns
      ensures admission.Registered? ==> (admission.replaced <==> payload.runId in old(activeRuns))
      ensures var identity := IdentityOf(payload);
              match Decide(old(activeRuns), shuttingDown, maxConcurrentRuns, payload.runId, identity)
              case ShuttingDown => admission.Refused? && activeRuns == old(activeRuns)
              case Duplicate => admission.DuplicateRun? && activeRuns == old(activeRuns)
              case AtCapacity =>
                admission == NoCapacity(|old(activeRuns)|, maxConcurrentRuns) && activeRuns == old(activeRuns)
              case Replace =>
                && admission.Registered? && admission.replaced && admission.identity == identity
                && fresh(admission.token) && !admission.token.cancelled
                && old(activeRuns)[payload.runId].token.cancelled
                && activeRuns == old(activeRuns)[payload.runId := ActiveRun(identity, admission.token)]
              case Register =>
                && admission.Registered? && !admission.replaced && admission.identity == identity
                && fresh(admission.token) && !admission.token.cancelled
                && activeRuns == old(activeRuns)[payload.runId := ActiveRun(identity, admission.token)]
      ensures (admission.Refused? || admission.DuplicateRun?) && payload.runId in old(activeRuns)
              ==> unchanged(old(activeRuns)[payload.runId].token)
      ensures |old(activeRuns)| <= maxConcurrentRuns ==> |activeRuns| <= maxConcurrentRuns
    {
      if shuttingDown {
        return Refused;
      }
      var runId, identity := payload.runId, IdentityOf(payload);
      // The source reads the flag again once it holds the registry lock; the
      // protocol below models what may happen between the two reads.
      if runId in activeRuns {
        var existing := activeRuns[runId];
        if existing.identity == identity {
          return DuplicateRun;
        }
        existing.token.Cancel();
        var token := new CancellationToken();
        activeRuns := activeRuns[runId := ActiveRun(identity, token)];
        assert activeRuns.Keys == old(activeRuns).Keys;
        assert |activeRuns| == |activeRuns.Keys|;
        return Registered(identity, token, true);
      }
      if |activeRuns| >= maxConcurrentRuns {
        return NoCapacity(|activeRuns|, maxConcurrentRuns);
      }
      var token := new CancellationToken();
      activeRuns := activeRuns[runId := ActiveRun(identity, token)];
      admission := Registered(identity, token, false);
    }

    method FinishRun(runId: string, identity: Identity)
      modifies this`activeRuns
      ensures activeRuns ==
              if Releases(old(activeRuns), runId, identity) then old(activeRuns) - {runId} else old(activeRuns)
    {
      if runId in activeRuns && activeRuns[runId].identity == identity {
        activeRuns := activeRuns - {runId};
      }
    }

    method BeginShutdown()
      modifies this`shuttingDown
      ensures shuttingDown
    {
      shuttingDown := true;
    }
  }

  /** Releases the slot of a task on every way out of it. */
  class RunSlotGuard {
    const state: ServiceState
    const runId: string
    const identity: Identity

    constructor (state: ServiceState, runId: string, identity: Identity)
      ensures this.state == state && this.runId == runId && this.identity == identity
    {
      this.state, this.runId, this.identity := state, runId, identity;
    }

    method Drop()
      modifies state`activeRuns
      ensures state.activeRuns ==
              if Releases(old(state.activeRuns), runId, identity) then old(state.activeRuns) - {runId}
              else old(state.activeRuns)
    {
      state.FinishRun(runId, identity);
    }
  }
}
