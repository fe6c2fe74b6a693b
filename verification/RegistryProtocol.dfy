/**
 All interleavings of the registry's users: requests that read the shutdown
 flag, take the lock, read the flag again and register a run; task guards that
 release a slot; heartbeats that cancel a token; and the shutdown signal.
 */
module RegistryProtocol {
  import opened Wrappers
  import opened Registry

  type TaskId = nat
  type RequestId = nat

  /** How far a request has come; the last two hold the registry lock. */
  datatype Stage = Waiting | Locked | Checked

  datatype Request = Request(runId: string, identity: Identity, stage: Stage)

  /** A spawned task and the guard it holds. Its token carries the task's id. */
  datatype Task = Task(runId: string, identity: Identity)

  datatype State = State(
    max: nat,
    shuttingDown: bool,
    lock: Option<RequestId>,
    requests: map<RequestId, Request>,
    active: map<string, ActiveRun<TaskId>>,
    live: map<TaskId, Task>,
    spawned: nat,
    cancelled: set<TaskId>)

  datatype Step =
    | Arrive(r: RequestId, runId: string, identity: Identity)
    | Acquire(r: RequestId)
    | Recheck(r: RequestId)
    | Admit(r: RequestId)
    | DropGuard(t: TaskId)
    | Cancel(t: TaskId)
    | Shutdown

  predicate Enabled(s: State, step: Step) {
    match step
    case Arrive(r, _, _) => r !in s.requests && !s.shuttingDown
    case Acquire(r) => s.lock.None? && r in s.requests && s.requests[r].stage == Waiting
    case Recheck(r) => s.lock == Some(r) && r in s.requests && s.requests[r].stage == Locked
    case Admit(r) => s.lock == Some(r) && r in s.requests && s.requests[r].stage == Checked
    case DropGuard(t) => s.lock.None? && t in s.live
    case Cancel(t) => t in s.live
    case Shutdown => true
  }

  /** What the admission of request `r` would decide now. */
  function Verdict(s: State, r: RequestId): Decision
    requires r in s.requests
  {
    Decide(s.active, false, s.max, s.requests[r].runId, s.requests[r].identity)
  }

  predicate Registers(s: State, step: Step) {
    step.Admit? && step.r in s.requests && (Verdict(s, step.r) == Register || Verdict(s, step.r) == Replace)
  }

  /** Registers a new task, cancelling the token it replaces. */
  function Spawn(s: State, runId: string, identity: Identity): State {
    s.(active := s.active[runId := ActiveRun(identity, s.spawned)],
       live := s.live[s.spawned := Task(runId, identity)],
       spawned := s.spawned + 1,
       cancelled := s.cancelled + if runId in s.active then {s.active[runId].token} else {})
  }

  /** The request gives up the lock and is gone. */
  function Leave(s: State, r: RequestId): State {
    s.(lock := None, requests := s.requests - {r})
  }

  function Next(s: State, step: Step): State
    requires Enabled(s, step)
  {
    match step
    case Arrive(r, runId, identity) => s.(requests := s.requests[r := Request(runId, identity, Waiting)])
    case Acquire(r) => s.(lock := Some(r), requests := s.requests[r := s.requests[r].(stage := Locked)])
    case Recheck(r) =>
      if s.shuttingDown then Leave(s, r)
      else s.(requests := s.requests[r := s.requests[r].(stage := Checked)])
    case Admit(r) =>
      var q := s.requests[r];
      if Registers(s, step) then Spawn(Leave(s, r), q.runId, q.identity) else Leave(s, r)
    case DropGuard(t) =>
      var task := s.live[t];
      s.(live := s.live - {t},
         active := if Releases(s.active, task.runId, task.identity) then s.active - {task.runId} else s.active)
    case Cancel(t) => s.(cancelled := s.cancelled + {t})
    case Shutdown => s.(shuttingDown := true)
  }

  function Init(max: nat): State {
    State(max, false, None, map[], map[], map[], 0, {})
  }

  // ----- Safety -----

  /** Every live task that has not been cancelled is the registered one. */
  predicate Exclusive(s: State) {
    forall t | t in s.live && t !in s.cancelled ::
      s.live[t].runId in s.active && s.active[s.live[t].runId].token == t
  }

  /** A live task already holds a guard for this run and identity. */
  predicate Held(s: State, runId: string, identity: Identity) {
    exists t | t in s.live :: s.live[t] == Task(runId, identity)
  }

  /** Task ids are fresh, and no two live tasks hold the same run and identity. */
  predicate Distinct(s: State) {
    && (forall t | t in s.live :: t < s.spawned)
    && (forall t | t in s.cancelled :: t < s.spawned)
    && (forall t, u | t in s.live && u in s.live && s.live[t] == s.live[u] :: t == u)
  }

  /** Every registered run belongs to a live task. */
  predicate Backed(s: State) {
    forall id | id in s.active ::
      s.active[id].token in s.live && s.live[s.active[id].token] == Task(id, s.active[id].identity)
  }

  predicate Serialized(s: State) {
    && (s.lock.Some? ==> s.lock.value in s.requests)
    && (forall r | r in s.requests :: s.lock == Some(r) <==> s.requests[r].stage != Waiting)
  }

  predicate Safe(s: State) {
    |s.active| <= s.max && Exclusive(s) && Distinct(s) && Backed(s) && Serialized(s)
  }

  /** No identity is admitted for a run while an old task still holds its guard. */
  predicate NoReuse(s: State, step: Step) {
    Registers(s, step) ==> !Held(s, s.requests[step.r].runId, s.requests[step.r].identity)
  }

  lemma {:induction false} SizeAfterInsert<V>(m: map<string, V>, key: string, value: V)
    ensures |m[key := value]| == |m| + if key in m then 0 else 1
  {
  }

  lemma {:induction false} SpawnKeepsTasks(s: State, runId: string, identity: Identity)
    requires Exclusive(s) && Distinct(s) && Backed(s) && !Held(s, runId, identity)
    ensures var s' := Spawn(s, runId, identity); Exclusive(s') && Distinct(s') && Backed(s')
  {
  }

  lemma {:induction false} LeaveKeepsTasks(s: State, r: RequestId)
    requires Exclusive(s) && Distinct(s) && Backed(s)
    ensures var left := Leave(s, r); Exclusive(left) && Distinct(left) && Backed(left)
    ensures forall runId, identity :: Held(Leave(s, r), runId, identity) == Held(s, runId, identity)
  {
  }

  lemma {:induction false} LeaveKeepsSerialized(s: State, r: RequestId)
    requires Serialized(s) && s.lock == Some(r)
    ensures Serialized(Leave(s, r))
  {
  }

  lemma {:induction false} RegisterKeepsSafe(s: State, r: RequestId)
    requires Safe(s) && Enabled(s, Admit(r)) && Registers(s, Admit(r)) && NoReuse(s, Admit(r))
    ensures Safe(Next(s, Admit(r)))
  {
    hide Exclusive, Distinct, Backed, Held;
    var q, left := s.requests[r], Leave(s, r);
    LeaveKeepsTasks(s, r);
    LeaveKeepsSerialized(s, r);
    SizeAfterInsert(s.active, q.runId, ActiveRun(q.identity, s.spawned));
    SpawnKeepsTasks(left, q.runId, q.identity);
  }

  /** A guard frees a slot only when the slot is its own task's. */
  lemma {:induction false} GuardFreesOwnSlot(s: State, t: TaskId)
    requires Safe(s) && Enabled(s, DropGuard(t))
    ensures Next(s, DropGuard(t)).active ==
            map id | id in s.active && s.active[id].token != t :: s.active[id]
  {
    var task := s.live[t];
    if Releases(s.active, task.runId, task.identity) {
      assert s.live[s.active[task.runId].token] == task;
      assert s.active[task.runId].token == t;
    }
    forall id | id in s.active && s.active[id].token == t
      ensures id == task.runId && s.active[id].identity == task.identity
    {
      assert s.live[t] == Task(id, s.active[id].identity);
    }
  }

  lemma {:induction false} DropKeepsSafe(s: State, t: TaskId)
    requires Safe(s) && Enabled(s, DropGuard(t))
    ensures Safe(Next(s, DropGuard(t)))
  {
  }

  lemma {:induction false} LeaveKeepsSafe(s: State, r: RequestId)
    requires Safe(s) && s.lock == Some(r)
    ensures Safe(Leave(s, r))
  {
  }

  /** Steps that neither admit a request nor drop a guard. */
  lemma {:induction false} QuietKeepsSafe(s: State, step: Step)
    requires Safe(s) && Enabled(s, step) && !step.Admit? && !step.DropGuard?
    requires step.Recheck? ==> !s.shuttingDown
    ensures Safe(Next(s, step))
  {
    hide Verdict, Spawn, Leave;
    var s' := Next(s, step);
    assert Exclusive(s') && Distinct(s') && Backed(s');
    assert Serialized(s');
  }

  lemma {:induction false} StepKeepsSafe(s: State, step: Step)
    requires Safe(s) && Enabled(s, step) && NoReuse(s, step)
    ensures Safe(Next(s, step)) && Next(s, step).max == s.max
  {
    hide Safe, Verdict, Held;
    match step
    case Admit(r) =>
      if Registers(s, step) { RegisterKeepsSafe(s, r); } else { LeaveKeepsSafe(s, r); }
    case DropGuard(t) => DropKeepsSafe(s, t);
    case Recheck(r) =>
      if s.shuttingDown { LeaveKeepsSafe(s, r); } else { QuietKeepsSafe(s, step); }
    case _ => QuietKeepsSafe(s, step);
  }

  // ----- Whole runs -----

  predicate Follows(s: State, steps: seq<Step>)
    decreases steps
  {
    steps == [] || (Enabled(s, steps[0]) && Follows(Next(s, steps[0]), steps[1..]))
  }

  function After(s: State, steps: seq<Step>): State
    requires Follows(s, steps)
    decreases steps
  {
    if steps == [] then s else After(Next(s, steps[0]), steps[1..])
  }

  predicate NeverReuses(s: State, steps: seq<Step>)
    requires Follows(s, steps)
    decreases steps
  {
    steps == [] || (NoReuse(s, steps[0]) && NeverReuses(Next(s, steps[0]), steps[1..]))
  }

  lemma {:induction false} RunKeepsSafe(s: State, steps: seq<Step>)
    requires Safe(s) && Follows(s, steps) && NeverReuses(s, steps)
    ensures Safe(After(s, steps)) && After(s, steps).max == s.max
    decreases steps
  {
    if steps == [] {
    } else {
      StepKeepsSafe(s, steps[0]);
      RunKeepsSafe(Next(s, steps[0]), steps[1..]);
    }
  }

  /** Under every interleaving that reuses no identity, the registry stays within
      its capacity and every uncancelled live task is the registered one. */
  lemma {:induction false} RegistrySafety(max: nat, steps: seq<Step>)
    requires Follows(Init(max), steps) && NeverReuses(Init(max), steps)
    ensures var s := After(Init(max), steps); |s.active| <= max && Exclusive(s)
  {
    RunKeepsSafe(Init(max), steps);
  }

  /** The condition is exact: an admission is followed by a safe state whichever
      guard is dropped next, if and only if no live task holds the identity. */
  lemma {:induction false} AdmissionSafeIff(s: State, r: RequestId)
    requires Safe(s) && Enabled(s, Admit(r)) && Registers(s, Admit(r))
    ensures (forall t | t in Next(s, Admit(r)).live :: Exclusive(Next(Next(s, Admit(r)), DropGuard(t))))
            <==> NoReuse(s, Admit(r))
  {
    var q, s' := s.requests[r], Next(s, Admit(r));
    if NoReuse(s, Admit(r)) {
      RegisterKeepsSafe(s, r);
      forall t | t in s'.live ensures Exclusive(Next(s', DropGuard(t))) {
        DropKeepsSafe(s', t);
      }
    } else {
      var stale :| stale in s.live && s.live[stale] == Task(q.runId, q.identity);
      ReuseLosesSlot(s', stale, s.spawned);
    }
  }

  /** When two live tasks hold one identity, dropping the first one's guard
      unregisters the second. */
  lemma {:induction false} ReuseLosesSlot(s: State, stale: TaskId, later: TaskId)
    requires s.lock.None? && stale in s.live && later in s.live && stale != later && s.live[stale] == s.live[later]
    requires later !in s.cancelled && Releases(s.active, s.live[later].runId, s.live[later].identity)
    ensures Enabled(s, DropGuard(stale)) && !Exclusive(Next(s, DropGuard(stale)))
  {
  }

  lemma {:induction false} FollowsThen(s: State, a: seq<Step>, b: seq<Step>)
    requires Follows(s, a) && Follows(After(s, a), b)
    ensures Follows(s, a + b) && After(s, a + b) == After(After(s, a), b)
    decreases a
  {
    hide Enabled, Next;
    if a == [] {
      assert a + b == b;
    } else {
      FollowsThen(Next(s, a[0]), a[1..], b);
      assert (a + b)[1..] == a[1..] + b;
    }
  }

  function Admission(r: RequestId, runId: string, identity: Identity): seq<Step> {
    [Arrive(r, runId, identity), Acquire(r), Recheck(r), Admit(r)]
  }

  /** A request that meets no other one registers its run. */
  lemma {:induction false} AdmissionSpawns(s: State, r: RequestId, runId: string, identity: Identity)
    requires !s.shuttingDown && s.lock.None? && s.requests == map[]
    requires if runId in s.active then s.active[runId].identity != identity else |s.active| < s.max
    ensures Follows(s, Admission(r, runId, identity))
    ensures After(s, Admission(r, runId, identity)) == Spawn(s, runId, identity)
  {
    hide Enabled, Next, Spawn, Registers;
    var waiting := s.(requests := map[r := Request(runId, identity, Waiting)]);
    var locked := s.(lock := Some(r), requests := map[r := Request(runId, identity, Locked)]);
    var checked := s.(lock := Some(r), requests := map[r := Request(runId, identity, Checked)]);
    AdmissionStates(s, r, runId, identity);
    OneStep(s, Arrive(r, runId, identity));
    OneStep(waiting, Acquire(r));
    OneStep(locked, Recheck(r));
    OneStep(checked, Admit(r));
    hide Follows, After;
    var one := [Arrive(r, runId, identity)];
    FollowsThen(s, one, [Acquire(r)]);
    FollowsThen(s, one + [Acquire(r)], [Recheck(r)]);
    FollowsThen(s, one + [Acquire(r)] + [Recheck(r)], [Admit(r)]);
    assert one + [Acquire(r)] + [Recheck(r)] + [Admit(r)] == Admission(r, runId, identity);
  }

  lemma {:induction false} AdmissionStates(s: State, r: RequestId, runId: string, identity: Identity)
    requires !s.shuttingDown && s.lock.None? && s.requests == map[]
    requires if runId in s.active then s.active[runId].identity != identity else |s.active| < s.max
    ensures var waiting := s.(requests := map[r := Request(runId, identity, Waiting)]);
            var locked := s.(lock := Some(r), requests := map[r := Request(runId, identity, Locked)]);
            var checked := s.(lock := Some(r), requests := map[r := Request(runId, identity, Checked)]);
            && Enabled(s, Arrive(r, runId, identity)) && Next(s, Arrive(r, runId, identity)) == waiting
            && Enabled(waiting, Acquire(r)) && Next(waiting, Acquire(r)) == locked
            && Enabled(locked, Recheck(r)) && Next(locked, Recheck(r)) == checked
            && Enabled(checked, Admit(r)) && Next(checked, Admit(r)) == Spawn(s, runId, identity)
  {
    hide Spawn;
    var checked := s.(lock := Some(r), requests := map[r := Request(runId, identity, Checked)]);
    assert Leave(checked, r) == s;
  }

  /** Reuse does happen: one run, dispatched under a lease, then under another,
      then under the first again, is unregistered while its last task runs on. */
  lemma {:induction false} ReuseReachable(runId: string, a: Identity, b: Identity)
    requires a != b
    ensures exists steps :: Follows(Init(1), steps) && !Exclusive(After(Init(1), steps))
  {
    hide Enabled, Next, Follows, After, Exclusive;
    var s0 := Init(1);
    var s1 := Spawn(s0, runId, a);
    var s2 := Spawn(s1, runId, b);
    var s3 := Spawn(s2, runId, a);
    AdmissionSpawns(s0, 0, runId, a);
    AdmissionSpawns(s1, 0, runId, b);
    AdmissionSpawns(s2, 0, runId, a);
    var two := Admission(0, runId, a) + Admission(0, runId, b);
    FollowsThen(s0, Admission(0, runId, a), Admission(0, runId, b));
    FollowsThen(s0, two, Admission(0, runId, a));
    ReuseLosesSlot(s3, 0, 2);
    OneStep(s3, DropGuard(0));
    FollowsThen(s0, two + Admission(0, runId, a), [DropGuard(0)]);
  }

  lemma {:induction false} OneStep(s: State, step: Step)
    requires Enabled(s, step)
    ensures Follows(s, [step]) && After(s, [step]) == Next(s, step)
  {
    hide Enabled, Next;
    assert [step][1..] == [] && Follows(Next(s, step), []);
  }

  // ----- Shutdown -----

  /** The run that a request already past its second check may still register. */
  function Underway(s: State): set<string> {
    if s.lock.Some? && s.lock.value in s.requests && s.requests[s.lock.value].stage == Checked
    then {s.requests[s.lock.value].runId} else {}
  }

  function Admissions(s: State, steps: seq<Step>): nat
    requires Follows(s, steps)
    decreases steps
  {
    if steps == [] then 0
    else (if Registers(s, steps[0]) then 1 else 0) + Admissions(Next(s, steps[0]), steps[1..])
  }

  lemma {:induction false} RegistersUnderway(s: State, r: RequestId)
    requires Enabled(s, Admit(r)) && Registers(s, Admit(r))
    ensures var s' := Next(s, Admit(r));
            s'.active.Keys == s.active.Keys + Underway(s) && Underway(s) != {} && Underway(s') == {}
  {
    hide Verdict, Decide;
    assert Underway(s) == {s.requests[r].runId};
  }

  lemma {:induction false} UnderwayShrinks(s: State, step: Step)
    requires s.shuttingDown && Enabled(s, step) && !Registers(s, step)
    ensures var s' := Next(s, step); s'.active.Keys <= s.active.Keys && Underway(s') <= Underway(s)
  {
    hide Spawn, Verdict, Decide;
  }

  lemma {:induction false} StaysShut(s: State, step: Step)
    requires s.shuttingDown && Enabled(s, step)
    ensures Next(s, step).shuttingDown
  {
    hide Verdict, Decide;
  }

  /** Once shutdown is stored, the registered runs only shrink, except that one
      request already past its second check may still register its run. */
  lemma {:induction false} ShutdownDrains(s: State, steps: seq<Step>)
    requires s.shuttingDown && Follows(s, steps)
    ensures After(s, steps).active.Keys <= s.active.Keys + Underway(s)
    ensures Admissions(s, steps) <= |Underway(s)| <= 1
    decreases steps
  {
    if steps == [] {
    } else {
      StaysShut(s, steps[0]);
      if Registers(s, steps[0]) { RegistersUnderway(s, steps[0].r); } else { UnderwayShrinks(s, steps[0]); }
      ShutdownDrains(Next(s, steps[0]), steps[1..]);
    }
  }
}
