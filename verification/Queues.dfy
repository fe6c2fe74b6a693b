/**
 Queue consumers (scripts/takos-product-materializer.ts): who owns a consumer,
 whether its settings are the expected ones, and the loop that reconciles them.
 */
module Queues {
  import opened Wrappers
  import opened Collections
  import opened JsText

  // ----- Consumers as read back -----

  datatype Settings = Settings(batchSize: Field, maxWaitTimeMs: Field, maxRetries: Field, retryDelay: Field,
      maxConcurrency: Field)

  /** `names` are script_name, scriptName, script, worker, service and name;
      `settings` is absent when it is not an object. */
  datatype Consumer = Consumer(names: seq<Field>, kind: Field, settings: Option<Settings>, deadLetterQueue: Field)

  type Consumers = map<string, seq<Consumer>>

  /** `Number` on a string that is not blank, when the result is finite. */
  type NumberParser = string -> Option<real>

  datatype Expected = Expected(
    queue: string,
    maxBatchSize: int,
    maxBatchTimeout: int,
    maxRetries: Option<int>,
    maxConcurrency: Option<int>,
    retryDelay: Option<int>,
    deadLetterQueue: Option<string>)

  datatype QueueNames = QueueNames(
    runs: string, runsDlq: string, indexJobs: string, indexJobsDlq: string, push: string, pushDlq: string)

  function QueueConsumers(q: QueueNames): seq<Expected> {
    [Expected(q.runs, 1, 1, Some(5), Some(5), Some(5), Some(q.runsDlq)),
     Expected(q.runsDlq, 10, 60, None, None, None, None),
     Expected(q.indexJobs, 5, 60, Some(2), None, None, Some(q.indexJobsDlq)),
     Expected(q.indexJobsDlq, 10, 60, None, None, None, None),
     Expected(q.push, 5, 5, Some(5), Some(5), Some(5), Some(q.pushDlq)),
     Expected(q.pushDlq, 10, 60, Some(100), None, Some(600), None)]
  }

  function Names(q: QueueNames): seq<string> {
    [q.runs, q.runsDlq, q.indexJobs, q.indexJobsDlq, q.push, q.pushDlq]
  }

  /** The uniqueness check on the declared names compares two counts. */
  predicate DistinctNames(q: QueueNames) {
    |ToSet(Names(q))| == |Names(q)|
  }

  function Get(cs: Consumers, queue: string): seq<Consumer> {
    if queue in cs then cs[queue] else []
  }

  function FirstName(names: seq<Field>): Option<string> {
    if names == [] then None
    else if names[0].Text? && JsTrim(names[0].s) != "" then Some(names[0].s)
    else FirstName(names[1..])
  }

  predicate IsWorkerConsumer(c: Consumer, worker: string) {
    (c.kind == Absent || c.kind == Text("worker")) && FirstName(c.names) == Some(worker)
  }

  function Owned(cs: seq<Consumer>, worker: string): seq<Consumer> {
    if cs == [] then []
    else (if IsWorkerConsumer(cs[0], worker) then [cs[0]] else []) + Owned(cs[1..], worker)
  }

  // ----- Settings -----

  function Numeric(parse: NumberParser, f: Field): Option<real> {
    match f
    case Num(n) => Some(n)
    case Text(s) => if JsTrim(s) != "" then parse(s) else None
    case _ => None
  }

  function OrElse<T>(value: Option<T>, fallback: T): T {
    if value.Some? then value.value else fallback
  }

  function ToReal(value: Option<int>): Option<real> {
    if value.Some? then Some(value.value as real) else None
  }

  predicate QueueSettingsMatch(parse: NumberParser, c: Consumer, e: Expected) {
    && c.settings.Some?
    && var s := c.settings.value;
    && Numeric(parse, s.batchSize) == Some(e.maxBatchSize as real)
    && Numeric(parse, s.maxWaitTimeMs) == Some((e.maxBatchTimeout * 1000) as real)
    && OrElse(Numeric(parse, s.maxRetries), 3.0) == OrElse(e.maxRetries, 3) as real
    && OrElse(Numeric(parse, s.retryDelay), 0.0) == OrElse(e.retryDelay, 0) as real
    && Numeric(parse, s.maxConcurrency) == ToReal(e.maxConcurrency)
    && (if c.deadLetterQueue.Text? then c.deadLetterQueue.s else "") == OrElse(e.deadLetterQueue, "")
  }

  /** The later check's comparison of a field with a wanted number. */
  predicate Equals(parse: NumberParser, actual: Field, wanted: Option<int>) {
    if wanted.None? then actual == Absent || actual == Null
    else if actual.Text? && JsTrim(actual.s) != "" then parse(actual.s) == ToReal(wanted)
    else actual == Num(wanted.value as real)
  }

  /** What the check after reconciliation accepts. */
  predicate SettingsVerified(parse: NumberParser, c: Consumer, e: Expected) {
    && c.settings.Some?
    && var s := c.settings.value;
    && Equals(parse, s.batchSize, Some(e.maxBatchSize))
    && Equals(parse, s.maxWaitTimeMs, Some(e.maxBatchTimeout * 1000))
    && Equals(parse, s.maxRetries, Some(OrElse(e.maxRetries, 3)))
    && Equals(parse, s.maxConcurrency, e.maxConcurrency)
    && Equals(parse, s.retryDelay, Some(OrElse(e.retryDelay, 0)))
    && (match e.deadLetterQueue
        case Some(name) => c.deadLetterQueue == Text(name)
        case None => c.deadLetterQueue == Absent || c.deadLetterQueue == Null)
  }

  /** The readback spells out every setting that has a default, and no other. */
  predicate Explicit(parse: NumberParser, c: Consumer, e: Expected) {
    && c.settings.Some?
    && Numeric(parse, c.settings.value.maxRetries).Some?
    && Numeric(parse, c.settings.value.retryDelay).Some?
    && (e.maxConcurrency.None? ==> c.settings.value.maxConcurrency == Absent || c.settings.value.maxConcurrency == Null)
    && (e.deadLetterQueue.None? ==> c.deadLetterQueue == Absent || c.deadLetterQueue == Null)
    && (e.deadLetterQueue.Some? ==> c.deadLetterQueue.Text?)
  }

  lemma {:induction false} EqualsNumeric(parse: NumberParser, f: Field, wanted: int)
    ensures Equals(parse, f, Some(wanted)) <==> Numeric(parse, f) == Some(wanted as real)
  {
  }

  /** The two comparisons of settings in the source do not agree: the check is
      stricter than the match, by exactly the settings left implicit. */
  lemma {:induction false} VerifiedIffMatchAndExplicit(parse: NumberParser, c: Consumer, e: Expected)
    ensures SettingsVerified(parse, c, e) <==> QueueSettingsMatch(parse, c, e) && Explicit(parse, c, e)
  {
    if c.settings.Some? {
      var s := c.settings.value;
      EqualsNumeric(parse, s.batchSize, e.maxBatchSize);
      EqualsNumeric(parse, s.maxWaitTimeMs, e.maxBatchTimeout * 1000);
      EqualsNumeric(parse, s.maxRetries, OrElse(e.maxRetries, 3));
      EqualsNumeric(parse, s.retryDelay, OrElse(e.retryDelay, 0));
      if e.maxConcurrency.Some? { EqualsNumeric(parse, s.maxConcurrency, e.maxConcurrency.value); }
    }
  }

  /** The consumer that the provider reports after an `add` with these settings. */
  function Installed(worker: string, e: Expected): Consumer {
    Consumer(
      [Text(worker)], Text("worker"),
      Some(Settings(Num(e.maxBatchSize as real), Num((e.maxBatchTimeout * 1000) as real),
                    Num(OrElse(e.maxRetries, 3) as real), Num(OrElse(e.retryDelay, 0) as real),
                    if e.maxConcurrency.Some? then Num(e.maxConcurrency.value as real) else Null)),
      if e.deadLetterQueue.Some? then Text(e.deadLetterQueue.value) else Absent)
  }

  // ----- Reconciliation as a function -----

  /** No foreign consumer and at most one of ours: the guard before any mutation. */
  predicate Ownable(cs: Consumers, worker: string, es: seq<Expected>) {
    forall e | e in es :: OwnableList(Get(cs, e.queue), worker)
  }

  predicate OwnableList(list: seq<Consumer>, worker: string) {
    |list| <= 1 && forall c | c in list :: IsWorkerConsumer(c, worker)
  }

  predicate Expects(es: seq<Expected>, queue: string) {
    exists e | e in es :: e.queue == queue
  }

  predicate Kept(parse: NumberParser, cs: Consumers, worker: string, e: Expected) {
    var owned := Owned(Get(cs, e.queue), worker);
    owned != [] && QueueSettingsMatch(parse, owned[0], e)
  }

  function SettleOne(parse: NumberParser, cs: Consumers, worker: string, e: Expected): Consumers {
    if Kept(parse, cs, worker, e) then cs else cs[e.queue := [Installed(worker, e)]]
  }

  function Settle(parse: NumberParser, cs: Consumers, worker: string, es: seq<Expected>): Consumers
    decreases es
  {
    if es == [] then cs else Settle(parse, SettleOne(parse, cs, worker, es[0]), worker, es[1..])
  }

  datatype Mutation = Remove(queue: string) | Add(queue: string)

  function PlanOne(parse: NumberParser, cs: Consumers, worker: string, e: Expected): seq<Mutation> {
    if Kept(parse, cs, worker, e) then []
    else if Owned(Get(cs, e.queue), worker) != [] then [Remove(e.queue), Add(e.queue)]
    else [Add(e.queue)]
  }

  /** The commands of one reconciliation that meets no failure. */
  function Plan(parse: NumberParser, cs: Consumers, worker: string, es: seq<Expected>): seq<Mutation> {
    if es == [] then [] else PlanOne(parse, cs, worker, es[0]) + Plan(parse, cs, worker, es[1..])
  }

  predicate DistinctQueues(es: seq<Expected>) {
    forall i, j | 0 <= i < j < |es| :: es[i].queue != es[j].queue
  }

  /** Exactly one consumer on each expected queue, ours, with matching settings. */
  predicate Reconciled(parse: NumberParser, cs: Consumers, worker: string, es: seq<Expected>) {
    forall e | e in es ::
      && |Get(cs, e.queue)| == 1
      && IsWorkerConsumer(Get(cs, e.queue)[0], worker)
      && QueueSettingsMatch(parse, Get(cs, e.queue)[0], e)
  }

  /** Comparing two counts settles that no queue is expected twice. */
  lemma {:induction false} ExpectedDistinct(q: QueueNames)
    ensures DistinctNames(q) <==> DistinctQueues(QueueConsumers(q))
  {
    var names := Names(q);
    SetSizeDistinct(names);
    assert forall i | 0 <= i < 6 :: QueueConsumers(q)[i].queue == names[i];
    assert Distinct(names) <==>
           forall i, j | 0 <= i < j < 6 :: QueueConsumers(q)[i].queue != QueueConsumers(q)[j].queue;
  }

  lemma {:induction false} OwnedOf(cs: Consumers, worker: string, es: seq<Expected>, e: Expected)
    requires Ownable(cs, worker, es) && e in es
    ensures Owned(Get(cs, e.queue), worker) == Get(cs, e.queue)
  {
  }

  lemma {:induction false} InstalledFits(parse: NumberParser, worker: string, e: Expected)
    requires JsTrim(worker) != ""
    ensures IsWorkerConsumer(Installed(worker, e), worker)
    ensures SettingsVerified(parse, Installed(worker, e), e) && QueueSettingsMatch(parse, Installed(worker, e), e)
  {
  }

  /** Settling leaves every queue it does not expect, and every queue whose
      consumer already matches, as it was. */
  lemma {:induction false} SettleFrame(parse: NumberParser, cs: Consumers, worker: string, es: seq<Expected>,
          queue: string)
    requires forall e | e in es :: e.queue == queue ==> Kept(parse, cs, worker, e)
    requires DistinctQueues(es)
    ensures Get(Settle(parse, cs, worker, es), queue) == Get(cs, queue)
    decreases es
  {
    if es == [] {
    } else {
      var next := SettleOne(parse, cs, worker, es[0]);
      assert es[0] in es;
      assert Get(next, queue) == Get(cs, queue);
      forall e | e in es[1..] && e.queue == queue ensures Kept(parse, next, worker, e) {
        assert e in es;
      }
      assert DistinctQueues(es[1..]);
      SettleFrame(parse, next, worker, es[1..], queue);
    }
  }

  /** Settling treats each expected queue on its own. */
  lemma {:induction false} SettleAt(parse: NumberParser, cs: Consumers, worker: string, es: seq<Expected>, e: Expected)
    requires e in es && DistinctQueues(es)
    ensures Get(Settle(parse, cs, worker, es), e.queue)
            == if Kept(parse, cs, worker, e) then Get(cs, e.queue) else [Installed(worker, e)]
    decreases es
  {
    hide QueueSettingsMatch;
    var next, rest := SettleOne(parse, cs, worker, es[0]), es[1..];
    assert DistinctQueues(rest);
    if e == es[0] {
      assert forall other | other in rest :: other.queue != e.queue;
      SettleFrame(parse, next, worker, rest, e.queue);
    } else {
      assert e in rest && Get(next, e.queue) == Get(cs, e.queue);
      SettleAt(parse, next, worker, rest, e);
    }
  }

  lemma {:induction false} SettleReconciles(parse: NumberParser, cs: Consumers, worker: string, es: seq<Expected>)
    requires Ownable(cs, worker, es) && DistinctQueues(es) && JsTrim(worker) != ""
    ensures Reconciled(parse, Settle(parse, cs, worker, es), worker, es)
  {
    hide QueueSettingsMatch, SettingsVerified, IsWorkerConsumer, Settle;
    var settled := Settle(parse, cs, worker, es);
    forall e | e in es
      ensures && |Get(settled, e.queue)| == 1
              && IsWorkerConsumer(Get(settled, e.queue)[0], worker)
              && QueueSettingsMatch(parse, Get(settled, e.queue)[0], e)
    {
      SettleAt(parse, cs, worker, es, e);
      OwnedOf(cs, worker, es, e);
      InstalledFits(parse, worker, e);
      assert Kept(parse, cs, worker, e) ==> Get(cs, e.queue)[0] in Get(cs, e.queue);
    }
  }

  /** The check after reconciliation passes exactly when every consumer that was
      left in place spells its settings out; otherwise no rerun ever helps. */
  lemma {:induction false} SettledVerifiesIff(parse: NumberParser, cs: Consumers, worker: string, es: seq<Expected>)
    requires Ownable(cs, worker, es) && DistinctQueues(es) && JsTrim(worker) != ""
    ensures Reconciled(parse, Settle(parse, cs, worker, es), worker, es)
    ensures (forall e | e in es :: SettingsVerified(parse, Get(Settle(parse, cs, worker, es), e.queue)[0], e))
            <==> (forall e | e in es && Kept(parse, cs, worker, e) :: Explicit(parse, Get(cs, e.queue)[0], e))
  {
    hide QueueSettingsMatch, SettingsVerified, IsWorkerConsumer, Settle, Explicit;
    var settled := Settle(parse, cs, worker, es);
    SettleReconciles(parse, cs, worker, es);
    forall e | e in es
      ensures SettingsVerified(parse, Get(settled, e.queue)[0], e)
              <==> (Kept(parse, cs, worker, e) ==> Explicit(parse, Get(cs, e.queue)[0], e))
    {
      SettleAt(parse, cs, worker, es, e);
      OwnedOf(cs, worker, es, e);
      InstalledFits(parse, worker, e);
      VerifiedIffMatchAndExplicit(parse, Get(settled, e.queue)[0], e);
    }
  }

  /** The consumer as added, but with the default number of retries left out. */
  function Reticent(worker: string, e: Expected): Consumer {
    var c := Installed(worker, e);
    c.(settings := Some(c.settings.value.(maxRetries := Absent)))
  }

  /** Such a consumer is ours and matches, so it is kept and no command is sent,
      and the check refuses it now and after every rerun. */
  lemma {:induction false} ImplicitDefaultStuck(parse: NumberParser, worker: string, e: Expected)
    requires e.maxRetries.None? && JsTrim(worker) != ""
    ensures var cs := map[e.queue := [Reticent(worker, e)]];
            && Ownable(cs, worker, [e]) && Plan(parse, cs, worker, [e]) == [] && Settle(parse, cs, worker, [e]) == cs
            && !SettingsVerified(parse, Get(cs, e.queue)[0], e)
  {
    var c := Reticent(worker, e);
    InstalledFits(parse, worker, e);
    assert c.names == Installed(worker, e).names && Owned([c], worker) == [c] by { assert [c][1..] == []; }
    assert QueueSettingsMatch(parse, c, e);
    assert [e][1..] == [];
  }

  /** No command is planned exactly when everything is reconciled already. */
  lemma {:induction false} NoPlanIffReconciled(parse: NumberParser, cs: Consumers, worker: string, es: seq<Expected>)
    requires Ownable(cs, worker, es)
    ensures Plan(parse, cs, worker, es) == [] <==> Reconciled(parse, cs, worker, es)
    decreases es
  {
    if es == [] {
    } else {
      var first, rest := es[0], es[1..];
      assert Ownable(cs, worker, rest);
      NoPlanIffReconciled(parse, cs, worker, rest);
      OwnedOf(cs, worker, es, first);
      var list := Get(cs, first.queue);
      if list != [] { assert list[0] in list; }
      assert PlanOne(parse, cs, worker, first) == [] <==> Reconciled(parse, cs, worker, [first]);
      assert es == [first] + rest;
    }
  }

  /** What is planned: an addition for each expected queue without a matching
      consumer of ours, after a removal if there is one of ours, and no more. */
  lemma {:induction false} PlanMeans(parse: NumberParser, cs: Consumers, worker: string, es: seq<Expected>,
          queue: string)
    ensures Add(queue) in Plan(parse, cs, worker, es) <==>
            exists e | e in es :: e.queue == queue && Unmatched(parse, Owned(Get(cs, queue), worker), e)
    ensures Remove(queue) in Plan(parse, cs, worker, es) <==>
            Add(queue) in Plan(parse, cs, worker, es) && Owned(Get(cs, queue), worker) != []
    decreases es
  {
    hide QueueSettingsMatch, IsWorkerConsumer, Owned, Get;
    if es == [] {
    } else {
      PlanMeans(parse, cs, worker, es[1..], queue);
      assert forall e :: e in es <==> e == es[0] || e in es[1..];
    }
  }

  lemma {:induction false} PlanForms(parse: NumberParser, cs: Consumers, worker: string, e: Expected)
    ensures PlanOne(parse, cs, worker, e) in {[], [Add(e.queue)], [Remove(e.queue), Add(e.queue)]}
  {
  }

  /** A removal is followed at once by the addition. */
  lemma {:induction false} PlanOrder(parse: NumberParser, cs: Consumers, worker: string, es: seq<Expected>, i: nat)
    requires i < |Plan(parse, cs, worker, es)| && Plan(parse, cs, worker, es)[i].Remove?
    ensures var plan := Plan(parse, cs, worker, es); i + 1 < |plan| && plan[i + 1] == Add(plan[i].queue)
    decreases es
  {
    hide PlanOne;
    var first := PlanOne(parse, cs, worker, es[0]);
    PlanForms(parse, cs, worker, es[0]);
    if i >= |first| { PlanOrder(parse, cs, worker, es[1..], i - |first|); }
  }

  /** Nothing is done twice. */
  lemma {:induction false} PlanDistinct(parse: NumberParser, cs: Consumers, worker: string, es: seq<Expected>)
    requires DistinctQueues(es)
    ensures Distinct(Plan(parse, cs, worker, es))
    decreases es
  {
    hide PlanOne, Unmatched, Owned, Get;
    if es == [] {
    } else {
      var first, rest := PlanOne(parse, cs, worker, es[0]), Plan(parse, cs, worker, es[1..]);
      PlanForms(parse, cs, worker, es[0]);
      PlanDistinct(parse, cs, worker, es[1..]);
      assert forall m | m in first :: m.queue == es[0].queue;
      forall m | m in rest ensures m.queue != es[0].queue { PlanMeans(parse, cs, worker, es[1..], m.queue); }
      DistinctPlans(first, rest);
    }
  }

  lemma {:induction false} DistinctPlans(first: seq<Mutation>, rest: seq<Mutation>)
    requires Distinct(first) && forall m, n | m in first && n in rest :: m.queue != n.queue
    ensures Distinct(rest) ==> Distinct(first + rest)
  {
    var plan := first + rest;
    forall i, j | 0 <= i < |first| <= j < |plan| ensures plan[i] != plan[j] {
      assert plan[i] in first && plan[j] in rest;
    }
  }

  /** None of ours, or one with other settings. */
  predicate Unmatched(parse: NumberParser, owned: seq<Consumer>, e: Expected) {
    owned == [] || !QueueSettingsMatch(parse, owned[0], e)
  }

  /** After one reconciliation a second one sends no command. */
  lemma {:induction false} SecondRunIsQuiet(parse: NumberParser, cs: Consumers, worker: string, es: seq<Expected>)
    requires Ownable(cs, worker, es) && DistinctQueues(es) && JsTrim(worker) != ""
    ensures var settled := Settle(parse, cs, worker, es);
            Ownable(settled, worker, es) && Plan(parse, settled, worker, es) == []
  {
    hide QueueSettingsMatch, IsWorkerConsumer, Settle, Plan;
    SettleReconciles(parse, cs, worker, es);
    var settled := Settle(parse, cs, worker, es);
    assert Ownable(settled, worker, es);
    NoPlanIffReconciled(parse, settled, worker, es);
  }

  // ----- The loop -----

  /** What one command does: whether it takes effect, and how it exits. */
  datatype Outcome = Outcome(effect: bool, exit: Exit)
  datatype Exit = Succeeded | Missing | Failed

  datatype ReconcileError = ReadbackFailed | ResourceConflict | CommandFailed

  class QueueProvider {
    const worker: string
    const script: nat -> Outcome
    var consumers: Consumers
    var mutations: seq<Mutation>

    constructor (worker: string, consumers: Consumers, script: nat -> Outcome)
      ensures this.worker == worker && this.consumers == consumers && this.script == script && mutations == []
    {
      this.worker, this.consumers, this.script, mutations := worker, consumers, script, [];
    }

    /** A command that succeeds, or finds the consumer missing, leaves none of
        ours behind; one that fails may or may not have removed it. */
    method Remove(queue: string) returns (exit: Exit)
      requires forall c | c in Get(consumers, queue) :: IsWorkerConsumer(c, worker)
      modifies this
      ensures mutations == old(mutations) + [Mutation.Remove(queue)]
      ensures consumers == old(consumers) || consumers == old(consumers)[queue := []]
      ensures exit != Failed ==> Get(consumers, queue) == []
      ensures exit == Failed ==> var outcome := script(|old(mutations)|); !outcome.effect || outcome.exit == Failed
    {
      var outcome := script(|mutations|);
      mutations := mutations + [Mutation.Remove(queue)];
      if outcome.effect {
        consumers := consumers[queue := []];
      }
      exit := if Get(consumers, queue) == [] then outcome.exit else Failed;
    }

    method Add(e: Expected) returns (exit: Exit)
      modifies this
      ensures mutations == old(mutations) + [Mutation.Add(e.queue)]
      ensures var added := old(consumers)[e.queue := Get(old(consumers), e.queue) + [Installed(worker, e)]];
              (consumers == old(consumers) || consumers == added) && (exit == Succeeded ==> consumers == added)
      ensures exit != Succeeded ==>
                var outcome := script(|old(mutations)|); !outcome.effect || outcome.exit != Succeeded
    {
      var outcome := script(|mutations|);
      mutations := mutations + [Mutation.Add(e.queue)];
      if outcome.effect {
        consumers := consumers[e.queue := Get(consumers, e.queue) + [Installed(worker, e)]];
      }
      exit := if outcome.effect then outcome.exit else Failed;
    }
  }

  /** The ownership guard: a foreign consumer or a second one of ours. */
  method ValidateQueueOwnership(cs: Consumers, worker: string, es: seq<Expected>) returns (ok: bool)
    ensures ok <==> Ownable(cs, worker, es)
  {
    for i := 0 to |es|
      invariant Ownable(cs, worker, es[..i])
    {
      var list := Get(cs, es[i].queue);
      assert es[i] in es;
      OwnedLength(list, worker);
      if |Owned(list, worker)| != |list| || |Owned(list, worker)| > 1 {
        return false;
      }
      assert es[..i + 1] == es[..i] + [es[i]];
    }
    assert es[..|es|] == es;
    ok := true;
  }

  lemma {:induction false} OwnedLength(list: seq<Consumer>, worker: string)
    ensures |Owned(list, worker)| <= |list|
    ensures |Owned(list, worker)| == |list| <==> forall c | c in list :: IsWorkerConsumer(c, worker)
  {
    if list == [] {
    } else {
      OwnedLength(list[1..], worker);
    }
  }

  /** The last command did not come through: a removal that failed or left the
      consumer, or an addition that did not succeed. */
  predicate Broken(script: nat -> Outcome, mutations: seq<Mutation>) {
    && mutations != []
    && var outcome := script(|mutations| - 1);
    !outcome.effect || outcome.exit == Failed || (mutations[|mutations| - 1].Add? && outcome.exit != Succeeded)
  }

  /** `listed` says whether the readback of every queue succeeds. A conflict stops
      before any command; success settles every queue with exactly the planned
      commands; it fails in between only for a command that did not come through,
      and keeps every queue ownable for a later run. */
  method ReconcileQueueConsumers(parse: NumberParser, p: QueueProvider, q: QueueNames, listed: bool)
    returns (r: Result<(), ReconcileError>)
    requires DistinctNames(q) && JsTrim(p.worker) != ""
    modifies p
    ensures r == Err(ReadbackFailed) <==> !listed
    ensures r == Err(ResourceConflict) <==> listed && !Ownable(old(p.consumers), p.worker, QueueConsumers(q))
    ensures r == Err(ReadbackFailed) || r == Err(ResourceConflict) ==>
              p.consumers == old(p.consumers) && p.mutations == old(p.mutations)
    ensures r.Ok? ==>
              && p.consumers == Settle(parse, old(p.consumers), p.worker, QueueConsumers(q))
              && p.mutations == old(p.mutations) + Plan(parse, old(p.consumers), p.worker, QueueConsumers(q))
    ensures r == Err(CommandFailed) ==> |p.mutations| > |old(p.mutations)| && Broken(p.script, p.mutations)
    ensures Ownable(old(p.consumers), p.worker, QueueConsumers(q)) ==> Ownable(p.consumers, p.worker, QueueConsumers(q))
    ensures forall queue | queue !in Names(q) :: Get(p.consumers, queue) == Get(old(p.consumers), queue)
  {
    if !listed {
      return Err(ReadbackFailed);
    }
    var es, current := QueueConsumers(q), p.consumers;
    ExpectedDistinct(q);
    assert forall queue :: Expects(es, queue) ==> queue in Names(q);
    hide *;
    var owned := ValidateQueueOwnership(current, p.worker, es);
    if !owned {
      return Err(ResourceConflict);
    }
    var failed := ReconcileEach(parse, p, es);
    r := if failed then Err(CommandFailed) else Ok(());
  }

  method ReconcileEach(parse: NumberParser, p: QueueProvider, es: seq<Expected>) returns (failed: bool)
    requires Ownable(p.consumers, p.worker, es) && DistinctQueues(es) && JsTrim(p.worker) != ""
    modifies p
    ensures !failed ==> p.consumers == Settle(parse, old(p.consumers), p.worker, es)
    ensures !failed ==> p.mutations == old(p.mutations) + Plan(parse, old(p.consumers), p.worker, es)
    ensures failed ==> |p.mutations| > |old(p.mutations)| && Broken(p.script, p.mutations)
    ensures Ownable(p.consumers, p.worker, es)
    ensures forall queue | !Expects(es, queue) :: Get(p.consumers, queue) == Get(old(p.consumers), queue)
  {
    hide QueueSettingsMatch, IsWorkerConsumer, Ownable, PlanOne, SettleOne, Get, Broken;
    var current := p.consumers;
    ghost var rest, planned: seq<Mutation> := es, [];
    for i := 0 to |es|
      invariant rest == es[i..]
      invariant Ownable(p.consumers, p.worker, es)
      invariant forall e | e in rest :: Get(p.consumers, e.queue) == Get(current, e.queue)
      invariant forall queue | !Expects(es, queue) :: Get(p.consumers, queue) == Get(current, queue)
      invariant Settle(parse, p.consumers, p.worker, rest) == Settle(parse, current, p.worker, es)
      invariant p.mutations == old(p.mutations) + planned
      invariant planned + Plan(parse, current, p.worker, rest) == Plan(parse, current, p.worker, es)
    {
      assert rest[0] == es[i] && rest[1..] == es[i + 1..];
      assert forall e | e in rest[1..] :: e in rest && e.queue != es[i].queue;
      assert Expects(es, es[i].queue);
      var broken := ReconcileOne(parse, p, es[i], current, es);
      if broken {
        return true;
      }
      PlanStep(planned, parse, current, p.worker, rest);
      planned, rest := planned + PlanOne(parse, current, p.worker, es[i]), rest[1..];
    }
    failed := false;
  }

  lemma {:induction false} PlanStep(planned: seq<Mutation>, parse: NumberParser, cs: Consumers, worker: string,
          rest: seq<Expected>)
    requires rest != []
    ensures planned + PlanOne(parse, cs, worker, rest[0]) + Plan(parse, cs, worker, rest[1..])
            == planned + Plan(parse, cs, worker, rest)
  {
  }

  /** One round of the loop, deciding on the readback `current`. */
  method ReconcileOne(parse: NumberParser, p: QueueProvider, e: Expected, current: Consumers, ghost es: seq<Expected>)
    returns (failed: bool)
    requires e in es && Ownable(p.consumers, p.worker, es) && JsTrim(p.worker) != ""
    requires Get(p.consumers, e.queue) == Get(current, e.queue)
    modifies p
    ensures Ownable(p.consumers, p.worker, es)
    ensures forall queue | queue != e.queue :: Get(p.consumers, queue) == Get(old(p.consumers), queue)
    ensures !failed ==> p.consumers == SettleOne(parse, old(p.consumers), p.worker, e)
    ensures !failed ==> p.mutations == old(p.mutations) + PlanOne(parse, current, p.worker, e)
    ensures failed ==> |p.mutations| > |old(p.mutations)| && Broken(p.script, p.mutations)
  {
    hide QueueSettingsMatch, IsWorkerConsumer, SettingsVerified, Installed, Owned;
    OwnedOf(p.consumers, p.worker, es, e);
    InstalledFits(parse, p.worker, e);
    ghost var before := p.consumers;
    var owned := Owned(Get(current, e.queue), p.worker);
    if owned != [] && QueueSettingsMatch(parse, owned[0], e) {
      return false;
    }
    if owned != [] {
      var exit := p.Remove(e.queue);
      if exit == Failed {
        return true;
      }
    }
    assert Get(p.consumers, e.queue) + [Installed(p.worker, e)] == [Installed(p.worker, e)];
    assert p.consumers[e.queue := [Installed(p.worker, e)]] == before[e.queue := [Installed(p.worker, e)]];
    var exit := p.Add(e);
    failed := exit != Succeeded;
  }
}
