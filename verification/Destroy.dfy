/**
 Taking a product down (scripts/takos-product-materializer.ts). The Worker is
 what proves that the queue consumers, containers and vector index belong to
 this product, so it must outlive all of them.
 */
module Destroy {
  import opened Wrappers
  import opened Collections
  import opened Queues
  import Purge

  /** `attached` says whether the application belongs to the Worker's namespaces. */
  datatype Container = Container(id: string, name: string, attached: bool)

  /** `marked` says whether the Worker carries the materializer's provenance, and
      `binds` whether its bindings name the product's queues and vector index. */
  datatype WorkerVersion = WorkerVersion(marked: bool, binds: bool)

  datatype Estate = Estate(worker: Option<WorkerVersion>, consumers: Consumers, containers: seq<Container>,
      vector: bool)

  datatype Target = Target(worker: string, queues: QueueNames, buckets: seq<string>)

  /** Everything a run may ask the provider to delete. */
  datatype Part = ConsumerOf(queue: string) | Application(id: string) | VectorIndex | WorkerScript

  function OwnedNames(t: Target): set<string> {
    {t.worker + "-executor-tier1", t.worker + "-executor-tier2", t.worker + "-executor-tier3"}
  }

  function OwnedConsumers(t: Target, cs: Consumers): set<Part> {
    set queue | queue in Names(t.queues) && Owned(Get(cs, queue), t.worker) != [] :: ConsumerOf(queue)
  }

  function OwnedContainers(t: Target, containers: seq<Container>): set<Part> {
    set c | c in containers && c.name in OwnedNames(t) :: Application(c.id)
  }

  function OwnedVector(vector: bool): set<Part> {
    if vector then {VectorIndex} else {}
  }

  function OwnedChildren(t: Target, e: Estate): set<Part> {
    OwnedConsumers(t, e.consumers) + OwnedContainers(t, e.containers) + OwnedVector(e.vector)
  }

  /** The ownership anchor: an owned child implies the Worker. */
  predicate Anchored(t: Target, e: Estate) {
    OwnedChildren(t, e) != {} ==> e.worker.Some?
  }

  predicate HasRetired(t: Target, containers: seq<Container>) {
    exists c | c in containers :: c.name == t.worker + "-runtime"
  }

  predicate DuplicateNames(containers: seq<Container>) {
    exists i, j | 0 <= i < j < |containers| :: containers[i].name == containers[j].name
  }

  function OwnedOnly(t: Target, containers: seq<Container>): seq<Container> {
    if containers == [] then []
    else (if containers[0].name in OwnedNames(t) then [containers[0]] else []) + OwnedOnly(t, containers[1..])
  }

  predicate Unattached(t: Target, containers: seq<Container>) {
    var owned := OwnedOnly(t, containers);
    DuplicateNames(owned) || exists c | c in owned :: !c.attached
  }

  /** The owned applications are distinct and attached, and no retired one is left. */
  predicate ContainersFit(t: Target, containers: seq<Container>) {
    !HasRetired(t, containers) && !Unattached(t, containers)
  }

  predicate ConsumersFit(t: Target, cs: Consumers) {
    Ownable(cs, t.worker, QueueConsumers(t.queues))
  }

  /** Nothing here gives a run a reason to refuse, but for a missing anchor. */
  predicate Repeatable(t: Target, e: Estate) {
    && ConsumersFit(t, e.consumers) && ContainersFit(t, e.containers)
    && (e.worker.Some? ==> e.worker.value.marked)
    && (e.worker.Some? && (e.vector || OwnedConsumers(t, e.consumers) != {}) ==> e.worker.value.binds)
  }

  // ----- Deletions that land when they like -----

  function Foreign(cs: seq<Consumer>, worker: string): seq<Consumer> {
    if cs == [] then []
    else (if IsWorkerConsumer(cs[0], worker) then [] else [cs[0]]) + Foreign(cs[1..], worker)
  }

  function Without(containers: seq<Container>, landed: set<Part>): seq<Container> {
    if containers == [] then []
    else (if Application(containers[0].id) in landed then [] else [containers[0]]) + Without(containers[1..], landed)
  }

  function LandConsumers(t: Target, cs: Consumers, landed: set<Part>): Consumers {
    map queue | queue in cs :: if ConsumerOf(queue) in landed then Foreign(cs[queue], t.worker) else cs[queue]
  }

  /** The estate once the deletions in `landed` have taken effect. */
  function Land(t: Target, e: Estate, landed: set<Part>): Estate {
    Estate(
      if WorkerScript in landed then None else e.worker,
      LandConsumers(t, e.consumers, landed),
      Without(e.containers, landed),
      e.vector && VectorIndex !in landed)
  }

  lemma {:induction false} ForeignUnowned(cs: seq<Consumer>, worker: string)
    ensures Owned(Foreign(cs, worker), worker) == []
  {
    if cs == [] {
    } else {
      ForeignUnowned(cs[1..], worker);
      assert Foreign(cs, worker) == Foreign(cs[1..], worker) || Foreign(cs, worker)[1..] == Foreign(cs[1..], worker);
    }
  }

  lemma {:induction false} WithoutMembers(containers: seq<Container>, landed: set<Part>)
    ensures forall c :: c in Without(containers, landed) <==> c in containers && Application(c.id) !in landed
  {
    if containers == [] {
    } else {
      WithoutMembers(containers[1..], landed);
    }
  }

  lemma {:induction false} LandOwnedConsumers(t: Target, cs: Consumers, landed: set<Part>)
    ensures OwnedConsumers(t, LandConsumers(t, cs, landed)) == OwnedConsumers(t, cs) - landed
  {
    hide IsWorkerConsumer, Names;
    var after := LandConsumers(t, cs, landed);
    forall queue
      ensures Owned(Get(after, queue), t.worker)
              == if ConsumerOf(queue) in landed then [] else Owned(Get(cs, queue), t.worker)
    {
      if queue in cs && ConsumerOf(queue) in landed { ForeignUnowned(cs[queue], t.worker); }
    }
  }

  lemma {:induction false} LandOwnedContainers(t: Target, containers: seq<Container>, landed: set<Part>)
    ensures OwnedContainers(t, Without(containers, landed)) == OwnedContainers(t, containers) - landed
  {
    hide OwnedNames;
    WithoutMembers(containers, landed);
  }

  /** Landing removes exactly the landed children from what is owned. */
  lemma {:induction false} LandOwned(t: Target, e: Estate, landed: set<Part>)
    ensures var e' := Land(t, e, landed);
            && OwnedConsumers(t, e'.consumers) == OwnedConsumers(t, e.consumers) - landed
            && OwnedContainers(t, e'.containers) == OwnedContainers(t, e.containers) - landed
            && OwnedVector(e'.vector) == OwnedVector(e.vector) - landed
            && OwnedChildren(t, e') == OwnedChildren(t, e) - landed
  {
    LandOwnedConsumers(t, e.consumers, landed);
    LandOwnedContainers(t, e.containers, landed);
    hide OwnedConsumers, OwnedContainers;
  }

  // ----- Landing leaves no new reason to refuse -----

  lemma {:induction false} ForeignMembers(cs: seq<Consumer>, worker: string)
    ensures |Foreign(cs, worker)| <= |cs|
    ensures forall c :: c in Foreign(cs, worker) <==> c in cs && !IsWorkerConsumer(c, worker)
  {
    if cs == [] {
    } else {
      ForeignMembers(cs[1..], worker);
    }
  }

  /** Somebody else's consumers stay. */
  lemma {:induction false} LandKeepsForeign(t: Target, e: Estate, landed: set<Part>, queue: string, c: Consumer)
    requires !IsWorkerConsumer(c, t.worker)
    ensures c in Get(e.consumers, queue) <==> c in Get(Land(t, e, landed).consumers, queue)
  {
    ForeignMembers(Get(e.consumers, queue), t.worker);
  }

  lemma {:induction false} LandConsumersFit(t: Target, cs: Consumers, landed: set<Part>)
    requires ConsumersFit(t, cs)
    ensures ConsumersFit(t, LandConsumers(t, cs, landed))
  {
    hide QueueConsumers, IsWorkerConsumer;
    forall e | e in QueueConsumers(t.queues) ensures OwnableList(Get(LandConsumers(t, cs, landed), e.queue), t.worker) {
      ForeignMembers(Get(cs, e.queue), t.worker);
    }
  }

  lemma {:induction false} TailNames(containers: seq<Container>)
    requires containers != [] && !DuplicateNames(containers)
    ensures !DuplicateNames(containers[1..]) && forall c | c in containers[1..] :: c.name != containers[0].name
  {
    var rest := containers[1..];
    assert forall i | 0 <= i < |rest| :: rest[i] == containers[i + 1];
    forall c | c in rest ensures c.name != containers[0].name {
      var i :| 0 <= i < |rest| && rest[i] == c;
      assert containers[0].name != containers[i + 1].name;
    }
    forall i, j | 0 <= i < j < |rest| ensures rest[i].name != rest[j].name {
      assert containers[i + 1].name != containers[j + 1].name;
    }
  }

  lemma {:induction false} ConsNames(c: Container, rest: seq<Container>)
    requires !DuplicateNames(rest) && forall other | other in rest :: other.name != c.name
    ensures !DuplicateNames([c] + rest)
  {
  }

  lemma {:induction false} WithoutNames(containers: seq<Container>, landed: set<Part>)
    requires !DuplicateNames(containers)
    ensures !DuplicateNames(Without(containers, landed))
  {
    if containers == [] {
    } else {
      TailNames(containers);
      WithoutNames(containers[1..], landed);
      WithoutMembers(containers[1..], landed);
      if Application(containers[0].id) in landed {
        assert Without(containers, landed) == Without(containers[1..], landed);
      } else {
        ConsNames(containers[0], Without(containers[1..], landed));
      }
    }
  }

  lemma {:induction false} OwnedOnlyWithout(t: Target, containers: seq<Container>, landed: set<Part>)
    ensures OwnedOnly(t, Without(containers, landed)) == Without(OwnedOnly(t, containers), landed)
  {
    if containers == [] {
    } else {
      var first, rest := containers[0], containers[1..];
      OwnedOnlyWithout(t, rest, landed);
      var kept, owned := Without(rest, landed), OwnedOnly(t, rest);
      assert ([first] + kept)[1..] == kept && ([first] + owned)[1..] == owned;
      assert [] + kept == kept && [] + owned == owned;
    }
  }

  lemma {:induction false} LandContainersFit(t: Target, containers: seq<Container>, landed: set<Part>)
    requires ContainersFit(t, containers)
    ensures ContainersFit(t, Without(containers, landed))
  {
    hide DuplicateNames, OwnedOnly, OwnedNames;
    OwnedOnlyWithout(t, containers, landed);
    WithoutNames(OwnedOnly(t, containers), landed);
    WithoutMembers(OwnedOnly(t, containers), landed);
    WithoutMembers(containers, landed);
  }

  lemma {:induction false} WithoutNothing(containers: seq<Container>)
    ensures Without(containers, {}) == containers
  {
    if containers == [] {
    } else {
      WithoutNothing(containers[1..]);
    }
  }

  lemma {:induction false} LandParts(t: Target, e: Estate, landed: set<Part>)
    ensures var e' := Land(t, e, landed);
            && e'.worker == (if WorkerScript in landed then None else e.worker)
            && (ConsumersFit(t, e.consumers) ==> ConsumersFit(t, e'.consumers))
            && (ContainersFit(t, e.containers) ==> ContainersFit(t, e'.containers))
            && (landed == {} ==> e' == e)
  {
    hide ConsumersFit, ContainersFit;
    if ConsumersFit(t, e.consumers) { LandConsumersFit(t, e.consumers, landed); }
    if ContainersFit(t, e.containers) { LandContainersFit(t, e.containers, landed); }
    if landed == {} {
      WithoutNothing(e.containers);
      assert LandConsumers(t, e.consumers, {}) == e.consumers;
    }
  }

  /** The estate, what has been asked to go, and every estate seen so far. */
  datatype Moment = Moment(estate: Estate, requested: set<Part>, trace: set<Estate>)

  /** Anchored now and at every earlier point, and the Worker's deletion was
      only ever requested with no owned child left. */
  predicate Safe(t: Target, m: Moment) {
    && Anchored(t, m.estate)
    && (WorkerScript in m.requested ==> OwnedChildren(t, m.estate) == {})
    && forall e | e in m.trace :: Anchored(t, e)
  }

  /** From `a` to `b` nothing was created, the Worker disappeared only if that was
      requested, and safety was kept. */
  predicate Leads(t: Target, a: Moment, b: Moment) {
    && OwnedConsumers(t, b.estate.consumers) <= OwnedConsumers(t, a.estate.consumers)
    && OwnedContainers(t, b.estate.containers) <= OwnedContainers(t, a.estate.containers)
    && OwnedVector(b.estate.vector) <= OwnedVector(a.estate.vector)
    && (b.estate.worker == a.estate.worker || (b.estate.worker.None? && WorkerScript in b.requested))
    && (b.requested == {} ==> b.estate == a.estate)
    && (ConsumersFit(t, a.estate.consumers) ==> ConsumersFit(t, b.estate.consumers))
    && (ContainersFit(t, a.estate.containers) ==> ContainersFit(t, b.estate.containers))
    && OwnedChildren(t, a.estate) <= OwnedChildren(t, b.estate) + b.requested
    && a.requested <= b.requested && a.trace <= b.trace
    && (Safe(t, a) ==> Safe(t, b))
  }

  lemma {:induction false} LeadsOn(t: Target, a: Moment, b: Moment, c: Moment)
    requires Leads(t, a, b) && Leads(t, b, c)
    ensures Leads(t, a, c)
  {
    hide Safe, OwnedConsumers, OwnedContainers, OwnedVector, ConsumersFit, ContainersFit;
  }

  lemma {:induction false} LeadsRepeatable(t: Target, a: Moment, b: Moment)
    requires Leads(t, a, b) && Repeatable(t, a.estate)
    ensures Repeatable(t, b.estate)
  {
    hide Safe, OwnedConsumers, OwnedContainers, ConsumersFit, ContainersFit;
  }

  lemma {:induction false} LeadsSelf(t: Target, a: Moment)
    ensures Leads(t, a, a)
  {
  }

  lemma {:induction false} LeadsDown(t: Target, a: Moment, b: Moment)
    requires Leads(t, a, b)
    ensures OwnedChildren(t, b.estate) <= OwnedChildren(t, a.estate)
    ensures a.estate.worker.None? ==> b.estate.worker.None?
  {
    hide OwnedConsumers, OwnedContainers, OwnedVector;
  }

  lemma {:induction false} LeadsFacts(t: Target, a: Moment, b: Moment)
    requires Leads(t, a, b)
    ensures Safe(t, a) ==> Safe(t, b)
    ensures Repeatable(t, a.estate) ==> Repeatable(t, b.estate)
    ensures b.requested == {} ==> a.estate == b.estate
  {
    hide Safe, Repeatable;
    if Repeatable(t, a.estate) { LeadsRepeatable(t, a, b); }
  }

  lemma {:induction false} LandLeads(t: Target, a: Moment, b: Moment, landed: set<Part>)
    requires landed <= b.requested && a.requested <= b.requested
    requires b.estate == Land(t, a.estate, landed) && b.trace == a.trace + {b.estate}
    requires WorkerScript in b.requested ==> WorkerScript in a.requested || OwnedChildren(t, a.estate) == {}
    ensures Leads(t, a, b)
  {
    hide OwnedConsumers, OwnedContainers, OwnedVector, ConsumersFit, ContainersFit, Land;
    LandOwned(t, a.estate, landed);
    LandParts(t, a.estate, landed);
  }

  // ----- The provider -----

  /** One exchange with the provider: which requested deletions land meanwhile,
      whether a readback is usable, and how a command exits. */
  datatype Behaviour = Behaviour(lands: set<Part>, usable: bool, exit: Exit)

  /** Every exchange succeeds, and takes what was requested of `parts` with it. */
  ghost predicate Obliging(script: nat -> Behaviour, parts: set<Part>) {
    forall n: nat :: script(n).usable && script(n).exit != Failed && parts <= script(n).lands
  }

  /** The owned children and the Worker. */
  function Everything(t: Target, e: Estate): set<Part> {
    OwnedChildren(t, e) + {WorkerScript}
  }

  class Provider {
    const target: Target
    const script: nat -> Behaviour
    var ticks: nat
    var estate: Estate
    var requested: set<Part>
    var commands: seq<Part>
    ghost var trace: set<Estate>
    ghost var broken: bool  // a command of this run has failed

    constructor (target: Target, estate: Estate, script: nat -> Behaviour)
      ensures this.target == target && this.estate == estate && this.script == script
      ensures requested == {} && commands == [] && trace == {} && !broken
    {
      this.target, this.estate, this.script := target, estate, script;
      ticks, requested, commands, trace, broken := 0, {}, [], {}, false;
    }

    ghost function Now(): Moment
      reads this
    {
      Moment(estate, requested, trace)
    }

    /** Time passes: some requested deletions land. */
    method Tick() returns (behaviour: Behaviour)
      requires !broken
      modifies this`ticks, this`estate, this`trace
      ensures Leads(target, old(Now()), Now()) && estate in trace
      ensures behaviour == script(old(ticks)) && ticks == old(ticks) + 1
      ensures OwnedChildren(target, estate) == OwnedChildren(target, old(estate)) - requested * behaviour.lands
      ensures WorkerScript in requested * behaviour.lands ==> estate.worker.None?
    {
      behaviour := script(ticks);
      ghost var before := Now();
      LandOwned(target, estate, requested * behaviour.lands);
      estate, ticks := Land(target, estate, requested * behaviour.lands), ticks + 1;
      trace := trace + {estate};
      LandLeads(target, before, Now(), requested * behaviour.lands);
    }

    /** Neither success nor failure of the command says whether it has landed. */
    method Request(part: Part) returns (exit: Exit)
      requires !broken && (part == WorkerScript ==> OwnedChildren(target, estate) == {})
      modifies this
      ensures broken <==> exit == Failed
      ensures commands == old(commands) + [part] && requested == old(requested) + {part}
      ensures Leads(target, old(Now()), Now()) && estate in trace
      ensures exit == script(old(ticks)).exit && ticks == old(ticks) + 1
      ensures OwnedChildren(target, estate) == OwnedChildren(target, old(estate)) - requested * script(old(ticks)).lands
      ensures WorkerScript in requested * script(old(ticks)).lands ==> estate.worker.None?
    {
      var behaviour := script(ticks);
      ghost var before := Now();
      LandOwned(target, estate, (requested + {part}) * behaviour.lands);
      requested, commands, ticks := requested + {part}, commands + [part], ticks + 1;
      estate := Land(target, estate, requested * behaviour.lands);
      trace := trace + {estate};
      LandLeads(target, before, Now(), requested * behaviour.lands);
      exit := behaviour.exit;
      broken := exit == Failed;
    }

    method ReadWorker() returns (worker: Option<Option<WorkerVersion>>)
      requires !broken
      modifies this`ticks, this`estate, this`trace
      ensures Leads(target, old(Now()), Now()) && estate in trace
      ensures worker.Some? ==> worker.value == estate.worker
      ensures worker.Some? == script(old(ticks)).usable && ticks == old(ticks) + 1
      ensures OwnedChildren(target, estate) == OwnedChildren(target, old(estate)) - requested * script(old(ticks)).lands
      ensures WorkerScript in requested * script(old(ticks)).lands ==> estate.worker.None?
    {
      var behaviour := Tick();
      worker := if behaviour.usable then Some(estate.worker) else None;
    }

    method ReadQueues() returns (consumers: Option<Consumers>)
      requires !broken
      modifies this`ticks, this`estate, this`trace
      ensures Leads(target, old(Now()), Now()) && estate in trace
      ensures consumers.Some? ==> consumers.value == estate.consumers
      ensures consumers.Some? == script(old(ticks)).usable && ticks == old(ticks) + 1
      ensures OwnedChildren(target, estate) == OwnedChildren(target, old(estate)) - requested * script(old(ticks)).lands
    {
      var behaviour := Tick();
      consumers := if behaviour.usable then Some(estate.consumers) else None;
    }

    method ReadContainers() returns (containers: Option<seq<Container>>)
      requires !broken
      modifies this`ticks, this`estate, this`trace
      ensures Leads(target, old(Now()), Now()) && estate in trace
      ensures containers.Some? ==> containers.value == estate.containers
      ensures containers.Some? == script(old(ticks)).usable && ticks == old(ticks) + 1
      ensures OwnedChildren(target, estate) == OwnedChildren(target, old(estate)) - requested * script(old(ticks)).lands
    {
      var behaviour := Tick();
      containers := if behaviour.usable then Some(estate.containers) else None;
    }

    method ReadVector() returns (vector: Option<bool>)
      requires !broken
      modifies this`ticks, this`estate, this`trace
      ensures Leads(target, old(Now()), Now()) && estate in trace
      ensures vector.Some? ==> vector.value == estate.vector
      ensures vector.Some? == script(old(ticks)).usable && ticks == old(ticks) + 1
      ensures OwnedChildren(target, estate) == OwnedChildren(target, old(estate)) - requested * script(old(ticks)).lands
    {
      var behaviour := Tick();
      vector := if behaviour.usable then Some(estate.vector) else None;
    }
  }

  // ----- The run -----

  datatype Refusal =
    | UnmarkedWorker
    | ConsumerConflict
    | RetiredContainer
    | OwnershipUnproved
    | ContainerUnproved
    | BindingsUnproved

  datatype DestroyError =
    | Refused(reason: Refusal)
    | ReadbackFailed
    | CommandFailed
    | ChildrenRemain
    | WorkerRemains
    | PurgeFailed

  /** What the readbacks before the first command found. */
  datatype Findings = Findings(previous: Option<WorkerVersion>, queues: Consumers, containers: seq<Container>,
      vector: bool)

  function Children(t: Target, f: Findings): set<Part> {
    OwnedConsumers(t, f.queues) + OwnedContainers(t, f.containers) + OwnedVector(f.vector)
  }

  predicate FindsChildren(t: Target, f: Findings) {
    Children(t, f) != {}
  }

  /** What the estate gives the survey to object to. */
  predicate Objects(t: Target, e: Estate, reason: Refusal) {
    match reason
    case UnmarkedWorker => e.worker.Some? && !e.worker.value.marked
    case ConsumerConflict => !ConsumersFit(t, e.consumers)
    case RetiredContainer => HasRetired(t, e.containers)
    case OwnershipUnproved => !Anchored(t, e)
    case ContainerUnproved => Unattached(t, e.containers)
    case BindingsUnproved =>
      e.worker.Some? && !e.worker.value.binds && (e.vector || OwnedConsumers(t, e.consumers) != {})
  }

  /** Reads the estate and proves ownership before the first command. Whatever is
      found can only have shrunk since; without a Worker, an anchored estate has
      no owned child to find, and an unanchored one is refused. */
  method Survey(p: Provider) returns (r: Result<Findings, DestroyError>)
    requires !p.broken
    modifies p`ticks, p`estate, p`trace
    ensures Leads(p.target, old(p.Now()), p.Now())
    ensures r.Ok? ==> Found(p.target, p.estate, r.value) && Proved(p.target, r.value)
    ensures r.Ok? ==> Repeatable(p.target, p.estate)
    ensures Safe(p.target, old(p.Now())) ==> r != Err(Refused(OwnershipUnproved))
    ensures Safe(p.target, old(p.Now())) && Repeatable(p.target, old(p.estate)) ==> !(r.Err? && r.error.Refused?)
    ensures !Anchored(p.target, old(p.estate)) && p.requested == {} ==> r.Err?
    ensures r.Err? ==> r.error.Refused? || r.error.ReadbackFailed?
    ensures Obliging(p.script, {}) ==> r != Err(DestroyError.ReadbackFailed)
    ensures p.requested == {} && r.Err? && r.error.Refused? ==> Objects(p.target, old(p.estate), r.error.reason)
    ensures old(p.estate).worker.None? && r.Ok? ==> r.value.previous.None?
    ensures r.Ok? ==> Children(p.target, r.value) <= OwnedChildren(p.target, old(p.estate))
  {
    hide Leads, Found, FindsChildren, Unattached, HasRetired, OwnedOnly, Anchored, Safe, Ownable;
    hide OwnedConsumers, OwnedContainers, OwnedChildren, Children, Obliging, Names, QueueConsumers;
    ObligingUsable(p.script, {});
    ghost var m0 := p.Now();
    var previous := p.ReadWorker();
    ghost var m1 := p.Now();
    LeadsFacts(p.target, m0, m1);
    if previous.None? { return Err(DestroyError.ReadbackFailed); }
    if previous.value.Some? && !previous.value.value.marked { return Err(Refused(UnmarkedWorker)); }
    var queues := p.ReadQueues();
    ghost var m2 := p.Now();
    LeadsOn(p.target, m0, m1, m2);
    LeadsFacts(p.target, m0, m2);
    if queues.None? { return Err(DestroyError.ReadbackFailed); }
    var ownable := ValidateQueueOwnership(queues.value, p.target.worker, QueueConsumers(p.target.queues));
    if !ownable { return Err(Refused(ConsumerConflict)); }
    var containers := p.ReadContainers();
    ghost var m3 := p.Now();
    LeadsOn(p.target, m0, m2, m3);
    LeadsFacts(p.target, m0, m3);
    if containers.None? { return Err(DestroyError.ReadbackFailed); }
    if HasRetired(p.target, containers.value) { return Err(Refused(RetiredContainer)); }
    var vector := p.ReadVector();
    LeadsOn(p.target, m0, m3, p.Now());
    if vector.None? { return Err(DestroyError.ReadbackFailed); }
    var f := Findings(previous.value, queues.value, containers.value, vector.value);
    SurveyFacts(p.target, m0, m1, m2, m3, p.Now(), f);
    SurveyFits(p.target, m0, m1, m2, m3, p.Now(), f);
    if f.previous.None? && FindsChildren(p.target, f) {
      FindsUnanchored(p.target, p.estate, f);
      return Err(Refused(OwnershipUnproved));
    }
    if Unattached(p.target, f.containers) { UnattachedOwned(p.target, f.containers); }
    if OwnedOnly(p.target, f.containers) != [] && Unattached(p.target, f.containers) {
      return Err(Refused(ContainerUnproved));
    }
    if f.vector || OwnedConsumers(p.target, f.queues) != {} { FoundSome(p.target, f); }
    if (f.vector || OwnedConsumers(p.target, f.queues) != {}) && !f.previous.value.binds {
      return Err(Refused(BindingsUnproved));
    }
    r := Ok(f);
  }

  lemma {:induction false} FindsUnanchored(t: Target, e: Estate, f: Findings)
    requires f.previous.None? && FindsChildren(t, f)
    ensures f == Findings(e.worker, e.consumers, e.containers, e.vector) ==> !Anchored(t, e)
  {
  }

  lemma {:induction false} UnattachedOwned(t: Target, containers: seq<Container>)
    requires Unattached(t, containers)
    ensures OwnedOnly(t, containers) != []
  {
  }

  lemma {:induction false} FoundSome(t: Target, f: Findings)
    requires f.vector || OwnedConsumers(t, f.queues) != {}
    ensures FindsChildren(t, f)
  {
  }

  lemma {:induction false} ProvedFits(t: Target, f: Findings)
    ensures Proved(t, f) ==> ConsumersFit(t, f.queues) && ContainersFit(t, f.containers)
  {
    hide Ownable, HasRetired;
    if OwnedOnly(t, f.containers) == [] { assert !Unattached(t, f.containers); }
  }

  /** Four readbacks at four moments, seen as one finding. */
  lemma {:induction false} SurveyFacts(t: Target, m0: Moment, m1: Moment, m2: Moment, m3: Moment, m4: Moment,
          f: Findings)
    requires Leads(t, m0, m1) && Leads(t, m1, m2) && Leads(t, m2, m3) && Leads(t, m3, m4)
    requires f == Findings(m1.estate.worker, m2.estate.consumers, m3.estate.containers, m4.estate.vector)
    ensures Found(t, m4.estate, f) && Children(t, f) <= OwnedChildren(t, m0.estate)
    ensures Safe(t, m0) && f.previous.None? ==> !FindsChildren(t, f)
    ensures !Anchored(t, m0.estate) && m4.requested == {} ==> f.previous.None? && FindsChildren(t, f)
  {
    hide OwnedConsumers, OwnedContainers, OwnedVector;
    LeadsOn(t, m0, m1, m2);
    LeadsOn(t, m0, m2, m3);
    LeadsOn(t, m0, m3, m4);
    LeadsOn(t, m1, m2, m3);
    LeadsOn(t, m1, m3, m4);
    LeadsOn(t, m2, m3, m4);
  }

  /** What the checks say about the findings holds of the estate as well, and on a
      repeatable estate they have nothing to object to. */
  lemma {:induction false} SurveyFits(t: Target, m0: Moment, m1: Moment, m2: Moment, m3: Moment, m4: Moment,
          f: Findings)
    requires Leads(t, m0, m1) && Leads(t, m1, m2) && Leads(t, m2, m3) && Leads(t, m3, m4)
    requires f == Findings(m1.estate.worker, m2.estate.consumers, m3.estate.containers, m4.estate.vector)
    ensures Proved(t, f) ==> Repeatable(t, m4.estate)
    ensures Repeatable(t, m0.estate) ==>
              && ConsumersFit(t, f.queues) && ContainersFit(t, f.containers)
              && (f.previous.Some? ==> f.previous.value.marked)
              && (f.previous.Some? && (f.vector || OwnedConsumers(t, f.queues) != {}) ==> f.previous.value.binds)
  {
    hide OwnedConsumers, OwnedContainers, ContainersFit, ConsumersFit, Ownable, HasRetired, Unattached, Safe;
    ProvedFits(t, f);
    LeadsOn(t, m0, m1, m2);
    LeadsOn(t, m0, m2, m3);
    LeadsOn(t, m0, m3, m4);
    LeadsOn(t, m1, m2, m3);
    LeadsOn(t, m1, m3, m4);
    LeadsOn(t, m2, m3, m4);
  }

  /** Two of our applications share a name. */
  predicate OwnedTwice(t: Target, containers: seq<Container>) {
    exists i, j | 0 <= i < j < |containers| ::
      containers[i].name == containers[j].name && containers[i].name in OwnedNames(t)
  }

  lemma {:induction false} ConsDuplicates(c: Container, rest: seq<Container>)
    ensures DuplicateNames([c] + rest) <==> DuplicateNames(rest) || exists other | other in rest :: other.name == c.name
  {
    var all := [c] + rest;
    assert all[1..] == rest;
    if !DuplicateNames(all) {
      TailNames(all);
    } else if !DuplicateNames(rest) && forall other | other in rest :: other.name != c.name {
      ConsNames(c, rest);
    }
  }

  lemma {:induction false} ConsTwice(t: Target, c: Container, rest: seq<Container>)
    ensures OwnedTwice(t, [c] + rest) <==>
            OwnedTwice(t, rest) || (c.name in OwnedNames(t) && exists other | other in rest :: other.name == c.name)
  {
    hide OwnedNames;
    var all := [c] + rest;
    if OwnedTwice(t, rest) {
      var i, j :| 0 <= i < j < |rest| && rest[i].name == rest[j].name && rest[i].name in OwnedNames(t);
      assert all[i + 1].name == all[j + 1].name;
    }
    if other :| c.name in OwnedNames(t) && other in rest && other.name == c.name {
      var j :| 0 <= j < |rest| && rest[j] == other;
      assert all[0].name == all[j + 1].name;
    }
  }

  lemma {:induction false} OwnedDuplicates(t: Target, containers: seq<Container>)
    ensures DuplicateNames(OwnedOnly(t, containers)) <==> OwnedTwice(t, containers)
  {
    if containers == [] {
    } else {
      hide OwnedNames, DuplicateNames, OwnedTwice;
      var c, rest := containers[0], containers[1..];
      assert containers == [c] + rest;
      OwnedDuplicates(t, rest);
      OwnedOnlyMembers(t, rest);
      ConsTwice(t, c, rest);
      ConsDuplicates(c, OwnedOnly(t, rest));
      var owned := OwnedOnly(t, rest);
      assert OwnedOnly(t, containers) == if c.name in OwnedNames(t) then [c] + owned else owned;
    }
  }

  /** No consumer but one of our own. */
  predicate OnlyOurs(t: Target, cs: seq<Consumer>) {
    cs == [] || (|cs| == 1 && IsWorkerConsumer(cs[0], t.worker))
  }

  lemma {:induction false} OnlyOursOwned(t: Target, cs: seq<Consumer>)
    requires OnlyOurs(t, cs)
    ensures Owned(cs, t.worker) != [] <==> cs != []
  {
  }

  lemma {:induction false} ConsumersFitIff(t: Target, cs: Consumers)
    ensures ConsumersFit(t, cs) <==> forall queue | queue in Names(t.queues) :: OnlyOurs(t, Get(cs, queue))
    ensures ConsumersFit(t, cs) ==>
              (OwnedConsumers(t, cs) != {} <==> exists queue | queue in Names(t.queues) :: Get(cs, queue) != [])
  {
    hide IsWorkerConsumer;
    var es := QueueConsumers(t.queues);
    assert forall i | 0 <= i < 6 :: es[i].queue == Names(t.queues)[i];
    forall queue ensures OwnableList(Get(cs, queue), t.worker) <==> OnlyOurs(t, Get(cs, queue)) {
      assert forall c :: Get(cs, queue) == [c] ==> c in Get(cs, queue);
    }
    if ConsumersFit(t, cs) {
      forall queue | queue in Names(t.queues) ensures Owned(Get(cs, queue), t.worker) != [] <==> Get(cs, queue) != [] {
        OnlyOursOwned(t, Get(cs, queue));
      }
      if queue :| queue in Names(t.queues) && Get(cs, queue) != [] {
        assert ConsumerOf(queue) in OwnedConsumers(t, cs);
      }
    }
  }

  /** When a run has nothing to refuse, in terms of the readbacks. */
  lemma {:induction false} RepeatableIff(t: Target, e: Estate)
    ensures Repeatable(t, e) <==>
            && (forall queue | queue in Names(t.queues) :: OnlyOurs(t, Get(e.consumers, queue)))
            && (forall c | c in e.containers :: c.name != t.worker + "-runtime")
            && !OwnedTwice(t, e.containers)
            && (forall c | c in e.containers && c.name in OwnedNames(t) :: c.attached)
            && (e.worker.Some? ==> e.worker.value.marked)
            && (e.worker.Some? && !e.worker.value.binds ==>
                !e.vector && forall queue | queue in Names(t.queues) :: Get(e.consumers, queue) == [])
  {
    hide ConsumersFit, OwnedConsumers, OnlyOurs, OwnedTwice, DuplicateNames, OwnedNames;
    ConsumersFitIff(t, e.consumers);
    OwnedDuplicates(t, e.containers);
    OwnedOnlyMembers(t, e.containers);
  }

  /** The estate is within what was found. */
  predicate Found(t: Target, e: Estate, f: Findings) {
    && OwnedConsumers(t, e.consumers) <= OwnedConsumers(t, f.queues)
    && OwnedContainers(t, e.containers) <= OwnedContainers(t, f.containers)
    && OwnedVector(e.vector) <= OwnedVector(f.vector)
    && (f.previous.None? ==> e.worker.None?)
  }

  /** What the checks established about the findings. */
  predicate Proved(t: Target, f: Findings) {
    && Ownable(f.queues, t.worker, QueueConsumers(t.queues))
    && !HasRetired(t, f.containers)
    && (f.previous.Some? ==> f.previous.value.marked)
    && (FindsChildren(t, f) ==> f.previous.Some?)
    && (OwnedOnly(t, f.containers) != [] ==> !Unattached(t, f.containers))
    && (f.vector || OwnedConsumers(t, f.queues) != {} ==> f.previous.value.binds)
  }

  function ConsumerPlan(t: Target, queues: seq<string>, cs: Consumers): seq<Part> {
    if queues == [] then []
    else
      var owned := Owned(Get(cs, queues[0]), t.worker) != [];
      (if owned then [ConsumerOf(queues[0])] else []) + ConsumerPlan(t, queues[1..], cs)
  }

  function ContainerPlan(containers: seq<Container>): seq<Part> {
    if containers == [] then [] else [Application(containers[0].id)] + ContainerPlan(containers[1..])
  }

  /** Consumers first, then containers, then the vector index. */
  function DeletionPlan(t: Target, f: Findings): seq<Part> {
    ConsumerPlan(t, Names(t.queues), f.queues)
    + ContainerPlan(OwnedOnly(t, f.containers))
    + (if f.vector then [VectorIndex] else [])
  }

  lemma {:induction false} ConsumerPlanParts(t: Target, queues: seq<string>, cs: Consumers)
    ensures forall part :: part in ConsumerPlan(t, queues, cs) <==>
              part.ConsumerOf? && part.queue in queues && Owned(Get(cs, part.queue), t.worker) != []
    ensures Distinct(queues) ==> Distinct(ConsumerPlan(t, queues, cs))
  {
    if queues == [] {
    } else {
      var plan, rest := ConsumerPlan(t, queues, cs), ConsumerPlan(t, queues[1..], cs);
      ConsumerPlanParts(t, queues[1..], cs);
      DistinctHead(queues);
      assert queues == [queues[0]] + queues[1..];
      if plan != rest {
        assert plan[1..] == rest;
        DistinctHead(plan);
      }
    }
  }

  lemma {:induction false} ContainerPlanParts(containers: seq<Container>)
    ensures |ContainerPlan(containers)| == |containers|
    ensures forall i | 0 <= i < |containers| :: ContainerPlan(containers)[i] == Application(containers[i].id)
  {
    if containers == [] {
    } else {
      ContainerPlanParts(containers[1..]);
    }
  }

  lemma {:induction false} OwnedOnlyMembers(t: Target, containers: seq<Container>)
    ensures forall c :: c in OwnedOnly(t, containers) <==> c in containers && c.name in OwnedNames(t)
    ensures OwnIds(containers) ==> OwnIds(OwnedOnly(t, containers))
  {
    hide OwnedNames;
    if containers == [] {
    } else {
      var rest := containers[1..];
      OwnedOnlyMembers(t, rest);
      assert containers == [containers[0]] + rest;
      if OwnIds(containers) {
        forall i, j | 0 <= i < j < |rest| ensures rest[i].id != rest[j].id {
          assert containers[i + 1].id != containers[j + 1].id;
        }
        forall c | c in rest ensures c.id != containers[0].id {
          var i :| 0 <= i < |rest| && rest[i] == c;
          assert containers[0].id != containers[i + 1].id;
        }
      }
    }
  }

  /** No two applications share an id. */
  predicate OwnIds(containers: seq<Container>) {
    forall i, j | 0 <= i < j < |containers| :: containers[i].id != containers[j].id
  }

  /** Consumers go before containers, and these before the vector index. */
  function Rank(part: Part): nat {
    match part
    case ConsumerOf(_) => 0
    case Application(_) => 1
    case VectorIndex => 2
    case WorkerScript => 3
  }

  /** `commands` removes the children that were found, all of them and nothing
      else, in order, and each once if queues and ids are distinct. */
  predicate Removes(t: Target, f: Findings, commands: seq<Part>) {
    && ToSet(commands) == Children(t, f)
    && (forall i, j | 0 <= i < j < |commands| :: Rank(commands[i]) <= Rank(commands[j]))
    && (DistinctNames(t.queues) && OwnIds(f.containers) ==> Distinct(commands))
  }

  lemma {:induction false} ContainersPlanned(t: Target, containers: seq<Container>)
    ensures ToSet(ContainerPlan(OwnedOnly(t, containers))) == OwnedContainers(t, containers)
    ensures OwnIds(containers) ==> Distinct(ContainerPlan(OwnedOnly(t, containers)))
  {
    hide OwnedNames;
    var owned := OwnedOnly(t, containers);
    var plan := ContainerPlan(owned);
    ContainerPlanParts(owned);
    OwnedOnlyMembers(t, containers);
    forall part | part in plan ensures part in OwnedContainers(t, containers) {
      var i :| 0 <= i < |plan| && plan[i] == part;
      assert owned[i] in owned;
    }
    forall part | part in OwnedContainers(t, containers) ensures part in plan {
      var c :| c in containers && c.name in OwnedNames(t) && part == Application(c.id);
      assert c in owned;
      var i :| 0 <= i < |owned| && owned[i] == c;
      assert plan[i] == part;
    }
  }

  lemma {:induction false} PlanRemoves(t: Target, f: Findings)
    ensures Removes(t, f, DeletionPlan(t, f))
  {
    hide OwnedNames, Names, Owned, Get, OwnedOnly, ContainerPlan, ConsumerPlan;
    var consumers, containers := ConsumerPlan(t, Names(t.queues), f.queues), ContainerPlan(OwnedOnly(t, f.containers));
    ConsumerPlanParts(t, Names(t.queues), f.queues);
    ContainerPlanParts(OwnedOnly(t, f.containers));
    ContainersPlanned(t, f.containers);
    SetSizeDistinct(Names(t.queues));
    assert ToSet(consumers) == OwnedConsumers(t, f.queues);
    PlanParts(consumers, containers, if f.vector then [VectorIndex] else []);
  }

  /** Three lists of parts of different ranks, one after the other. */
  lemma {:induction false} PlanParts(consumers: seq<Part>, containers: seq<Part>, vector: seq<Part>)
    requires (forall part | part in consumers :: part.ConsumerOf?)
    requires (forall part | part in containers :: part.Application?)
    requires vector == [] || vector == [VectorIndex]
    ensures var plan := consumers + containers + vector;
            && ToSet(plan) == ToSet(consumers) + ToSet(containers) + ToSet(vector)
            && (forall i, j | 0 <= i < j < |plan| :: Rank(plan[i]) <= Rank(plan[j]))
            && (Distinct(consumers) && Distinct(containers) ==> Distinct(plan))
  {
    var plan := consumers + containers + vector;
    var n, m := |consumers|, |consumers| + |containers|;
    forall i | 0 <= i < |plan|
      ensures plan[i] == if i < n then consumers[i] else if i < m then containers[i - n] else VectorIndex
      ensures Rank(plan[i]) == if i < n then 0 else if i < m then 1 else 2
    {
      if i < n {
        assert consumers[i] in consumers;
      } else if i < m {
        assert containers[i - n] in containers;
      }
    }
  }

  lemma {:induction false} NoParts()
    ensures ToSet<Part>([]) == {}
  {
  }

  lemma {:induction false} OneMorePart(plan: seq<Part>, i: nat)
    requires i < |plan|
    ensures plan[..i + 1] == plan[..i] + [plan[i]] && ToSet(plan[..i + 1]) == ToSet(plan[..i]) + {plan[i]}
  {
  }

  /** Requests every part of the plan in order, stopping at the first failure. */
  method RequestAll(p: Provider, plan: seq<Part>) returns (ok: bool)
    requires !p.broken && WorkerScript !in plan
    modifies p
    ensures Leads(p.target, old(p.Now()), p.Now())
    ensures ok ==> p.commands == old(p.commands) + plan
    ensures old(p.commands) <= p.commands <= old(p.commands) + plan
    ensures p.ticks == old(p.ticks) + |p.commands| - |old(p.commands)|
    ensures ok ==> forall k | old(p.ticks) <= k < p.ticks :: p.script(k).exit != Failed
    ensures !ok ==> p.ticks > old(p.ticks) && p.script(p.ticks - 1).exit == Failed
    ensures p.broken <==> !ok
    ensures p.requested == old(p.requested) + ToSet(p.commands[|old(p.commands)|..])
  {
    hide Leads, ToSet, OwnedChildren;
    LeadsSelf(p.target, p.Now());
    NoParts();
    for i := 0 to |plan|
      invariant Leads(p.target, old(p.Now()), p.Now())
      invariant p.commands == old(p.commands) + plan[..i] && p.ticks == old(p.ticks) + i
      invariant !p.broken && forall k | old(p.ticks) <= k < p.ticks :: p.script(k).exit != Failed
      invariant p.requested == old(p.requested) + ToSet(plan[..i])
    {
      ghost var before := p.Now();
      var exit := p.Request(plan[i]);
      LeadsOn(p.target, old(p.Now()), before, p.Now());
      OneMorePart(plan, i);
      if exit == Failed {
        assert p.commands[|old(p.commands)|..] == plan[..i + 1];
        return false;
      }
    }
    assert plan[..|plan|] == plan;
    ok := true;
  }

  const CLEANUP_ATTEMPTS := 100
  const WORKER_ATTEMPTS := 12

  lemma {:induction false} DueTakes(script: nat -> Behaviour, parts: set<Part>, requested: set<Part>, tick: nat)
    ensures parts <= requested && Obliging(script, parts) ==> parts - requested * script(tick).lands == {}
  {
  }

  lemma {:induction false} ObligingUsable(script: nat -> Behaviour, parts: set<Part>)
    ensures Obliging(script, parts) ==> forall n: nat :: script(n).usable
  {
  }

  lemma {:induction false} NoChildren(t: Target, e: Estate)
    ensures OwnedChildren(t, e) == {} <==>
            OwnedConsumers(t, e.consumers) == {} && OwnedContainers(t, e.containers) == {} && !e.vector
  {
    hide OwnedConsumers, OwnedContainers;
    assert e.vector ==> VectorIndex in OwnedChildren(t, e);
  }

  lemma {:induction false} LeadsParts(t: Target, a: Moment, b: Moment)
    requires Leads(t, a, b)
    ensures OwnedConsumers(t, a.estate.consumers) == {} ==> OwnedConsumers(t, b.estate.consumers) == {}
    ensures OwnedContainers(t, a.estate.containers) == {} ==> OwnedContainers(t, b.estate.containers) == {}
    ensures !a.estate.vector ==> !b.estate.vector
    ensures ContainersFit(t, a.estate.containers) ==> !HasRetired(t, b.estate.containers)
  {
    hide OwnedConsumers, OwnedContainers, HasRetired, Unattached;
    assert b.estate.vector ==> VectorIndex in OwnedVector(b.estate.vector);
  }

  /** All of `parts` were requested, and the provider takes them at once. */
  ghost predicate Due(p: Provider, parts: set<Part>)
    reads p
  {
    parts <= p.requested && Obliging(p.script, parts)
  }

  /** Succeeds only once every owned child has been read back as absent. */
  method WaitForChildCleanupAbsence(p: Provider) returns (ok: bool)
    requires !p.broken
    modifies p`ticks, p`estate, p`trace
    ensures Leads(p.target, old(p.Now()), p.Now())
    ensures ok ==> OwnedChildren(p.target, p.estate) == {}
    ensures old(Due(p, OwnedChildren(p.target, p.estate))) && ContainersFit(p.target, old(p.estate.containers)) ==> ok
    ensures !ok ==> p.ticks >= old(p.ticks) + CLEANUP_ATTEMPTS
  {
    hide OwnedChildren, ContainersFit, Obliging;
    LeadsSelf(p.target, p.Now());
    hide Leads;
    for attempt := 0 to CLEANUP_ATTEMPTS
      invariant p.ticks >= old(p.ticks) + attempt
      invariant Leads(p.target, old(p.Now()), p.Now())
      invariant if attempt == 0 then p.Now() == old(p.Now())
                else !(old(Due(p, OwnedChildren(p.target, p.estate)))
                       && ContainersFit(p.target, old(p.estate.containers)))
    {
      ghost var before := p.Now();
      var gone := ChildrenGone(p);
      LeadsOn(p.target, old(p.Now()), before, p.Now());
      if gone {
        return true;
      }
    }
    ok := false;
  }

  method ChildrenGone(p: Provider) returns (gone: bool)
    requires !p.broken
    modifies p`ticks, p`estate, p`trace
    ensures Leads(p.target, old(p.Now()), p.Now())
    ensures gone ==> OwnedChildren(p.target, p.estate) == {}
    ensures old(Due(p, OwnedChildren(p.target, p.estate))) && ContainersFit(p.target, old(p.estate.containers)) ==> gone
    ensures p.ticks > old(p.ticks)
  {
    hide OwnedConsumers, OwnedContainers, OwnedChildren, OwnedVector, ContainersFit, HasRetired, Leads, Obliging;
    ghost var m0 := p.Now();
    var queues := p.ReadQueues();
    ghost var m1 := p.Now();
    DueTakes(p.script, OwnedChildren(p.target, m0.estate), p.requested, old(p.ticks));
    ObligingUsable(p.script, OwnedChildren(p.target, m0.estate));
    NoChildren(p.target, m1.estate);
    if queues.None? || OwnedConsumers(p.target, queues.value) != {} {
      return false;
    }
    var containers := p.ReadContainers();
    ghost var m2 := p.Now();
    LeadsOn(p.target, m0, m1, m2);
    LeadsParts(p.target, m0, m2);
    LeadsParts(p.target, m1, m2);
    NoChildren(p.target, m2.estate);
    if containers.None? || HasRetired(p.target, containers.value) || OwnedContainers(p.target, containers.value) != {} {
      return false;
    }
    var vector := p.ReadVector();
    LeadsOn(p.target, m0, m2, p.Now());
    LeadsOn(p.target, m1, m2, p.Now());
    LeadsParts(p.target, m1, p.Now());
    LeadsParts(p.target, m2, p.Now());
    NoChildren(p.target, p.estate);
    gone := vector.Some? && !vector.value;
  }

  method WaitForWorkerAbsence(p: Provider) returns (ok: bool)
    requires !p.broken
    modifies p`ticks, p`estate, p`trace
    ensures Leads(p.target, old(p.Now()), p.Now())
    ensures ok ==> p.estate.worker.None?
    ensures old(Due(p, {WorkerScript})) ==> ok
    ensures !ok ==> p.ticks >= old(p.ticks) + WORKER_ATTEMPTS
  {
    LeadsSelf(p.target, p.Now());
    hide Leads, Safe, OwnedChildren;
    for attempt := 0 to WORKER_ATTEMPTS
      invariant p.ticks >= old(p.ticks) + attempt
      invariant Leads(p.target, old(p.Now()), p.Now())
      invariant if attempt == 0 then p.Now() == old(p.Now()) else !old(Due(p, {WorkerScript}))
    {
      ghost var before := p.Now();
      var worker := p.ReadWorker();
      LeadsOn(p.target, old(p.Now()), before, p.Now());
      if worker.Some? && worker.value.None? {
        return true;
      }
    }
    ok := false;
  }

  /** Every command has to do with what was found. */
  predicate Within(t: Target, f: Findings, commands: seq<Part>) {
    ToSet(commands) <= Children(t, f) + if f.previous.Some? then {WorkerScript} else {}
  }

  /** The children that were found, and then the Worker, if it was. */
  predicate RemovesAll(t: Target, f: Findings, commands: seq<Part>) {
    if f.previous.None? then Removes(t, f, commands)
    else
      commands != [] && commands[|commands| - 1] == WorkerScript && Removes(t, f, commands[..|commands| - 1])
  }

  /** The last command of a run, once every owned child is gone. */
  method RemoveWorker(p: Provider) returns (r: Result<(), DestroyError>)
    requires !p.broken && OwnedChildren(p.target, p.estate) == {}
    modifies p
    ensures Leads(p.target, old(p.Now()), p.Now())
    ensures r.Ok? ==> OwnedChildren(p.target, p.estate) == {} && p.estate.worker.None?
    ensures p.commands == old(p.commands) + [WorkerScript] && p.requested == old(p.requested) + {WorkerScript}
    ensures r == Err(DestroyError.CommandFailed) ==> p.ticks > 0 && p.script(p.ticks - 1).exit == Failed
    ensures p.broken <==> r == Err(DestroyError.CommandFailed)
    ensures r.Err? ==> r.error in {WorkerRemains, DestroyError.CommandFailed}
    ensures Obliging(p.script, {WorkerScript}) ==> r != Err(WorkerRemains)
  {
    hide Leads, OwnedChildren, Obliging;
    ghost var m0 := p.Now();
    var exit := p.Request(WorkerScript);
    ghost var m1 := p.Now();
    if exit == Failed {
      return Err(DestroyError.CommandFailed);
    }
    var ok := WaitForWorkerAbsence(p);
    LeadsOn(p.target, m0, m1, p.Now());
    LeadsDown(p.target, m0, p.Now());
    r := if ok then Ok(()) else Err(WorkerRemains);
  }

  /** Requests every child that was found and waits until all owned ones are gone. */
  method RemoveChildren(p: Provider, f: Findings) returns (r: Result<(), DestroyError>)
    requires !p.broken && Found(p.target, p.estate, f)
    modifies p
    ensures Leads(p.target, old(p.Now()), p.Now())
    ensures r.Ok? ==> OwnedChildren(p.target, p.estate) == {}
    ensures old(p.commands) <= p.commands <= old(p.commands) + DeletionPlan(p.target, f)
    ensures p.requested == old(p.requested) + ToSet(p.commands[|old(p.commands)|..])
    ensures r.Ok? || r == Err(ChildrenRemain) ==> p.commands == old(p.commands) + DeletionPlan(p.target, f)
    ensures r == Err(DestroyError.CommandFailed) ==> p.ticks > 0 && p.script(p.ticks - 1).exit == Failed
    ensures p.broken <==> r == Err(DestroyError.CommandFailed)
    ensures r.Err? ==> r.error in {ChildrenRemain, DestroyError.CommandFailed}
    ensures ContainersFit(p.target, old(p.estate.containers)) && Obliging(p.script, Everything(p.target, old(p.estate)))
            ==> r.Ok?
  {
    hide DeletionPlan, Leads, OwnedChildren, ContainersFit, Obliging, Found, Everything, ToSet;
    PlanSet(p.target, f);
    FoundChildren(p.target, p.estate, f);
    ghost var m0 := p.Now();
    var ok := RequestAll(p, DeletionPlan(p.target, f));
    ghost var m1 := p.Now();
    if !ok {
      ObligingSucceeds(p.script, Everything(p.target, m0.estate), p.ticks - 1);
      return Err(DestroyError.CommandFailed);
    }
    assert p.commands[|old(p.commands)|..] == DeletionPlan(p.target, f);
    LeadsDown(p.target, m0, m1);
    EverythingLess(p.target, m0, m1);
    LeadsFit(p.target, m0, m1);
    ObligingLess(p.script, Everything(p.target, m0.estate), OwnedChildren(p.target, m1.estate));
    ok := WaitForChildCleanupAbsence(p);
    LeadsOn(p.target, m0, m1, p.Now());
    r := if ok then Ok(()) else Err(ChildrenRemain);
  }

  /** Removes the children and then the Worker that anchors them. */
  method Dismantle(p: Provider, f: Findings) returns (r: Result<(), DestroyError>)
    requires !p.broken && Found(p.target, p.estate, f)
    modifies p
    ensures Leads(p.target, old(p.Now()), p.Now())
    ensures r.Ok? ==> OwnedChildren(p.target, p.estate) == {} && p.estate.worker.None?
    ensures old(p.commands) <= p.commands
    ensures p.requested == old(p.requested) + ToSet(p.commands[|old(p.commands)|..])
    ensures Within(p.target, f, p.commands[|old(p.commands)|..])
    ensures r.Ok? || r == Err(WorkerRemains) ==> RemovesAll(p.target, f, p.commands[|old(p.commands)|..])
    ensures r == Err(ChildrenRemain) ==> Removes(p.target, f, p.commands[|old(p.commands)|..])
    ensures r == Err(DestroyError.CommandFailed) ==> p.ticks > 0 && p.script(p.ticks - 1).exit == Failed
    ensures p.broken <==> r == Err(DestroyError.CommandFailed)
    ensures r.Err? ==> r.error in {ChildrenRemain, WorkerRemains, DestroyError.CommandFailed}
    ensures ContainersFit(p.target, old(p.estate.containers)) && Obliging(p.script, Everything(p.target, old(p.estate)))
            ==> r.Ok?
  {
    hide DeletionPlan, Leads, OwnedChildren, ContainersFit, Removes, Children;
    hide Obliging, Within, Found, Everything, ToSet;
    ghost var m0 := p.Now();
    PlanRemoves(p.target, f);
    r := RemoveChildren(p, f);
    ghost var m1, commands := p.Now(), p.commands[|old(p.commands)|..];
    PrefixWithin(p.target, f, commands);
    if r.Err? {
      return;
    }
    LeadsDown(p.target, m0, m1);
    FoundWorker(p.target, m0, m1, f);
    if f.previous.Some? {
      r := RemoveWorker(p);
      assert p.commands[|old(p.commands)|..] == commands + [WorkerScript];
      OneMorePart(commands + [WorkerScript], |commands|);
      WorkerLast(p.target, f, commands + [WorkerScript]);
      LeadsOn(p.target, m0, m1, p.Now());
      EverythingLess(p.target, m0, m1);
      ObligingLess(p.script, Everything(p.target, m0.estate), {WorkerScript});
      if r == Err(DestroyError.CommandFailed) {
        ObligingSucceeds(p.script, Everything(p.target, m0.estate), p.ticks - 1);
      }
    }
  }

  lemma {:induction false} FoundWorker(t: Target, a: Moment, b: Moment, f: Findings)
    requires Found(t, a.estate, f) && Leads(t, a, b)
    ensures f.previous.None? ==> b.estate.worker.None?
  {
  }

  lemma {:induction false} PlanSet(t: Target, f: Findings)
    ensures ToSet(DeletionPlan(t, f)) == Children(t, f) && WorkerScript !in DeletionPlan(t, f)
  {
    PlanRemoves(t, f);
    assert WorkerScript !in Children(t, f);
  }

  lemma {:induction false} FoundChildren(t: Target, e: Estate, f: Findings)
    requires Found(t, e, f)
    ensures OwnedChildren(t, e) <= Children(t, f)
  {
    hide OwnedConsumers, OwnedContainers;
  }

  lemma {:induction false} PrefixWithin(t: Target, f: Findings, commands: seq<Part>)
    requires commands <= DeletionPlan(t, f)
    ensures Within(t, f, commands)
  {
    PlanRemoves(t, f);
    assert forall part | part in commands :: part in DeletionPlan(t, f);
  }

  lemma {:induction false} WorkerLast(t: Target, f: Findings, commands: seq<Part>)
    requires f.previous.Some? && commands == DeletionPlan(t, f) + [WorkerScript]
    ensures Within(t, f, commands) && RemovesAll(t, f, commands)
  {
    PlanRemoves(t, f);
    assert commands[..|commands| - 1] == DeletionPlan(t, f);
  }

  lemma {:induction false} LeadsFit(t: Target, a: Moment, b: Moment)
    requires Leads(t, a, b)
    ensures ContainersFit(t, a.estate.containers) ==> ContainersFit(t, b.estate.containers)
    ensures OwnedChildren(t, a.estate) <= OwnedChildren(t, b.estate) + b.requested
  {
  }

  lemma {:induction false} EverythingLess(t: Target, a: Moment, b: Moment)
    requires Leads(t, a, b)
    ensures OwnedChildren(t, b.estate) <= Everything(t, b.estate) <= Everything(t, a.estate)
    ensures WorkerScript in Everything(t, a.estate)
    ensures Repeatable(t, a.estate) ==> ContainersFit(t, b.estate.containers)
  {
    LeadsDown(t, a, b);
    hide OwnedChildren, ContainersFit;
  }

  lemma {:induction false} ObligingSucceeds(script: nat -> Behaviour, parts: set<Part>, k: nat)
    requires script(k).exit == Failed
    ensures !Obliging(script, parts)
  {
  }

  lemma {:induction false} ObligingLess(script: nat -> Behaviour, parts: set<Part>, fewer: set<Part>)
    requires fewer <= parts
    ensures Obliging(script, parts) ==> Obliging(script, fewer)
  {
  }

  /** What the commands of a run come to, from its start `a` and its survey `b`. */
  lemma {:induction false} RunRequests(t: Target, a: Moment, b: Moment, f: Findings, commands: seq<Part>)
    requires Leads(t, a, b) && a.requested == b.requested && Found(t, b.estate, f)
    requires Children(t, f) <= OwnedChildren(t, a.estate) && Within(t, f, commands)
    ensures b.requested + ToSet(commands) <= a.requested + Everything(t, a.estate)
    ensures f.previous.None? && WorkerScript in b.requested + ToSet(commands) ==> WorkerScript in a.requested
    ensures RemovesAll(t, f, commands) || Removes(t, f, commands)
            ==> OwnedChildren(t, a.estate) <= b.requested + ToSet(commands)
  {
    LeadsFit(t, a, b);
    FoundChildren(t, b.estate, f);
    hide Leads, OwnedConsumers, OwnedContainers;
    if RemovesAll(t, f, commands) && f.previous.Some? {
      assert commands == commands[..|commands| - 1] + [WorkerScript];
    }
  }

  /** At every point of a run, and wherever it stops, the anchor holds if it held
      before, and such a run is never refused for missing ownership. Once a run
      has passed the survey, no repetition is refused for any reason. Only what is
      owned is ever requested, and a run that waits for the children to go has
      requested all of them. A command that fails ends the run. A run that
      completes leaves no owned child, no Worker and no object, and no object is
      deleted while the Worker exists. On an anchored estate with nothing to object
      to, a run completes if the provider does what it is asked. */
  method MaterializePreDestroy(p: Provider, store: Purge.ObjectStore) returns (r: Result<nat, DestroyError>)
    modifies p, store
    ensures Safe(p.target, old(p.Now())) ==> Safe(p.target, p.Now()) && r != Err(Refused(OwnershipUnproved))
    ensures !(r.Err? && (r.error.Refused? || r.error.ReadbackFailed?)) || Repeatable(p.target, old(p.estate))
            ==> Repeatable(p.target, p.estate)
    ensures Safe(p.target, old(p.Now())) && Repeatable(p.target, old(p.estate)) ==> !(r.Err? && r.error.Refused?)
    ensures old(p.requested) == {} && !(Anchored(p.target, old(p.estate)) && Repeatable(p.target, old(p.estate)))
            ==> r.Err? && p.commands == old(p.commands)
    ensures old(p.requested) == {} && r.Err? && r.error.Refused? ==> Objects(p.target, old(p.estate), r.error.reason)
    ensures r.Err? && (r.error.Refused? || r.error.ReadbackFailed?) ==> p.commands == old(p.commands)
    ensures p.requested <= old(p.requested) + Everything(p.target, old(p.estate))
    ensures old(p.estate).worker.None? && WorkerScript in p.requested ==> WorkerScript in old(p.requested)
    ensures p.broken <==> r == Err(DestroyError.CommandFailed)
    ensures r.Ok? || r.error in {ChildrenRemain, WorkerRemains, PurgeFailed}
            ==> OwnedChildren(p.target, old(p.estate)) <= p.requested
    ensures store.objects != old(store.objects) ==> p.estate.worker.None? && OwnedChildren(p.target, p.estate) == {}
    ensures r.Ok? ==>
              && OwnedChildren(p.target, p.estate) == {} && p.estate.worker.None?
              && store.objects == Purge.Outside(old(store.objects), p.target.buckets)
              && r.value == |old(store.objects)| - |store.objects|
    ensures Safe(p.target, old(p.Now())) && Repeatable(p.target, old(p.estate))
            && Obliging(p.script, Everything(p.target, old(p.estate))) && store.Willing()
            ==> r.Ok?
  {
    hide Leads, Safe, Repeatable, Anchored, OwnedChildren, Children, Objects, RemovesAll, Removes, Within, Obliging;
    hide Found, ContainersFit, ToSet, Everything, Purge.Outside;
    p.broken := false;
    ghost var m0 := p.Now();
    var findings := Survey(p);
    ghost var m1 := p.Now();
    LeadsFacts(p.target, m0, m1);
    LeadsFit(p.target, m0, m1);
    ObligingLess(p.script, Everything(p.target, old(p.estate)), {});
    EverythingLess(p.target, m0, m1);
    if findings.Err? {
      return Err(findings.error);
    }
    ObligingLess(p.script, Everything(p.target, old(p.estate)), Everything(p.target, p.estate));
    ghost var before := p.commands;
    var dismantled := Dismantle(p, findings.value);
    RunRequests(p.target, m0, m1, findings.value, p.commands[|before|..]);
    LeadsFacts(p.target, m1, p.Now());
    if dismantled.Err? {
      return Err(dismantled.error);
    }
    var removed := Purge.PurgeBackingObjects(store, p.target.buckets);
    r := if removed.Some? then Ok(removed.value) else Err(PurgeFailed);
  }
}
