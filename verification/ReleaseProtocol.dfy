/**
 Publishers racing to create the release of one tag
 (scripts/release-artifact-deploy.ts): each reads the tag and the release as
 absent, mints an attempt identity, sends one create request and then polls
 until it reads its own attempt back.
 */
module ReleaseProtocol {
  import opened Wrappers
  import opened Release

  type Id = nat

  datatype Publisher = Publisher(commit: string, attempt: string, assets: seq<Expected>)

  /** `remote` is the tag read in the current poll; the exit code is the one of
      the create command. */
  datatype Stage =
    | Idle
    | TagUnused
    | Unused
    | Creating
    | Polling(exitCode: int)
    | TagRead(exitCode: int, remote: Option<string>)
    | Published(exitCode: int)
    | GaveUp

  datatype State = State(
    tag: Option<string>,
    release: Option<ReleaseReadback>,
    flying: set<Id>,        // create requests on their way
    applied: set<Id>,       // create requests that made the release
    creates: seq<Id>,       // create requests ever sent
    stages: map<Id, Stage>)

  datatype Step =
    | ReadTagFirst(p: Id)
    | ReadReleaseFirst(p: Id)
    | FirstReadFails(p: Id)
    | Send(p: Id)
    | Apply(p: Id, release: ReleaseReadback)
    | Lose(p: Id)
    | Exit(p: Id, code: int)
    | ReadTag(p: Id)
    | ReadRelease(p: Id)
    | ReadFails(p: Id)
    | Expire(p: Id)
    | Amend(release: ReleaseReadback)
    | ForeignTag(commit: string)
    | ForeignRelease(release: ReleaseReadback)

  datatype World = World(tagName: string, roster: map<Id, Publisher>)

  /** Attempt identities are digests of fresh random bytes: of one length and
      all different. */
  predicate FreshAttempts(w: World) {
    forall p, q | p in w.roster && q in w.roster ::
      |w.roster[p].attempt| == |w.roster[q].attempt| && (w.roster[p].attempt == w.roster[q].attempt ==> p == q)
  }

  function NotesOf(w: World, p: Id): string
    requires p in w.roster
  {
    ReleaseNotes(w.roster[p].commit, w.roster[p].attempt)
  }

  /** Nobody else writes the notes of an attempt of the roster. */
  predicate IsForeign(w: World, r: ReleaseReadback) {
    forall p | p in w.roster :: r.body != NotesOf(w, p)
  }

  predicate At(w: World, s: State, p: Id) {
    p in w.roster && p in s.stages
  }

  predicate Enabled(w: World, s: State, step: Step) {
    match step
    case ReadTagFirst(p) => At(w, s, p) && s.stages[p].Idle?
    case ReadReleaseFirst(p) => At(w, s, p) && s.stages[p].TagUnused?
    case FirstReadFails(p) => At(w, s, p) && (s.stages[p].Idle? || s.stages[p].TagUnused?)
    case Send(p) => At(w, s, p) && s.stages[p].Unused?
    case Apply(p, r) => p in w.roster && p in s.flying && s.release.None? && r.body == NotesOf(w, p)
    case Lose(p) => p in s.flying
    case Exit(p, _) => At(w, s, p) && s.stages[p].Creating?
    case ReadTag(p) => At(w, s, p) && s.stages[p].Polling?
    case ReadRelease(p) => At(w, s, p) && s.stages[p].TagRead?
    case ReadFails(p) => At(w, s, p) && (s.stages[p].Polling? || s.stages[p].TagRead?)
    case Expire(p) => At(w, s, p) && s.stages[p].Polling?
    case Amend(r) => s.release.Some? && r.body == s.release.value.body
    case ForeignTag(_) => s.tag.None?
    case ForeignRelease(r) => s.release.None? && IsForeign(w, r)
  }

  function Move(s: State, p: Id, stage: Stage): State {
    s.(stages := s.stages[p := stage])
  }

  /** The end of one poll, once the tag has been read. */
  function Judge(w: World, s: State, p: Id): Stage
    requires At(w, s, p) && s.stages[p].TagRead?
  {
    var me, stage := w.roster[p], s.stages[p];
    if s.release.None? || stage.remote != Some(me.commit) then Polling(stage.exitCode)
    else match AssertPublishedReleaseReadback(w.tagName, me.commit, me.attempt, me.assets, s.release.value)
      case Accepted => Published(stage.exitCode)
      case NotThisAttempt => GaveUp
      case _ => Polling(stage.exitCode)
  }

  function Next(w: World, s: State, step: Step): State
    requires Enabled(w, s, step)
  {
    match step
    case ReadTagFirst(p) => Move(s, p, if s.tag.None? then TagUnused else GaveUp)
    case ReadReleaseFirst(p) => Move(s, p, if s.release.None? then Unused else GaveUp)
    case FirstReadFails(p) => Move(s, p, GaveUp)
    case Send(p) => Move(s, p, Creating).(flying := s.flying + {p}, creates := s.creates + [p])
    case Apply(p, r) =>
      s.(release := Some(r), tag := if s.tag.None? then Some(w.roster[p].commit) else s.tag,
         flying := s.flying - {p}, applied := s.applied + {p})
    case Lose(p) => s.(flying := s.flying - {p})
    case Exit(p, code) => Move(s, p, Polling(code))
    case ReadTag(p) =>
      if s.tag.Some? && s.tag.value != w.roster[p].commit then Move(s, p, GaveUp)
      else Move(s, p, TagRead(s.stages[p].exitCode, s.tag))
    case ReadRelease(p) => Move(s, p, Judge(w, s, p))
    case ReadFails(p) => Move(s, p, Polling(s.stages[p].exitCode))
    case Expire(p) => Move(s, p, GaveUp)
    case Amend(r) => s.(release := Some(r))
    case ForeignTag(commit) => s.(tag := Some(commit))
    case ForeignRelease(r) => s.(release := Some(r))
  }

  // ----- Exclusivity -----

  predicate BeforeSend(stage: Stage) {
    stage.Idle? || stage.TagUnused? || stage.Unused?
  }

  /** No publisher has sent two creates, and none before it read the absence. */
  predicate SentOnce(s: State) {
    && (forall i, j | 0 <= i < j < |s.creates| :: s.creates[i] != s.creates[j])
    && (forall p | p in s.creates :: p in s.stages && !BeforeSend(s.stages[p]))
    && (forall p | p in s.flying + s.applied :: p in s.creates)
  }

  /** The release is the one that the applied create made, or a foreign one. */
  predicate Attributed(w: World, s: State) {
    && (forall p | p in s.applied :: p in w.roster && s.release.Some? && s.release.value.body == NotesOf(w, p))
    && (s.release.Some? && s.applied == {} ==> IsForeign(w, s.release.value))
  }

  /** The publisher accepts the release as it is now. */
  predicate Owned(w: World, s: State, p: Id) {
    && At(w, s, p) && s.release.Some?
    && var me := w.roster[p];
       AssertPublishedReleaseReadback(w.tagName, me.commit, me.attempt, me.assets, s.release.value) == Accepted
  }

  /** The release bears the notes of the publisher's attempt. */
  predicate Bears(w: World, s: State, p: Id) {
    p in w.roster && s.release.Some? && s.release.value.body == NotesOf(w, p)
  }

  predicate Sound(w: World, s: State) {
    && SentOnce(s) && Attributed(w, s)
    && forall p | p in s.stages && s.stages[p].Published? :: Bears(w, s, p)
  }

  function Init(w: World, tag: Option<string>, release: Option<ReleaseReadback>): State {
    State(tag, release, {}, {}, [], map p | p in w.roster :: Idle)
  }

  lemma {:induction false} StepKeepsSentOnce(w: World, s: State, step: Step)
    requires SentOnce(s) && Enabled(w, s, step)
    ensures SentOnce(Next(w, s, step))
  {
    hide AssertPublishedReleaseReadback;
    var s' := Next(w, s, step);
    if step.Send? {
      assert step.p !in s.creates;
      assert forall p :: p in s'.creates <==> p in s.creates || p == step.p;
    }
  }

  lemma {:induction false} StepKeepsAttributed(w: World, s: State, step: Step)
    requires Attributed(w, s) && Enabled(w, s, step)
    ensures Attributed(w, Next(w, s, step))
  {
    hide AssertPublishedReleaseReadback, ReleaseNotes;
    if step.Apply? || step.ForeignRelease? {
      assert s.applied == {};
    }
  }

  lemma {:induction false} StepKeepsBearing(w: World, s: State, step: Step, p: Id)
    requires Enabled(w, s, step) && p in Next(w, s, step).stages && Next(w, s, step).stages[p].Published?
    requires p in s.stages && s.stages[p].Published? ==> Bears(w, s, p)
    ensures Bears(w, Next(w, s, step), p)
  {
    hide AssetsPass, ByName;
  }

  /** A publisher succeeds only on a release that it accepts at that moment. */
  lemma {:induction false} SuccessIsAccepted(w: World, s: State, step: Step, p: Id)
    requires Enabled(w, s, step) && p in s.stages && !s.stages[p].Published?
    requires Next(w, s, step).stages[p].Published?
    ensures step == ReadRelease(p) && s.stages[p].TagRead? && s.stages[p].remote == Some(w.roster[p].commit)
    ensures Owned(w, s, p) && Owned(w, Next(w, s, step), p)
  {
    hide AssertPublishedReleaseReadback;
  }

  /** What a poll comes to: success exactly on the own release and tag, an end
      exactly on the tag of another commit or the release of another attempt, and
      otherwise another poll. */
  lemma {:induction false} PollDecides(w: World, s: State, p: Id)
    ensures Enabled(w, s, ReadTag(p)) ==>
              var stage := Next(w, s, ReadTag(p)).stages[p];
              if s.tag.Some? && s.tag != Some(w.roster[p].commit) then stage.GaveUp?
              else stage == TagRead(s.stages[p].exitCode, s.tag)
    ensures Enabled(w, s, ReadRelease(p)) ==>
              var stage, me := Next(w, s, ReadRelease(p)).stages[p], w.roster[p];
              var mine := s.stages[p].remote == Some(me.commit);
              && (stage.Published? <==> mine && Owned(w, s, p))
              && (stage.GaveUp? <==>
                    mine && s.release.Some?
                    && AssertPublishedReleaseReadback(w.tagName, me.commit, me.attempt, me.assets, s.release.value)
                       == NotThisAttempt)
              && (stage.Published? || stage.GaveUp? || stage == Polling(s.stages[p].exitCode))
  {
    hide AssertPublishedReleaseReadback;
  }

  lemma {:induction false} StepKeepsSound(w: World, s: State, step: Step)
    requires Sound(w, s) && Enabled(w, s, step)
    ensures Sound(w, Next(w, s, step))
  {
    hide SentOnce, Attributed, Bears, AssertPublishedReleaseReadback;
    StepKeepsSentOnce(w, s, step);
    StepKeepsAttributed(w, s, step);
    var s' := Next(w, s, step);
    forall p | p in s'.stages && s'.stages[p].Published? ensures Bears(w, s', p) {
      StepKeepsBearing(w, s, step, p);
    }
  }

  predicate Follows(w: World, s: State, steps: seq<Step>)
    decreases steps
  {
    steps == [] || (Enabled(w, s, steps[0]) && Follows(w, Next(w, s, steps[0]), steps[1..]))
  }

  function After(w: World, s: State, steps: seq<Step>): State
    requires Follows(w, s, steps)
    decreases steps
  {
    if steps == [] then s else After(w, Next(w, s, steps[0]), steps[1..])
  }

  lemma {:induction false} RunKeepsSound(w: World, s: State, steps: seq<Step>)
    requires Sound(w, s) && Follows(w, s, steps)
    ensures Sound(w, After(w, s, steps))
    decreases steps
  {
    hide Sound;
    if steps == [] {
    } else {
      StepKeepsSound(w, s, steps[0]);
      RunKeepsSound(w, Next(w, s, steps[0]), steps[1..]);
    }
  }

  /** In every sound state a published attempt is the one whose create made the
      release, whatever its exit code, and it is the only one. */
  lemma {:induction false} PublishedMadeIt(w: World, s: State, p: Id, q: Id)
    requires FreshAttempts(w) && Sound(w, s) && p in s.stages && s.stages[p].Published?
    ensures s.applied == {p}
    ensures q in s.stages && s.stages[q].Published? ==> q == p
  {
    assert Bears(w, s, p);
    forall a | a in s.applied ensures a == p {
      NotesInjective(w.roster[a].commit, w.roster[a].attempt, w.roster[p].commit, w.roster[p].attempt);
    }
    assert s.applied != {};
    var a :| a in s.applied;
    if q in s.stages && s.stages[q].Published? {
      assert Bears(w, s, q);
      NotesInjective(w.roster[q].commit, w.roster[q].attempt, w.roster[p].commit, w.roster[p].attempt);
    }
  }

  /** Over all interleavings of any number of publishers, foreign tags and
      releases, lost, late or failed requests, and later changes of a release
      that leave its notes alone: each publisher sends at most
      one create, at most one publisher succeeds, and a success, even after a
      failing exit code, means that its own create made the release. */
  lemma {:induction false} PublicationExclusive(w: World, tag: Option<string>, release: Option<ReleaseReadback>,
          steps: seq<Step>, p: Id, q: Id)
    requires FreshAttempts(w) && (release.Some? ==> IsForeign(w, release.value))
    requires Follows(w, Init(w, tag, release), steps)
    ensures var s := After(w, Init(w, tag, release), steps);
            && SentOnce(s)
            && (p in s.stages && s.stages[p].Published? ==> s.applied == {p} && p in s.creates && Bears(w, s, p))
            && (p in s.stages && s.stages[p].Published? && q in s.stages && s.stages[q].Published? ==> p == q)
  {
    hide Bears;
    var start := Init(w, tag, release);
    assert Sound(w, start);
    RunKeepsSound(w, start, steps);
    var s := After(w, start, steps);
    if p in s.stages && s.stages[p].Published? {
      PublishedMadeIt(w, s, p, q);
      assert p in s.flying + s.applied;
    }
  }

  // ----- Nothing is created before the final absence was read -----

  /** In the course so far, `p` read the tag and later the release as absent. */
  ghost predicate SawAbsence(w: World, s: State, steps: seq<Step>, p: Id, released: bool)
    requires Follows(w, s, steps)
  {
    exists i | 0 <= i < |steps| ::
      && Reads(w, s, steps, i, ReadTagFirst(p)) && After(w, s, steps[..i]).tag.None?
      && (released ==> exists j | i < j < |steps| ::
            Reads(w, s, steps, j, ReadReleaseFirst(p)) && After(w, s, steps[..j]).release.None?)
  }

  predicate Reads(w: World, s: State, steps: seq<Step>, i: nat, step: Step)
    requires i < |steps|
  {
    steps[i] == step && Follows(w, s, steps[..i])
  }

  lemma {:induction false} FollowsFront(w: World, s: State, front: seq<Step>, last: Step)
    requires Follows(w, s, front + [last])
    ensures Follows(w, s, front) && Enabled(w, After(w, s, front), last)
    ensures After(w, s, front + [last]) == Next(w, After(w, s, front), last)
    decreases front
  {
    hide Enabled, Next;
    if front == [] {
      assert ([] + [last])[1..] == [];
    } else {
      assert (front + [last])[1..] == front[1..] + [last];
      FollowsFront(w, Next(w, s, front[0]), front[1..], last);
    }
  }

  lemma {:induction false} SawAbsenceOn(w: World, s: State, front: seq<Step>, last: Step, p: Id, released: bool)
    requires Follows(w, s, front) && Follows(w, s, front + [last]) && SawAbsence(w, s, front, p, released)
    ensures SawAbsence(w, s, front + [last], p, released)
  {
    var steps := front + [last];
    var i :| 0 <= i < |front| && Reads(w, s, front, i, ReadTagFirst(p)) && After(w, s, front[..i]).tag.None?
             && (released ==> exists j | i < j < |front| ::
                   Reads(w, s, front, j, ReadReleaseFirst(p)) && After(w, s, front[..j]).release.None?);
    assert steps[..i] == front[..i] && Reads(w, s, steps, i, ReadTagFirst(p));
    if released {
      var j :| i < j < |front| && Reads(w, s, front, j, ReadReleaseFirst(p)) && After(w, s, front[..j]).release.None?;
      assert steps[..j] == front[..j] && Reads(w, s, steps, j, ReadReleaseFirst(p));
    }
  }

  /** A publisher that has come as far as its create has read the tag as absent
      and, after that, the release as absent. */
  lemma {:induction false} CreatesAfterAbsence(w: World, s: State, steps: seq<Step>, p: Id)
    requires Follows(w, s, steps) && p in s.stages && s.stages[p].Idle? && p !in s.creates
    ensures p in After(w, s, steps).stages
    ensures After(w, s, steps).stages[p].TagUnused? ==> SawAbsence(w, s, steps, p, false)
    ensures After(w, s, steps).stages[p].Unused? || p in After(w, s, steps).creates
            ==> SawAbsence(w, s, steps, p, true)
    decreases steps
  {
    if steps == [] {
    } else {
      var front, last := steps[..|steps| - 1], steps[|steps| - 1];
      assert steps == front + [last];
      FollowsFront(w, s, front, last);
      CreatesAfterAbsence(w, s, front, p);
      LastRead(w, s, front, last, p);
    }
  }

  lemma {:induction false} LastRead(w: World, s: State, front: seq<Step>, last: Step, p: Id)
    requires Follows(w, s, front) && Follows(w, s, front + [last]) && Enabled(w, After(w, s, front), last)
    requires After(w, s, front + [last]) == Next(w, After(w, s, front), last)
    requires p in After(w, s, front).stages
    requires After(w, s, front).stages[p].TagUnused? ==> SawAbsence(w, s, front, p, false)
    requires After(w, s, front).stages[p].Unused? || p in After(w, s, front).creates
             ==> SawAbsence(w, s, front, p, true)
    ensures var s' := After(w, s, front + [last]);
            && p in s'.stages
            && (s'.stages[p].TagUnused? ==> SawAbsence(w, s, front + [last], p, false))
            && (s'.stages[p].Unused? || p in s'.creates ==> SawAbsence(w, s, front + [last], p, true))
  {
    hide Follows, After, SawAbsence, AssertPublishedReleaseReadback;
    var before, after := After(w, s, front), After(w, s, front + [last]);
    if before.stages[p].TagUnused? { SawAbsenceOn(w, s, front, last, p, false); }
    if before.stages[p].Unused? || p in before.creates { SawAbsenceOn(w, s, front, last, p, true); }
    if last == ReadTagFirst(p) && before.tag.None? { NowAbsent(w, s, front, last, p); }
    if last == ReadReleaseFirst(p) && before.release.None? { NowUnreleased(w, s, front, last, p); }
  }

  lemma {:induction false} NowAbsent(w: World, s: State, front: seq<Step>, last: Step, p: Id)
    requires Follows(w, s, front) && Follows(w, s, front + [last])
    requires last == ReadTagFirst(p) && After(w, s, front).tag.None?
    ensures SawAbsence(w, s, front + [last], p, false)
  {
    var steps := front + [last];
    assert steps[..|front|] == front && Reads(w, s, steps, |front|, ReadTagFirst(p));
  }

  lemma {:induction false} NowUnreleased(w: World, s: State, front: seq<Step>, last: Step, p: Id)
    requires Follows(w, s, front) && Follows(w, s, front + [last]) && SawAbsence(w, s, front, p, false)
    requires last == ReadReleaseFirst(p) && After(w, s, front).release.None?
    ensures SawAbsence(w, s, front + [last], p, true)
  {
    var steps := front + [last];
    var i :| 0 <= i < |front| && Reads(w, s, front, i, ReadTagFirst(p)) && After(w, s, front[..i]).tag.None?;
    assert steps[..i] == front[..i] && Reads(w, s, steps, i, ReadTagFirst(p));
    assert steps[..|front|] == front && Reads(w, s, steps, |front|, ReadReleaseFirst(p));
  }

  // ----- One publisher among the others -----

  /** The steps that publisher `me` takes itself. */
  predicate IsMine(step: Step, me: Id) {
    match step
    case Apply(_, _) | Lose(_) | Amend(_) | ForeignTag(_) | ForeignRelease(_) => false
    case _ => step.p == me
  }

  lemma {:induction false} FollowsOn(w: World, s: State, steps: seq<Step>, step: Step)
    requires Follows(w, s, steps) && Enabled(w, After(w, s, steps), step)
    ensures Follows(w, s, steps + [step]) && After(w, s, steps + [step]) == Next(w, After(w, s, steps), step)
    decreases steps
  {
    hide Enabled, Next;
    if steps == [] {
      assert ([] + [step])[1..] == [] && Follows(w, Next(w, s, step), []);
    } else {
      FollowsOn(w, Next(w, s, steps[0]), steps[1..], step);
      assert (steps + [step])[1..] == steps[1..] + [step];
    }
  }

  /** How many of the steps are `me`'s own. */
  function Own(steps: seq<Step>, me: Id): nat {
    if steps == [] then 0 else Own(steps[..|steps| - 1], me) + if IsMine(steps[|steps| - 1], me) then 1 else 0
  }

  /** No readback of `me` has failed. */
  predicate NoFailure(steps: seq<Step>, me: Id) {
    FirstReadFails(me) !in steps && ReadFails(me) !in steps
  }

  /** The remote side, with the record of every step taken on it. */
  class Remote {
    const world: World
    const others: nat -> seq<Step>
    const answers: nat -> bool  // whether a readback comes through
    const exits: nat -> int
    var turn: nat
    var state: State
    ghost var start: State
    ghost var history: seq<Step>

    constructor (world: World, state: State, others: nat -> seq<Step>, answers: nat -> bool, exits: nat -> int)
      ensures this.world == world && this.state == state && start == state && history == [] && Valid()
    {
      this.world, this.state, this.others, this.answers, this.exits := world, state, others, answers, exits;
      turn, start, history := 0, state, [];
    }

    /** Every readback comes through. */
    ghost predicate Reliable() {
      forall n: nat :: answers(n)
    }

    ghost predicate Valid()
      reads this
    {
      Follows(world, start, history) && state == After(world, start, history)
    }

    method Act(step: Step)
      requires Valid() && Enabled(world, state, step)
      modifies this`state, this`history
      ensures Valid() && state == Next(world, old(state), step) && history == old(history) + [step]
      ensures forall me :: Own(history, me) == Own(old(history), me) + if IsMine(step, me) then 1 else 0
      ensures forall me :: NoFailure(history, me) <==>
                NoFailure(old(history), me) && step != FirstReadFails(me) && step != ReadFails(me)
    {
      FollowsOn(world, start, history, step);
      assert (history + [step])[..|history|] == history;
      state, history := Next(world, state, step), history + [step];
    }

    /** Whatever the server and the other publishers do before `me` goes on. */
    method LetOthersAct(me: Id)
      requires Valid() && At(world, state, me)
      modifies this
      ensures Valid() && start == old(start) && At(world, state, me) && state.stages[me] == old(state.stages[me])
      ensures old(history) <= history && Own(history, me) == Own(old(history), me)
      ensures NoFailure(old(history), me) ==> NoFailure(history, me)
    {
      var steps := others(turn);
      turn := turn + 1;
      for i := 0 to |steps|
        invariant Valid() && start == old(start) && At(world, state, me) && state.stages[me] == old(state.stages[me])
        invariant old(history) <= history && Own(history, me) == Own(old(history), me)
        invariant NoFailure(old(history), me) ==> NoFailure(history, me)
      {
        if Enabled(world, state, steps[i]) && !IsMine(steps[i], me) {
          Act(steps[i]);
        }
      }
    }
  }

  /** A course that failed ended with one of `final`, or after so many steps of
      `me`'s own with the deadline. */
  predicate Ended(history: seq<Step>, me: Id, final: set<Step>, steps: nat) {
    && history != []
    && (history[|history| - 1] in final || (history[|history| - 1] == Expire(me) && Own(history, me) > steps))
  }

  /** The final read of the tag and then of the release, both of which have to be
      absent. */
  method AssertRemoteReleaseIdentityAvailable(remote: Remote, me: Id) returns (available: bool)
    requires remote.Valid() && At(remote.world, remote.state, me) && remote.state.stages[me].Idle?
    modifies remote
    ensures remote.Valid() && remote.start == old(remote.start) && old(remote.history) <= remote.history
    ensures At(remote.world, remote.state, me)
    ensures if available then remote.state.stages[me].Unused? else remote.state.stages[me].GaveUp?
    ensures available ==> Own(remote.history, me) == Own(old(remote.history), me) + 2
    ensures !available ==>
              && remote.history != []
              && remote.history[|remote.history| - 1] in
                   {FirstReadFails(me), ReadTagFirst(me), ReadReleaseFirst(me)}
    ensures remote.Reliable() && NoFailure(old(remote.history), me) ==> NoFailure(remote.history, me)
  {
    hide Follows, After, AssertPublishedReleaseReadback, Own, NoFailure;
    remote.LetOthersAct(me);
    if !remote.answers(remote.turn) {
      remote.Act(FirstReadFails(me));
      return false;
    }
    remote.Act(ReadTagFirst(me));
    if remote.state.stages[me].GaveUp? {
      return false;
    }
    remote.LetOthersAct(me);
    if !remote.answers(remote.turn) {
      remote.Act(FirstReadFails(me));
      return false;
    }
    remote.Act(ReadReleaseFirst(me));
    available := remote.state.stages[me].Unused?;
  }

  /** A publisher's own course, one step at a time, with everybody else free to
      act in between. It returns a release exactly when it has read its own
      attempt back, and gives up only on a read or at the deadline; `patience` is
      the number of polls before it. */
  method CreateOnlyReleaseAfterFinalAbsence(remote: Remote, me: Id, patience: nat)
    returns (result: Option<ReleaseReadback>)
    requires remote.Valid() && At(remote.world, remote.state, me) && remote.state.stages[me].Idle?
    modifies remote
    ensures remote.Valid() && remote.start == old(remote.start) && old(remote.history) <= remote.history
    ensures me in remote.state.stages
    ensures if result.Some?
            then && remote.state.stages[me].Published? && remote.state.release == result
                 && Owned(remote.world, remote.state, me)
            else remote.state.stages[me].GaveUp?
    ensures remote.Reliable() && NoFailure(old(remote.history), me) ==> NoFailure(remote.history, me)
    ensures result.None? ==>
              Ended(remote.history, me,
                    {FirstReadFails(me), ReadTagFirst(me), ReadReleaseFirst(me), ReadTag(me), ReadRelease(me)},
                    Own(old(remote.history), me) + 4 + patience)
  {
    hide Follows, After, AssertPublishedReleaseReadback, Own, NoFailure;
    var available := AssertRemoteReleaseIdentityAvailable(remote, me);
    if !available {
      return None;
    }
    SpawnCreate(remote, me);
    result := VerifyPublishedReleaseMetadata(remote, me, patience);
  }

  /** The sole create request, and the exit of the command. */
  method SpawnCreate(remote: Remote, me: Id)
    requires remote.Valid() && At(remote.world, remote.state, me) && remote.state.stages[me].Unused?
    modifies remote
    ensures remote.Valid() && remote.start == old(remote.start) && old(remote.history) <= remote.history
    ensures At(remote.world, remote.state, me) && remote.state.stages[me].Polling?
    ensures Own(remote.history, me) == Own(old(remote.history), me) + 2
    ensures remote.Reliable() && NoFailure(old(remote.history), me) ==> NoFailure(remote.history, me)
  {
    hide Follows, After, AssertPublishedReleaseReadback, Own, NoFailure;
    remote.LetOthersAct(me);
    remote.Act(Send(me));
    remote.LetOthersAct(me);
    remote.Act(Exit(me, remote.exits(remote.turn)));
  }

  /** One poll: the tag, and then the release. */
  method Poll(remote: Remote, me: Id)
    requires remote.Valid() && At(remote.world, remote.state, me) && remote.state.stages[me].Polling?
    modifies remote
    ensures remote.Valid() && remote.start == old(remote.start) && old(remote.history) <= remote.history
    ensures At(remote.world, remote.state, me)
    ensures var stage := remote.state.stages[me]; stage.Polling? || stage.Published? || stage.GaveUp?
    ensures remote.state.stages[me].Published? ==> Owned(remote.world, remote.state, me)
    ensures remote.state.stages[me].GaveUp? ==>
              remote.history != [] && remote.history[|remote.history| - 1] in {ReadTag(me), ReadRelease(me)}
    ensures Own(remote.history, me) > Own(old(remote.history), me)
    ensures remote.Reliable() && NoFailure(old(remote.history), me) ==> NoFailure(remote.history, me)
  {
    hide Follows, After, AssertPublishedReleaseReadback, Own, NoFailure;
    remote.LetOthersAct(me);
    if !remote.answers(remote.turn) {
      remote.Act(ReadFails(me));
      return;
    }
    remote.Act(ReadTag(me));
    if remote.state.stages[me].GaveUp? {
      return;
    }
    remote.LetOthersAct(me);
    if !remote.answers(remote.turn) {
      remote.Act(ReadFails(me));
      return;
    }
    remote.Act(ReadRelease(me));
  }

  method VerifyPublishedReleaseMetadata(remote: Remote, me: Id, patience: nat) returns (result: Option<ReleaseReadback>)
    requires remote.Valid() && At(remote.world, remote.state, me) && remote.state.stages[me].Polling?
    modifies remote
    ensures remote.Valid() && remote.start == old(remote.start) && old(remote.history) <= remote.history
    ensures me in remote.state.stages
    ensures if result.Some?
            then && remote.state.stages[me].Published? && remote.state.release == result
                 && Owned(remote.world, remote.state, me)
            else remote.state.stages[me].GaveUp?
    ensures remote.Reliable() && NoFailure(old(remote.history), me) ==> NoFailure(remote.history, me)
    ensures result.None? ==>
              Ended(remote.history, me, {ReadTag(me), ReadRelease(me)}, Own(old(remote.history), me) + patience)
  {
    hide Follows, After, AssertPublishedReleaseReadback, Own, NoFailure;
    for poll := 0 to patience
      invariant Own(remote.history, me) >= Own(old(remote.history), me) + poll
      invariant remote.Reliable() && NoFailure(old(remote.history), me) ==> NoFailure(remote.history, me)
      invariant remote.Valid() && remote.start == old(remote.start) && old(remote.history) <= remote.history
      invariant At(remote.world, remote.state, me) && remote.state.stages[me].Polling?
    {
      Poll(remote, me);
      if remote.state.stages[me].Published? {
        return remote.state.release;
      }
      if remote.state.stages[me].GaveUp? {
        return None;
      }
    }
    remote.LetOthersAct(me);
    remote.Act(Expire(me));
    result := None;
  }
}
