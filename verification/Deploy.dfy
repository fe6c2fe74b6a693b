/**
 Rolling releases out (scripts/takos-product-materializer.ts) without taking a
 secret away from the version that is serving: secrets are added with the new
 version and stale ones pruned only after the new version is read back. A run
 may start while commands of an earlier, stopped run are still taking effect.
 */
module Deploy {
  import opened Wrappers
  import opened JsonText
  import opened Activation

  const REQUIRED_SECRET_NAMES := {
    "ENCRYPTION_KEY", "OIDC_CLIENT_SECRET", "PLATFORM_PRIVATE_KEY", "PLATFORM_PUBLIC_KEY", "TAKOS_AGENT_START_TOKEN",
    "TAKOS_INTERNAL_API_SECRET"}

  const OPTIONAL_SECRET_NAMES := {
    "ANTHROPIC_API_KEY", "AUDIT_IP_HASH_KEY", "CF_API_TOKEN", "GOOGLE_API_KEY", "OCI_ORCHESTRATOR_TOKEN",
    "OPENAI_API_KEY", "TAKOSUMI_ACCOUNTS_TOKEN", "TAKOS_FEATURED_APP_INSTALL_TOKEN", "TAKOS_INTERNAL_SERVICE_SECRET",
    "TAKOS_NOTIFICATION_PUSH_GATEWAY_TOKEN", "TURNSTILE_SECRET_KEY"}

  /** The secret names a run accepts. */
  predicate Permitted(names: set<string>) {
    REQUIRED_SECRET_NAMES <= names <= REQUIRED_SECRET_NAMES + OPTIONAL_SECRET_NAMES
  }

  datatype Version = Version(marker: Marker, needs: set<string>, owned: bool)

  /** `uploading` was requested but its secrets are not stored yet; `staged` has
      its secrets stored but does not serve yet; `pruning` has been asked to go. */
  datatype Site = Site(
    serving: Option<Version>,
    stored: set<string>,
    uploading: Option<Version>,
    staged: Option<Version>,
    pruning: set<string>)

  function Needs(v: Option<Version>): set<string> {
    if v.Some? then v.value.needs else {}
  }

  /** The serving version has every secret it needs. */
  predicate Served(s: Site) {
    Needs(s.serving) <= s.stored
  }

  /** Served, and nothing under way takes a secret from a version under way. */
  predicate Fed(s: Site) {
    && Served(s) && Needs(s.staged) <= s.stored
    && s.pruning !! (Needs(s.serving) + Needs(s.staged) + Needs(s.uploading))
  }

  predicate Marked(s: Site, v: Version) {
    HasMarker(s.serving, v)
  }

  predicate HasMarker(u: Option<Version>, v: Version) {
    u.Some? && u.value.marker == v.marker
  }

  // ----- What takes effect by itself -----

  /** The requested effects that land between two exchanges. */
  datatype Landing = Landing(uploads: bool, activates: bool, pruned: set<string>)

  const IDLE := Landing(false, false, {})

  function Upload(s: Site): Site {
    if s.uploading.None? then s
    else s.(stored := s.stored + s.uploading.value.needs, staged := s.uploading, uploading := None)
  }

  function Activate(s: Site): Site {
    if s.staged.None? then s else s.(serving := s.staged, staged := None)
  }

  function Advance(s: Site, landing: Landing): Site {
    var uploaded := if landing.uploads then Upload(s) else s;
    var activated := if landing.activates then Activate(uploaded) else uploaded;
    var landed := s.pruning * landing.pruned;
    activated.(stored := activated.stored - landed, pruning := s.pruning - landed)
  }

  // ----- One rollout, step by step -----

  /** How far the rollout of a version has come, and the secrets it found stale. */
  datatype Phase = Begun | Surveyed(stale: set<string>) | Requested(stale: set<string>) | Pruned

  datatype Rollout = Rollout(target: Version, site: Site, phase: Phase)

  /** Each step but the survey is one exchange; a request may be lost. */
  datatype Step =
    | Wait(landing: Landing)
    | Survey
    | AskDeploy(taken: bool, landing: Landing)
    | AskPrune(taken: bool, landing: Landing)

  /** Stale secrets are pruned only once the new marker has been read back. */
  predicate Enabled(r: Rollout, step: Step) {
    match step
    case Wait(_) => true
    case Survey => r.phase.Begun?
    case AskDeploy(_, _) => r.phase.Surveyed?
    case AskPrune(_, _) => r.phase.Requested? && Marked(r.site, r.target)
  }

  function Next(r: Rollout, step: Step): Rollout
    requires Enabled(r, step)
  {
    match step
    case Wait(landing) => r.(site := Advance(r.site, landing))
    case Survey => r.(phase := Surveyed(r.site.stored - r.target.needs))
    case AskDeploy(taken, landing) =>
      var asked := if taken then r.site.(uploading := Some(r.target)) else r.site;
      r.(site := Advance(asked, landing), phase := Requested(r.phase.stale))
    case AskPrune(taken, landing) =>
      var asked := if taken then r.site.(pruning := r.site.pruning + r.phase.stale) else r.site;
      r.(site := Advance(asked, landing), phase := Pruned)
  }

  predicate Follows(r: Rollout, steps: seq<Step>)
    decreases steps
  {
    steps == [] || (Enabled(r, steps[0]) && Follows(Next(r, steps[0]), steps[1..]))
  }

  function After(r: Rollout, steps: seq<Step>): Rollout
    requires Follows(r, steps)
    decreases steps
  {
    if steps == [] then r else After(Next(r, steps[0]), steps[1..])
  }

  // ----- Which versions carry a marker -----

  /** A version with the marker of `v` serves or is on its way. */
  predicate Carries(s: Site, v: Version) {
    HasMarker(s.serving, v) || HasMarker(s.staged, v) || HasMarker(s.uploading, v)
  }

  /** `v` serves, and nothing is on its way. */
  predicate Settled(s: Site, v: Version) {
    s.serving == Some(v) && s.staged.None? && s.uploading.None?
  }

  /** Only `v` itself has its marker, and once it is staged or serves, nothing is
      on its way behind it. */
  predicate Only(s: Site, v: Version) {
    && (HasMarker(s.serving, v) ==> Settled(s, v))
    && (HasMarker(s.staged, v) ==> s.staged == Some(v) && s.uploading.None?)
    && (HasMarker(s.uploading, v) ==> s.uploading == Some(v))
  }

  /** No site carries the marker of a run before that run asks for its version. */
  predicate Sequenced(r: Rollout) {
    if r.phase.Begun? || r.phase.Surveyed? then !Carries(r.site, r.target) else Only(r.site, r.target)
  }

  lemma {:induction false} StepKeepsSequenced(r: Rollout, step: Step)
    requires Sequenced(r) && Enabled(r, step)
    ensures Sequenced(Next(r, step)) && Next(r, step).target == r.target
  {
  }

  lemma {:induction false} RunKeepsSequenced(r: Rollout, steps: seq<Step>)
    requires Sequenced(r) && Follows(r, steps)
    ensures Sequenced(After(r, steps))
    decreases steps
  {
    hide Sequenced, Enabled, Next;
    if steps == [] {
    } else {
      StepKeepsSequenced(r, steps[0]);
      RunKeepsSequenced(Next(r, steps[0]), steps[1..]);
    }
  }

  predicate Known(s: Site, start: Site, v: Version) {
    {s.serving, s.staged, s.uploading} <= {None, start.serving, start.staged, start.uploading, Some(v)}
  }

  /** A rollout brings no version into play but its own. */
  lemma {:induction false} RunKeepsKnown(r: Rollout, steps: seq<Step>)
    requires Follows(r, steps)
    ensures Known(After(r, steps).site, r.site, r.target) && After(r, steps).target == r.target
    decreases steps
  {
    if steps == [] {
    } else {
      RunKeepsKnown(Next(r, steps[0]), steps[1..]);
    }
  }

  /** The marker was left by run `other`, which worked in a directory of its own. */
  predicate LeftBy(marker: Marker, digest: Text -> string, other: Run, run: Run) {
    marker == Mark(digest, other) && Accepted(other) && Apart(digest, other, run) && other.directory != run.directory
  }

  /** Every version that serves or is on its way was left by a run in a directory
      of its own, or by no run. */
  ghost predicate Elsewhere(s: Site, digest: Text -> string, run: Run) {
    forall u | u in {s.serving, s.staged, s.uploading} && u.Some? ::
      || (exists other :: LeftBy(u.value.marker, digest, other, run))
      || (forall other :: u.value.marker != Mark(digest, other))
  }

  /** Why a run in a fresh directory finds its marker nowhere. */
  lemma {:induction false} FreshMark(s: Site, v: Version, digest: Text -> string, run: Run)
    requires v.marker == Mark(digest, run) && Accepted(run) && Elsewhere(s, digest, run)
    ensures !Carries(s, v)
  {
    hide Mark, Accepted, Apart;
    forall u | u in {s.serving, s.staged, s.uploading} && u.Some? ensures u.value.marker != v.marker {
      if other :| LeftBy(u.value.marker, digest, other, run) {
        MarksAgreeIff(digest, other, run);
      }
    }
  }

  // ----- When a rollout is safe -----

  /** No secret of the new version is still being taken away by an earlier run. */
  predicate Unpruned(s: Site, v: Version) {
    s.pruning !! v.needs
  }

  predicate Clear(s: Site, v: Version) {
    Fed(s) && Unpruned(s, v)
  }

  predicate InOrder(r: Rollout) {
    && Sequenced(r) && Clear(r.site, r.target)
    && (r.phase.Surveyed? || r.phase.Requested? ==> r.phase.stale !! r.target.needs)
  }

  lemma {:induction false} AdvanceKeepsClear(s: Site, landing: Landing, v: Version)
    requires Clear(s, v)
    ensures Clear(Advance(s, landing), v)
  {
  }

  lemma {:induction false} StepKeepsInOrder(r: Rollout, step: Step)
    requires InOrder(r) && Enabled(r, step)
    ensures InOrder(Next(r, step)) && Next(r, step).target == r.target
  {
    StepKeepsSequenced(r, step);
    hide Advance;
    match step
    case Wait(landing) => AdvanceKeepsClear(r.site, landing, r.target);
    case Survey =>
    case AskDeploy(taken, landing) =>
      AdvanceKeepsClear(if taken then r.site.(uploading := Some(r.target)) else r.site, landing, r.target);
    case AskPrune(taken, landing) =>
      // The marker was read back, so the target serves with nothing behind it.
      var asked := if taken then r.site.(pruning := r.site.pruning + r.phase.stale) else r.site;
      assert Settled(r.site, r.target);
      AdvanceKeepsClear(asked, landing, r.target);
  }

  /** The serving version has its secrets at every point of the course. */
  predicate ServedThroughout(r: Rollout, steps: seq<Step>)
    requires Follows(r, steps)
    decreases steps
  {
    Served(r.site) && (steps == [] || ServedThroughout(Next(r, steps[0]), steps[1..]))
  }

  lemma {:induction false} RunKeepsInOrder(r: Rollout, steps: seq<Step>)
    requires InOrder(r) && Follows(r, steps)
    ensures InOrder(After(r, steps)) && After(r, steps).target == r.target
    ensures ServedThroughout(r, steps)
    decreases steps
  {
    hide Enabled, Next, Sequenced;
    if steps == [] {
    } else {
      StepKeepsInOrder(r, steps[0]);
      RunKeepsInOrder(Next(r, steps[0]), steps[1..]);
    }
  }

  predicate Starves(r: Rollout, steps: seq<Step>) {
    Follows(r, steps) && !Served(After(r, steps).site)
  }

  /** A prune that an earlier run left behind takes a secret of the new version as
      soon as that version serves. */
  lemma {:induction false} OldPruneStarves(s: Site, v: Version) returns (steps: seq<Step>)
    requires !Unpruned(s, v)
    ensures Starves(Rollout(v, s, Begun), steps)
  {
    var name :| name in s.pruning && name in v.needs;
    var start, deploy := Rollout(v, s, Begun), AskDeploy(true, Landing(true, true, {name}));
    var surveyed := Next(start, Survey);
    var asked := Next(surveyed, deploy);
    assert asked.site.serving == Some(v) && name !in asked.site.stored;
    steps := [Survey, deploy];
    assert steps[1..] == [deploy] && [deploy][1..] == [];
    assert Follows(asked, []) && After(asked, []) == asked;
    assert Follows(surveyed, [deploy]) && After(surveyed, [deploy]) == asked;
  }

  /** What is under way on a site that is not fed takes a secret that is needed. */
  lemma {:induction false} UnfedStarves(s: Site, v: Version) returns (steps: seq<Step>)
    requires !Fed(s)
    ensures Starves(Rollout(v, s, Begun), steps)
  {
    var start := Rollout(v, s, Begun);
    if !Served(s) {
      steps := [];
      assert After(start, []) == start;
    } else {
      var pruned := !(s.pruning !! Needs(s.serving));
      var staged := !(Needs(s.staged) <= s.stored) || !(s.pruning !! Needs(s.staged));
      var wait := Wait(Landing(!pruned && !staged, !pruned, s.pruning));
      var later := Next(start, wait);
      steps := [wait];
      assert steps[1..] == [] && Follows(later, []) && After(later, []) == later;
    }
  }

  lemma {:induction false} ServedAtEnd(r: Rollout, steps: seq<Step>)
    requires Follows(r, steps) && ServedThroughout(r, steps)
    ensures Served(After(r, steps).site)
    decreases steps
  {
    if steps == [] {
    } else {
      ServedAtEnd(Next(r, steps[0]), steps[1..]);
    }
  }

  /** Whatever lands when, the serving version has its secrets at every point of
      every rollout of `v` if and only if the site is fed and no secret of `v` is
      still being pruned. */
  lemma {:induction false} RolloutServesIff(s: Site, v: Version)
    requires !Carries(s, v)
    ensures (forall steps | Follows(Rollout(v, s, Begun), steps) :: ServedThroughout(Rollout(v, s, Begun), steps))
            <==> Fed(s) && Unpruned(s, v)
  {
    hide Fed, Unpruned, Carries, Enabled, Next;
    var start := Rollout(v, s, Begun);
    if Fed(s) && Unpruned(s, v) {
      assert InOrder(start);
      forall steps | Follows(start, steps) ensures ServedThroughout(start, steps) {
        RunKeepsInOrder(start, steps);
      }
    } else {
      var steps;
      if Fed(s) {
        steps := OldPruneStarves(s, v);
      } else {
        steps := UnfedStarves(s, v);
      }
      if ServedThroughout(start, steps) { ServedAtEnd(start, steps); }
      assert Follows(start, steps) && !ServedThroughout(start, steps);
    }
  }

  // ----- Whole histories of releases -----

  /** The serving version has its secrets at every point of every history in which
      `versions` are rolled out one after the other, each run ending anywhere. */
  ghost predicate AlwaysServed(s: Site, versions: seq<Version>)
    decreases |versions|
  {
    && Served(s)
    && (versions == [] ||
        forall steps | Follows(Rollout(versions[0], s, Begun), steps) ::
          AlwaysServed(After(Rollout(versions[0], s, Begun), steps).site, versions[1..]))
  }

  /** No release needs a secret that is being pruned already, or that a release
      between has left out after it was stored or sent. `past` are the names
      stored or sent so far, and `dropped` those that may still be pruned. */
  predicate NoneReturns(past: set<string>, dropped: set<string>, versions: seq<Version>)
    decreases |versions|
  {
    versions == [] ||
    (dropped !! versions[0].needs
     && NoneReturns(past + versions[0].needs, dropped + (past - versions[0].needs), versions[1..]))
  }

  /** No site and no earlier release carries the marker of a release. */
  predicate Fresh(s: Site, versions: seq<Version>) {
    && (forall v | v in versions :: !Carries(s, v))
    && forall i, j | 0 <= i < j < |versions| :: versions[i].marker != versions[j].marker
  }

  /** Releases run in directories of their own are fresh. */
  lemma {:induction false} FreshDirectories(s: Site, versions: seq<Version>, digest: Text -> string, runs: seq<Run>)
    requires |versions| == |runs|
    requires forall i | 0 <= i < |runs| ::
               versions[i].marker == Mark(digest, runs[i]) && Accepted(runs[i]) && Elsewhere(s, digest, runs[i])
    requires forall i, j | 0 <= i < j < |runs| :: LeftBy(versions[i].marker, digest, runs[i], runs[j])
    ensures Fresh(s, versions)
  {
    hide Mark, Accepted, Apart, Elsewhere, Carries;
    forall i | 0 <= i < |versions| ensures !Carries(s, versions[i]) {
      FreshMark(s, versions[i], digest, runs[i]);
    }
    forall i, j | 0 <= i < j < |versions| ensures versions[i].marker != versions[j].marker {
      assert LeftBy(versions[i].marker, digest, runs[i], runs[j]);
      MarksAgreeIff(digest, runs[i], runs[j]);
    }
  }

  function Past(s: Site): set<string> {
    s.stored + Needs(s.uploading)
  }

  lemma {:induction false} FreshRest(s: Site, versions: seq<Version>, later: Site)
    requires versions != [] && Fresh(s, versions) && Known(later, s, versions[0])
    ensures Fresh(later, versions[1..])
  {
    var rest := versions[1..];
    forall i | 0 <= i < |rest| ensures !Carries(later, rest[i]) {
      assert rest[i] == versions[i + 1] && versions[0].marker != versions[i + 1].marker;
      assert !Carries(s, versions[i + 1]);
      assert {later.serving, later.staged, later.uploading}
             <= {None, s.serving, s.staged, s.uploading, Some(versions[0])};
    }
  }

  /** What a run that began within these bounds can have stored, sent and pruned. */
  predicate Bounded(r: Rollout, past: set<string>, dropped: set<string>) {
    match r.phase
    case Begun => Past(r.site) <= past && r.site.pruning <= dropped
    case Surveyed(stale) => Past(r.site) <= past && r.site.pruning <= dropped && stale <= past - r.target.needs
    case Requested(stale) =>
      Past(r.site) <= past + r.target.needs && r.site.pruning <= dropped && stale <= past - r.target.needs
    case Pruned =>
      Past(r.site) <= past + r.target.needs && r.site.pruning <= dropped + (past - r.target.needs)
  }

  lemma {:induction false} RunKeepsBounded(r: Rollout, steps: seq<Step>, past: set<string>, dropped: set<string>)
    requires Bounded(r, past, dropped) && Follows(r, steps)
    ensures Bounded(After(r, steps), past, dropped) && After(r, steps).target == r.target
    decreases steps
  {
    if steps == [] {
    } else {
      RunKeepsBounded(Next(r, steps[0]), steps[1..], past, dropped);
    }
  }

  lemma {:induction false} NoneReturnsServes(s: Site, versions: seq<Version>, past: set<string>, dropped: set<string>)
    requires Fed(s) && Fresh(s, versions) && Past(s) <= past && s.pruning <= dropped
    requires NoneReturns(past, dropped, versions)
    ensures AlwaysServed(s, versions)
    decreases |versions|
  {
    if versions == [] {
    } else {
      var v := versions[0];
      var start := Rollout(v, s, Begun);
      assert v in versions;
      forall steps | Follows(start, steps) ensures AlwaysServed(After(start, steps).site, versions[1..]) {
        var later := After(start, steps).site;
        RunKeepsInOrder(start, steps);
        RunKeepsKnown(start, steps);
        RunKeepsBounded(start, steps, past, dropped);
        FreshRest(s, versions, later);
        NoneReturnsServes(later, versions[1..], past + v.needs, dropped + (past - v.needs));
      }
    }
  }

  /** A run in which everything lands except what it prunes itself. */
  lemma {:induction false} CleanRun(s: Site, v: Version) returns (steps: seq<Step>)
    requires Clear(s, v)
    ensures Follows(Rollout(v, s, Begun), steps)
    ensures After(Rollout(v, s, Begun), steps).site
            == Site(Some(v), Past(s) + v.needs, None, None, s.pruning + (Past(s) - v.needs))
  {
    var upload, deploy := Wait(Landing(true, false, {})), AskDeploy(true, Landing(true, true, {}));
    var prune := AskPrune(true, IDLE);
    var r0 := Rollout(v, s, Begun);
    var r1 := Next(r0, upload);
    var r2 := Next(r1, Survey);
    var r3 := Next(r2, deploy);
    assert r3.site.serving == Some(v);
    var r4 := Next(r3, prune);
    steps := [upload, Survey, deploy, prune];
    assert steps[1..] == [Survey, deploy, prune] && [Survey, deploy, prune][1..] == [deploy, prune];
    assert [deploy, prune][1..] == [prune] && [prune][1..] == [];
    assert Follows(r4, []) && After(r4, []) == r4;
    assert Follows(r3, [prune]) && After(r3, [prune]) == r4;
    assert Follows(r2, [deploy, prune]) && After(r2, [deploy, prune]) == r4;
    assert Follows(r1, [Survey, deploy, prune]) && After(r1, [Survey, deploy, prune]) == r4;
  }

  lemma {:induction false} ReturnStarves(s: Site, versions: seq<Version>)
    requires versions != [] && Fresh(s, versions) && !(Fed(s) && NoneReturns(Past(s), s.pruning, versions))
    ensures !AlwaysServed(s, versions)
    decreases |versions|
  {
    var v := versions[0];
    var start, steps := Rollout(v, s, Begun), [];
    if Clear(s, v) {
      steps := CleanRun(s, v);
      RunKeepsKnown(start, steps);
      var later := After(start, steps).site;
      FreshRest(s, versions, later);
      assert Past(later) == Past(s) + v.needs;
      ReturnStarves(later, versions[1..]);
    } else if Fed(s) {
      steps := OldPruneStarves(s, v);
    } else {
      steps := UnfedStarves(s, v);
    }
    assert !AlwaysServed(After(start, steps).site, versions[1..]);
  }

  /** Over every history of releases, whatever is lost, lands late or stops early,
      the serving version always has its secrets if and only if the first site was
      fed and no release needs a secret again that another has left out. */
  lemma {:induction false} ReleasesServeIff(s: Site, versions: seq<Version>)
    requires versions != [] && Fresh(s, versions)
    ensures AlwaysServed(s, versions) <==> Fed(s) && NoneReturns(Past(s), s.pruning, versions)
  {
    if Fed(s) && NoneReturns(Past(s), s.pruning, versions) {
      NoneReturnsServes(s, versions, Past(s), s.pruning);
    } else {
      ReturnStarves(s, versions);
    }
  }

  lemma {:induction false} NoneReturnsCons(past: set<string>, dropped: set<string>, v: Version, rest: seq<Version>)
    ensures NoneReturns(past, dropped, [v] + rest)
            <==> dropped !! v.needs && NoneReturns(past + v.needs, dropped + (past - v.needs), rest)
  {
    assert ([v] + rest)[1..] == rest;
  }

  lemma {:induction false} OptionalIsNotRequired(x: string)
    requires x in OPTIONAL_SECRET_NAMES
    ensures x !in REQUIRED_SECRET_NAMES
  {
  }

  const NEW_SITE := Site(None, {}, None, None, {})

  /** From an empty site, a release with an optional secret, one without it and
      one with it again: the third can lose the secret while it serves. */
  lemma {:induction false} SecretReturns(a: Version, b: Version, c: Version, x: string)
    requires x in OPTIONAL_SECRET_NAMES && a.needs == c.needs == REQUIRED_SECRET_NAMES + {x}
    requires b.needs == REQUIRED_SECRET_NAMES && a.marker != b.marker && b.marker != c.marker && a.marker != c.marker
    ensures Permitted(a.needs) && Permitted(b.needs) && Permitted(c.needs)
    ensures !AlwaysServed(NEW_SITE, [a, b, c]) && AlwaysServed(NEW_SITE, [a, b])
  {
    OptionalIsNotRequired(x);
    ReleasesServeIff(NEW_SITE, [a, b, c]);
    ReleasesServeIff(NEW_SITE, [a, b]);
    assert forall past, dropped :: NoneReturns(past, dropped, []);
    hide NoneReturns, AlwaysServed;
    NoneReturnsCons({}, {}, a, [b, c]);
    NoneReturnsCons({}, {}, a, [b]);
    var past := a.needs;
    assert {} + past == past && {} + ({} - past) == {};
    NoneReturnsCons(past, {}, b, [c]);
    NoneReturnsCons(past, {}, b, []);
    NoneReturnsCons(past + b.needs, past - b.needs, c, []);
    assert {} + (past - b.needs) == past - b.needs;
    assert x in past - b.needs && x in c.needs;
    assert [a] + [b, c] == [a, b, c] && [a] + [b] == [a, b];
    assert [b] + [c] == [b, c] && [b] + [] == [b] && [c] + [] == [c];
  }

  lemma {:induction false} FollowsOn(r: Rollout, steps: seq<Step>, step: Step)
    requires Follows(r, steps) && Enabled(After(r, steps), step)
    ensures Follows(r, steps + [step]) && After(r, steps + [step]) == Next(After(r, steps), step)
    decreases steps
  {
    hide Enabled, Next;
    if steps == [] {
      assert ([] + [step])[1..] == [] && Follows(Next(r, step), []);
    } else {
      FollowsOn(Next(r, steps[0]), steps[1..], step);
      assert (steps + [step])[1..] == steps[1..] + [step];
    }
  }

  // ----- What a course says of its stale secrets -----

  /** The names that the survey of a course found stored and not desired. */
  function FoundStale(r: Rollout, steps: seq<Step>): set<string>
    requires Follows(r, steps)
    decreases steps
  {
    if steps == [] then {}
    else if steps[0].Survey? then r.site.stored - r.target.needs
    else FoundStale(Next(r, steps[0]), steps[1..])
  }

  /** The prune was asked for; `Takes` says that it was also taken. */
  predicate Asks(steps: seq<Step>) {
    exists step | step in steps :: step.AskPrune?
  }

  predicate Takes(steps: seq<Step>) {
    exists step | step in steps :: step.AskPrune? && step.taken
  }

  /** Each name is being pruned or is not stored. */
  predicate Leaving(s: Site, names: set<string>) {
    forall name | name in names :: name in s.pruning || name !in s.stored
  }

  predicate Holds(phase: Phase, stale: set<string>) {
    phase.Surveyed? || phase.Requested? ==> phase.stale == stale
  }

  lemma {:induction false} PhaseTells(r: Rollout, steps: seq<Step>)
    requires Follows(r, steps)
    ensures r.phase.Begun? ==> Holds(After(r, steps).phase, FoundStale(r, steps))
    ensures r.phase.Surveyed? || r.phase.Requested? ==>
              !After(r, steps).phase.Begun? && Holds(After(r, steps).phase, r.phase.stale)
    ensures if r.phase.Pruned? then After(r, steps).phase.Pruned? && !Asks(steps)
            else After(r, steps).phase.Pruned? <==> Asks(steps)
    decreases steps
  {
    if steps == [] {
    } else {
      PhaseTells(Next(r, steps[0]), steps[1..]);
      assert forall step :: step in steps <==> step == steps[0] || step in steps[1..];
    }
  }

  lemma {:induction false} PrunedStays(r: Rollout, steps: seq<Step>, stale: set<string>)
    requires r.phase.Pruned? && Settled(r.site, r.target) && Leaving(r.site, stale) && Follows(r, steps)
    ensures Leaving(After(r, steps).site, stale)
    decreases steps
  {
    if steps == [] {
    } else {
      PrunedStays(Next(r, steps[0]), steps[1..], stale);
    }
  }

  /** Once the prune was taken, no stale name stays behind. */
  lemma {:induction false} TakenLeaves(r: Rollout, steps: seq<Step>, stale: set<string>)
    requires Sequenced(r) && Follows(r, steps) && Takes(steps)
    requires if r.phase.Begun? then stale == FoundStale(r, steps) else !r.phase.Pruned? && r.phase.stale == stale
    ensures Leaving(After(r, steps).site, stale)
    decreases steps
  {
    var step, rest := steps[0], steps[1..];
    var next := Next(r, step);
    StepKeepsSequenced(r, step);
    assert forall s :: s in steps <==> s == step || s in rest;
    if Takes(rest) {
      PhaseTells(next, rest);
      TakenLeaves(next, rest, stale);
    } else {
      assert step.AskPrune? && step.taken;
      PruneTaken(r, step);
      PrunedStays(next, rest, stale);
    }
  }

  lemma {:induction false} PruneTaken(r: Rollout, step: Step)
    requires Sequenced(r) && Enabled(r, step) && step.AskPrune? && step.taken
    ensures Settled(Next(r, step).site, r.target) && Leaving(Next(r, step).site, r.phase.stale)
  {
    assert Settled(r.site, r.target);
  }

  lemma {:induction false} FoundStaleOn(r: Rollout, steps: seq<Step>, step: Step)
    requires Follows(r, steps) && Follows(r, steps + [step])
    requires !After(r, steps).phase.Begun? && r.phase.Begun?
    ensures FoundStale(r, steps + [step]) == FoundStale(r, steps)
    decreases steps
  {
    assert steps != [] && (steps + [step])[1..] == steps[1..] + [step];
    if steps[0].Survey? {
    } else {
      FoundStaleOn(Next(r, steps[0]), steps[1..], step);
    }
  }

  // ----- The provider -----

  /** What lands during an exchange, whether its request is taken, and whether it
      succeeds. Success does not say that a request was taken. */
  datatype Behaviour = Behaviour(landing: Landing, takes: bool, succeeds: bool)

  /** What an exchange is for. The vector index goes with the migrations;
      containers, consumers, vector index and health are verified last. */
  datatype Purpose =
    ReadDeployment | ReadSecrets | Migrate | DeployWorker | PruneSecrets | ReconcileConsumers | VerifyResources

  predicate Commands(purpose: Purpose) {
    purpose in {Migrate, DeployWorker, PruneSecrets, ReconcileConsumers}
  }

  datatype Exchange = Exchange(purpose: Purpose, succeeded: bool)

  /** No command has failed. */
  predicate Clean(log: seq<Exchange>) {
    forall e | e in log :: Commands(e.purpose) ==> e.succeeded
  }

  /** Exchanges for `stages` succeeded in this order, with others in between. */
  predicate Passed(log: seq<Exchange>, stages: seq<Purpose>)
    decreases log
  {
    stages == [] ||
    (log != [] &&
     var front := log[..|log| - 1];
     if log[|log| - 1] == Exchange(stages[|stages| - 1], true) then Passed(front, stages[..|stages| - 1])
     else Passed(front, stages))
  }

  lemma {:induction false} PassedFewer(log: seq<Exchange>, stages: seq<Purpose>)
    requires stages != [] && Passed(log, stages)
    ensures Passed(log, stages[..|stages| - 1])
    decreases log
  {
    var front, fewer := log[..|log| - 1], stages[..|stages| - 1];
    if log[|log| - 1] == Exchange(stages[|stages| - 1], true) {
      if fewer != [] && log[|log| - 1] == Exchange(fewer[|fewer| - 1], true) { PassedFewer(front, fewer); }
    } else {
      PassedFewer(front, stages);
      if fewer != [] && log[|log| - 1] == Exchange(fewer[|fewer| - 1], true) { PassedFewer(front, fewer); }
    }
  }

  lemma {:induction false} PassedOn(log: seq<Exchange>, stages: seq<Purpose>, e: Exchange)
    requires Passed(log, stages)
    ensures Passed(log + [e], stages)
    ensures e.succeeded ==> Passed(log + [e], stages + [e.purpose])
  {
    assert (log + [e])[..|log|] == log && (stages + [e.purpose])[..|stages|] == stages;
    if stages != [] { PassedFewer(log, stages); }
  }

  /** Everything requested is taken, lands at once, and succeeds. */
  ghost predicate Eager(script: nat -> Behaviour, names: set<string>) {
    forall n: nat ::
      && script(n).takes && script(n).succeeds && script(n).landing.uploads && script(n).landing.activates
      && names <= script(n).landing.pruned
  }

  /** Nothing is under way. */
  predicate Still(s: Site) {
    s.uploading.None? && s.staged.None? && s.pruning == {}
  }

  lemma {:induction false} StillStays(s: Site, landing: Landing)
    requires Still(s)
    ensures Advance(s, landing) == s
  {
  }

  class Provider {
    const script: nat -> Behaviour
    var ticks: nat
    var site: Site
    ghost var begun: Rollout
    ghost var steps: seq<Step>
    ghost var log: seq<Exchange>

    constructor (site: Site, v: Version, script: nat -> Behaviour)
      ensures this.site == site && this.script == script && begun == Rollout(v, site, Begun) && steps == [] && Valid()
    {
      this.site, this.script, ticks := site, script, 0;
      begun, steps, log := Rollout(v, site, Begun), [], [];
    }

    /** The site is where the steps taken so far lead. */
    ghost predicate Valid()
      reads this
    {
      Follows(begun, steps) && After(begun, steps).site == site
    }

    ghost function Now(): Rollout
      reads this
      requires Valid()
    {
      After(begun, steps)
    }

    /** The rollout of `v` begins on the site as it is. */
    ghost method Begin(v: Version)
      modifies this`begun, this`steps, this`log
      ensures Valid() && begun == Rollout(v, site, Begun) && steps == [] && log == [] && Now() == begun
    {
      begun, steps, log := Rollout(v, site, Begun), [], [];
    }

    ghost method Note(step: Step)
      requires Follows(begun, steps) && Enabled(After(begun, steps), step)
               && Next(After(begun, steps), step).site == site
      modifies this`steps
      ensures Valid() && steps == old(steps) + [step] && Now() == Next(old(After(begun, steps)), step)
    {
      FollowsOn(begun, steps, step);
      steps := steps + [step];
    }

    /** A readback, or a command that requests nothing of the site. */
    method Observe(purpose: Purpose) returns (usable: bool)
      requires Valid() && Clean(log)
      modifies this
      ensures Valid() && begun == old(begun) && log == old(log) + [Exchange(purpose, usable)]
      ensures ticks == old(ticks) + 1 && usable == script(old(ticks)).succeeds
      ensures steps == old(steps) + [Wait(script(old(ticks)).landing)]
      ensures Now() == Next(old(Now()), Wait(script(old(ticks)).landing))
      ensures Settled(old(site), Now().target) ==> Settled(site, Now().target)
    {
      var behaviour := script(ticks);
      ticks, site := ticks + 1, Advance(site, behaviour.landing);
      Note(Wait(behaviour.landing));
      usable := behaviour.succeeds;
      log := log + [Exchange(purpose, usable)];
    }

    method RequestDeploy(v: Version) returns (ok: bool)
      requires Valid() && Clean(log) && Now().target == v && Now().phase.Surveyed?
      modifies this
      ensures Valid() && begun == old(begun) && log == old(log) + [Exchange(DeployWorker, ok)]
      ensures ticks == old(ticks) + 1 && ok == script(old(ticks)).succeeds
      ensures var step := AskDeploy(script(old(ticks)).takes, script(old(ticks)).landing);
              steps == old(steps) + [step] && Now() == Next(old(Now()), step)
    {
      var behaviour := script(ticks);
      var asked := if behaviour.takes then site.(uploading := Some(v)) else site;
      ticks, site := ticks + 1, Advance(asked, behaviour.landing);
      Note(AskDeploy(behaviour.takes, behaviour.landing));
      ok := behaviour.succeeds;
      log := log + [Exchange(DeployWorker, ok)];
    }

    method RequestPrune(stale: set<string>) returns (ok: bool)
      requires Valid() && Clean(log) && Now().phase == Requested(stale) && Marked(site, Now().target)
      modifies this
      ensures Valid() && begun == old(begun) && log == old(log) + [Exchange(PruneSecrets, ok)]
      ensures ticks == old(ticks) + 1 && ok == script(old(ticks)).succeeds
      ensures var step := AskPrune(script(old(ticks)).takes, script(old(ticks)).landing);
              steps == old(steps) + [step] && Now() == Next(old(Now()), step)
      ensures Settled(old(site), Now().target) ==> Settled(site, Now().target)
    {
      var behaviour := script(ticks);
      var asked := if behaviour.takes then site.(pruning := site.pruning + stale) else site;
      ticks, site := ticks + 1, Advance(asked, behaviour.landing);
      Note(AskPrune(behaviour.takes, behaviour.landing));
      ok := behaviour.succeeds;
      log := log + [Exchange(PruneSecrets, ok)];
    }
  }

  const ACTIVATION_ATTEMPTS := 12
  const SECRET_ATTEMPTS := 10

  /** A run of `v` after its survey, which found `stale`: no command has failed,
      and `stages` are behind it. */
  ghost predicate Rolling(p: Provider, v: Version, stale: set<string>, stages: seq<Purpose>)
    reads p
  {
    && p.Valid() && p.begun.target == v && p.begun.phase == Begun && p.Now().target == v && !p.Now().phase.Begun?
    && FoundStale(p.begun, p.steps) == stale && (Asks(p.steps) ==> stale != {})
    && Clean(p.log) && Passed(p.log, stages)
  }

  /** `Rolling`, with the version requested and the new marker read back. */
  ghost predicate Activated(p: Provider, v: Version, stale: set<string>, stages: seq<Purpose>)
    reads p
  {
    && Rolling(p, v, stale, stages) && !p.Now().phase.Surveyed?
    && (!Carries(p.begun.site, v) ==> Settled(p.site, v))
  }

  /** One readback, or one command that requests nothing of the site. */
  method Continue(p: Provider, v: Version, purpose: Purpose, ghost stale: set<string>, ghost stages: seq<Purpose>)
    returns (ok: bool)
    requires Rolling(p, v, stale, stages)
    modifies p
    ensures p.Valid() && p.begun == old(p.begun) && p.log == old(p.log) + [Exchange(purpose, ok)]
    ensures p.Now().phase == old(p.Now()).phase
    ensures ok || !Commands(purpose) ==> Rolling(p, v, stale, stages)
    ensures ok ==> Rolling(p, v, stale, stages + [purpose])
    ensures Clean(p.log) <==> ok || !Commands(purpose)
    ensures FoundStale(p.begun, p.steps) == stale && (Asks(p.steps) ==> stale != {})
    ensures old(Activated(p, v, stale, stages)) ==> (!Carries(p.begun.site, v) ==> Settled(p.site, v))
    ensures ok == p.script(old(p.ticks)).succeeds && (Still(old(p.site)) ==> p.site == old(p.site))
    ensures exists landing :: p.site == Advance(old(p.site), landing)
  {
    ghost var steps, log := p.steps, p.log;
    ok := p.Observe(purpose);
    ghost var wait := Wait(p.script(old(p.ticks)).landing);
    FoundStaleOn(p.begun, steps, wait);
    assert forall step :: step in p.steps <==> step in steps || step == wait;
    PassedOn(log, stages, Exchange(purpose, ok));
    assert forall e :: e in p.log <==> e in log || e == Exchange(purpose, ok);
    if Still(old(p.site)) { StillStays(old(p.site), wait.landing); }
  }

  method WaitForActivatedDeployment(p: Provider, v: Version, ghost stale: set<string>, ghost stages: seq<Purpose>)
    returns (ok: bool)
    requires Rolling(p, v, stale, stages) && p.Now().phase.Requested?
    modifies p
    ensures p.begun == old(p.begun) && Rolling(p, v, stale, if ok then stages + [ReadDeployment] else stages)
    ensures p.Now().phase == old(p.Now()).phase
    ensures ok ==> Marked(p.site, v) && Activated(p, v, stale, stages + [ReadDeployment])
    ensures if ok then |p.log| <= |old(p.log)| + ACTIVATION_ATTEMPTS
            else |p.log| == |old(p.log)| + ACTIVATION_ATTEMPTS
    ensures Eager(p.script, {}) && Still(old(p.site)) && Marked(old(p.site), v) ==> ok && p.site == old(p.site)
  {
    hide Sequenced, Carries, Advance, Passed, Clean, FoundStale, Asks;
    for attempt := 0 to ACTIVATION_ATTEMPTS
      invariant p.begun == old(p.begun) && Rolling(p, v, stale, stages) && p.Now().phase == old(p.Now()).phase
      invariant |p.log| == |old(p.log)| + attempt
      invariant Still(old(p.site)) ==> p.site == old(p.site)
      invariant attempt > 0 ==> !(Eager(p.script, {}) && Still(old(p.site)) && Marked(old(p.site), v))
    {
      ghost var tick := p.ticks;
      var usable := Continue(p, v, ReadDeployment, stale, stages);
      if usable && p.site.serving.Some? && p.site.serving.value.marker == v.marker {
        MarkedSettles(p, v);
        return true;
      }
    }
    ok := false;
  }

  lemma {:induction false} MarkedSettles(p: Provider, v: Version)
    requires p.Valid() && p.begun.target == v && p.begun.phase == Begun && Marked(p.site, v)
    requires p.Now().phase.Requested? && p.Now().target == v
    ensures !Carries(p.begun.site, v) ==> Settled(p.site, v)
  {
    if !Carries(p.begun.site, v) { RunKeepsSequenced(p.begun, p.steps); }
  }

  /** A readback that fails ends the wait at once; a difference is retried. */
  method WaitForSecretNames(p: Provider, v: Version, ghost stale: set<string>, ghost stages: seq<Purpose>)
    returns (ok: bool)
    requires Activated(p, v, stale, stages)
    modifies p
    ensures p.begun == old(p.begun) && Activated(p, v, stale, if ok then stages + [ReadSecrets] else stages)
    ensures p.Now().phase == old(p.Now()).phase
    ensures ok ==> p.site.stored == v.needs
    ensures !ok ==> p.log != [] && (!p.log[|p.log| - 1].succeeded || |p.log| == |old(p.log)| + SECRET_ATTEMPTS)
    ensures Eager(p.script, {}) && Still(old(p.site)) && old(p.site).stored == v.needs ==> ok && p.site == old(p.site)
  {
    hide Carries, Settled, Advance, Passed, Clean, FoundStale, Asks;
    for attempt := 0 to SECRET_ATTEMPTS
      invariant p.begun == old(p.begun) && Activated(p, v, stale, stages) && p.Now().phase == old(p.Now()).phase
      invariant |p.log| == |old(p.log)| + attempt
      invariant Still(old(p.site)) ==> p.site == old(p.site)
      invariant attempt > 0 ==> !(Eager(p.script, {}) && Still(old(p.site)) && old(p.site).stored == v.needs)
    {
      var usable := Continue(p, v, ReadSecrets, stale, stages);
      if !usable {
        return false;
      }
      if p.site.stored == v.needs {
        return true;
      }
    }
    ok := false;
  }

  datatype DeployError =
    | InvalidSecrets | ReadbackFailed | UnownedWorker | CommandFailed | NotActivated | SecretsDiffer

  /** The exchanges of a run that completes. */
  function Stages(prunes: bool): seq<Purpose> {
    [ReadDeployment, ReadSecrets, Migrate, DeployWorker, ReadDeployment]
    + (if prunes then [PruneSecrets] else [])
    + [ReconcileConsumers, ReadSecrets, VerifyResources]
  }

  lemma {:induction false} StillReaches(s: Site, v: Version, landing: Landing)
    requires landing.uploads && landing.activates && Still(s)
    ensures var asked := Advance(s.(uploading := Some(v)), landing);
            Still(asked) && asked.serving == Some(v) && asked.stored == s.stored + v.needs
    ensures forall stale: set<string> | stale <= landing.pruned ::
              Still(Advance(s.(pruning := s.pruning + stale), landing))
              && Advance(s.(pruning := s.pruning + stale), landing).stored == s.stored - stale
  {
  }

  lemma {:induction false} FirstLanding(s: Site, landing: Landing)
    requires landing.uploads && landing.activates && s.pruning <= landing.pruned
    ensures var first := Advance(s, landing);
            && Still(first) && first.stored <= Past(s)
            && first.serving in {s.serving, s.staged, s.uploading}
  {
  }

  /** Whatever serves or is on its way is the product's own. */
  predicate AllOwned(s: Site) {
    forall u | u in {s.serving, s.staged, s.uploading} && u.Some? :: u.value.owned
  }

  /** The queue consumers are reconciled, the secrets awaited, and containers,
      consumers and health read back last. */
  method Finish(p: Provider, v: Version, ghost stale: set<string>, ghost stages: seq<Purpose>)
    returns (r: Result<(), DeployError>)
    requires Activated(p, v, stale, stages)
    modifies p
    ensures p.Valid() && p.begun == old(p.begun) && p.Now().phase == old(p.Now()).phase
    ensures FoundStale(p.begun, p.steps) == stale && (Asks(p.steps) ==> stale != {})
    ensures r.Ok? ==> Activated(p, v, stale, stages + [ReconcileConsumers, ReadSecrets, VerifyResources])
    ensures r.Ok? && !Carries(p.begun.site, v) && Clear(p.begun.site, v) ==> p.site.stored == v.needs
    ensures r.Err? ==> r.error in {CommandFailed, SecretsDiffer, ReadbackFailed}
    ensures Clean(p.log) <==> r != Err(CommandFailed)
    ensures Eager(p.script, {}) && Still(old(p.site)) && old(p.site).stored == v.needs ==> r.Ok?
  {
    hide Carries, Clear, Passed, Clean, Settled, FoundStale, Asks;
    var ok := Continue(p, v, ReconcileConsumers, stale, stages);
    if !ok { return Err(CommandFailed); }
    ok := WaitForSecretNames(p, v, stale, stages + [ReconcileConsumers]);
    if !ok { return Err(SecretsDiffer); }
    if !Carries(p.begun.site, v) && Clear(p.begun.site, v) { RunKeepsInOrder(p.begun, p.steps); }
    ghost var before := p.site;
    ok := Continue(p, v, VerifyResources, stale, stages + [ReconcileConsumers] + [ReadSecrets]);
    SettledKeepsStored(before, p.site, v);
    r := if ok then Ok(()) else Err(ReadbackFailed);
    assert stages + [ReconcileConsumers] + [ReadSecrets] + [VerifyResources]
           == stages + [ReconcileConsumers, ReadSecrets, VerifyResources];
  }

  lemma {:induction false} SettledKeepsStored(before: Site, after: Site, v: Version)
    requires exists landing :: after == Advance(before, landing)
    requires before.stored == v.needs
    ensures Settled(before, v) && Clear(before, v) ==> after.stored == v.needs
  {
  }

  /** What a run has to go by before its survey. */
  ghost predicate Starting(p: Provider, v: Version, stages: seq<Purpose>)
    reads p
  {
    && p.Valid() && p.begun == Rollout(v, p.begun.site, Begun) && p.Now().target == v && p.Now().phase == Begun
    && !Asks(p.steps) && Clean(p.log) && Passed(p.log, stages)
  }

  /** The deployment and then the secrets are read, and ownership is checked. */
  method SurveySite(p: Provider, v: Version) returns (r: Result<set<string>, DeployError>)
    requires Starting(p, v, []) && p.steps == []
    modifies p
    ensures p.begun == old(p.begun) && p.Valid()
    ensures r.Ok? ==> Rolling(p, v, r.value, [ReadDeployment, ReadSecrets]) && p.Now().phase == Surveyed(r.value)
    ensures r.Err? ==> Starting(p, v, []) && r.error in {ReadbackFailed, UnownedWorker}
    ensures r == Err(UnownedWorker) ==> p.site.serving.Some? && !p.site.serving.value.owned
    ensures Unowned(old(p.site)) ==> r.Err?
    ensures Asks(p.steps) == false
    ensures Eager(p.script, old(p.site).pruning) && AllOwned(old(p.site)) ==>
              r.Ok? && Still(p.site) && r.value == p.site.stored - v.needs && p.site.stored <= Past(old(p.site))
  {
    hide Advance, Passed, Clean, FoundStale;
    ghost var log0, steps0 := p.log, p.steps;
    var usable := p.Observe(ReadDeployment);
    ghost var steps1, log1 := p.steps, p.log;
    FirstObserved(p, steps0, log0, [], Exchange(ReadDeployment, usable));
    if Eager(p.script, old(p.site).pruning) { FirstLanding(old(p.site), p.script(old(p.ticks)).landing); }
    UnownedStays(old(p.site), p.script(old(p.ticks)).landing);
    if !usable { return Err(ReadbackFailed); }
    if p.site.serving.Some? && !p.site.serving.value.owned { return Err(UnownedWorker); }
    ghost var first := p.site;
    usable := p.Observe(ReadSecrets);
    FirstObserved(p, steps1, log1, [ReadDeployment], Exchange(ReadSecrets, usable));
    if Still(first) { StillStays(first, p.script(old(p.ticks) + 1).landing); }
    if !usable { return Err(ReadbackFailed); }
    var existing := p.site.stored;
    ghost var steps2 := p.steps;
    p.Note(Survey);
    SurveyFinds(p.begun, steps2);
    assert forall step :: step in p.steps <==> step in steps2 || step == Survey;
    assert [ReadDeployment] + [ReadSecrets] == [ReadDeployment, ReadSecrets];
    r := Ok(existing - v.needs);
  }

  /** A version of somebody else serves, and nothing is about to replace it. */
  predicate Unowned(s: Site) {
    s.serving.Some? && !s.serving.value.owned && s.staged.None? && s.uploading.None?
  }

  lemma {:induction false} UnownedStays(s: Site, landing: Landing)
    ensures Unowned(s) ==> Unowned(Advance(s, landing))
  {
  }

  lemma {:induction false} FirstObserved(p: Provider, steps: seq<Step>, log: seq<Exchange>, stages: seq<Purpose>,
          e: Exchange)
    requires Clean(log) && Passed(log, stages) && !Commands(e.purpose) && p.log == log + [e] && !Asks(steps)
    requires exists landing :: p.steps == steps + [Wait(landing)]
    ensures Clean(p.log) && Passed(p.log, stages) && !Asks(p.steps)
    ensures e.succeeded ==> Passed(p.log, stages + [e.purpose])
    ensures [] + [ReadDeployment] == [ReadDeployment] && Passed(p.log, [])
  {
    PassedOn(log, stages, e);
    assert forall x :: x in p.log <==> x in log || x == e;
  }

  lemma {:induction false} SurveyFinds(r: Rollout, steps: seq<Step>)
    requires Follows(r, steps) && r.phase.Begun? && After(r, steps).phase.Begun? && Follows(r, steps + [Survey])
    ensures FoundStale(r, steps + [Survey]) == After(r, steps).site.stored - r.target.needs
    decreases steps
  {
    if steps == [] {
      assert ([] + [Survey])[1..] == [];
    } else {
      assert (steps + [Survey])[1..] == steps[1..] + [Survey];
      PhaseTells(Next(r, steps[0]), steps[1..]);
      RunKeepsKnown(r, [steps[0]]);
      SurveyFinds(Next(r, steps[0]), steps[1..]);
    }
  }

  /** The version is requested and its marker awaited. */
  method ReplaceVersion(p: Provider, v: Version, ghost stale: set<string>) returns (r: Result<(), DeployError>)
    requires Rolling(p, v, stale, [ReadDeployment, ReadSecrets]) && p.Now().phase == Surveyed(stale)
    modifies p
    ensures p.begun == old(p.begun) && p.Valid() && FoundStale(p.begun, p.steps) == stale && !Asks(p.steps)
    ensures r.Ok? ==>
              Activated(p, v, stale, Stages(false)[..5]) && p.Now().phase == Requested(stale) && Marked(p.site, v)
    ensures r.Err? ==> r.error in {CommandFailed, NotActivated}
    ensures Clean(p.log) <==> r != Err(CommandFailed)
    ensures Eager(p.script, {}) && Still(old(p.site)) ==>
              r.Ok? && Still(p.site) && p.site.stored == old(p.site).stored + v.needs
  {
    hide Advance, Passed, Clean, FoundStale, Settled;
    PhaseTells(p.begun, p.steps);
    var ok := Continue(p, v, Migrate, stale, [ReadDeployment, ReadSecrets]);
    PhaseTells(p.begun, p.steps);
    if !ok { return Err(CommandFailed); }
    assert [ReadDeployment, ReadSecrets] + [Migrate] == [ReadDeployment, ReadSecrets, Migrate];
    ghost var steps, log, before, tick := p.steps, p.log, p.site, p.ticks;
    ok := p.RequestDeploy(v);
    DeployNoted(p, steps, log, [ReadDeployment, ReadSecrets, Migrate], ok);
    if !ok { return Err(CommandFailed); }
    if Still(before) && Eager(p.script, {}) { StillReaches(before, v, p.script(tick).landing); }
    assert [ReadDeployment, ReadSecrets, Migrate] + [DeployWorker]
           == [ReadDeployment, ReadSecrets, Migrate, DeployWorker];
    ok := WaitForActivatedDeployment(p, v, stale, [ReadDeployment, ReadSecrets, Migrate, DeployWorker]);
    PhaseTells(p.begun, p.steps);
    assert [ReadDeployment, ReadSecrets, Migrate, DeployWorker] + [ReadDeployment] == Stages(false)[..5];
    r := if ok then Ok(()) else Err(NotActivated);
  }

  lemma {:induction false} DeployNoted(p: Provider, steps: seq<Step>, log: seq<Exchange>, stages: seq<Purpose>,
          ok: bool)
    requires p.Valid() && Follows(p.begun, steps) && p.begun.phase.Begun? && !After(p.begun, steps).phase.Begun?
    requires exists taken, landing :: p.steps == steps + [AskDeploy(taken, landing)]
    requires Clean(log) && Passed(log, stages) && p.log == log + [Exchange(DeployWorker, ok)] && !Asks(steps)
    ensures FoundStale(p.begun, p.steps) == FoundStale(p.begun, steps) && !Asks(p.steps)
    ensures (Clean(p.log) <==> ok) && (ok ==> Passed(p.log, stages + [DeployWorker]))
  {
    var taken, landing :| p.steps == steps + [AskDeploy(taken, landing)];
    FoundStaleOn(p.begun, steps, AskDeploy(taken, landing));
    PassedOn(log, stages, Exchange(DeployWorker, ok));
    assert forall x :: x in p.log <==> x in log || x == Exchange(DeployWorker, ok);
  }

  /** The stale secrets are pruned, once the new version serves. */
  method PruneStale(p: Provider, v: Version, stale: set<string>) returns (ok: bool)
    requires Activated(p, v, stale, Stages(false)[..5]) && p.Now().phase == Requested(stale) && Marked(p.site, v)
    requires stale != {}
    modifies p
    ensures p.begun == old(p.begun) && p.Valid() && FoundStale(p.begun, p.steps) == stale && Asks(p.steps)
    ensures ok ==> Activated(p, v, stale, Stages(true)[..6])
    ensures Clean(p.log) <==> ok
    ensures Eager(p.script, stale) && Still(old(p.site)) ==>
              ok && Still(p.site) && p.site.stored == old(p.site).stored - stale
  {
    hide Advance, Passed, Clean, FoundStale, Settled;
    ghost var steps, log := p.steps, p.log;
    ok := p.RequestPrune(stale);
    ghost var step := AskPrune(p.script(old(p.ticks)).takes, p.script(old(p.ticks)).landing);
    FoundStaleOn(p.begun, steps, step);
    PruneNoted(log, p.log, ok);
    assert step in p.steps;
    if Still(old(p.site)) && Eager(p.script, stale) { StillReaches(old(p.site), v, p.script(old(p.ticks)).landing); }
  }

  lemma {:induction false} PruneNoted(before: seq<Exchange>, log: seq<Exchange>, ok: bool)
    requires Clean(before) && Passed(before, Stages(false)[..5]) && log == before + [Exchange(PruneSecrets, ok)]
    ensures (Clean(log) <==> ok) && (ok ==> Passed(log, Stages(true)[..6]))
  {
    PassedOn(before, Stages(false)[..5], Exchange(PruneSecrets, ok));
    assert Stages(false)[..5] + [PruneSecrets] == Stages(true)[..6];
    assert forall x :: x in log <==> x in before || x == Exchange(PruneSecrets, ok);
  }

  method Roll(p: Provider, v: Version) returns (r: Result<(), DeployError>)
    requires Starting(p, v, []) && p.steps == []
    modifies p
    ensures p.Valid() && p.begun == old(p.begun)
    ensures r.Ok? ==> Activated(p, v, FoundStale(p.begun, p.steps), Stages(Asks(p.steps)))
    ensures r.Ok? && !Carries(p.begun.site, v) && Clear(p.begun.site, v) ==> p.site.stored == v.needs
    ensures r != Err(InvalidSecrets) && (r == Err(CommandFailed) <==> !Clean(p.log))
    ensures r == Err(UnownedWorker) ==>
              p.Now().phase == Begun && p.site.serving.Some? && !p.site.serving.value.owned
    ensures Unowned(old(p.site)) ==> r.Err? && p.Now().phase == Begun
    ensures Asks(p.steps) ==> FoundStale(p.begun, p.steps) != {}
    ensures r.Ok? || r == Err(SecretsDiffer) ==> (FoundStale(p.begun, p.steps) != {} ==> Asks(p.steps))
    ensures Eager(p.script, Past(old(p.site)) + old(p.site).pruning) && AllOwned(old(p.site)) ==> r.Ok?
  {
    hide Clear, Carries, Settled, Advance, Passed, Clean, FoundStale, Asks, Eager;
    ghost var names := Past(p.site) + p.site.pruning;
    EagerLess(p.script, names, p.site.pruning);
    EagerLess(p.script, names, {});
    var surveyed := SurveySite(p, v);
    if surveyed.Err? { return Err(surveyed.error); }
    var stale := surveyed.value;
    ghost var found := p.site.stored;
    if stale <= names { EagerLess(p.script, names, stale); }
    r := ReplaceVersion(p, v, stale);
    if r.Err? { return; }
    if stale != {} {
      var ok := PruneStale(p, v, stale);
      if !ok { return Err(CommandFailed); }
      PhaseTells(p.begun, p.steps);
      assert stale == found - v.needs ==> found + v.needs - stale == v.needs;
      r := Finish(p, v, stale, Stages(true)[..6]);
      assert Stages(true)[..6] + [ReconcileConsumers, ReadSecrets, VerifyResources] == Stages(true);
    } else {
      PhaseTells(p.begun, p.steps);
      assert stale == found - v.needs ==> forall name | name in found :: name in v.needs || name in stale;
      assert stale == found - v.needs ==> found + v.needs == v.needs;
      r := Finish(p, v, stale, Stages(false)[..5]);
      assert Stages(false)[..5] + [ReconcileConsumers, ReadSecrets, VerifyResources] == Stages(false);
    }
    PhaseTells(p.begun, p.steps);
  }

  lemma {:induction false} EagerLess(script: nat -> Behaviour, names: set<string>, fewer: set<string>)
    requires fewer <= names
    ensures Eager(script, names) ==> Eager(script, fewer)
  {
  }

  /** Every run takes steps of the rollout of `v`, from whatever site earlier runs
      left. If that site is clear and does not carry the new marker, the serving
      version has its secrets at every point, and the site stays clear wherever
      the run stops. Success then means that every stage was passed in order, that
      the new version serves with nothing on its way, and that exactly the desired
      secrets are stored. The prune is asked for exactly when the survey found
      stale names, and once it is taken none of them stays behind. A failed
      command ends the run. A provider that does what it is asked lets an owned,
      clear and fresh site come through. */
  method MaterializePostApply(p: Provider, v: Version) returns (r: Result<(), DeployError>)
    modifies p
    ensures p.Valid() && p.begun == Rollout(v, old(p.site), Begun)
    ensures !Carries(old(p.site), v) && Clear(old(p.site), v)
            ==> ServedThroughout(p.begun, p.steps) && Clear(p.site, v)
    ensures r.Ok? ==> Passed(p.log, Stages(FoundStale(p.begun, p.steps) != {}))
    ensures !Carries(old(p.site), v) && r.Ok? ==> Settled(p.site, v)
    ensures !Carries(old(p.site), v) && r.Ok? && Clear(old(p.site), v) ==> p.site.stored == v.needs
    ensures Asks(p.steps) ==> FoundStale(p.begun, p.steps) != {}
    ensures (r.Ok? || r == Err(SecretsDiffer)) && FoundStale(p.begun, p.steps) != {} ==> Asks(p.steps)
    ensures !Carries(old(p.site), v) && Takes(p.steps) ==> Leaving(p.site, FoundStale(p.begun, p.steps))
    ensures r == Err(CommandFailed) <==> !Clean(p.log)
    ensures r == Err(InvalidSecrets) <==> !Permitted(v.needs)
    ensures r == Err(InvalidSecrets) <==>
            || (exists name | name in REQUIRED_SECRET_NAMES :: name !in v.needs)
            || (exists name | name in v.needs :: name !in REQUIRED_SECRET_NAMES && name !in OPTIONAL_SECRET_NAMES)
    ensures r == Err(InvalidSecrets) ==> p.steps == []
    ensures r == Err(UnownedWorker) ==>
              p.Now().phase == Begun && p.site.serving.Some? && !p.site.serving.value.owned
    ensures Unowned(old(p.site)) ==> r.Err? && p.Now().phase == Begun
    ensures Permitted(v.needs) && AllOwned(old(p.site)) && Eager(p.script, Past(old(p.site)) + old(p.site).pruning)
            ==> r.Ok?
  {
    hide Clear, Carries, Settled, Advance, Passed, Eager, Leaving, FoundStale, Asks, Takes;
    p.Begin(v);
    NothingYet(p);
    if !(REQUIRED_SECRET_NAMES <= v.needs <= REQUIRED_SECRET_NAMES + OPTIONAL_SECRET_NAMES) {
      return Err(InvalidSecrets);
    }
    r := Roll(p, v);
    FreshRun(p.begun, p.steps);
    assert r.Ok? ==> (Asks(p.steps) <==> FoundStale(p.begun, p.steps) != {});
  }

  lemma {:induction false} NothingYet(p: Provider)
    requires p.Valid() && p.begun.phase == Begun && p.steps == [] && p.log == []
    ensures Starting(p, p.begun.target, []) && p.Now().phase == Begun && !Takes(p.steps)
    ensures !Carries(p.begun.site, p.begun.target) && Clear(p.begun.site, p.begun.target)
            ==> ServedThroughout(p.begun, p.steps) && Clear(p.site, p.begun.target)
  {
  }

  /** What a course from a site without the marker keeps, wherever it stops. */
  lemma {:induction false} FreshRun(r: Rollout, steps: seq<Step>)
    requires Follows(r, steps) && r.phase == Begun
    ensures !Carries(r.site, r.target) && Clear(r.site, r.target)
            ==> ServedThroughout(r, steps) && Clear(After(r, steps).site, r.target)
    ensures !Carries(r.site, r.target) && Takes(steps) ==> Leaving(After(r, steps).site, FoundStale(r, steps))
  {
    if !Carries(r.site, r.target) {
      if Clear(r.site, r.target) { RunKeepsInOrder(r, steps); }
      if Takes(steps) { TakenLeaves(r, steps, FoundStale(r, steps)); }
    }
  }
}
