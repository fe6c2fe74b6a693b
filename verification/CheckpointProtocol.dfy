/**
 Whole runs of a checkpointing agent: usage is recorded, checkpoints are saved
 over a network that may lose a save or deliver it late, containers crash, and
 their replacements load what was stored.
 */
module CheckpointProtocol {
  import opened Wrappers
  import opened Usage
  import opened Checkpoint

  /** A save together with the usage records that its total counts. */
  datatype Entry = Entry(saved: Saved, counted: seq<UsageSnapshot>)

  datatype State = State(
    tracker: UsageSnapshot,
    fatal: Option<string>,
    stored: Option<Entry>,
    flying: set<Entry>,
    sent: set<Saved>,
    counted: seq<UsageSnapshot>,   // the records counted by the tracker
    recorded: seq<UsageSnapshot>)  // every record any container ever made

  datatype Step =
    | Record(usage: UsageSnapshot)
    | Save(checkpoint: LoopState, applied: bool, delayed: bool)
    | Deliver(entry: Entry)
    | SetFatal(message: string)
    | Load(fatalError: Option<string>)
    | Crash

  predicate Enabled(s: State, step: Step) {
    step.Deliver? ==> step.entry in s.flying
  }

  function StoredPair(s: State): Option<Saved> {
    if s.stored.Some? then Some(s.stored.value.saved) else None
  }

  function Next(s: State, step: Step): State
    requires Enabled(s, step)
  {
    match step
    case Record(usage) =>
      s.(tracker := Add(s.tracker, usage), counted := s.counted + [usage], recorded := s.recorded + [usage])
    case Save(checkpoint, applied, delayed) =>
      if s.fatal.Some? then s
      else
        var entry := Entry(Saved(checkpoint, s.tracker), s.counted);
        s.(stored := if applied then Some(entry) else s.stored,
           flying := if delayed then s.flying + {entry} else s.flying,
           sent := s.sent + {entry.saved})
    case Deliver(entry) => s.(stored := Some(entry), flying := s.flying - {entry})
    case SetFatal(message) => s.(fatal := Some(message))
    case Load(fatalError) =>
      s.(tracker := LoadAnswer(StoredPair(s), fatalError).usage, fatal := fatalError,
         counted := if s.stored.Some? then s.stored.value.counted else [])
    case Crash => s.(tracker := NO_USAGE, fatal := None, counted := [])
  }

  const INIT := State(NO_USAGE, None, None, {}, {}, [], [])

  predicate Follows(s: State, steps: seq<Step>)
    decreases steps
  {
    steps == [] || (Enabled(s, steps[0]) && Follows(Next(s, steps[0]), steps[1..]))
  }

  function After(s: State, steps: seq<Step>): State
    requires Follows(s, steps)
    decreases steps
  {
    if steps == [] then s else After(Next(s, steps[0]), steps[1..])
  }

  function ViewOf(s: State): View {
    View(s.tracker, s.fatal, StoredPair(s))
  }

  /** Saves and loads here are the repository's own. */
  lemma {:induction false} StepView(s: State, step: Step)
    requires Enabled(s, step)
    ensures step.Save? ==> ViewOf(Next(s, step)) == Checkpoint.Save(ViewOf(s), step.checkpoint, step.applied)
    ensures step.Load? ==> ViewOf(Next(s, step)) == Checkpoint.Load(ViewOf(s), step.fatalError)
  {
  }

  // ----- Accounting -----

  /** `part` is `whole` with some elements left out. */
  predicate Subsequence(part: seq<UsageSnapshot>, whole: seq<UsageSnapshot>)
    decreases whole
  {
    part == [] ||
    (&& whole != []
     && ((part[|part| - 1] == whole[|whole| - 1] && Subsequence(part[..|part| - 1], whole[..|whole| - 1]))
         || Subsequence(part, whole[..|whole| - 1])))
  }

  /** The entry's total is exactly its records, each of which was made once. */
  predicate Accounted(entry: Entry, recorded: seq<UsageSnapshot>) {
    entry.saved.usage == Accumulate(NO_USAGE, entry.counted) && Subsequence(entry.counted, recorded)
  }

  predicate Sound(s: State) {
    && s.tracker == Accumulate(NO_USAGE, s.counted)
    && Subsequence(s.counted, s.recorded)
    && (forall e | e in s.flying :: Accounted(e, s.recorded) && e.saved in s.sent)
    && (s.stored.Some? ==> Accounted(s.stored.value, s.recorded) && s.stored.value.saved in s.sent)
  }

  lemma {:induction false} SubsequenceGrows(part: seq<UsageSnapshot>, whole: seq<UsageSnapshot>, u: UsageSnapshot)
    requires Subsequence(part, whole)
    ensures Subsequence(part, whole + [u]) && Subsequence(part + [u], whole + [u])
  {
  }

  lemma {:induction false} RecordKeepsSound(s: State, u: UsageSnapshot)
    requires Sound(s)
    ensures Sound(Next(s, Record(u)))
  {
    AccumulateConcat(NO_USAGE, s.counted, [u]);
    SubsequenceGrows(s.counted, s.recorded, u);
    forall e | e in s.flying ensures Accounted(e, s.recorded + [u]) {
      SubsequenceGrows(e.counted, s.recorded, u);
    }
    if s.stored.Some? {
      SubsequenceGrows(s.stored.value.counted, s.recorded, u);
    }
  }

  lemma {:induction false} StepKeepsSound(s: State, step: Step)
    requires Sound(s) && Enabled(s, step)
    ensures Sound(Next(s, step))
  {
    if step.Record? { RecordKeepsSound(s, step.usage); }
  }

  lemma {:induction false} RunKeepsSound(s: State, steps: seq<Step>)
    requires Sound(s) && Follows(s, steps)
    ensures Sound(After(s, steps))
    decreases steps
  {
    if steps == [] {
    } else {
      StepKeepsSound(s, steps[0]);
      RunKeepsSound(Next(s, steps[0]), steps[1..]);
    }
  }

  lemma {:induction false} SumsSnoc(records: seq<UsageSnapshot>, u: UsageSnapshot)
    ensures Sum(InputsOf(records + [u])) == Sum(InputsOf(records)) + u.inputTokens
    ensures Sum(OutputsOf(records + [u])) == Sum(OutputsOf(records)) + u.outputTokens
    ensures Sum(CachedOf(records + [u])) == Sum(CachedOf(records)) + u.cachedInputTokens
    decreases records
  {
    if records == [] {
    } else {
      assert (records + [u])[1..] == records[1..] + [u];
      SumsSnoc(records[1..], u);
    }
  }

  lemma {:induction false} SubsequenceSums(part: seq<UsageSnapshot>, whole: seq<UsageSnapshot>)
    requires Subsequence(part, whole)
    ensures Sum(InputsOf(part)) <= Sum(InputsOf(whole))
    ensures Sum(OutputsOf(part)) <= Sum(OutputsOf(whole))
    ensures Sum(CachedOf(part)) <= Sum(CachedOf(whole))
    decreases whole
  {
    if part == [] {
    } else {
      var most, last := whole[..|whole| - 1], whole[|whole| - 1];
      assert whole == most + [last];
      SumsSnoc(most, last);
      if part[|part| - 1] == last && Subsequence(part[..|part| - 1], most) {
        assert part == part[..|part| - 1] + [last];
        SumsSnoc(part[..|part| - 1], last);
        SubsequenceSums(part[..|part| - 1], most);
      } else {
        SubsequenceSums(part, most);
      }
    }
  }

  /** Over every run with lost saves, late saves, crashes and reloads: the stored
      pair was sent as one body, its usage and the tracker's are the capped total
      of records each counted at most once, and so never exceed what was used. */
  lemma {:induction false} UsageSurvives(steps: seq<Step>)
    requires Follows(INIT, steps)
    ensures var s := After(INIT, steps);
            && (s.stored.Some? ==> s.stored.value.saved in s.sent)
            && (s.stored.Some? ==> s.stored.value.saved.usage == Accumulate(NO_USAGE, s.stored.value.counted))
            && s.tracker == Accumulate(NO_USAGE, s.counted)
            && s.tracker.inputTokens <= Capped(Sum(InputsOf(s.recorded)))
            && s.tracker.outputTokens <= Capped(Sum(OutputsOf(s.recorded)))
            && s.tracker.cachedInputTokens <= Capped(Sum(CachedOf(s.recorded)))
  {
    RunKeepsSound(INIT, steps);
    var s := After(INIT, steps);
    AccumulateIsCappedSum(NO_USAGE, s.counted);
    SubsequenceSums(s.counted, s.recorded);
  }

  // ----- Between loads -----

  function RecordsIn(steps: seq<Step>): seq<UsageSnapshot> {
    if steps == [] then []
    else (if steps[0].Record? then [steps[0].usage] else []) + RecordsIn(steps[1..])
  }

  predicate NoLoad(steps: seq<Step>) {
    forall step | step in steps :: !step.Load? && !step.Crash?
  }

  /** After a load, and until the next one, the total is the stored usage plus
      the later records, capped; nothing else moves it. */
  lemma {:induction false} RecoveredTotal(s: State, fatalError: Option<string>, steps: seq<Step>)
    requires Follows(Next(s, Load(fatalError)), steps) && NoLoad(steps)
    ensures After(Next(s, Load(fatalError)), steps).tracker
            == Accumulate(LoadAnswer(StoredPair(s), fatalError).usage, RecordsIn(steps))
  {
    TotalBetweenLoads(Next(s, Load(fatalError)), steps);
  }

  lemma {:induction false} TotalBetweenLoads(s: State, steps: seq<Step>)
    requires Follows(s, steps) && NoLoad(steps)
    ensures After(s, steps).tracker == Accumulate(s.tracker, RecordsIn(steps))
    decreases steps
  {
    if steps == [] {
    } else {
      TotalBetweenLoads(Next(s, steps[0]), steps[1..]);
      AccumulateConcat(s.tracker, if steps[0].Record? then [steps[0].usage] else [], RecordsIn(steps[1..]));
    }
  }

  /** From the fatal flag to the next load no save is sent, and the stored pair
      can only become one that was already on its way. */
  lemma {:induction false} FatalFreezes(s: State, steps: seq<Step>)
    requires s.fatal.Some? && Follows(s, steps) && NoLoad(steps)
    ensures var s' := After(s, steps);
            && s'.fatal.Some? && s'.sent == s.sent && s'.flying <= s.flying
            && (s'.stored == s.stored || (s'.stored.Some? && s'.stored.value in s.flying))
            && (s.flying == {} ==> s'.stored == s.stored)
    decreases steps
  {
    if steps == [] {
    } else {
      FatalFreezes(Next(s, steps[0]), steps[1..]);
    }
  }

  /** The stored pair itself is frozen exactly when no other save is on its way. */
  lemma {:induction false} StoredFrozenIff(s: State)
    requires s.fatal.Some?
    ensures (forall steps | Follows(s, steps) && NoLoad(steps) :: After(s, steps).stored == s.stored)
            <==> forall e | e in s.flying :: s.stored == Some(e)
  {
    if forall e | e in s.flying :: s.stored == Some(e) {
      forall steps | Follows(s, steps) && NoLoad(steps) ensures After(s, steps).stored == s.stored {
        FatalFreezes(s, steps);
      }
    } else {
      var e :| e in s.flying && s.stored != Some(e);
      var steps := [Deliver(e)];
      assert steps[1..] == [] && Follows(Next(s, Deliver(e)), []);
      assert Follows(s, steps) && NoLoad(steps) && After(s, steps).stored == Some(e);
    }
  }

  /** A load overwrites the fatal flag, so the freeze ends there exactly when the
      load reports no fatal error: then the next checkpoint replaces the old one. */
  lemma {:induction false} FreezeEndsIff(s: State, fatalError: Option<string>, checkpoint: LoopState)
    requires s.stored.Some? ==> s.stored.value.saved.checkpoint != checkpoint
    ensures var saved := Next(Next(s, Load(fatalError)), Save(checkpoint, true, false));
            (saved.stored.Some? && saved.stored.value.saved.checkpoint == checkpoint) <==> fatalError.None?
  {
  }
}
