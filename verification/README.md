# Takos: a verified model of the run lifecycle and the release tooling

This project models four parts of Takos and proves what they are for:

1. **The agent container's run lifecycle.** Which run tasks may live (`Registry`, `RegistryProtocol`), how a task
   ends and reports exactly one outcome (`ControlRpc`, `Finalization`), how the control plane keeps one outcome per
   run over any number of tasks (`RunLedger`), how checkpoints and token usage survive a crash (`Usage`,
   `Checkpoint`, `CheckpointProtocol`), how a tool-call transcript is written, stored and read back (`Transcript`,
   `WireHistory`, `History`, `DecodedTurns`), and how its size is bounded (`Budget`).
2. **The product materializer.** Its archive parser (`Paths`, `ArchivePath`, `Tar`, `Manifest`), its canonical
   JSON (`JsonText`, `StableJson`), its queue reconciler (`Queues`), its paginated listing (`Pagination`), its bucket
   purge (`Purge`), and its deploy and destroy protocols (`Activation`, `Deploy`, `Destroy`).
3. **Create-only publication of a release** by racing publishers (`Release`, `ReleaseProtocol`).
4. **The route parser and printer** of the web client (`Routes`).

`Wrappers`, `Collections`, `Conversation` and `JsText` hold what these share. `dafny verify dfyconfig.toml` checks
everything.

## How the code is represented

* Expressions and recursion are functions; loops over local state are methods with loops; objects whose methods
  update fields are classes. Each loop is proved against a specification function, or against its property outright.
* The network is a script: for every request, an arbitrary function of its number says what the server does with
  it and what comes back. Contracts hold for every such script, so for every sequence of server behaviours.
* Concurrency is a state machine over the steps that can interleave. The theorems are about every sequence of
  enabled steps. Where one participant is also written as a method (`ReleaseProtocol`), each of its actions is one
  step of the machine, with arbitrary steps of the others in between.
* `usize` is 64 bits and saturates where the source saturates. JavaScript strings in `JsonText` and `StableJson`
  are sequences of UTF-16 code units. Archive names are ASCII.

## What the proofs show about the code

* A stored transcript reads back unchanged exactly when every call has a non-empty id *and* a non-empty name without
  surrounding white space (`Transcript.TranscriptReadsBack`). The response decoder rules the empty ones out, so a run
  of decoded responses reads back unchanged exactly when no tool name has white space around it
  (`DecodedTurns.DecodedReadsBackIff`); a call of ` n` is decoded, answered and stored, and changes
  (`DecodedTurns.PaddedNameChanges`).
* The registry tells tasks apart by service id and lease version. Re-admitting an identity while an older task
  still holds it lets the older task's guard free the newer task's slot (`RegistryProtocol.AdmissionSafeIff`); a run
  dispatched under one lease, another, and the first again gets there (`RegistryProtocol.ReuseReachable`). Claims
  never repeat a lease version (`RunLedger.RunKeepsSound`), so it takes a start request that arrives twice or carries
  no version. Without reuse the registry is safe under all interleavings. After shutdown is stored, one request that
  has already passed its second check may still register.
* A reload overwrites the fatal flag, so "no checkpoint after a fatal error" holds until the next load only
  (`CheckpointProtocol.FatalFreezes`); until then the stored pair is frozen exactly when no other save is still on its
  way (`StoredFrozenIff`).
* "Lease lost" does not always mean a lost lease. The control plane compares the checkpoint it read before with the
  stored one when it records an outcome, so a checkpoint of the task's own that is saved late has the completion
  refused while the run is still the task's and nothing is on record (`RunLedger.LateSaveRefusesHolder`). Without such
  a save, a recovery or another end of the run the holder is never refused (`HolderNeverRefused`).
* Header text is trimmed, so a ustar archive reads back as its members exactly when no prefix or name field has white
  space at an edge (`Tar.ArchiveReads`). The canonical path ` a` comes back as `a`, and next to `a` it is refused
  (`Tar.EdgeSpaceLost`).
* The check after queue reconciliation is stricter than the comparison that decides whether to reconcile. A
  consumer that leaves a default implicit is kept and then fails every later check
  (`Queues.VerifiedIffMatchAndExplicit`, `SettledVerifiesIff`, `ImplicitDefaultStuck`).
* A deploy may start while commands of an earlier, stopped run are still landing, and a prune of an earlier run may
  land last. Over whole histories the serving version always has its secrets exactly when no release needs again a
  secret that another has left out (`Deploy.ReleasesServeIff`); releasing with an optional secret, without it and with
  it again can starve the third release (`SecretReturns`). One rollout is safe exactly when no desired secret is still
  being pruned (`RolloutServesIff`). Both rest on a marker that no earlier run has left. The code gets it from the
  temporary directory that the digested configuration names (`Activation.MarksAgreeIff`, `Deploy.FreshDirectories`).
* The asset check of a published release means an exact set of assets only if the names read back are distinct and
  every asset has a digest; an unknown asset without a digest passes (`Release.AssetsExactIff`,
  `UnknownAssetPasses`).
* A path such as `/constructor` finds an inherited object property in the route table and parses to a view that is
  no view (`Routes.InheritedName`). With `?file=` on a storage path the canonical link restores the state, and settles
  in one redirect, only for the files that `Routes.FileRestoredIff` and `Routes.FileConvergesIff` describe.

## Model

| member | source | states |
|---|---|---|
| History.CoherentConversationHistory | containers/agent/src/engine_support.rs:419-471 | The index loop computes the normalization function, and its output is always well formed |
| History.CollectResults | containers/agent/src/engine_support.rs:440-455 | The inner loop consumes exactly the results that follow a tool-calling message; what it kept decides how the batch closes |
| History.CoherentWellFormed | containers/agent/src/engine_support.rs:419-471 | Every output has each tool-calling message followed at once by one result per distinct non-empty call id, and no other tool message |
| History.CoherentIdentity | containers/agent/src/engine_support.rs:419-471 | Normalization is the identity exactly on well-formed histories |
| History.CoherentIdempotent | containers/agent/src/engine_support.rs:419-471 | Normalizing twice is normalizing once |
| History.CoherentConcat | containers/agent/src/engine_support.rs:419-471 | It distributes over concatenation when the right part does not start with a tool message |
| History.CoherentKeepsSpoken | containers/agent/src/engine_support.rs:419-471 | System and user messages all come through, in order |
| History.CoherentInventsNoCall | containers/agent/src/engine_support.rs:419-471 | Every surviving tool call was in the input |
| History.CoherentBatch | containers/agent/src/engine_support.rs:426-467 | A calling message and its results come through with the first answer to each call exactly when every call has its own non-empty id and an answer; otherwise only the message's text is left, if it has any |
| History.CoherentOther | containers/agent/src/engine_support.rs:423-434 | Any other message comes through alone, and results without a call before them are dropped |
| WireHistory.DecodeConcat | containers/agent/src/engine_support.rs:473-494 | Decoding stored messages distributes over concatenation |
| WireHistory.DecodedCallNames | containers/agent/src/engine_support.rs:496-539 | Every decoded call has a trimmed, non-empty name |
| WireHistory.DurableHistoryStopsAtCurrent | containers/agent/src/engine_support.rs:388-417 | Asked for the history before the last user message, the agent leaves out that message and everything after it, and normalizes the rest |
| WireHistory.OtherHistoryIsWhole | containers/agent/src/engine_support.rs:388-403 | When the current message is not the last one of the user, the whole history is normalized |
| WireHistory.CallShapesDecode | containers/agent/src/engine_support.rs:496-539 | A stored call decodes the same in the flat and in the nested shape, the flat fields winning; text arguments are parsed and others that are no object wrapped |
| Transcript.BuildTerminalTranscriptMessages | containers/agent/src/main.rs:1027-1138 | The loop over pending and seen ids computes the transcript function, including which error comes first |
| Transcript.RecordToolCalls | containers/agent/src/main.rs:1052-1074 | Recording a message's calls stops at the first missing, non-object or reused one and otherwise queues all ids in call order |
| Transcript.Position | containers/agent/src/main.rs:1089-1097 | The first pending occurrence of a result's id is found, or none exists |
| Transcript.CloseBatch | containers/agent/src/main.rs:1120-1133 | A trailing open batch gets one closing result per pending call, in call order |
| Transcript.CloseTranscript | containers/agent/src/main.rs:1120-1138 | An open batch without closing text is an error; otherwise closers and the final message are appended |
| Transcript.WriteAllFollows | containers/agent/src/main.rs:1033-1112 | While writing, the pending ids are exactly the calls that the history automaton still expects |
| Transcript.IntendedWellFormed | containers/agent/src/main.rs:1027-1138 | With non-empty ids the transcript is well formed, in the success and in the failure form |
| Transcript.BuildStoresIntended | containers/agent/src/main.rs:1027-1138 | The stored messages are the turn's messages in order followed by what the end of the run adds |
| Transcript.TranscriptReadsBack | containers/agent/src/main.rs:1027-1138 | A stored transcript reads back unchanged if and only if all ids are non-empty and all names are non-empty and trimmed |
| Transcript.NextRunSeesTranscript | containers/agent/src/engine_support.rs:405-471 | The next run's context holds the older history, the user message and the transcript verbatim |
| Transcript.WritesAccepted | containers/agent/src/main.rs:1033-1112 | The writer gets through exactly the turns whose every message fits what came before, with the calls waiting for a result in call order |
| Transcript.BuildAcceptsIff | containers/agent/src/main.rs:1027-1138 | A turn is written exactly when every message fits what came before it and no call is left waiting that cannot be closed |
| Transcript.BuildErrorIff | containers/agent/src/main.rs:1027-1138 | A rejected turn gives the error of its first message that does not fit, or of the calls left without a result |
| Transcript.AcceptedFollows | containers/agent/src/main.rs:1027-1112 | Without empty ids, the accepted turns are those whose messages can be written, whose ids are distinct, and which the history automaton follows |
| Transcript.BuildWrites | containers/agent/src/main.rs:1077-1138 | Entry by entry, what is stored: the turn's messages, a closing result for each waiting call in call order, and the final message |
| DecodedTurns.DecodedReadsBackIff | containers/agent/src/model.rs:571-614 | The transcript of any run of decoded responses reads back unchanged exactly when no tool name has white space around it |
| DecodedTurns.PaddedNameChanges | containers/agent/src/engine_support.rs:496-539 | A decoded call with a padded name is stored and does not read back unchanged |
| Registry.IdentityIs | containers/agent/src/control_rpc.rs:56-61 | A run without a service id, or with an empty one, is identified by its worker, and any other by its service |
| Registry.ServiceState.TryRegisterRun | containers/agent/src/main.rs:167-222 | The whole new registry state for each of the five decisions; a replaced run's token is cancelled, a duplicate's is untouched, and the capacity is kept |
| Registry.ServiceState.FinishRun | containers/agent/src/main.rs:224-232 | Only an entry with the same identity is removed |
| Registry.RunSlotGuard.Drop | containers/agent/src/main.rs:258-272 | Dropping the guard frees its own identity's slot and nothing else |
| RegistryProtocol.StepKeepsSafe | containers/agent/src/main.rs:167-240 | Every interleaved step keeps capacity, exclusivity, distinct guards and backed entries, unless it reuses an identity |
| RegistryProtocol.GuardFreesOwnSlot | containers/agent/src/main.rs:224-272 | In a safe state a dropped guard removes exactly the entry of its own task |
| RegistryProtocol.RegistrySafety | containers/agent/src/main.rs:148-272 | Over all interleavings without identity reuse, entries never exceed the maximum and every live uncancelled task is the registered one |
| RegistryProtocol.AdmissionSafeIff | containers/agent/src/main.rs:167-232 | An admission is followed by a safe state whichever guard drops next if and only if no live task holds the identity |
| RegistryProtocol.ReuseLosesSlot | containers/agent/src/main.rs:224-232 | With two tasks of one identity, dropping the older guard unregisters the newer task |
| RegistryProtocol.ReuseReachable | containers/agent/src/main.rs:167-232 | Three dispatches of one run under leases a, b, a and one dropped guard leave a live uncancelled task unregistered |
| RegistryProtocol.ShutdownDrains | containers/agent/src/main.rs:167-240 | Once shutdown is stored the registered runs only shrink, but for at most one admission already past its second check |
| ControlRpc.RefusalEndsRetries | containers/agent/src/control_rpc.rs:866-892 | No request is repeated after the server refused the run's credential |
| Finalization.CompleteRun | containers/agent/src/control_rpc.rs:531-570 | One payload is sent one to three times under the retry rule; a confirmation means it is on record, and on record it goes unconfirmed only after three lost answers |
| Finalization.HandleSuccess | containers/agent/src/main.rs:948-981 | An unwritable transcript sends nothing; otherwise the success outcome is delivered and the last answer settles the result |
| Finalization.HandleFailure | containers/agent/src/main.rs:983-1014 | A cancellation sends nothing; otherwise the failure outcome is delivered |
| Finalization.HandleRunTaskError | containers/agent/src/main.rs:521-555 | After lost authority or a begun finalization nothing is sent; otherwise the edge failure is delivered |
| Finalization.ExecuteRun | containers/agent/src/main.rs:704-912 | If the task's error will be reported at the edge, nothing has been sent before |
| Finalization.RunTask | containers/agent/src/main.rs:502-513 | For every server behaviour and every engine result, all requests of a task carry its one selected outcome, at most three times, and each says of the execution what it should, field by field; it sends none exactly when it quit, was cancelled, lost authority or cannot reach the control plane |
| Finalization.OneOutcome | containers/agent/src/main.rs:521-1014 | Against a fresh record, whatever the server delays, loses or repeats, at most the one selected outcome is ever on record, and it goes unconfirmed only after three lost answers |
| Finalization.OutcomeIsHonest | containers/agent/src/main.rs:948-1014 | Only a finished loop completes a run; every failed outcome carries an error and a message |
| Finalization.OutcomeReadsBack | containers/agent/src/main.rs:948-1025 | The transcript of any reported outcome over a clean turn reads back unchanged in the next run |
| Finalization.SelectedTells | containers/agent/src/main.rs:948-1014 | Field by field, what an outcome says of each kind of execution: usage, output, error, status and transcript |
| Finalization.FinishFailedRun | containers/agent/src/main.rs:863-900 | A failed run reports the usage from before its reload and the turn of the stored checkpoint, in every request |
| RunLedger.StepKeepsSound | src/worker/application/services/agent/complete-run.ts:240-288 | Every claim, recovery, end, checkpoint and step of a handler keeps leases with their holders and acknowledgements with the record |
| RunLedger.RunKeepsSound | src/worker/application/services/agent/complete-run.ts:463-553 | Over every course a run that has ended stays as it ended, lease versions never fall, and each keeps its holder |
| RunLedger.OneOutcomePerRun | src/worker/application/services/agent/complete-run.ts:463-553 | Over any number of tasks, claims and repeated requests, at most one request of a run is ever acknowledged; it is on record for good, sent under the lease that holds the row |
| RunLedger.SupersededNeverRecorded | src/worker/runtime/container-hosts/executor-control-rpc.ts:120-203 | Once a newer lease is claimed, no request of an older one gets on record or is acknowledged |
| RunLedger.RecordedNeverRefused | src/worker/application/services/agent/complete-run.ts:503-553 | A request on record is never refused afterwards, however often it is repeated |
| RunLedger.RecordIsSelected | containers/agent/src/main.rs:502-555 | Whatever is on record is the outcome selected by the task whose lease it was, and completed only if that task's loop finished |
| RunLedger.HolderNeverRefused | src/worker/runtime/container-hosts/executor-control-rpc.ts:1248-1322 | As long as no recovery, other end or checkpoint touches the row, the holder's request is never answered as a lost lease |
| RunLedger.HolderRecords | src/worker/runtime/container-hosts/executor-control-rpc.ts:1248-1322 | Undisturbed, a completed or failed request of the holder gets on record, ends the run with the checkpoint cleared, and is acknowledged |
| RunLedger.LateSaveRefusesHolder | src/worker/application/services/agent/complete-run.ts:256-261 | A checkpoint saved between the read and the conditional update has the holder told it lost the lease, with the run still its own and nothing on record |
| Usage.AccumulateIsCappedSum | containers/agent/src/engine_support.rs:128-136 | Saturating at every record equals the exact total capped once |
| Usage.AccumulateConcat | containers/agent/src/engine_support.rs:128-136 | Recording a, then b is recording a + b |
| Usage.UsageTracker.Record | containers/agent/src/engine_support.rs:129-136 | A record adds each counter, saturating |
| Usage.UsageTracker.Restore | containers/agent/src/engine_support.rs:142-144 | Restoring replaces the whole snapshot |
| Checkpoint.LoopStateRepository.PostSaveWithRetry | containers/agent/src/control_rpc.rs:471-492 | One save body is sent at most three times, and is the only thing that can be stored |
| Checkpoint.LoopStateRepository.SaveCheckpoint | containers/agent/src/control_rpc.rs:717-741 | With the fatal flag set nothing is sent; otherwise the checkpoint is paired with the current usage, and success means that pair is stored |
| Checkpoint.LoopStateRepository.LoadCurrent | containers/agent/src/control_rpc.rs:704-712 | A load succeeds exactly when its last answer does, and then replaces the usage and the fatal flag together; otherwise it leaves both alone |
| Checkpoint.LoopStateRepository.FailedRunReport | containers/agent/src/main.rs:863-900 | The failure path reports the usage from before its reload |
| CheckpointProtocol.StepView | containers/agent/src/control_rpc.rs:704-741 | The protocol's saves and loads are the repository's |
| CheckpointProtocol.StepKeepsSound | containers/agent/src/control_rpc.rs:439-492 | Every step keeps the stored and the tracked usage equal to records each counted once |
| CheckpointProtocol.UsageSurvives | containers/agent/src/control_rpc.rs:684-771 | Over every run with lost and late saves, crashes and reloads, the stored pair was sent together and no usage is counted twice |
| CheckpointProtocol.RecoveredTotal | containers/agent/src/engine_support.rs:138-148 | After a load the total is the stored usage plus the later records, capped |
| CheckpointProtocol.FatalFreezes | containers/agent/src/control_rpc.rs:717-735 | From the fatal flag to the next load no save is sent, and the stored pair changes only to one already on its way |
| CheckpointProtocol.StoredFrozenIff | containers/agent/src/control_rpc.rs:717-735 | With the fatal flag set, every load-free course leaves the stored pair alone if and only if nothing else is on its way |
| Budget.BudgetIsCappedSize | containers/agent/src/model.rs:778-792 | The saturating fold is the exact wire size, capped once |
| Budget.OutputBudgetIsMessageBudget | containers/agent/src/model.rs:794-804 | A model output is charged exactly as the assistant message it becomes |
| Budget.BudgetConcat | containers/agent/src/model.rs:778-792 | The budget is additive over concatenation |
| Budget.Run | containers/agent/src/model.rs:737-765 | A response is released exactly when the exact size with its results reserved is within 7 MiB; saturation never changes the decision |
| Budget.DecodeOpenAiResponse | containers/agent/src/model.rs:536-614 | A response decodes exactly when every part is within its limit, and an error names the first bad call |
| Budget.TurnFits | containers/agent/src/model.rs:40-45 | A released response with any of its results stays within 7 MiB + 16 * 512 bytes |
| Budget.RunFits | containers/agent/src/model.rs:40-45 | At every reachable point of a run the transcript is within that bound, under the 8 MiB cap |
| Paths.SplitJoin | scripts/takos-product-materializer.ts:919 | Splitting undoes joining for pieces without the separator |
| Paths.JoinSplit | scripts/takos-product-materializer.ts:919 | Joining undoes splitting for every text |
| ArchivePath.TarStringReads | scripts/takos-product-materializer.ts:897-902 | A NUL-padded ASCII field reads back as its trimmed text, so as itself exactly when it has no white space at an edge |
| ArchivePath.TarOctalReads | scripts/takos-product-materializer.ts:904-910 | An octal field reads back as its number |
| ArchivePath.CanonicalAccepted | scripts/takos-product-materializer.ts:912-921 | A canonical path with any number of leading `./` and an optional trailing slash is accepted as itself |
| ArchivePath.AcceptedCanonical | scripts/takos-product-materializer.ts:912-921 | Every accepted path is canonical and relative, with no `..` segment, and is what remains of the raw name |
| ArchivePath.TrimIs | scripts/takos-product-materializer.ts:897-902 | Trimming takes all white space from both edges and nothing else |
| ArchivePath.TarOctalIff | scripts/takos-product-materializer.ts:904-910 | A number field is read exactly when its trimmed text is octal digits throughout and a safe integer, as that integer |
| ArchivePath.AcceptedIff | scripts/takos-product-materializer.ts:912-921 | A name is accepted as a path exactly when the path is canonical and the name is that path behind `./` any number of times and before at most one slash |
| ArchivePath.RootIff | scripts/takos-product-materializer.ts:912-917 | A name is the root exactly when it is only `./` and at most one `.`; empty names, NUL and backslash are refused |
| Tar.ReadArchive | scripts/takos-product-materializer.ts:942-982 | The header loop, with every slice in bounds and a decreasing measure, computes the reading function |
| Tar.ReadHeader | scripts/takos-product-materializer.ts:953-966 | One header is checked and read as the function says |
| Tar.ComputeChecksum | scripts/takos-product-materializer.ts:954-958 | The loop computes the sum over the header with the checksum field blanked |
| Tar.BlankedSum | scripts/takos-product-materializer.ts:954-958 | That sum is the sum of the header with eight spaces in the checksum field |
| Tar.HeaderParses | scripts/takos-product-materializer.ts:953-966 | The header of any member parses to its size, kind and the path its trimmed fields make |
| Tar.HeaderReads | scripts/takos-product-materializer.ts:953-966 | It parses to the member's own path exactly when neither text field has white space at an edge |
| Tar.MemberTurn | scripts/takos-product-materializer.ts:942-981 | One written member is one turn of the loop, whatever its fields hold |
| Tar.MemberReads | scripts/takos-product-materializer.ts:942-981 | A member with plain fields adds its own entry, whatever follows |
| Tar.ArchiveReads | scripts/takos-product-materializer.ts:942-982 | Parsing inverts writing if and only if the paths are distinct and within the limit and no text field has white space at an edge |
| Tar.EdgeSpaceLost | scripts/takos-product-materializer.ts:897-902 | The path ` a` comes back as `a`, and next to `a` it is refused as a duplicate |
| Tar.AcceptedSound | scripts/takos-product-materializer.ts:942-982 | Whatever bytes are accepted, the entries have distinct canonical paths and are within the entry limit |
| Tar.AcceptedIff | scripts/takos-product-materializer.ts:942-982 | Bytes are accepted with these entries if and only if they are members laid out so, each header with its own checksum, a file or a directory, with distinct paths and within the limit, followed by two zero blocks |
| Tar.DescribesIff | scripts/takos-product-materializer.ts:953-972 | A header is read exactly when checksum, text fields, path, size and type are all in order, as what they say |
| Manifest.OneKeyEach | scripts/takos-product-materializer.ts:986-1000 | Distinct paths have distinct manifest keys |
| Manifest.KeyIsRest | scripts/takos-product-materializer.ts:999-1000 | The manifest key of an asset is what follows `assets` in its path |
| Manifest.CountingCloses | scripts/takos-product-materializer.ts:998-1006 | Equal counts and one-way membership force the manifest's keys to be exactly the asset files |
| Manifest.ClosedIff | scripts/takos-product-materializer.ts:998-1006 | A manifest is closed exactly when it lists the files below `assets/` and no other key, each with its size and a 32-digit hash |
| Manifest.CheckAssets | scripts/takos-product-materializer.ts:998-1006 | The loop accepts exactly the closed manifests |
| Manifest.FindFile | scripts/takos-product-materializer.ts:983-985 | A path names at most one file |
| Manifest.ParseWorkerArchive | scripts/takos-product-materializer.ts:923-1008 | The parser accepts exactly the archives that read, hold the entry point and an asset, and whose manifest is closed; what is missing first names the error |
| JsonText.QuotedReads | scripts/takos-product-materializer.ts:295 | A quoted string reads back as itself, whatever follows, including lone surrogates |
| StableJson.StableReads | scripts/takos-product-materializer.ts:294-302 | The canonical text reads back as the value's canonical form at every nesting depth |
| StableJson.SamePrintsSame | scripts/takos-product-materializer.ts:294-302 | Values equal up to member order print the same text |
| StableJson.AscendingUnique | scripts/takos-product-materializer.ts:298-299 | The sorted key list is determined by its members |
| StableJson.StableUnambiguous | scripts/takos-product-materializer.ts:294-302 | Two values print the same text if and only if they are the same value up to member order |
| Queues.ValidateQueueOwnership | scripts/takos-product-materializer.ts:1746-1760 | The guard passes exactly when no expected queue has a foreign or a second consumer |
| Queues.ExpectedDistinct | scripts/takos-product-materializer.ts:510-513 | Comparing two counts settles that no queue is expected twice |
| Queues.VerifiedIffMatchAndExplicit | scripts/takos-product-materializer.ts:1763-1812 | The check after reconciliation equals the match before it plus every default spelled out |
| Queues.InstalledFits | scripts/takos-product-materializer.ts:1844-1868 | A freshly added consumer is ours, matches and passes the check |
| Queues.ReconcileQueueConsumers | scripts/takos-product-materializer.ts:1814-1875 | A conflict issues no mutation; success settles every queue with exactly the planned commands; it fails in between only for a command that did not come through; nothing else changes |
| Queues.ReconcileEach | scripts/takos-product-materializer.ts:1822-1875 | The loop over the expected consumers, deciding on one readback |
| Queues.ReconcileOne | scripts/takos-product-materializer.ts:1823-1874 | A matching consumer is kept, another removed and added again, a missing one added |
| Queues.SettleReconciles | scripts/takos-product-materializer.ts:1814-1875 | After success each queue has exactly one consumer, ours, with the expected settings |
| Queues.SettleFrame | scripts/takos-product-materializer.ts:1814-1875 | Queues that are not expected, or match already, are left as they were |
| Queues.NoPlanIffReconciled | scripts/takos-product-materializer.ts:1823-1827 | No command is issued exactly when everything is reconciled |
| Queues.PlanMeans | scripts/takos-product-materializer.ts:1822-1875 | An addition is planned exactly for an expected queue without a matching consumer of ours, and a removal exactly where there is one of ours then |
| Queues.PlanOrder | scripts/takos-product-materializer.ts:1840-1874 | A removal is followed at once by the addition on the same queue |
| Queues.PlanDistinct | scripts/takos-product-materializer.ts:1822-1875 | No command is planned twice |
| Queues.SecondRunIsQuiet | scripts/takos-product-materializer.ts:1814-1875 | A second run issues no mutation |
| Queues.SettledVerifiesIff | scripts/takos-product-materializer.ts:1877-1900 | The later check can pass exactly when every kept consumer spells its settings out |
| Queues.ImplicitDefaultStuck | scripts/takos-product-materializer.ts:1763-1812 | A consumer with the default retries left out is kept without a command and fails the check for ever |
| Pagination.ListContainers | scripts/takos-product-materializer.ts:2354-2451 | A listing succeeds exactly when a complete token chain exists within 100 requests and fits, and then it is all of it in order |
| Pagination.CompleteUnique | scripts/takos-product-materializer.ts:2354-2439 | There is at most one complete chain of page tokens |
| Pagination.StuckIsIncomplete | scripts/takos-product-materializer.ts:2427-2437 | A page that cannot be continued, repeats a token or would be the 101st rules every complete listing out |
| Purge.PurgeBackingObjects | scripts/takos-product-materializer.ts:3265-3291 | The loops terminate, delete each object of the buckets exactly once, leave other buckets alone and return the count |
| Purge.EmptyBucket | scripts/takos-product-materializer.ts:3272-3288 | Pages are listed and deleted until the bucket is empty |
| Purge.DeletePage | scripts/takos-product-materializer.ts:3275-3286 | Every listed object is deleted once, other buckets keep theirs, and a full page makes the store smaller |
| Purge.AccountsCount | scripts/takos-product-materializer.ts:3287-3290 | The number of deletes is the number of objects gone |
| Destroy.LandOwned | scripts/takos-product-materializer.ts:3384-3431 | A deletion that takes effect removes exactly its own part from what is owned |
| Destroy.LandLeads | scripts/takos-product-materializer.ts:3384-3445 | Deletions taking effect at any time create nothing and keep the anchor |
| Destroy.RepeatableIff | scripts/takos-product-materializer.ts:3321-3385 | A run has nothing to refuse exactly when each of our queues has at most one consumer and none but ours, no retired application is left, ours are attached and named once, and the Worker is marked and binds what is found |
| Destroy.SurveyFacts | scripts/takos-product-materializer.ts:3319-3365 | Four readbacks at four moments bound what is owned now; an anchored estate without a Worker has no child to find |
| Destroy.SurveyFits | scripts/takos-product-materializer.ts:3319-3382 | What the checks establish about the findings holds of the estate, and on a repeatable estate they object to nothing |
| Destroy.Survey | scripts/takos-product-materializer.ts:3314-3382 | Ownership is proved before the first command; an anchored estate is never refused for it, a repeatable one for nothing, and an unanchored one never passes |
| Destroy.RequestAll | scripts/takos-product-materializer.ts:3384-3431 | The deletions are requested in plan order, exactly up to the first failure |
| Destroy.PlanRemoves | scripts/takos-product-materializer.ts:3384-3431 | The plan is exactly the owned children that were found, consumers before containers before the vector index, each once if queues and container ids are distinct |
| Destroy.RemoveChildren | scripts/takos-product-materializer.ts:3384-3440 | Every child that was found is requested before the wait for all owned ones to be gone |
| Destroy.WaitForChildCleanupAbsence | scripts/takos-product-materializer.ts:3170-3228 | Within 100 attempts, success means no owned child is left, and it comes at once when all were requested and land |
| Destroy.WaitForWorkerAbsence | scripts/takos-product-materializer.ts:3230-3261 | Within 12 attempts, success means the Worker is gone, and it comes at once when it was requested and lands |
| Destroy.Dismantle | scripts/takos-product-materializer.ts:3384-3445 | Exactly the children that were found are requested, in order and before the Worker, and the Worker last; a provider that does what it is asked lets it complete |
| Destroy.MaterializePreDestroy | scripts/takos-product-materializer.ts:3293-3475 | At every point and every stop the anchor holds; once a run has passed the survey no repetition is refused for any reason; only owned parts are requested, and all of them before the wait; a refusal names what is objectionable; a completed run leaves no child, no Worker and no object; an anchored estate with nothing to object to completes if the provider does what it is asked |
| Activation.MessagesAgreeIff | scripts/takos-product-materializer.ts:3052-3054 | Two activation messages are equal exactly when source, archive digest and configuration digest are |
| Activation.ConfigsPrintSameIff | scripts/takos-product-materializer.ts:1044-1155 | Two runs print the same configuration exactly when they work in the same directory with the same settings up to member order |
| Activation.MarksAgreeIff | scripts/takos-product-materializer.ts:2914-2930 | Under a digest that tells the two configurations apart, two runs leave the same marker exactly when source, archive, tag, directory and settings agree |
| Deploy.FreshMark | scripts/takos-product-materializer.ts:1902-1919 | A run in a directory of its own finds its marker on no version that serves or is on its way |
| Deploy.FreshDirectories | scripts/takos-product-materializer.ts:2914-2930 | Releases run in directories of their own never share a marker with each other or with the first site |
| Deploy.RunKeepsSequenced | scripts/takos-product-materializer.ts:3052-3085 | After the deploy request only the new version carries the new marker, and once it is staged or serves nothing is on its way behind it |
| Deploy.RunKeepsKnown | scripts/takos-product-materializer.ts:3052-3085 | A rollout brings no version into play but its own |
| Deploy.StepKeepsInOrder | scripts/takos-product-materializer.ts:3052-3106 | However requested effects land, every step keeps the site served, what is under way fed, and the desired secrets unpruned |
| Deploy.OldPruneStarves | scripts/takos-product-materializer.ts:3012-3019 | From any site on which a desired secret is still being pruned, a course starves the new version |
| Deploy.RolloutServesIff | scripts/takos-product-materializer.ts:2880-3131 | The serving version has its secrets at every point of every rollout if and only if the site is fed and no desired secret is still being pruned |
| Deploy.RunKeepsBounded | scripts/takos-product-materializer.ts:3012-3106 | A run stores and sends only past and desired names, and prunes only past names that it leaves out |
| Deploy.CleanRun | scripts/takos-product-materializer.ts:2880-3131 | A run in which all but its own prune lands leaves exactly the past and desired names stored and exactly the names it leaves out pending |
| Deploy.ReleasesServeIff | scripts/takos-product-materializer.ts:3082-3106 | Over every history of releases, each ending anywhere, the serving version always has its secrets if and only if the first site was fed and no release needs again a secret that another has left out |
| Deploy.SecretReturns | scripts/takos-product-materializer.ts:55-76 | From an empty site, three accepted releases with, without and with an optional secret can starve the third; the first two cannot |
| Deploy.WaitForActivatedDeployment | scripts/takos-product-materializer.ts:1312-1353 | Within 12 attempts, success means the new version itself serves with nothing on its way |
| Deploy.MaterializePostApply | scripts/takos-product-materializer.ts:2880-3131 | Every run is a course of the rollout from whatever site earlier runs left; from a clear site the serving version has its secrets throughout and the site stays clear wherever the run stops; success means every stage was passed in order, the new version serves with nothing on its way, and the desired secrets are stored; the prune is asked for exactly when the survey found stale names, and taken it leaves none; a failed command ends the run; a provider that does what it is asked lets an owned site come through |
| Deploy.WaitForSecretNames | scripts/takos-product-materializer.ts:1398-1422 | Within 10 attempts, success means the stored secrets are the desired ones |
| Deploy.PhaseTells | scripts/takos-product-materializer.ts:3012-3106 | How far a course has come says what its survey found stale and whether the prune was asked for |
| Deploy.TakenLeaves | scripts/takos-product-materializer.ts:3086-3106 | Once the prune was taken, no stale name stays behind, whatever lands when |
| Deploy.SurveySite | scripts/takos-product-materializer.ts:2954-3019 | The deployment and then the secrets are read, a version of somebody else is refused, and the stale names are those stored and not desired |
| Deploy.ReplaceVersion | scripts/takos-product-materializer.ts:3043-3085 | Migrations, the deploy request and the marker readback succeed in this order or end the run |
| Deploy.PruneStale | scripts/takos-product-materializer.ts:3086-3106 | The stale names are asked to go once the new version serves |
| Release.NotesInjective | scripts/release-artifact-deploy.ts:1624-1629 | The notes determine the commit and the attempt |
| Release.AssetsExactIff | scripts/release-artifact-deploy.ts:1653-1664 | The asset check means an exact closure if and only if names are distinct and digests present |
| Release.UnknownAssetPasses | scripts/release-artifact-deploy.ts:1656-1664 | An unknown asset without a digest passes the check |
| Release.AcceptedOnce | scripts/release-artifact-deploy.ts:1631-1665 | No release is accepted for two attempts, and an accepted one is immutable and of the commit |
| Release.AcceptedIff | scripts/release-artifact-deploy.ts:1631-1665 | A readback is accepted exactly when it is the final release of this tag, commit and attempt and its assets pass; only other notes make it the release of another attempt |
| Release.ByNameIs | scripts/release-artifact-deploy.ts:1653-1656 | Of several expected assets of one name the last counts |
| ReleaseProtocol.StepKeepsSound | scripts/release-artifact-deploy.ts:1500-1547 | Every step keeps one create per publisher and the attribution of the release |
| ReleaseProtocol.SuccessIsAccepted | scripts/release-artifact-deploy.ts:1672-1715 | A publisher succeeds only on a release that it accepts at that moment, having read its own tag |
| ReleaseProtocol.CreatesAfterAbsence | scripts/release-artifact-deploy.ts:1507-1519 | Whoever sends a create has read the tag and after that the release as absent |
| ReleaseProtocol.PublishedMadeIt | scripts/release-artifact-deploy.ts:1519-1546 | A published attempt is the one whose create made the release, whatever its exit code |
| ReleaseProtocol.PublicationExclusive | scripts/release-artifact-deploy.ts:1455-1547 | Over all interleavings each publisher sends at most one create and at most one ever succeeds |
| ReleaseProtocol.CreateOnlyReleaseAfterFinalAbsence | scripts/release-artifact-deploy.ts:1500-1547 | A publisher's course is a course of protocol steps, returns a release exactly when it read its own attempt back, and gives up only on a read or at the deadline |
| ReleaseProtocol.VerifyPublishedReleaseMetadata | scripts/release-artifact-deploy.ts:1672-1715 | The polling loop succeeds only on its own accepted release and gives up at once on a conflict |
| Routes.PartsOfRooted | web/src/app-route-schema.ts:455-459 | Segments printed as a path are split back into the same segments |
| Routes.ParentIsRooted | web/src/app-route-schema.ts:57-61 | A parent path is absolute and has the segments of the path but the last |
| Routes.MatchLinkable | web/src/app-route-schema.ts:193-430 | Every matched state but that of an inherited property can be carried by a link, apart from its slug |
| Routes.ApplyLinkable | web/src/app-route-schema.ts:68-116 | Query parameters keep a state linkable, including open=1 splitting a path into folder and file |
| Routes.LegacyMatches | web/src/app-route-schema.ts:273-360 | The older path spellings mean the same views as the canonical ones |
| Routes.SpellingsConverge | web/src/app-route-shared.tsx:82-91 | Two spellings of a view redirect to one location |
| Routes.ParseLinkable | web/src/app-route-schema.ts:455-469 | Without a file parameter every other location parses to a linkable state |
| Routes.LinkableReadsBack | web/src/app-route-schema.ts:118-191 | Printing a linkable state and parsing it gives the state back |
| Routes.ReadsBackIffLinkable | web/src/app-route-schema.ts:455-483 | A state is carried by its own link if and only if it is linkable |
| Routes.CanonicalConverges | web/src/app-route-shared.tsx:82-91 | Redirecting converges in one step, and restores the state apart from its slug exactly when no inherited property was hit |
| Routes.InheritedName | web/src/app-route-schema.ts:260-275 | The path /constructor parses to no view and redirects home |
| Routes.FileRestoredIff | web/src/app-route-schema.ts:87-107 | With a file parameter the state is restored exactly for a space and an absolute file with no empty segment |
| Routes.FileLinkParts | web/src/app-route-schema.ts:175-191 | The first segment of a relative file sticks to the name of the space |
| Routes.FileConvergesIff | web/src/app-route-schema.ts:87-191 | With a file parameter one redirect settles exactly without a space or with at least two segments, none but the first empty |

## Left out

* HTTP, Docker, Wrangler, git and the file system: scripted replies and provider states stand for them.
* SHA-256, BLAKE3 and gzip: archive parsing starts from the expanded bytes, and digests are opaque strings.
* UTF-8 decoding of archive names and of the asset manifest: names are ASCII bytes, and decoding the manifest is an
  arbitrary partial function.
* JSON numbers: they are number tokens, so two spellings of one number count as two values; white space between
  tokens, which the printer never emits, is not read.
* The JSON parser for tool-call arguments, `Number` on strings, and the encoded size of arguments are arbitrary
  functions.
* `URLSearchParams` encoding: a query is a list of decoded pairs, and a path holds no `?` or `#`.
* Error texts, redaction and user-visible wording: arbitrary functions; nothing proved depends on them.
* Time, jitter and deadlines: attempt counts and nondeterministic failures remain.
* The engine, the tool bridge, the model provider's retries and, but for the run's row, the Worker's server side.
  `Finalization` assumes that the server acknowledges only a completion it has on record and answers a repeated request
  for it with an acknowledgement or a refusal of the ended run, unless the answer is lost; `RunLedger` proves this of
  the row. A save is assumed to be acknowledged only once it is applied.
* In `RunLedger`: the messages, events and notifications recorded with an outcome, payload checks other than the
  status, and collisions of the completion key. Creating the run comes before its first step.
* The local-smoke model, the provider's own HTTP retries, and the JSON-escaped size of a transcript.
* Materializer runs that overlap in time. Commands of earlier, stopped runs may still be taking effect.
* Random directory names that repeat, and digests of two configurations that collide: `Deploy.FreshDirectories` has
  distinct directories and a digest that tells these configurations apart as hypotheses.
* Vector index creation, migrations, container and health checks in the deploy: steps that may fail and touch no secret.
* Resources created by somebody else while a destroy runs, and objects written during a purge.
* Lone surrogates in names and routes; they are covered in `JsonText` and `StableJson` only.
- RegistryProtocol.RegistrySafety: makes the entry and its task's guard in one step, while the source makes the guard when the spawned task is first polled; a task dropped before that, as when the runtime is torn down, would leave its entry behind.
- RunLedger.RecordIsSelected: assumes that each lease is dispatched to one task.
- Registry.ServiceState.TryRegisterRun: reads the shutdown flag once, because nothing can change it between two reads of a sequential method; the second read and the window between them are in RegistryProtocol.
- Purge.PurgeBackingObjects: assumes that a bucket lists some key as long as it is not empty and that an acknowledged delete has taken effect; deletes of one batch happen in some order, not at once.
- Destroy.MaterializePreDestroy: reads each list of queue consumers in one exchange, and takes the provenance and binding checks of a Worker version as two facts about it.
- Deploy.MaterializePostApply: assumes that a later deploy request supersedes an earlier one that has not landed, and that secrets uploaded with a version are stored before it serves.
- Queues.ReconcileQueueConsumers: assumes that an added consumer reads back with the settings it was added with, defaults included, and that nobody else edits the queues meanwhile.
- ReleaseProtocol.PublicationExclusive: assumes that attempt identities are distinct and of one length, that nobody else writes an attempt's notes, and that a release, once made, keeps its notes; everything else about it may change.
- Pagination.ListContainers: abstracts the response body to well-formed pages or a rejection.
