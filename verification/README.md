# Task scheduler: a verified model

The scheduler has a coordinator that turns schedules and parameter collections
into runs, and agents that execute them. This project models the parts whose
promises span many steps and proves those promises.

- **The agent's delivery protocol** (`Ledger`, `Agent`, `AgentInvariant`,
  `AgentRuns`, `AgentSlots`). `Ledger` is the durable table, one class whose
  methods are the compare-and-swap statements. `Agent` interleaves the spawned
  tasks, the one message handler, crashes and restarts at every await, using the
  ledger's own row functions. Everything about one attempt is one `Cell`, and
  the invariant is stated per cell. Runner ids grow with every restart.
- **Health attribution** (`HealthScoring`, `NodeScoring`, `NodeInfluence`,
  `HealthTables`, `HealthStore`, `HealthRuns`, `QuarantineRuns`, `Reconcile`). The scorers are
  loops proved against definitions over sets of evidence. `HealthTables` says
  what each store transaction does, `HealthStore` is the class that does it, and
  the theorems are over every run of transactions from the empty database.
- **Dispatch and placement** (`Dispatch`, `DispatchRuns`, `SecondRefusals`,
  `Placement`, `HealthCache`). The dispatcher's reads, its reservation and the
  attempt it creates are separate steps; evidence, retraction, rejection and
  requeueing come between them, and the transaction that confirms an input fails
  the waiting run.
  `HealthCache` follows a node's health from the store into its session.
- **Connections** (`Connections`, `ConnectionRuns`). The connections of one
  agent, the gate they share and may prune, the session entry they replace, and
  the settings documents it is built from.
- **Cron** (`Cron`, `CatchUp`). Occurrences across daylight-saving folds, and
  catch-up passes over what the scan yields. A zone is a piecewise constant
  offset shorter than a day.
- **Parameters** (`Json`, `Templates`, `Bindings`). The layered merge, the
  template renderer and the reference checker, and late-bound secrets.
- **Collections** (`Collections`, `Ingestion`). Paging, numbering, duplicate keys
  and the item limit.

Clocks, random ids, fetched pages, execution results and schema validation are
parameters or arbitrary values. Digests are taken as injective and encryption as
the identity. Times are integers.

Some statements turn out narrower than one might expect, and each is settled
exactly.

- Cron: the rewind does not reach far enough at every conceivable zone and
  instant. `RightExactlyWhenScanReaches` gives the condition on the zone and the
  instant, `RightExactlyWhenNoMatchIsLost` the one on the expression, and
  `LargeStepBackLosesAnOccurrence` an input that fails. Its zone is invented:
  none of the published time zones steps back far enough. Only the zone's changes
  from five days before the instant on need to lie more than two days apart.
- Catch-up inherits this: the passes skip nothing if and only if none goes past
  a match lost to the scan from its own cursor (`PassesSkipNothingExactlyWhen`).
- Placement: a session can show a health the store has left behind. It does not,
  once no view is on its way, where views are applied in order, none before the
  session it is newer than, and none is dropped
  (`OrderlySessionIsCurrentExactlyWhen`). For each of the three rules a run that
  breaks only that one reserves a quarantined node.
- A node may refuse a run twice, but only after a retry, or after the evidence
  was withdrawn while the run was out elsewhere (`SecondRefusalNeedsReopening`);
  a run shows each.
- The merge is not associative: `MergeIsAssociativeWhenCompatible` and
  `MergeIsAssociativeOnlyThen` give the condition on the two patches.
- The poisoned-item counter of a batch is right until a poisoned item's run is
  moved on (`DriftCountsEscapes`), as a retry does
  (`RetriedPoisonIsCountedTwice`).
- A whole-value placeholder agrees with its text exactly when it is one
  placeholder (`WholeValueAgreesExactlyWhenOnePlaceholder`).
- A task whose stored result was acknowledged while the reply to its save was
  lost never gets past saving (`LateReplyHoldsItsSlot`).

## Model

| member | source | states |
|---|---|---|
| `Ledger.Ledger.constructor` | bins/agent/src/ledger.rs:37-80 | a ledger opened over old rows starts valid when every stored owner is an earlier runner |
| `Ledger.Ledger.Record` | bins/agent/src/ledger.rs:92-118 | a new attempt becomes an accepted row, a known one is left alone and accepted only with the same lease and document |
| `Ledger.Ledger.Claim` | bins/agent/src/ledger.rs:123-138 | succeeds exactly for a claimable row with the same lease and document, and makes this runner its owner |
| `Ledger.Ledger.RecoverableAssignments` | bins/agent/src/ledger.rs:142-168 | returns one document for each readable row that recovery selects, quarantines the corrupt ones, touches nothing else |
| `Ledger.RecoveredExactlyWhenClaimable` | bins/agent/src/ledger.rs:123-168 | recovery returns a well-formed row's document if and only if a claim of it would succeed |
| `Ledger.Ledger.Start` | bins/agent/src/ledger.rs:172-183 | succeeds exactly for a claimed row this runner owns |
| `Ledger.Ledger.Cancel` | bins/agent/src/ledger.rs:187-197 | afterwards the row can neither be started nor recovered |
| `Ledger.Ledger.SaveResult` | bins/agent/src/ledger.rs:199-226 | stores the first result of a started row, and otherwise succeeds only for a repeat of the stored payload |
| `Ledger.RepeatedSaveSucceedsUntilAcknowledged` | bins/agent/src/ledger.rs:210-224 | a repeated save is accepted while finished and refused once acknowledged |
| `Ledger.Ledger.Acknowledge` | bins/agent/src/ledger.rs:228-240 | only a finished row becomes acknowledged |
| `Ledger.Ledger.PendingResults` | bins/agent/src/ledger.rs:242-253 | lists every finished row once, with its lease and payload |
| `Ledger.Ledger.StoredAssignment` | bins/agent/src/ledger.rs:274-282 | the stored document, only under the stored lease |
| `AgentInvariant.StepKeepsCells` | bins/agent/src/main.rs:311-525 | every step of the agent, crashes included, keeps the per-attempt invariant |
| `AgentRuns.ResultMessagesAgree` | bins/agent/src/main.rs:704-738 | all result messages ever sent for one attempt, in any lifetimes, carry one lease and one payload |
| `AgentRuns.ResultMessageMatchesRow` | bins/agent/src/main.rs:1220-1273 | a sent message is what the ledger row holds |
| `AgentRuns.ClaimedAndStartedOncePerLifetime` | bins/agent/src/ledger.rs:123-183 | no lifetime claims or starts an attempt twice, and it has at most one task of it |
| `AgentRuns.RowChangeLowersRank` | bins/agent/src/ledger.rs:123-240 | every change of a row lowers its rank within a lifetime |
| `AgentRuns.AtMostFiveChangesPerLifetime` | bins/agent/src/ledger.rs:123-240 | a row changes at most five times per lifetime |
| `AgentRuns.StoppedAttemptNeverStarts` | bins/agent/src/ledger.rs:170-197 | a row past cancellation is never started again, under any later runner |
| `AgentRuns.CommittedCancelHolds` | bins/agent/src/main.rs:420-426 | when the handler of a committed cancel ends, in any interleaving with claim, registration and start, the attempt never starts, or its flag is up, or its result is stored |
| `AgentRuns.NoRowIsStranded` | bins/agent/src/ledger.rs:123-168 | every reachable row is terminal, recoverable, worked on or given up by the live runner, pending, or a cancelled orphan of a dead runner |
| `AgentRuns.OrphanedAttemptNeverMoves` | bins/agent/src/ledger.rs:123-226 | the orphan is never claimed, saved or acknowledged in any later lifetime |
| `AgentRuns.FirstSaveSucceeds` | bins/agent/src/ledger.rs:199-226 | a task's first save always finds its row; after a lost reply the row holds its own payload, and the repeat succeeds exactly while it is not acknowledged |
| `AgentRuns.LateReplyHoldsItsSlot` | bins/agent/src/main.rs:710-728 | a task whose committed save lost its reply and whose row was acknowledged meanwhile retries and keeps its active entry for the rest of the lifetime |
| `AgentSlots.ExecutionStaysWithinSlots` | bins/agent/src/main.rs:587-652 | under any settings updates, executing attempts never exceed the largest max_parallel held, and never include two Excel tasks |
| `HealthScoring.EvaluateInputHealth` | crates/scheduler-core/src/health.rs:164-207 | the loops compute the verdict defined on the set of (family, node) failures on healthy nodes after the last functional result |
| `HealthScoring.InputVerdictIsUnique` | crates/scheduler-core/src/health.rs:186-207 | those failures and the threshold determine the whole verdict, ties included |
| `HealthScoring.InputHealthIsOrderFree` | crates/scheduler-core/src/health.rs:164-207 | reordering, repeating or padding evidence with the same failures changes nothing |
| `HealthScoring.ConfirmedExactlyWhen` | crates/scheduler-core/src/health.rs:189-207 | confirmed if and only if one family failed on enough distinct healthy nodes; clear if and only if no failure counts |
| `HealthScoring.FunctionalResultClears` | crates/scheduler-core/src/health.rs:169-185 | a functional result removes exactly the failures no later than itself |
| `NodeScoring.EvaluateNodeHealth` | crates/scheduler-core/src/health.rs:262-360 | scores one latest usable observation per input, the ten newest of them, whatever the hash order |
| `NodeInfluence.NodeHealthIsOrderFree` | crates/scheduler-core/src/health.rs:262-360 | with distinct times, logs with the same latest usable observations get the same evaluation |
| `NodeInfluence.OneInputMovesTheScoreByOne` | crates/scheduler-core/src/health.rs:262-360 | changing one input's observations moves the failure count by at most one, and cannot turn an ordinary quarantine into healthy |
| `NodeInfluence.FailedInputsAreFailures` | crates/scheduler-core/src/health.rs:267-316 | the distinct failed inputs are as many as the counted failures |
| `HealthStore.Store.RecordEvidence` | crates/scheduler-store/src/health.rs:194-394 | is one record step: insert or ignore, verdict of the whole log, retraction on confirmation, rescoring of every affected node |
| `HealthStore.Store.Rescore` | crates/scheduler-store/src/health.rs:695-780 | scores the node since its reset while on probation and over fifteen minutes otherwise, and moves the transition time only with the state |
| `HealthStore.Store.GrantInputProbe` | crates/scheduler-store/src/health.rs:407-439 | arms a probe exactly when the input is confirmed |
| `HealthStore.Store.ConsumeProbeOrIsHeld` | crates/scheduler-store/src/health.rs:443-485 | holds a confirmed input unless a probe is armed, which it uses up |
| `HealthStore.Store.SetNodeManualQuarantine` | crates/scheduler-store/src/health.rs:487-540 | quarantines any node, and resets only a quarantined one to probation |
| `HealthTables.RecordHasAnOutcome` | crates/scheduler-store/src/health.rs:194-394 | from every state every evidence can be recorded: some verdict, log and scores satisfy the transaction |
| `HealthRuns.StoredVerdictIsTheWholeLog` | crates/scheduler-store/src/health.rs:194-394 | in every reachable state the stored row is the evaluation of the whole log under the threshold last used, and confirmed means every ambiguous observation of the input is retracted |
| `HealthRuns.ReplayChangesNothing` | crates/scheduler-store/src/health.rs:212-320 | recording an attempt again under the same threshold changes neither the log nor any verdict |
| `HealthRuns.AdmissionsNeverExceedGrants` | crates/scheduler-store/src/health.rs:407-485 | over every run, admissions of a confirmed input plus the unused probe never exceed granted probes |
| `Reconcile.Tables.ReconcileConfirmed` | crates/scheduler-store/src/health.rs:613-693 | fails queued runs of the input, poisons their waiting or failed items, adds to each batch exactly its newly poisoned items, and closes a running batch with no open run |
| `Reconcile.CountByBatch` | crates/scheduler-store/src/health.rs:646-662 | the loop over the returned rows counts the items of each batch |
| `Reconcile.ConfirmationKeepsDrift` | crates/scheduler-store/src/health.rs:632-668 | the difference between a batch's poisoned counter and its poisoned items is unchanged by a confirmation |
| `Reconcile.ConfirmationFences` | crates/scheduler-store/src/health.rs:620-690 | no run with evidence about the input stays queued, and a second confirmation changes nothing |
| `Reconcile.DriftCountsEscapes` | crates/scheduler-store/src/collection.rs:1158-1190 | over every sequence of confirmations and run moves the counter runs ahead of the poisoned items by exactly the moves of a poisoned item's run |
| `Reconcile.RetriedPoisonIsCountedTwice` | crates/scheduler-store/src/lib.rs:1421-1440 | confirm, retry the failed run and so reopen its batch, confirm: one poisoned item, counter two |
| `QuarantineRuns.QuarantineLeftOnlyByReset` | crates/scheduler-store/src/health.rs:487-540 | only an administrator's reset takes a node out of the two quarantine states, and it leads to probation |
| `QuarantineRuns.ProbationBeganWithReset` | crates/scheduler-store/src/health.rs:695-780 | a node on probation has been on it, unbroken, since a reset whose time its row holds |
| `QuarantineRuns.RecoveredOnlyByProvenProbation` | crates/scheduler-core/src/health.rs:365-411 | a once quarantined node is healthy or suspect again only after a reset and then five functional results over three inputs since it, with no usable failure since it |
| `QuarantineRuns.FunctionalRows` | crates/scheduler-core/src/health.rs:376-404 | the filtered list that recovery counts is exactly the usable functional rows of the log since the reset |
| `DispatchRuns.RefusingNodeIsNotReserved` | bins/coordinator/src/background.rs:112-142 | while evidence of a pre-acceptance refusal stands, or is still to be recorded, no reservation for the run returns that node, fall-back included |
| `DispatchRuns.RefusedOncePerNode` | crates/scheduler-store/src/health.rs:147-177 | a node refuses a run a second time only if the first refusal's evidence was retracted, which never happens to a binding refusal |
| `DispatchRuns.StepKeepsOneOffer` | crates/scheduler-store/src/lib.rs:923-1075 | an attempt is out while the run is running, at most one ever, and none while it is queued, failed or succeeded |
| `SecondRefusals.SecondRefusalNeedsReopening` | crates/scheduler-store/src/health.rs:613-632 | between two refusals by one node the run was retried with the first one's evidence withdrawn, or that evidence was withdrawn while the run was out at another node |
| `SecondRefusals.WithdrawalFences` | crates/scheduler-store/src/health.rs:613-632 | a transaction that withdraws the evidence of a refusal fences the run it was about |
| `SecondRefusals.RetriedRunIsRefusedAgain` | crates/scheduler-store/src/lib.rs:1421-1440 | a run in which a retry after the confirmation leads to a second refusal by the same node |
| `SecondRefusals.RunOutElsewhereIsRefusedAgain` | crates/scheduler-store/src/health.rs:613-632 | a run in which a confirmation during another node's offer does, without a retry |
| `DispatchRuns.UnheardIsRead` | crates/scheduler-core/src/health.rs:85-139 | both rejection codes are classified so that the avoidance reads see them |
| `Placement.Sessions.ReserveAvoiding` | bins/coordinator/src/state.rs:58-97 | reserves the best eligible agent and counts it in, or finds none eligible and changes nothing |
| `Placement.BestIsUnique` | bins/coordinator/src/state.rs:84-91 | utilisation, last assignment and id single out one agent, whatever the table order |
| `Placement.EligibleByShownHealth` | bins/coordinator/src/state.rs:66-82 | by the health its session shows, an eligible node is enabled, not quarantined, below capacity, and idle on probation |
| `HealthCache.OrderlySessionIsCurrentExactlyWhen` | bins/coordinator/src/control.rs:307-358 | in every run that applies views in order, none before the publication of an older reading, and drops none, a session shows the newest revision if and only if no newer view is on its way, and with none on its way the stored state |
| `HealthCache.ReservationRespectsStore` | bins/coordinator/src/state.rs:66-96 | in such a run a reservation with no view on its way lands on no node the store holds quarantined, and takes a node on probation to one task |
| `HealthCache.QuarantinedReservationAwaitsItsView` | bins/coordinator/src/state.rs:66-96 | in such a run a quarantined node is reserved only while the view of its newest revision is on its way |
| `HealthCache.ReservedNodeWasOnceFree` | bins/coordinator/src/state.rs:66-96 | in any run a reserved node was free at the revision shown, and a stored quarantine is newer |
| `HealthCache.EarlyViewReserves` | bins/coordinator/src/control.rs:307-358 | a run that breaks only the second rule and reserves a quarantined node: a registration read it healthy and the view found no session |
| `HealthCache.LostViewReserves` | bins/coordinator/src/api.rs:191-201 | a run that breaks only the third: the view was dropped |
| `HealthCache.DisorderedViewsReserve` | bins/coordinator/src/api.rs:191-201 | a run that breaks only the first: the views of a reset and of a second quarantine are applied the other way round |
| `HealthCache.OutstandingViewReserves` | bins/coordinator/src/api.rs:191-201 | a run that keeps all three and reserves the node between the stored quarantine and its view |
| `Placement.Sessions.ReserveForRun` | bins/coordinator/src/background.rs:118-134 | an avoided node is used only if no other is eligible and no alternative is required; without a result every eligible node is avoided and must be |
| `Placement.Sessions.Release` | bins/coordinator/src/state.rs:99-103 | gives one slot back, never below zero |
| `Placement.Sessions.UpdateHealth` | bins/coordinator/src/state.rs:105-109 | changes the cached health of one session only |
| `ConnectionRuns.EffectsComeFromTheCurrentConnection` | bins/coordinator/src/control.rs:535-545 | in every interleaving, each message side effect is made by the connection that is the agent's session at that moment |
| `ConnectionRuns.OneGatePerAgent` | bins/coordinator/src/control.rs:249-262 | despite pruning, connections that can still act share one gate and only one is inside |
| `ConnectionRuns.PruneKeepsConn` | bins/coordinator/src/control.rs:398-413 | removing a gate with two references strands no other connection |
| `ConnectionRuns.SessionsShowAcknowledgedSettings` | bins/coordinator/src/control.rs:116-162 | in every reachable state a session shows the document of the revision it records, acknowledged by the agent, or the disabled empty placeholder |
| `ConnectionRuns.PlacementUsesAcknowledgedSettings` | bins/coordinator/src/control.rs:209-247 | whatever placement may reserve runs under acknowledged settings |
| `ConnectionRuns.StepDocuments` | crates/scheduler-store/src/lib.rs:1514-1722 | a revision number never comes to name a second document, and acknowledgements only accumulate |
| `Cron.NextOccurrences` | crates/scheduler-core/src/schedule.rs:16-90 | returns the first `count` instants of the scan later than `after`, strictly increasing across a fold; these are the first matching instants wherever no match is lost, hence wherever the scan start reaches |
| `Cron.AppendAmbiguousAfter` | crates/scheduler-core/src/schedule.rs:92-108 | flushes the held matches in time order without repeats, up to the count |
| `Cron.AmbiguousMeansTwice` | crates/scheduler-core/src/schedule.rs:66-72 | the ambiguity test holds if and only if two instants show the wall time |
| `Cron.DisorderIsAmbiguous` | crates/scheduler-core/src/schedule.rs:26-37 | wall order departs from time order only inside one fold, where both wall times are ambiguous |
| `Cron.RightExactlyWhenScanReaches` | crates/scheduler-core/src/schedule.rs:32-59 | at a zone and instant the answer is right for every expression and count if and only if the wall time shown right after the next change is later than the one the scan starts from |
| `Cron.RightExactlyWhenNoMatchIsLost` | crates/scheduler-core/src/schedule.rs:32-64 | for one expression it is right if and only if no match lies between the next change and the moment its clocks pass the scan start |
| `Cron.GentleStepReaches` | crates/scheduler-core/src/schedule.rs:32-59 | the scan start reaches where the next step back, and with the offset at the scan start, stays within a day |
| `Cron.LargeStepBackLosesAnOccurrence` | crates/scheduler-core/src/schedule.rs:32-59 | a zone and instant at which a match exists and the answer is empty |
| `CatchUp.DueCronBatch` | bins/coordinator/src/api.rs:1599-1610 | the first thousand due instants among those the scan yields, whether or not it reaches |
| `CatchUp.PassCutsDueList` | bins/coordinator/src/api.rs:1549-1597 | a pass, wherever it is stopped, makes what its scan yields up to the instant the next one restarts from, and one that runs short leaves nothing its scan yields |
| `CatchUp.PassIsRightExactlyWhen` | bins/coordinator/src/api.rs:1549-1610 | a pass makes the first due matches if and only if none of those is lost to its scan |
| `CatchUp.PassesSkipNothingExactlyWhen` | bins/coordinator/src/api.rs:1549-1597 | whatever the clock shows and wherever each pass stops, the passes have made exactly the due matches up to the cursor if and only if none of them went past a match lost to its scan |
| `CatchUp.PassesSkipNothing` | bins/coordinator/src/api.rs:1549-1597 | so nothing is skipped where the scan reaches from the first cursor and from every later match |
| `CatchUp.PassesConcatenate` | bins/coordinator/src/api.rs:1549-1597 | there, passes at one time concatenate to the first due matches, as many as they were allowed, hence to the full list |
| `CatchUp.LostOccurrenceIsNeverMade` | bins/coordinator/src/api.rs:1549-1597 | in the invented zone no number of passes ever makes the lost match |
| `Json.DeepMerge` | crates/scheduler-core/src/blueprint.rs:142-155 | the loop over patch keys, in any order, computes the recursive merge |
| `Json.MergeParameters` | crates/scheduler-core/src/blueprint.rs:133-140 | merges objects and refuses anything else |
| `Json.MergedLeaf` | crates/scheduler-core/src/blueprint.rs:142-155 | a path holds a leaf if and only if the patch has it there, or the target does and the patch does not cover the path |
| `Json.MergedObject` | crates/scheduler-core/src/blueprint.rs:142-155 | the same for objects, so leaves and objects together fix the result |
| `Json.LayeredLeaf` | bins/coordinator/src/collection_runtime.rs:1049-1050 | base, item and override: the override's leaf, else an uncovered item leaf, else an uncovered base leaf, and nothing else |
| `Json.MergeIsIdempotent` | crates/scheduler-core/src/blueprint.rs:142-155 | merging the same patch twice equals merging it once |
| `Json.MergeIsAssociativeWhenCompatible` | crates/scheduler-core/src/blueprint.rs:142-155 | patches may be merged first if the later one puts no object over a non-object of the earlier |
| `Json.MergeIsAssociativeOnlyThen` | crates/scheduler-core/src/blueprint.rs:142-155 | otherwise some base tells the orders apart |
| `Templates.RenderString` | crates/scheduler-core/src/blueprint.rs:336-358 | the scanning loop computes the meaning of the parsed template, with the first failure |
| `Templates.TemplateReferences` | crates/scheduler-core/src/bindings.rs:156-174 | the checker answers whether some placeholder of the same parse names the parameter |
| `Templates.Lookup` | crates/scheduler-core/src/blueprint.rs:367-375 | walks dotted components through objects only |
| `Templates.ExactIsOnePlaceholder` | crates/scheduler-core/src/blueprint.rs:360-365 | such a template is one placeholder if and only if its first closing mark ends it |
| `Templates.WholeValueAgreesExactlyWhenOnePlaceholder` | crates/scheduler-core/src/blueprint.rs:326-365 | for a template taken as a whole value, the value and the rendered text agree on all parameters, failures included, if and only if its first closing mark ends it |
| `Templates.TwoPlaceholdersAreTakenAsOne` | crates/scheduler-core/src/blueprint.rs:326-365 | two placeholders in one string render to both values as text, and to a missing parameter as a whole value |
| `Bindings.ValidateParameterBindings` | crates/scheduler-core/src/bindings.rs:53-154 | accepts if and only if every name is valid and no sensitive parameter is named in an exposed template |
| `Bindings.ReferenceIsFirstComponent` | crates/scheduler-core/src/bindings.rs:163-169 | the checker's prefix test means the same as the first component the renderer looks up |
| `Bindings.ResolveParameterBindings` | crates/scheduler-core/src/bindings.rs:176-204 | all outcomes of resolving bound values, in the order the checks are made |
| `Bindings.ExposedTextIgnoresSecrets` | crates/scheduler-core/src/blueprint.rs:273-375 | after validation, every exposed template renders to the same text or failure whatever the sensitive values |
| `Bindings.SecretsNeverShow` | crates/scheduler-core/src/bindings.rs:126-204 | two resolved executors that differ in sensitive values show the same program, arguments and directory, or workbook, module and macro |
| `Ingestion.AddItem` | crates/scheduler-store/src/collection.rs:614-645 | an item keeps its state exactly when its key is unique, counters match the rows, and a key with other parameters is refused |
| `Ingestion.Batch.InsertItems` | crates/scheduler-store/src/collection.rs:613-645 | a page goes in whole or not at all, the latter exactly on conflicting parameters |
| `Ingestion.Batch.IngestPage` | bins/coordinator/src/collection_runtime.rs:745-916 | one round: the page is in, by this worker or by another that was first, exactly when it is valid, within the limit, not a cursor seen before, consistent, and the batch has not moved on |
| `Ingestion.Batch.Ingest` | bins/coordinator/src/collection_runtime.rs:730-916 | any connector: the loop ends within max_items pages with dense numbering; a static collection, from the start or from any committed page, completes if and only if it fits the limit and its keys are consistent, in max(1, ceil(N / page_size)) pages |
| `Ingestion.FreshIsStatic` | bins/coordinator/src/collection_runtime.rs:730-745 | a new batch stands at such a page |
| `Ingestion.StaticNextPage` | bins/coordinator/src/collection_runtime.rs:425-514 | a static page passes validation and is the slice the cursor asks for |
| `Ingestion.PageCountIsCeiling` | bins/coordinator/src/collection_runtime.rs:446-447 | the number of slices is the ceiling |
| `Ingestion.DenseAppend` | bins/coordinator/src/collection_runtime.rs:978-991 | numbering a page from the item count leaves no gap |

## Left out

- Agent heartbeats, the `recovering` set and the reconnect back-off: a stream's start, end and its messages are modelled, its timing is not.
- `AgentRuns.NoRowIsStranded`: counts a row as held by the live runner until it restarts when its claim committed but reported an error, when its task gave up over a start error, or when its result would not serialize.
- `AgentRuns.CommittedCancelHolds`: speaks of cancel messages; a refused resume, or a cancel whose statement commits and reports an error, also cancels the row but signals no task, and there only `AgentRuns.StoppedAttemptNeverStarts` applies.
- The executor process, its isolation, output handling and Excel automation: an execution is one step with an arbitrary result.
- `Cron.NextOccurrences`: takes the cron iterator by its contract, as a finite scan in wall order; cron expressions and time-zone data are not modelled.
- `NodeScoring.EvaluateNodeHealth`: equal times may be ordered either way; the failure rate is kept as two counts and its thresholds as integer comparisons, exact for at most ten observations.
- `NodeInfluence.NodeHealthIsOrderFree`: assumes distinct times, since equal ones make the ten-element cut depend on hash order in the code as well.
- `HealthStore.Store.RecordEvidence`: the fencing of runs and batch items in the same transaction is `Reconcile`, over its own tables, and for one run a part of the step in `Dispatch`; leaves out audit rows, revision counters and the displayed node counts.
- `Placement.Sessions.ReserveAvoiding`: compares utilisation as exact quotients, not as 64-bit floating point, which agree for capacities below 2^26.
- `Placement.Sessions.ReserveForRun`: is one step on one table, while the source locks the sessions once for each of its two reservations, so that a node may become eligible in between and the fall-back may still take an avoided one; the reservation step of `Dispatch` admits that.
- `Dispatch` follows one run and one dispatch loop; a result for an offer that could not be delivered is assumed not to arrive.
- `HealthCache` follows one node; a view is told apart by the revision of the row it came from.
- `Connections` is a state machine over values: it does not model the channels, the heartbeat of a stream or the certificate check, and shared locks appear as held gates and reference counts.
- `Json.DeepMerge`: takes and returns the target by value instead of changing it in place.
- `Templates` numbers are their canonical text; schema validation is an arbitrary predicate.
- `Ingestion.Batch.Ingest`: materializing an item is an arbitrary function of its position and raw value; an outdated commit ends the loop, and after a replay the other worker is taken to have committed that one page and no further one.
- Sensitive-path collection, cursor encoding, connector requests and file reading.
- HTTP and gRPC plumbing, authentication, the user interface, the command-line tool and telemetry.
- Exact conservation of session slots, which heartbeats overwrite and releases saturate.
