# A Dafny model of the maxops control plane

maxops is a durable fleet control plane. A Hub and one executor per host each own
a database and never share a transaction; safety across crashes, lost
acknowledgements, concurrent clients and outside writers rests on
compare-and-swap revisions, two state graphs and durable locks. This project
models that core and proves what it keeps over every run.

`dafny verify dfyconfig.toml` checks the whole project.

## Layout

| file | part of the system |
|---|---|
| `Jobs.dfy`, `Changes.dfy` | the job and change state graphs, plans, artifacts, reports |
| `CanonicalJson.dfy` | `canonical_json`, against an unordered meaning of JSON |
| `StoreModel.dfy`, `DurableStore.dfy`, `StoreProofs.dfy`, `StoreAnswers.dfy` | the durable store: transactions as functions on tables, the store object that runs them in place, what every transaction keeps, and exactly when each commits |
| `Protocol.dfy` | Hub and executors over a wire that loses, duplicates, delays and reorders messages |
| `Executor.dfy`, `ExecutorProgress.dfy` | service workers, deployment workers, cancel handlers and the host lock, with crashes; and the course of an undisturbed job |
| `Pipeline.dfy`, `Workflow.dfy`, `WorkflowProgress.dfy`, `WorkflowWorker.dfy` | the change pipeline, `deploy.run` over whole runs, what always goes through, and its loops over the store object |
| `Runner.dfy` | the target-local deployment runner with an outside writer between any two steps |
| `Utf8.dfy`, `Reading.dfy` | fragment reads and paging |
| `SummaryTemplate.dfy`, `AlertGroups.dfy` | the grouped alert summary and its expansion |
| `EventModel.dfy`, `EventStore.dfy`, `FeedAnswers.dfy`, `Episodes.dfy`, `Delivery.dfy`, `Remediations.dfy` | alert episodes, event delivery and remediation claims |

How it is modelled:

- Every `Store` method is one atomic step, because it runs under the writer mutex
  in one transaction. A transaction is a function from tables to new tables or an
  error; the methods of the store objects are proved equal to these functions, and
  the whole-run results are proved about them.
- Protocols are total step functions: a step that is not enabled changes nothing, and
  a run is any sequence of steps. Workers hold private copies of rows, so every
  interleaving of reads and compare-and-swap writes is a run. A crash forgets local
  state and keeps the tables; a restart respawns any subset of workers.
- Clocks, timeouts, systemd, Nix, sinks and executor answers are chosen freely in
  every step. A stage job may end in any legal state with any report.
- What a theorem says about the past is kept as history in the state: the systemd
  calls made, what the call and the last observation of each service job answered,
  who linked each stage, which workflows claimed a change, every committed refresh
  with the stage record it acted on, and every delivery attempt. No step reads it.
- The loops in `WorkflowWorker.dfy` run without other writers, so their retry on a
  moved revision is not taken there; interleaved writers are the subject of
  `Workflow.dfy`.

Assumptions: digests (request hash, list revision, child job identity) are
injective; UUIDs are fresh; job specifications of deployment operations are kept in
typed form instead of JSON; the authorization of a job is fixed within one Hub
process and may change at a restart; revisions and sequence numbers do not overflow.

Points where the code is narrower than its comments suggest, proved exactly:

- The alert summary is described as lossless. It is so if and only if every alert on
  the page has a string `alertname` (`AlertGroups.Summarize`): an alert without one is
  grouped, and read back, as `"unknown"` (`AlertGroups.NamelessAlertIsLost`).
- `refresh_change` can choose a state the graph refuses for a report whose status does
  not fit its action; `Pipeline.RefreshRejects` lists exactly those reports, and
  `Pipeline.MisfitReportIsRefused` is one of them. Every report the runner prints is
  accepted (`Pipeline.StageTotality`).
- A repeated remediation claim returns the first claim if and only if that claim still
  carries the job and no earlier claim of the principal does
  (`Remediations.RepeatReturnsExactly`): finishing a claim can overwrite its job
  (`Remediations.FinishedClaimIsForgotten`).
- A call that systemd rejects ends its job as failed unless something hits the worker
  before it records the rejection: after a fault or a crash in between, the job
  becomes unknown (`Executor.OutcomesAreExplained`, `Executor.RejectionCanBeLost`).
- The runner checks ownership of the host before it writes, but an outside writer can
  still act between that observation and the write; the results in `Runner.dfy` say
  what the last observation before each write was, not what the host was at the write.

## Model

| member | source | states |
|---|---|---|
| `Jobs.EnteredFrom` | crates/maxops-proto/src/jobs.rs:110-129 | from which states each job state is entered, read by target |
| `Changes.EnteredFrom` | crates/maxops-proto/src/changes.rs:151-189 | from which states, by rank, each change state is entered |
| `CanonicalJson.CanonicalKeepsMeaning` | crates/maxops-store/src/lib.rs:2001-2016 | canonicalisation keeps the unordered meaning of every value |
| `CanonicalJson.CanonicalIsSorted` | crates/maxops-store/src/lib.rs:2001-2016 | every object inside a canonical form has strictly increasing keys |
| `CanonicalJson.MeaningFixesCanonical` | crates/maxops-store/src/lib.rs:2001-2016 | values that differ only in key order have the same canonical form |
| `CanonicalJson.CanonicalDecidesMeaning` | crates/maxops-store/src/lib.rs:2001-2016 | two values have equal canonical forms if and only if they mean the same |
| `CanonicalJson.CanonicalIdempotent` | crates/maxops-store/src/lib.rs:2001-2016 | canonicalising twice changes nothing |
| `StoreModel.HashDecidesRequest` | crates/maxops-store/src/lib.rs:2018-2027 | two requests share a hash if and only if host, operation, version and the meaning of their specifications agree |
| `StoreModel.RedispatchKeepsHash` | crates/maxops-hub/src/lib.rs:3446-3459 | a request rebuilt from the stored record is the original field by field, with its specification in canonical form; it has the original hash and makes the same row again |
| `DurableStore.Store.SubmitLinkedJob` | crates/maxops-store/src/lib.rs:159-293 | commits job, receipt, event and change link together as the transaction function says, or leaves every table unchanged |
| `DurableStore.Store.LinkChange` | crates/maxops-store/src/lib.rs:215-267 | the change part of a submission: revision, ownership and graph checks, then the linked row |
| `DurableStore.Store.AcceptJob` | crates/maxops-store/src/lib.rs:297-354 | a repeated upstream job returns the first one, or conflicts, without a change |
| `DurableStore.Store.TransitionJob` | crates/maxops-store/src/lib.rs:969-1035 | a compare-and-swap step of the job graph with its event, or no change |
| `DurableStore.Store.RequestCancel` | crates/maxops-store/src/lib.rs:1037-1089 | marks a nonterminal job at the expected revision, with its event, or no change |
| `DurableStore.Store.TryAcquireResource` | crates/maxops-store/src/lib.rs:557-621 | takes a free or ended owner's lock, keeps a live owner's |
| `DurableStore.Store.ReleaseResource` | crates/maxops-store/src/lib.rs:623-640 | removes the lock only for its owner |
| `DurableStore.Store.CreateChange` | crates/maxops-store/src/lib.rs:811-855 | inserts a checking change at revision 1, once |
| `DurableStore.Store.TransitionChange` | crates/maxops-store/src/lib.rs:902-967 | a compare-and-swap step of the change graph, or no change |
| `StoreProofs.ReplayShape` | crates/maxops-store/src/lib.rs:969-1089 | a legal log folds to the state of its last event, its length as revision, and a cancel flag set exactly when a cancel event occurs |
| `StoreProofs.TerminalIsFinal` | crates/maxops-proto/src/jobs.rs:99-129 | a terminal history stays terminal and a settled one has no later event |
| `StoreProofs.EffectsPassThroughDispatching` | crates/maxops-proto/src/jobs.rs:110-129 | running, reconciling, succeeded or unknown is reached only after a Dispatching event |
| `StoreProofs.EventLogRefinesJobs` | crates/maxops-store/src/lib.rs:196-286 | in every reachable store a job's events rebuild its state, revision and cancel flag, with as many events as its revision |
| `StoreProofs.ApplyKeepsInv` | crates/maxops-store/src/lib.rs:159-354 | every transaction keeps the log, receipts, owners and locks consistent with the job table |
| `StoreProofs.RunExtends` | crates/maxops-store/src/lib.rs:969-1089 | over any run no row is lost, settled jobs and receipts never change, identities are immutable and revisions only grow |
| `StoreProofs.SubmissionsAgree` | crates/maxops-store/src/lib.rs:173-194 | whatever happens in between, a second submission with the same principal and key leaves all tables unchanged and succeeds, with the first job, exactly when its hash is the same |
| `StoreProofs.LiveLockIsKept` | crates/maxops-store/src/lib.rs:557-621 | no transaction but its own release takes a lock from a live owner |
| `StoreProofs.StaleReleaseIsInert` | crates/maxops-store/src/lib.rs:623-640 | a release changes nothing exactly when the caller is not the owner |
| `StoreProofs.OwnerChangesOnlyWhenSettled` | crates/maxops-store/src/lib.rs:220-247 | the recorded workflow of a change moves only from nobody or from a settled job |
| `StoreProofs.OneLiveWorkflow` | crates/maxops-store/src/lib.rs:215-267 | over every run, of all workflows that ever claimed a change at most one is unsettled, and it is the recorded owner |
| `StoreProofs.LinkRespectsOwner` | crates/maxops-store/src/lib.rs:215-267 | a stage is linked only by the running, uncancelled owner or, without a workflow, when any previous owner is settled |
| `StoreAnswers.AcceptExactly` | crates/maxops-store/src/lib.rs:297-354 | an executor takes a job once, answers a repeat with the first row exactly when it asks for the same thing, and refuses it otherwise |
| `StoreAnswers.SubmitExactly` | crates/maxops-store/src/lib.rs:159-293 | a submission commits exactly when it is valid, its key and identity are new and its link is admitted; a known key answers by whether the same thing is asked; each refusal has its exact condition |
| `StoreAnswers.LinkExactly` | crates/maxops-store/src/lib.rs:215-267 | a link commits exactly for the creator, at the current revision, under the ownership rule and along the graph, with the exact condition of each refusal; it files the job under its own stage only |
| `StoreAnswers.StageIsLinkedExactly` | crates/maxops-store/src/lib.rs:215-247 | after any run, a stage is linked by a workflow if and only if that workflow claimed the change and runs uncancelled, and without one if and only if every workflow that ever claimed it has settled |
| `StoreAnswers.TransitionExactly` | crates/maxops-store/src/lib.rs:969-1035 | a transition commits exactly at the revision and along the graph, moving one row under its identity with one event |
| `StoreAnswers.CancelExactly` | crates/maxops-store/src/lib.rs:1037-1089 | a cancel is recorded exactly on a nonterminal row at its revision, and leaves state and result alone |
| `StoreAnswers.CreateExactly` | crates/maxops-store/src/lib.rs:811-855 | a change is created exactly once per identity, with only its prepare job named |
| `StoreAnswers.UpdateExactly` | crates/maxops-store/src/lib.rs:902-967 | an update commits exactly for the creator, at the revision and along the graph, and never moves the owner |
| `StoreAnswers.AcquireExactly` | crates/maxops-store/src/lib.rs:557-621 | a lock is given exactly to its holder, or to a known job when nobody or an ended job holds it; a live holder makes the answer no |
| `StoreAnswers.LockOutlivesRun` | crates/maxops-store/src/lib.rs:557-640 | over any run without its own release, a holder keeps the lock until it ends, and until then every other acquisition is refused |
| `StoreAnswers.ReleaseExactly` | crates/maxops-store/src/lib.rs:623-640 | a release removes exactly the holder's own lock |
| `Protocol.ProjectTargetJob` | crates/maxops-hub/src/lib.rs:2757-2803 | at most two compare-and-swap commits from the given record towards the snapshot; another job's snapshot or a moved record changes nothing |
| `Protocol.SettledSnapshotSettles` | crates/maxops-hub/src/lib.rs:2757-2803 | projecting a settled snapshot settles a dispatched, unsettled record to exactly its state and result; the only other case left alone is a queued record and a succeeded snapshot |
| `Protocol.RunIsSafe` | crates/maxops-hub/src/lib.rs:3250-3378 | every message and every executor job is backed by a Hub job with the same hash, over every run |
| `Protocol.Agreement` | crates/maxops-hub/src/lib.rs:2757-2803 | a settled Hub record of a remote job was cancelled as not started before any Submit was sent, and then no executor knows it, or carries the executor's settled state and result |
| `Protocol.ExecutorsHoldWhatWasAsked` | crates/maxops-hub/src/lib.rs:3446-3459 | over every run an executor's row carries principal, host, operation, version, specification, hash and policy version of the Hub's row |
| `Protocol.DispatchArrives` | crates/maxops-hub/src/lib.rs:3276-3310 | from any reachable state an authorized queued job is dispatched, sent and taken in; after a lost acknowledgement the Hub reconciles and a second Submit changes nothing on the executor |
| `Protocol.RefusalIsFinal` | crates/maxops-hub/src/lib.rs:3256-3270 | an unauthorized queued job is cancelled as not started, and whatever is permitted or restarted later, no Submit for it is ever sent and no executor knows it |
| `Protocol.SubmissionIsSpawned` | crates/maxops-hub/src/lib.rs:2805-2811 | a new valid submission to a known host becomes a queued, uncancelled job that asks for what the client asked for, with its dispatch task running |
| `Protocol.CancelIsMarked` | crates/maxops-hub/src/lib.rs:2009-2045 | a cancel is marked by the target's own transaction on the executor's row, and then on the Hub's |
| `Protocol.OneExchangeConverges` | crates/maxops-hub/src/lib.rs:3315-3378 | from any reachable state one status exchange makes the Hub agree with a settled executor |
| `Executor.RunIsSafe` | crates/maxops-executor/src/main.rs:1055-1306 | the worker, lock and cancel invariant holds over every run with crashes and restarts |
| `Executor.DecisionIsPermitted` | crates/maxops-executor/src/main.rs:1006-1306 | every decision of the worker code, at every position and under every clock, fault and systemd answer, is one its knowledge of the job permits; in particular each commit is explained by what the call and the unit answered |
| `Executor.AtMostOneCall` | crates/maxops-executor/src/main.rs:940-1053 | the systemd call of a service job is issued at most once, never for a job cancelled while queued or dispatching, and never when "not_started" is recorded |
| `Executor.OutcomesAreExplained` | crates/maxops-executor/src/main.rs:1055-1393 | over every run a service job is Succeeded only if its effect was observed; one ended by an observation is Succeeded if and only if that was positive; rejected, timed-out, cancelled and unknown jobs have their own evidence; and an undisturbed job ends exactly as the answers to its call and observation say |
| `Executor.RejectionCanBeLost` | crates/maxops-executor/src/main.rs:1006-1053 | a fault between a rejected call and its record ends the job as unknown instead of failed |
| `ExecutorProgress.ServiceJobCompletes` | crates/maxops-executor/src/main.rs:1055-1393 | from any reachable state a queued service job with a vacant lock is called once, ends by the answers given and frees the lock |
| `ExecutorProgress.WaitingJobIsCancelled` | crates/maxops-executor/src/main.rs:1065-1104 | a cancelled job that waits for the lock ends as not started on its worker's next read |
| `ExecutorProgress.EarlyCancelEnds` | crates/maxops-executor/src/main.rs:940-970 | a cancel before the call that nothing overtakes ends the job as not started and frees the lock |
| `ExecutorProgress.StageHoldsLock` | crates/maxops-executor/src/main.rs:1848-1913 | a host-changing deployment stage takes the vacant lock and is dispatched holding it |
| `ExecutorProgress.EndedJobReleases` | crates/maxops-executor/src/main.rs:1915-1959 | a release on behalf of a job frees the lock exactly when that job has ended |
| `Executor.HostSerialization` | crates/maxops-executor/src/main.rs:1065-1151 | at most one service action or host-changing deployment stage is dispatching, running or reconciling, and it owns the host lock |
| `Executor.LiveOwnerKeepsLock` | crates/maxops-executor/src/main.rs:1848-1959 | no step of any worker takes the host lock from a live job |
| `Pipeline.AdvanceRaisesRank` | crates/maxops-proto/src/changes.rs:151-189 | every step of the change graph strictly raises the rank |
| `Pipeline.StartIsLegal` | crates/maxops-hub/src/lib.rs:2291-2332 | a stage starts exactly where the graph leads into its state (verification where the change already is), and its state waits for that stage's report |
| `Pipeline.RefreshChange` | crates/maxops-hub/src/lib.rs:2416-2565 | commits the chosen state with the edited plan and artifact, or returns the edited copy on a lost race and an error otherwise |
| `Pipeline.StageTotality` | crates/maxops-hub/src/lib.rs:2465-2535 | every report the runner can print, and a stage without a report, moves the change out of its stage by a legal step |
| `Pipeline.RefreshRejects` | crates/maxops-hub/src/lib.rs:2489-2535 | for arbitrary reports, exactly which ones choose a refused state |
| `Pipeline.MisfitReportIsRefused` | crates/maxops-hub/src/lib.rs:2489-2535 | an Activate report with status Verified chooses Succeeded while Activating, which the graph refuses |
| `Pipeline.RefreshKeepsProvenance` | crates/maxops-hub/src/lib.rs:2489-2565 | an accepted report keeps the artifact equal to the plan on commit, tree, lock and derivation |
| `Pipeline.WorkflowNeverStuck` | crates/maxops-hub/src/deployment_workflow.rs:249-265 | the loop asks only for stages the change can start, and asks for none only when the change is finished for it or a stage is outstanding |
| `Workflow.RunIsSafe` | crates/maxops-hub/src/deployment_workflow.rs:128-335 | the invariant of changes, stale copies, stage links, workflows and reconciliations over every run |
| `Workflow.OwnerLinked` | crates/maxops-store/src/lib.rs:220-247 | a stage linked while a workflow of the change is unsettled was linked by that workflow, running and uncancelled |
| `Workflow.RowWriteIsSafe` | crates/maxops-store/src/lib.rs:243-266 | a write to one change keeps every other reader's, worker's and reconciliation's knowledge of it |
| `Workflow.RefreshesAreExplained` | crates/maxops-hub/src/lib.rs:2416-2565 | over every run each committed refresh acted on the terminal job of the stage the change waited for, moved the change to the state its report (or its silence, split by an unknown outcome and by Recovering) calls for, and took over exactly what the report brought; stated without the function that chooses |
| `Workflow.ArtifactWasBuilt` | crates/maxops-hub/src/lib.rs:2498-2520 | the artifact of every change past its build is what an accepted Built report of its own build job named, on that job's host |
| `Workflow.SingleStageJobs` | crates/maxops-hub/src/lib.rs:2291-2406 | over any run, clients, keys and workflows, at most one build, one activation and one rollback job exists per change |
| `Workflow.MilestonesAreReported` | crates/maxops-hub/src/lib.rs:2427-2565 | whatever state a change was ever in, each milestone behind it, good or bad, was brought by a committed refresh of this change whose stage job explains it |
| `Workflow.SuccessIsEarned` | crates/maxops-hub/src/lib.rs:2427-2565 | a change that ever succeeded had accepted Prepared, Built, Activated and Verified reports, each from a stage job of its own |
| `Workflow.WorkflowLinks` | crates/maxops-hub/src/deployment_workflow.rs:258-290 | a workflow links at most one child per stage, only to its change, and only a build when it runs until built |
| `Workflow.SuccessMeansReached` | crates/maxops-hub/src/deployment_workflow.rs:249-253 | a succeeded workflow's change was Ready, for until built, or Succeeded at some time |
| `Workflow.UnknownWorkflowSettlesLast` | crates/maxops-hub/src/deployment_workflow.rs:339-413 | a step that settles an unknown workflow finds every child settled, all the change names and all this workflow ever linked; it settles as succeeded if and only if the change it read was where the workflow was to take it, otherwise as cancelled if and only if that was asked for, otherwise as failed |
| `Workflow.CancelledOnRequest` | crates/maxops-hub/src/deployment_workflow.rs:190-247 | a workflow that ended as cancelled was asked to cancel |
| `WorkflowProgress.WorkflowMovesOn` | crates/maxops-hub/src/deployment_workflow.rs:258-290 | after any run, a running, uncancelled owner that sees its change as it is links exactly the stage that is due, and nothing when none is |
| `WorkflowProgress.ClientMovesOn` | crates/maxops-hub/src/lib.rs:2291-2406 | after any run, a client starts a legal stage exactly when every workflow that ever claimed the change has settled |
| `WorkflowProgress.ClaimMovesOn` | crates/maxops-store/src/lib.rs:215-267 | after any run, a workflow claims a prepared or ready change exactly when no earlier claim is unsettled |
| `WorkflowProgress.RefreshMovesOn` | crates/maxops-hub/src/lib.rs:2416-2565 | after any run, a refresh of the current change by its terminal stage job moves it out of the stage, whatever the runner printed |
| `WorkflowProgress.LostRaceKeepsEdit` | crates/maxops-hub/src/lib.rs:2543-2565 | a refresh that lost its race leaves the row and hands its caller the edited copy |
| `WorkflowProgress.ExpiryMovesOn` | crates/maxops-hub/src/lib.rs:2336-2368 | a ready change whose plan expired, or whose source or host moved, becomes stale and keeps everything else |
| `WorkflowProgress.WorkflowEnters` | crates/maxops-hub/src/lib.rs:2866-2894 | a queued workflow that nobody touches runs after two commits |
| `WorkflowProgress.CancelIsMarked` | crates/maxops-store/src/lib.rs:1037-1089 | a cancel is recorded on a job that has not ended, and changes nothing else |
| `WorkflowProgress.WorkflowFinishes` | crates/maxops-hub/src/deployment_workflow.rs:192-256 | a running workflow ends as succeeded, failed or cancelled exactly on what it sees of its change and its own record; an unknown outcome passes through Reconciling |
| `WorkflowProgress.UnknownWorkflowSettles` | crates/maxops-hub/src/deployment_workflow.rs:339-413 | after any run, one undisturbed reconciliation settles an unknown workflow whose children are all settled, to what its change shows |
| `Workflow.ProvenanceHolds` | crates/maxops-executor/src/deployment.rs:142-163 | every change past its build, and every later stage job, passes the executor's artifact and plan checks |
| `WorkflowWorker.EnterLocalJob` | crates/maxops-hub/src/lib.rs:2866-2894 | without other writers inside the call, succeeds exactly from a current queued or dispatching record, or a copy that says running, and ends running |
| `WorkflowWorker.Finish` | crates/maxops-hub/src/deployment_workflow.rs:296-335 | without other writers inside the call, ends in the goal through Reconciling for an unknown outcome; a queued job fails instead of becoming unknown, and only succeeding from the queue is refused |
| `WorkflowWorker.ChildSettled` | crates/maxops-hub/src/deployment_workflow.rs:351-382 | exactly what one child answers: missing or foreign, settled already, refused as another job, or as its executor's snapshot leaves it |
| `WorkflowWorker.ChildrenSettled` | crates/maxops-hub/src/deployment_workflow.rs:351-382 | true only with every named child settled, and always when they already are and belong to the principal; touches no other job |
| `WorkflowWorker.Reconcile` | crates/maxops-hub/src/deployment_workflow.rs:339-413 | given the change its refresh returned, moves the workflow only from the unknown record it was given with all children settled, and does so when they are; succeeded if and only if the change is succeeded, or ready for until built, otherwise cancelled exactly when that was asked for, otherwise failed |
| `Runner.PrepareReport` | crates/maxops-executor/src/bin/maxops-deploy-runner.rs:69-82 | a prepared report is given exactly for a lock digest and a store path as derivation, and carries both |
| `Runner.BuildReport` | crates/maxops-executor/src/bin/maxops-deploy-runner.rs:84-111 | a built report is given exactly for the prepared derivation and lock digest with a store path as output; each refusal has its exact condition |
| `Runner.Host.VerifyIntended` | crates/maxops-executor/src/bin/maxops-deploy-runner.rs:271-288 | writes nothing; succeeds exactly when both links were seen on the artifact with the checks passing right after, and fails only after all attempts |
| `Runner.Host.SetAndActivate` | crates/maxops-executor/src/bin/maxops-deploy-runner.rs:317-334 | sets only a store path and runs the activation program exactly after the profile was set |
| `Runner.Host.RecoverAfterFailure` | crates/maxops-executor/src/bin/maxops-deploy-runner.rs:189-269 | the exact course by the first observation: superseded when the host is not owned, failed without a write when rollback is disabled, an error when nothing is frozen to restore, otherwise the frozen path is written, and reported rolled back exactly when its activation succeeded and the baseline, boot included, was observed after it |
| `Runner.Host.ActivateChange` | crates/maxops-executor/src/bin/maxops-deploy-runner.rs:113-156 | writes the artifact only onto an observed, unchanged baseline; stale exactly without one; activated exactly when accepted after the last write; otherwise recovers as `Recovers` says, and sets nothing but the artifact when rollback is disabled |
| `Runner.Host.VerifyChange` | crates/maxops-executor/src/bin/maxops-deploy-runner.rs:158-183 | verified without a recovery; a recovery follows exactly a failed acceptance, and nothing is written when rollback is disabled |
| `Runner.Host.RollbackChange` | crates/maxops-executor/src/bin/maxops-deploy-runner.rs:185-187 | recovers even when automatic rollback is disabled, and never reports failed |
| `Runner.CodeTellsEnding` | crates/maxops-executor/src/bin/maxops-deploy-runner.rs:113-269 | the exit code of every ending tells an attained goal from each of the five others |
| `Runner.RolledBackShowsBaseline` | crates/maxops-executor/src/bin/maxops-deploy-runner.rs:225-268 | a rolled-back report shows the frozen profile, or the frozen closure if no profile was frozen, and that path was activated |
| `Runner.GuardedThenRestoring` | crates/maxops-executor/src/bin/maxops-deploy-runner.rs:133-148 | a recovery after an activation keeps every write justified by the observation before it |
| `Utf8.BoundaryIsOffset` | crates/maxops-hub/src/client_api.rs:451-458 | every character boundary is the offset of a character (section 3 of RFC 3629) |
| `Utf8.OffsetIsBoundary` | crates/maxops-hub/src/client_api.rs:451-458 | the offset of every character is a boundary |
| `Utf8.CharDecodes` | crates/maxops-hub/src/client_api.rs:451-458 | the octets of a character decode to it and the first tells how many follow (section 3 of RFC 3629) |
| `Utf8.EncodingIsUnique` | crates/maxops-hub/src/client_api.rs:451-458 | no two texts share an encoding |
| `Reading.JsonFragment` | crates/maxops-hub/src/client_api.rs:438-468 | the octet-level loop returns exactly the whole characters that fit from the offset, or the right error |
| `Reading.FragmentIsSlice` | crates/maxops-hub/src/client_api.rs:465-467 | a fragment is the slice from offset to next offset, within the limit, complete exactly at the end |
| `Reading.TooSmallExactly` | crates/maxops-hub/src/client_api.rs:459-464 | a read lacks room exactly when the next character is wider than the limit |
| `Reading.FragmentsReassemble` | crates/maxops-hub/src/client_api.rs:438-468 | following the next offset under any limits collects whole characters, the whole text when complete, and completes after enough reads |
| `Reading.PageOf` | crates/maxops-hub/src/client_api.rs:162-198 | a page holds at most the limit, exactly the limit when another follows, and names the total and the revision of its list |
| `Reading.PageExactly` | crates/maxops-hub/src/client_api.rs:162-198 | a page is given exactly for a limit of 1 to 200 and no cursor or one of this list, with the next entries in order; another list's cursor conflicts and any other is invalid |
| `Reading.PagesReassemble` | crates/maxops-hub/src/client_api.rs:162-198 | following the next cursor over an unchanged list yields each entry once in order and all of them after enough pages |
| `Reading.ForeignCursorIsRejected` | crates/maxops-hub/src/client_api.rs:177-186 | a cursor from another list is refused |
| `SummaryTemplate.Candidates` | crates/maxops-hub/src/observation_views.rs:111-118 | the nonempty names, longest encoding first, the host first on a tie |
| `SummaryTemplate.SummaryTemplateOf` | crates/maxops-hub/src/observation_views.rs:106-135 | the scanning loop yields the rendered pieces, or nothing for text with a token or without both names |
| `SummaryTemplate.ScanKeepsText` | crates/maxops-hub/src/observation_views.rs:120-133 | the pieces found stand for exactly the scanned text |
| `SummaryTemplate.ScanIsGreedy` | crates/maxops-hub/src/observation_views.rs:111-133 | a character is kept exactly where neither name stands in the text; otherwise the longer name, the host's on a tie, is taken |
| `SummaryTemplate.ReplaceFills` | crates/maxops-hub/src/observation_views.rs:104-135 | a plain replacement fills exactly the inserted tokens, because no surrounding text can form one |
| `SummaryTemplate.TemplateIsLossless` | crates/maxops-hub/src/observation_views.rs:104-135 | every template offered expands to the original text |
| `AlertGroups.GroupByName` | crates/maxops-hub/src/observation_views.rs:52-59 | groups in name order, nonempty, holding every alert of the page once |
| `AlertGroups.HoistFields` | crates/maxops-hub/src/observation_views.rs:79-90 | exactly the fields identical in all peers move to the group and merge back |
| `AlertGroups.CommonTemplate` | crates/maxops-hub/src/observation_views.rs:65-72 | a template is used exactly when all peers share one of at most 200 characters and their summaries differ |
| `AlertGroups.CompressGroup` | crates/maxops-hub/src/observation_views.rs:61-97 | expanding a group gives its alerts back in order |
| `AlertGroups.Summarize` | crates/maxops-hub/src/observation_views.rs:50-99 | expanding the groups returns the page, each alert once, if and only if every alert has a name |
| `AlertGroups.NamelessAlertIsLost` | crates/maxops-hub/src/observation_views.rs:54-58 | no summary whatever reads back as the page of one alert without a name |
| `EventStore.Events.IngestAlert` | crates/maxops-store/src/lib.rs:1184-1251 | the alert joins or opens an episode and is inserted as the transaction function says |
| `FeedAnswers.IngestExactly` | crates/maxops-store/src/lib.rs:1184-1251 | an alert of a valid key opens an episode exactly when it fires anew or is unknown; its row and its one event follow |
| `FeedAnswers.DiagnoseExactly` | crates/maxops-hub/src/lib.rs:3176-3200 | a diagnostic joins exactly the episode of the retained event it is about, or one of its own |
| `Episodes.EpisodesRefineHistory` | crates/maxops-store/src/lib.rs:1184-1251 | over every run two alert events share an episode exactly when they are of the same alert and no firing after an inactive state lies in between |
| `EventStore.Events.PruneEventsThrough` | crates/maxops-store/src/lib.rs:1458-1465 | drops events with their deliveries, or is refused while a remediation refers to one |
| `FeedAnswers.PruneExactly` | crates/maxops-store/src/lib.rs:1458-1465 | removes exactly the events up to the limit and their deliveries, unless a claim names one of them |
| `EventStore.Events.BeginDelivery` | crates/maxops-store/src/lib.rs:1519-1584 | grants an attempt only to a queued delivery whose retry time has come |
| `FeedAnswers.GrantExactly` | crates/maxops-store/src/lib.rs:1519-1584 | an attempt is granted exactly when it is open, due, and its subscription and event exist, and counts one up |
| `EventStore.Events.AcknowledgeDelivery` | crates/maxops-store/src/lib.rs:1608-1644 | closes an intent and raises the cursor in one transaction |
| `FeedAnswers.AcknowledgeExactly` | crates/maxops-store/src/lib.rs:1608-1644 | closes exactly its own intent and raises exactly its own cursor |
| `EventStore.Events.SkipSubscriptionEvent` | crates/maxops-store/src/lib.rs:1646-1658 | raises the cursor, never lowers it |
| `FeedAnswers.SkipExactly` | crates/maxops-store/src/lib.rs:1646-1658 | the cursor becomes the later of itself and the event; other cursors stay |
| `EventStore.DeliverNextEvent` | crates/maxops-hub/src/lib.rs:3554-3621 | one round leaves the tables of `Delivery.RoundFeed`, and sends exactly the next event when it passes the filter and its attempt is granted |
| `FeedAnswers.RoundExactly` | crates/maxops-hub/src/lib.rs:3554-3621 | after any run a round takes the first retained event after the cursor and passes it over, leaves it until its retry time, closes it with the sink's final answer and moves the cursor onto it, or schedules its next attempt |
| `Delivery.RoundIsProtocol` | crates/maxops-hub/src/lib.rs:3554-3621 | the tables after a round are those of a sequence of delivery steps |
| `Delivery.RoundIsOrdered` | crates/maxops-hub/src/lib.rs:3554-3621 | a round after any run keeps the delivery promises |
| `Delivery.OrderedAtLeastOnce` | crates/maxops-hub/src/lib.rs:3554-3621 | over every run retained matching events up to the cursor were acknowledged, acknowledged ones are at or below it, and attempts are at least the retry delay apart |
| `Delivery.NextEventIsGranted` | crates/maxops-store/src/lib.rs:1519-1584 | the next event is granted exactly when its retry time has come, so delivery never sticks |
| `Delivery.CursorsNeverGoBack` | crates/maxops-store/src/lib.rs:1608-1658 | no step lowers a cursor or forgets the acknowledgement of a retained event |
| `Delivery.CursorsOnlyGrow` | crates/maxops-store/src/lib.rs:1608-1658 | cursors grow over every run |
| `EventStore.Events.BeginRemediation` | crates/maxops-store/src/lib.rs:1660-1774 | claims under the policy's checks with its event, or returns the job's earlier claim, or changes nothing |
| `FeedAnswers.ClaimIsGrantedExactly` | crates/maxops-store/src/lib.rs:1660-1774 | a new claim is granted if and only if attempts are allowed, the job holds no claim, the event is retained for the host, nothing is active on its episode or host, attempts remain and every earlier start has cooled down; the claim is the next attempt |
| `EventStore.Events.FinishRemediation` | crates/maxops-store/src/lib.rs:1776-1864 | closes an active claim at its revision, or changes nothing; never fails for a missing event |
| `FeedAnswers.FinishExactly` | crates/maxops-store/src/lib.rs:1776-1864 | a finish closes exactly the active claim of its principal at its revision; each refusal has its exact condition |
| `Remediations.RemediationBudget` | crates/maxops-store/src/lib.rs:1697-1733 | over every run with a fixed policy: one active claim per host and episode, attempts exactly 1..n within budget, starts at least the cooldown apart |
| `Remediations.ClaimIsIdempotent` | crates/maxops-store/src/lib.rs:1675-1686 | whatever lies between, a second claim by the same job and principal returns the first one unchanged, unless a finish took the job off it or gave it to an earlier claim |
| `Remediations.RepeatReturnsExactly` | crates/maxops-store/src/lib.rs:1675-1686 | a claim is returned again if and only if it still carries the job and no earlier claim of the principal does |
| `Remediations.FinishedClaimIsForgotten` | crates/maxops-store/src/lib.rs:1821-1832 | after a finish without a job, the claim is not returned to its job again |
| `Remediations.ActiveClaimCanFinish` | crates/maxops-store/src/lib.rs:1791-1820 | in every reachable store an active claim can be finished, because its event is never pruned |

## Left out

- HTTP routing, tokens, TLS, the CLI, the MCP adapter, the Python client, and schema generation.
- SQL text, migrations, backup and statistics: tables are maps or sequences, a transaction is one step.
- D-Bus, systemd-run, Nix and git processes: their outcomes are free choices of the environment.
- Liveness: nothing is claimed about everything being recovered, since restart lists at most 200 jobs.
- At-most-once launch of runner jobs: recovery of a dispatching job relaunches it when its unit is not found.
- Uniqueness of verification jobs: a manual verify keeps the change in Verifying and can be linked again.
- Completeness of event listing under concurrent inserts: the page and the maximum are separate reads.
- Workspaces and publishing, metrics and pressure views, configuration and name checks.
- The projection of raw alerts (field selection and truncation) and the sort before paging: summaries start from a projected page.
- JSON pointer lookup in fragment reads: the selected text is a parameter.
- Overflow of revisions, sequences and attempt counters.
- Sub-second time: remediation starts are compared in whole seconds, as the code does, and delivery times are whole seconds too.
- The text of reports, summaries and audit payloads, timestamps and deadlines: expiry is a free choice in every step.
- A workflow that is cancelled or times out directly may leave a child with an unknown outcome; the claim about settled children is for workflows that were themselves unknown.
- The executor is modelled as steps over worker positions instead of loops, so that a crash can fall between any two of them.
