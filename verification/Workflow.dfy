/**
 The Hub's change pipeline over whole runs: any number of clients, workflow
 workers and reconciliations act on private copies of rows, and every write is
 one store transaction.  A crash forgets copies, never rows.
 */
module Workflow {
  import opened Wrappers
  import opened Jobs
  import opened Changes
  import opened StoreModel
  import opened StoreProofs
  import opened Pipeline

  /** History: how a stage job came to be linked to its change. */
  datatype StageLink = StageLink(change: ChangeId, action: DeploymentAction, workflow: Option<JobId>)

  /** History: a change was in a state at some time. */
  datatype Visit = Visit(change: ChangeId, state: ChangeState)

  /** A job row as some reader saw it. */
  datatype JobCopy = JobCopy(id: JobId, job: Job)

  /** History: a committed refresh, as the row before and after it and the stage record it acted on. */
  datatype Acceptance = Acceptance(before: ChangeRecord, after: ChangeRecord, stage: JobCopy)

  /** The parts of a refreshed change that a reconciliation uses. */
  datatype Seen = Seen(state: ChangeState, jobs: ChangeJobs)

  /** A call of `reconcile`: the job it read, the change it read next, and the children found settled. */
  datatype Reconciliation = Reconciliation(
    workflow: JobId,
    revision: nat,
    cancelRequested: bool,
    seen: Option<Seen>,
    checked: set<JobId>)

  datatype Hub = Hub(
    db: Db,
    claims: map<ChangeId, set<JobId>>,   // history: workflows that ever claimed a change
    copies: set<ChangeRecord>,
    records: set<JobCopy>,
    tasks: set<Reconciliation>,
    links: map<JobId, StageLink>,
    accepted: set<Acceptance>,
    visited: set<Visit>)

  datatype Step =
    | SubmitOther(key: string, id: JobId, request: NewJob)
    | OpenChange(plan: Plan, creator: string, prepare: JobId)
    | ReadChange(change: ChangeId)
    | ReadJob(id: JobId)
    | Crash(copies: set<ChangeRecord>, records: set<JobCopy>, tasks: set<Reconciliation>)
    | RefreshCopy(copy: ChangeRecord, stage: JobCopy)
    | LoseRace(copy: ChangeRecord, stage: JobCopy)
    | ExpireCopy(copy: ChangeRecord)
    | StartStage(copy: ChangeRecord, action: DeploymentAction, key: string, n: nat, request: NewJob)
    | ClaimChange(copy: ChangeRecord, key: string, n: nat, request: NewJob)
    | WorkflowStage(workflow: JobId, seen: ChangeRecord, copy: ChangeRecord, key: string, request: NewJob)
    | EnterWorkflow(workflow: JobId, expected: nat)
    | FinishWorkflow(workflow: JobId, expected: nat, goal: JobState, seen: ChangeRecord)
    | MoveJob(id: JobId, expected: nat, next: JobState, result: Option<Evidence>)
    | CancelJob(id: JobId, expected: nat, reason: string)
    | BeginReconcile(workflow: JobId)
    | ReadForReconcile(task: Reconciliation)
    | CheckChild(task: Reconciliation, child: JobId)
    | SettleWorkflow(task: Reconciliation)

  // ---------------------------------------------------------------- what the Hub code decides

  predicate IsWorkflow(job: Job) { job.operation == DeployRun && job.spec.Workflow? }

  /** A job created through `submit_change_stage_owned`. */
  predicate IsStage(job: Job) { job.spec.Stage? && job.spec.action != Prepare }

  predicate StageRequest(request: NewJob, action: DeploymentAction, copy: ChangeRecord) {
    request.operation == OperationFor(action) && request.spec == Stage(action, copy.plan, copy.artifact)
  }

  function StageJob(jobs: ChangeJobs, action: DeploymentAction): (j: Option<JobId>) {
    match action
    case Prepare => jobs.prepare
    case Build => jobs.build
    case Activate => jobs.activate
    case Verify => jobs.verify
    case Rollback => jobs.rollback
  }

  /** A refresh acts on the terminal stage job its copy names. */
  predicate Refreshes(h: Hub, copy: ChangeRecord, stage: JobCopy) {
    && copy in h.copies && stage in h.records && IsTerminal(stage.job.state)
    && ExpectedAction(copy.state).Some? && StageJob(copy.jobs, ExpectedAction(copy.state).value) == Some(stage.id)
  }

  function ReportOf(job: Job): (r: Option<DeploymentReport>) {
    if job.result.Some? && job.result.value.Runner? then job.result.value.report else None
  }

  function RefreshWith(copy: ChangeRecord, stage: Job): (r: Refreshed) {
    Refresh(copy, stage.host, stage.state == OutcomeUnknown, ReportOf(stage))
  }

  /** The stage a running workflow submits: chosen from one read, checked again on a second. */
  function NextStage(h: Hub, w: JobId, seen: ChangeRecord, copy: ChangeRecord): (a: Option<DeploymentAction>) {
    var jobs := h.db.jobs;
    if w !in jobs || !IsWorkflow(jobs[w]) then None
    else if seen !in h.copies || copy !in h.copies || seen.revision != copy.revision then None
    else if seen.plan.changeId != jobs[w].spec.change || copy.plan.changeId != jobs[w].spec.change then None
    else
      var action := WorkflowAction(jobs[w].spec.until, seen);
      if action.Some? && Startable(action.value, copy.state) then action else None
  }

  function Children(jobs: ChangeJobs): (s: set<JobId>) {
    set o | o in {jobs.build, jobs.activate, jobs.verify, jobs.rollback} && o.Some? :: o.value
  }

  predicate Settles(h: Hub, t: Reconciliation) {
    && t in h.tasks && t.seen.Some? && Children(t.seen.value.jobs) <= t.checked
    && t.workflow in h.db.jobs && IsWorkflow(h.db.jobs[t.workflow])
  }

  function VerdictOf(h: Hub, t: Reconciliation): (next: JobState)
    requires Settles(h, t)
  {
    Verdict(h.db.jobs[t.workflow].spec.until, t.cancelRequested, t.seen.value.state)
  }

  /**
   A worker may time out or lose track of its workflow at any point, but cancels
   it only on request, fails it only on a change it saw ended, and lets it
   succeed only on a change it saw attained.
   */
  predicate MayFinish(h: Hub, w: JobId, goal: JobState, seen: ChangeRecord) {
    && w in h.db.jobs && IsWorkflow(h.db.jobs[w]) && !IsTerminal(h.db.jobs[w].state) && IsTerminal(goal)
    && (goal == Succeeded ==>
          && seen in h.copies && seen.plan.changeId == h.db.jobs[w].spec.change
          && Attained(h.db.jobs[w].spec.until, seen.state))
    && (goal == Cancelled ==> h.db.jobs[w].cancelRequested)
    && (goal == Failed ==>
          && seen in h.copies && seen.plan.changeId == h.db.jobs[w].spec.change
          && IsTerminalChange(seen.state) && seen.state != ChangeUnknown && seen.state != ChangeSucceeded)
  }

  // ---------------------------------------------------------------- writes

  function StageNext(h: Hub, copy: ChangeRecord, action: DeploymentAction, key: string, id: JobId, request: NewJob,
                     workflow: Option<JobId>): (r: Hub)
  {
    var link := ChangeLink(copy, StageState(action), Some(action), workflow);
    var s := SubmitLinkedJob(h.db, key, id, request, Some(link));
    if s.Err? || !s.value.created then h
    else h.(db := s.value.db,
            links := h.links[id := StageLink(copy.plan.changeId, action, workflow)],
            visited := h.visited + {Visit(copy.plan.changeId, StageState(action))})
  }

  function ClaimNext(h: Hub, copy: ChangeRecord, key: string, id: JobId, request: NewJob): (r: Hub) {
    var c := copy.plan.changeId;
    var s := SubmitLinkedJob(h.db, key, id, request, Some(ChangeLink(copy, copy.state, None, None)));
    if s.Err? || !s.value.created then h
    else h.(db := s.value.db, claims := h.claims[c := (if c in h.claims then h.claims[c] else {}) + {id}])
  }

  function UpdateNext(h: Hub, copy: ChangeRecord, r: Refreshed, stage: Option<JobCopy>): (r': Hub) {
    var c := copy.plan.changeId;
    var t := TransitionChange(h.db, c, copy.creator, RefreshUpdate(copy, r));
    if t.Err? then h
    else
      var why := if stage.None? then {} else {Acceptance(h.db.changes[c].record, t.value.changes[c].record, stage.value)};
      h.(db := t.value, accepted := h.accepted + why, visited := h.visited + {Visit(c, t.value.changes[c].record.state)})
  }

  function OpenNext(h: Hub, plan: Plan, creator: string, prepare: JobId): (r: Hub) {
    var t := CreateChange(h.db, plan, creator, prepare);
    if t.Err? then h
    else h.(db := t.value,
            links := h.links[prepare := StageLink(plan.changeId, Prepare, None)],
            visited := h.visited + {Visit(plan.changeId, Checking)})
  }

  function MoveNext(h: Hub, id: JobId, expected: nat, next: JobState, result: Option<Evidence>): (r: Hub) {
    h.(db := AfterTransition(h.db, id, expected, next, result))
  }

  // ---------------------------------------------------------------- steps

  /** Steps that only read, or forget. */
  function LocalNext(h: Hub, step: Step): (r: Hub) {
    match step
    case ReadChange(c) => if c in h.db.changes then h.(copies := h.copies + {h.db.changes[c].record}) else h
    case ReadJob(id) => if id in h.db.jobs then h.(records := h.records + {JobCopy(id, h.db.jobs[id])}) else h
    case Crash(copies, records, tasks) =>
      h.(copies := h.copies * copies, records := h.records * records, tasks := h.tasks * tasks)
    case LoseRace(copy, stage) =>
      // the refresh that lost the revision race hands its caller the locally edited copy
      if && Refreshes(h, copy, stage) && copy.plan.changeId in h.db.changes
         && h.db.changes[copy.plan.changeId].record.revision != copy.revision
      then
        var r := RefreshWith(copy, stage.job);
        h.(copies := h.copies + {copy.(plan := r.plan, artifact := r.artifact)})
      else h
    case BeginReconcile(w) =>
      if w in h.db.jobs && IsWorkflow(h.db.jobs[w]) && h.db.jobs[w].state == OutcomeUnknown
      then h.(tasks := h.tasks + {Reconciliation(w, h.db.jobs[w].revision, h.db.jobs[w].cancelRequested, None, {})})
      else h
    case ReadForReconcile(t) =>
      if && t in h.tasks && t.workflow in h.db.jobs && IsWorkflow(h.db.jobs[t.workflow])
         && h.db.jobs[t.workflow].spec.change in h.db.changes
      then
        var record := h.db.changes[h.db.jobs[t.workflow].spec.change].record;
        h.(tasks := h.tasks + {t.(seen := Some(Seen(record.state, record.jobs)))})
      else h
    case CheckChild(t, child) =>
      if t in h.tasks && child in h.db.jobs && IsSettled(h.db.jobs[child].state)
      then h.(tasks := h.tasks + {t.(checked := t.checked + {child})})
      else h
    case _ => h
  }

  /** Steps that move a job row. */
  function JobNext(h: Hub, step: Step): (r: Hub) {
    var jobs := h.db.jobs;
    match step
    case EnterWorkflow(w, expected) =>
      if w in jobs && IsWorkflow(jobs[w]) && (jobs[w].state == Queued || jobs[w].state == Dispatching)
      then MoveNext(h, w, expected, if jobs[w].state == Queued then Dispatching else Running, None)
      else h
    case FinishWorkflow(w, expected, goal, seen) =>
      if MayFinish(h, w, goal, seen) then MoveNext(h, w, expected, FinishStep(jobs[w].state, goal), None) else h
    case MoveJob(id, expected, next, result) =>
      if id in jobs && jobs[id].operation != DeployRun then MoveNext(h, id, expected, next, result) else h
    case SettleWorkflow(t) => if Settles(h, t) then MoveNext(h, t.workflow, t.revision, VerdictOf(h, t), None) else h
    case CancelJob(id, expected, reason) => h.(db := AfterCancel(h.db, id, expected, reason))
    case _ => h
  }

  /** Steps that write a change row, or create a job. */
  function ChangeNext(h: Hub, step: Step): (r: Hub) {
    match step
    case SubmitOther(key, id, request) =>
      if request.operation != DeployRun && !request.spec.Workflow? && (request.spec.Stage? ==> request.spec.action == Prepare)
      then h.(db := AfterSubmit(h.db, key, id, request, None)) else h
    case OpenChange(plan, creator, prepare) =>
      if plan.drvPath.None? && plan.lockDigest.None? && IsPrepareJob(h, plan, prepare)
      then OpenNext(h, plan, creator, prepare) else h
    case RefreshCopy(copy, stage) =>
      if Refreshes(h, copy, stage) then UpdateNext(h, copy, RefreshWith(copy, stage.job), Some(stage)) else h
    case ExpireCopy(copy) =>
      if copy in h.copies && copy.state == Ready
      then UpdateNext(h, copy, Refreshed(Stale, copy.plan, copy.artifact), None) else h
    case StartStage(copy, action, key, n, request) =>
      if copy in h.copies && Startable(action, copy.state) && StageRequest(request, action, copy)
      then StageNext(h, copy, action, key, Uuid(n), request, None) else h
    case ClaimChange(copy, key, n, request) =>
      if && copy in h.copies && (copy.state == Prepared || copy.state == Ready)
         && request.operation == DeployRun && request.spec.Workflow? && request.spec.change == copy.plan.changeId
      then ClaimNext(h, copy, key, Uuid(n), request) else h
    case WorkflowStage(w, seen, copy, key, request) =>
      var action := NextStage(h, w, seen, copy);
      if action.Some? && StageRequest(request, action.value, copy)
      then StageNext(h, copy, action.value, key, Child(w, OperationFor(action.value)), request, Some(w)) else h
    case _ => h
  }

  predicate IsLocalStep(step: Step) {
    || step.ReadChange? || step.ReadJob? || step.Crash? || step.LoseRace?
    || step.BeginReconcile? || step.ReadForReconcile? || step.CheckChild?
  }

  predicate IsJobStep(step: Step) {
    step.EnterWorkflow? || step.FinishWorkflow? || step.MoveJob? || step.SettleWorkflow? || step.CancelJob?
  }

  function Next(h: Hub, step: Step): (r: Hub) {
    if IsLocalStep(step) then LocalNext(h, step)
    else if IsJobStep(step) then JobNext(h, step)
    else ChangeNext(h, step)
  }

  function RunSteps(h: Hub, steps: seq<Step>): (r: Hub)
    decreases |steps|
  {
    if steps == [] then h else RunSteps(Next(h, steps[0]), steps[1..])
  }

  const START: Hub := Hub(EMPTY, map[], {}, {}, {}, map[], {}, {})

  // ---------------------------------------------------------------- the invariant, one object at a time

  /** Each stage job that a change names was linked to it for that stage. */
  predicate NamedBy(links: map<JobId, StageLink>, c: ChangeId, action: DeploymentAction, o: Option<JobId>) {
    o.Some? ==> o.value in links && links[o.value].change == c && links[o.value].action == action
  }

  predicate Named(links: map<JobId, StageLink>, c: ChangeId, jobs: ChangeJobs) {
    && NamedBy(links, c, Prepare, jobs.prepare) && NamedBy(links, c, Build, jobs.build)
    && NamedBy(links, c, Activate, jobs.activate) && NamedBy(links, c, Verify, jobs.verify)
    && NamedBy(links, c, Rollback, jobs.rollback)
  }

  predicate RowSafe(c: ChangeId, record: ChangeRecord, links: map<JobId, StageLink>, visited: set<Visit>) {
    record.plan.changeId == c && Proven(record) && Visit(c, record.state) in visited && Named(links, c, record.jobs)
  }

  ghost predicate RowsSafe(changes: map<ChangeId, ChangeRow>, links: map<JobId, StageLink>, visited: set<Visit>) {
    forall c :: c in changes ==> RowSafe(c, changes[c].record, links, visited)
  }

  /** A copy is the row of some earlier revision, or an edited form of it. */
  predicate CopySafe(copy: ChangeRecord, changes: map<ChangeId, ChangeRow>, links: map<JobId, StageLink>, visited: set<Visit>) {
    var c := copy.plan.changeId;
    && c in changes
    && copy.revision <= changes[c].record.revision
    && (copy.revision == changes[c].record.revision ==> copy == changes[c].record)
    && Visit(c, copy.state) in visited && Named(links, c, copy.jobs)
  }

  ghost predicate CopiesSafe(copies: set<ChangeRecord>, changes: map<ChangeId, ChangeRow>, links: map<JobId, StageLink>,
                             visited: set<Visit>)
  {
    forall copy :: copy in copies ==> CopySafe(copy, changes, links, visited)
  }

  predicate BeforeActivation(s: ChangeState) {
    Rank(s) < Rank(Activating) || (IsTerminalChange(s) && s != ChangeSucceeded)
  }

  predicate Reached(visited: set<Visit>, c: ChangeId, until: Until) {
    Visit(c, ChangeSucceeded) in visited || (until == Built && Visit(c, Ready) in visited)
  }

  predicate WorkflowSafe(w: JobId, job: Job, changes: map<ChangeId, ChangeRow>, claims: map<ChangeId, set<JobId>>,
                         visited: set<Visit>)
    requires IsWorkflow(job)
  {
    var c := job.spec.change;
    && c in claims && w in claims[c] && c in changes
    && (job.state == Succeeded ==> Reached(visited, c, job.spec.until))
    && (job.state == Cancelled ==> job.cancelRequested)
    && (job.spec.until == Built && !IsSettled(job.state) ==> BeforeActivation(changes[c].record.state))
  }

  predicate JobSafe(j: JobId, job: Job, changes: map<ChangeId, ChangeRow>, claims: map<ChangeId, set<JobId>>,
                    links: map<JobId, StageLink>, visited: set<Visit>)
  {
    && (job.operation == DeployRun <==> job.spec.Workflow?)
    && (IsWorkflow(job) ==> WorkflowSafe(j, job, changes, claims, visited))
    && (IsStage(job) ==> j in links)
  }

  ghost predicate JobsSafe(jobs: map<JobId, Job>, changes: map<ChangeId, ChangeRow>, claims: map<ChangeId, set<JobId>>,
                           links: map<JobId, StageLink>, visited: set<Visit>)
  {
    forall j :: j in jobs ==> JobSafe(j, jobs[j], changes, claims, links, visited)
  }

  /** A stage that a workflow linked: its own child, named by the change until the workflow settles. */
  predicate OwnedSafe(j: JobId, link: StageLink, w: JobId, jobs: map<JobId, Job>, record: ChangeRecord) {
    && j == Child(w, OperationFor(link.action)) && link.action != Prepare
    && w in jobs && IsWorkflow(jobs[w]) && jobs[w].spec.change == link.change
    && (jobs[w].spec.until == Built ==> link.action == Build)
    && (!IsSettled(jobs[w].state) ==> StageJob(record.jobs, link.action) == Some(j))
  }

  predicate LinkedJob(link: StageLink, job: Job) {
    && job.operation == OperationFor(link.action)
    && job.spec.Stage? && job.spec.action == link.action && job.spec.plan.changeId == link.change
    && (link.action != Prepare && link.action != Build ==> ArtifactMatches(job.spec.plan, job.spec.artifact))
  }

  predicate LinkSafe(j: JobId, link: StageLink, jobs: map<JobId, Job>, changes: map<ChangeId, ChangeRow>) {
    && j in jobs && LinkedJob(link, jobs[j])
    && link.change in changes && Rank(StageState(link.action)) <= Rank(changes[link.change].record.state)
    && (link.workflow.Some? ==> OwnedSafe(j, link, link.workflow.value, jobs, changes[link.change].record))
  }

  ghost predicate LinksSafe(links: map<JobId, StageLink>, jobs: map<JobId, Job>, changes: map<ChangeId, ChangeRow>) {
    forall j :: j in links ==> LinkSafe(j, links[j], jobs, changes)
  }

  /** While its workflow is still the record it read, a reconciliation sees the jobs the change names now. */
  predicate TaskSafe(t: Reconciliation, jobs: map<JobId, Job>, changes: map<ChangeId, ChangeRow>, visited: set<Visit>) {
    && t.workflow in jobs && IsWorkflow(jobs[t.workflow])
    && t.revision <= jobs[t.workflow].revision
    && (t.revision == jobs[t.workflow].revision ==>
          jobs[t.workflow].state == OutcomeUnknown && t.cancelRequested == jobs[t.workflow].cancelRequested)
    && (t.seen.Some? ==>
          && Visit(jobs[t.workflow].spec.change, t.seen.value.state) in visited
          && (t.revision == jobs[t.workflow].revision && jobs[t.workflow].spec.change in changes ==>
                t.seen.value.jobs == changes[jobs[t.workflow].spec.change].record.jobs))
    && (forall j :: j in t.checked ==> j in jobs && IsSettled(jobs[j].state))
  }

  ghost predicate TasksSafe(tasks: set<Reconciliation>, jobs: map<JobId, Job>, changes: map<ChangeId, ChangeRow>,
                            visited: set<Visit>)
  {
    forall t :: t in tasks ==> TaskSafe(t, jobs, changes, visited)
  }

  /** A job copy is an earlier form of its row. */
  predicate RecordSafe(r: JobCopy, jobs: map<JobId, Job>) {
    r.id in jobs && JobAdvances(r.job, jobs[r.id])
  }

  ghost predicate RecordsSafe(records: set<JobCopy>, jobs: map<JobId, Job>) {
    forall r :: r in records ==> RecordSafe(r, jobs)
  }

  // ---------------------------------------------------------------- accepted reports

  /** The stage job left a report of the stage that the change waited for. */
  predicate Fits(e: Acceptance) {
    ReportOf(e.stage.job).Some? && ExpectedAction(e.before.state) == Some(ReportOf(e.stage.job).value.action)
  }

  predicate Says(e: Acceptance, status: ReportStatus) { Fits(e) && ReportOf(e.stage.job).value.status == status }

  /** A Prepared report names derivation and lock digest; a Built one is complete over a prepared plan. */
  predicate Incomplete(e: Acceptance) {
    || (Says(e, ReportPrepared)
        && (ReportOf(e.stage.job).value.drvPath.None? || ReportOf(e.stage.job).value.lockDigest.None?))
    || (Says(e, ReportBuilt)
        && (ReportOf(e.stage.job).value.outPath.None? || e.before.plan.drvPath.None? || e.before.plan.lockDigest.None?))
  }

  /** The stage ended without a report that fits it. */
  predicate Silent(e: Acceptance, unknown: bool) { !Fits(e) && (e.stage.job.state == OutcomeUnknown <==> unknown) }

  /** What the stage job must have shown for the change to be in its new state. */
  predicate Explains(e: Acceptance) {
    match e.after.state
    case Prepared => Says(e, ReportPrepared) && !Incomplete(e)
    case Ready => Says(e, ReportBuilt) && !Incomplete(e)
    case Verifying => Says(e, ReportActivated)
    case ChangeSucceeded => Says(e, ReportVerified)
    case RolledBack => Says(e, ReportRolledBack)
    case Superseded => Says(e, ReportSuperseded)
    case Stale => Says(e, ReportStale)
    case ChangeUnknown => Says(e, ReportOutcomeUnknown) || Silent(e, true)
    case ChangeFailed =>
      || Incomplete(e)
      || (e.before.state != Recovering && (Says(e, ReportFailed) || Silent(e, false)))
    case RecoveryFailed =>
      || Says(e, ReportRecoveryFailed)
      || (e.before.state == Recovering && (Says(e, ReportFailed) || Silent(e, false)))
    case _ => false
  }

  /** What the report adds to the change: the prepared plan, or the artifact built on the stage's host. */
  predicate Carries(e: Acceptance) {
    && e.after == e.before.(state := e.after.state, revision := e.before.revision + 1, plan := e.after.plan,
                            artifact := e.after.artifact)
    && e.after.plan == e.before.plan.(drvPath := e.after.plan.drvPath, lockDigest := e.after.plan.lockDigest)
    && (if Says(e, ReportPrepared) then
          && e.after.plan.drvPath == ReportOf(e.stage.job).value.drvPath
          && e.after.plan.lockDigest == ReportOf(e.stage.job).value.lockDigest
        else e.after.plan == e.before.plan)
    && (if e.after.state == Ready then
          && ArtifactMatches(e.after.plan, e.after.artifact)
          && e.after.artifact.value.builderHost == e.stage.job.host
          && ReportOf(e.stage.job).Some? && Some(e.after.artifact.value.outPath) == ReportOf(e.stage.job).value.outPath
        else e.after.artifact == e.before.artifact)
  }

  /** The stage job was linked to this change for the stage it waited for. */
  predicate LinkedTo(e: Acceptance, links: map<JobId, StageLink>) {
    && e.stage.id in links && links[e.stage.id].change == e.before.plan.changeId
    && Some(links[e.stage.id].action) == ExpectedAction(e.before.state)
  }

  predicate Accounted(e: Acceptance, links: map<JobId, StageLink>) {
    Explains(e) && Carries(e) && LinkedTo(e, links) && IsTerminal(e.stage.job.state)
  }

  ghost predicate AcceptedSafe(accepted: set<Acceptance>, jobs: map<JobId, Job>, links: map<JobId, StageLink>) {
    forall e :: e in accepted ==> RecordSafe(e.stage, jobs) && Accounted(e, links)
  }

  /** The accepted build that gave a change its artifact. */
  predicate BuildOf(e: Acceptance, record: ChangeRecord) {
    && e.before.plan.changeId == record.plan.changeId && e.after.state == Ready
    && e.after.plan == record.plan && e.after.artifact == record.artifact
  }

  predicate WasBuilt(record: ChangeRecord, accepted: set<Acceptance>) {
    NeedsArtifact(record.state) ==> exists e :: e in accepted && BuildOf(e, record)
  }

  ghost predicate RowsBuilt(changes: map<ChangeId, ChangeRow>, accepted: set<Acceptance>) {
    forall c :: c in changes ==> WasBuilt(changes[c].record, accepted)
  }

  // ---------------------------------------------------------------- milestones

  /** States that a change enters only by a refresh. */
  predicate IsMilestone(s: ChangeState) {
    || s == Prepared || s == Ready || s == Verifying || s == ChangeSucceeded || s == RolledBack || s == Superseded
    || s == ChangeFailed || s == RecoveryFailed || s == ChangeUnknown
  }

  /** The milestones behind a change in this state. */
  function Milestones(s: ChangeState): (m: set<ChangeState>)
    ensures forall x :: x in m ==> IsMilestone(x)
  {
    match s
    case Prepared => {Prepared}
    case Building => {Prepared}
    case Publishing => {Prepared}
    case Ready => {Prepared, Ready}
    case Activating => {Prepared, Ready}
    case Verifying => {Prepared, Ready, Verifying}
    case Recovering => {Prepared, Ready, Verifying}
    case ChangeSucceeded => {Prepared, Ready, Verifying, ChangeSucceeded}
    case RolledBack => {Prepared, Ready, RolledBack}
    case Superseded => {Prepared, Ready, Superseded}
    case RecoveryFailed => {Prepared, Ready, RecoveryFailed}
    case ChangeFailed => {ChangeFailed}
    case ChangeUnknown => {ChangeUnknown}
    case _ => {}
  }

  /** The refresh that brought the change to the milestone. */
  predicate Causes(e: Acceptance, c: ChangeId, m: ChangeState) {
    e.before.plan.changeId == c && e.after.state == m && CanAdvance(e.before.state, m)
  }

  predicate Caused(accepted: set<Acceptance>, c: ChangeId, m: ChangeState) {
    exists e :: e in accepted && Causes(e, c, m)
  }

  predicate VisitEarned(v: Visit, accepted: set<Acceptance>) {
    forall m :: m in Milestones(v.state) ==> Caused(accepted, v.change, m)
  }

  ghost predicate Earned(visited: set<Visit>, accepted: set<Acceptance>) {
    forall v :: v in visited ==> VisitEarned(v, accepted)
  }

  predicate SingleUse(action: DeploymentAction) { action != Verify }

  predicate SameStage(a: StageLink, b: StageLink) {
    a.change == b.change && a.action == b.action && SingleUse(a.action)
  }

  ghost predicate Single(links: map<JobId, StageLink>) {
    forall i, j :: i in links && j in links && SameStage(links[i], links[j]) ==> i == j
  }

  ghost predicate Safe(h: Hub) {
    && Linked(h.db) && Fenced(Ledger(h.db, h.claims))
    && RowsSafe(h.db.changes, h.links, h.visited)
    && CopiesSafe(h.copies, h.db.changes, h.links, h.visited)
    && JobsSafe(h.db.jobs, h.db.changes, h.claims, h.links, h.visited)
    && LinksSafe(h.links, h.db.jobs, h.db.changes)
    && TasksSafe(h.tasks, h.db.jobs, h.db.changes, h.visited)
    && RecordsSafe(h.records, h.db.jobs)
    && AcceptedSafe(h.accepted, h.db.jobs, h.links)
    && RowsBuilt(h.db.changes, h.accepted)
    && Earned(h.visited, h.accepted)
    && Single(h.links)
  }

  // ---------------------------------------------------------------- a job row moves

  lemma MoveKeepsFence(db: Db, db': Db, claims: map<ChangeId, set<JobId>>)
    requires Fenced(Ledger(db, claims)) && JobsExtend(db.jobs, db'.jobs) && db'.changes == db.changes
    ensures Fenced(Ledger(db', claims))
  {
    forall c, j | c in claims && j in claims[c] ensures FencedAt(db', c, j) {
      assert FencedAt(db, c, j);
      assert JobAdvances(db.jobs[j], db'.jobs[j]);
    }
  }

  lemma MovedWorkflowIsSafe(w: JobId, a: Job, b: Job, changes: map<ChangeId, ChangeRow>, claims: map<ChangeId, set<JobId>>,
                            links: map<JobId, StageLink>, visited: set<Visit>)
    requires JobSafe(w, a, changes, claims, links, visited) && JobAdvances(a, b)
    requires IsWorkflow(a) && b.state == Succeeded ==> Reached(visited, a.spec.change, a.spec.until)
    requires IsWorkflow(a) && b.state == Cancelled ==> b.cancelRequested
    ensures JobSafe(w, b, changes, claims, links, visited)
  {
  }

  lemma MovedLinkIsSafe(j: JobId, link: StageLink, jobs: map<JobId, Job>, jobs': map<JobId, Job>,
                        changes: map<ChangeId, ChangeRow>)
    requires LinkSafe(j, link, jobs, changes) && j in jobs' && JobAdvances(jobs[j], jobs'[j])
    requires link.workflow.Some? ==>
      var w := link.workflow.value;
      w in jobs ==> w in jobs' && JobAdvances(jobs[w], jobs'[w])
    ensures LinkSafe(j, link, jobs', changes)
  {
  }

  lemma MovedTaskIsSafe(t: Reconciliation, jobs: map<JobId, Job>, jobs': map<JobId, Job>, changes: map<ChangeId, ChangeRow>,
                        visited: set<Visit>)
    requires TaskSafe(t, jobs, changes, visited) && JobsExtend(jobs, jobs')
    ensures TaskSafe(t, jobs', changes, visited)
  {
    assert JobAdvances(jobs[t.workflow], jobs'[t.workflow]);
    forall j | j in t.checked ensures j in jobs' && IsSettled(jobs'[j].state) {
      assert JobAdvances(jobs[j], jobs'[j]);
    }
  }

  lemma MovedRecordIsSafe(r: JobCopy, jobs: map<JobId, Job>, jobs': map<JobId, Job>)
    requires RecordSafe(r, jobs) && JobsExtend(jobs, jobs')
    ensures RecordSafe(r, jobs')
  {
    AdvancesTransitive(r.job, jobs[r.id], jobs'[r.id]);
  }

  /** Links, tasks, records and acceptances follow advancing jobs. */
  lemma FollowersStaySafe(h: Hub, jobs': map<JobId, Job>)
    requires LinksSafe(h.links, h.db.jobs, h.db.changes) && TasksSafe(h.tasks, h.db.jobs, h.db.changes, h.visited)
    requires RecordsSafe(h.records, h.db.jobs) && AcceptedSafe(h.accepted, h.db.jobs, h.links) && JobsExtend(h.db.jobs, jobs')
    ensures LinksSafe(h.links, jobs', h.db.changes) && TasksSafe(h.tasks, jobs', h.db.changes, h.visited)
    ensures RecordsSafe(h.records, jobs') && AcceptedSafe(h.accepted, jobs', h.links)
  {
    forall j | j in h.links ensures LinkSafe(j, h.links[j], jobs', h.db.changes) {
      MovedLinkIsSafe(j, h.links[j], h.db.jobs, jobs', h.db.changes);
    }
    forall t | t in h.tasks ensures TaskSafe(t, jobs', h.db.changes, h.visited) {
      MovedTaskIsSafe(t, h.db.jobs, jobs', h.db.changes, h.visited);
    }
    forall r | r in h.records ensures RecordSafe(r, jobs') {
      MovedRecordIsSafe(r, h.db.jobs, jobs');
    }
    forall e | e in h.accepted ensures RecordSafe(e.stage, jobs') && Accounted(e, h.links) {
      MovedRecordIsSafe(e.stage, h.db.jobs, jobs');
    }
  }

  lemma JobWriteIsSafe(h: Hub, db': Db, id: JobId, after: Job, e: JobEvent)
    requires Safe(h) && id in h.db.jobs && WritesJob(h.db, db', id, after, e) && JobAdvances(h.db.jobs[id], after)
    requires IsWorkflow(h.db.jobs[id]) && after.state == Succeeded ==>
      Reached(h.visited, h.db.jobs[id].spec.change, h.db.jobs[id].spec.until)
    requires IsWorkflow(h.db.jobs[id]) && after.state == Cancelled ==> after.cancelRequested
    ensures Safe(h.(db := db'))
  {
    WriteKeepsLinked(h.db, db', id, after, e);
    WriteExtends(h.db, db', id, after, e);
    MoveKeepsFence(h.db, db', h.claims);
    FollowersStaySafe(h, db'.jobs);
    forall j | j in db'.jobs ensures JobSafe(j, db'.jobs[j], h.db.changes, h.claims, h.links, h.visited) {
      if j == id {
        MovedWorkflowIsSafe(j, h.db.jobs[j], after, h.db.changes, h.claims, h.links, h.visited);
      }
    }
  }

  lemma MoveIsSafe(h: Hub, id: JobId, expected: nat, next: JobState, result: Option<Evidence>)
    requires Safe(h) && id in h.db.jobs
    requires IsWorkflow(h.db.jobs[id]) && next == Succeeded ==>
      Reached(h.visited, h.db.jobs[id].spec.change, h.db.jobs[id].spec.until)
    requires IsWorkflow(h.db.jobs[id]) && next == Cancelled ==> h.db.jobs[id].cancelRequested
    ensures Safe(MoveNext(h, id, expected, next, result))
  {
    var db' := AfterTransition(h.db, id, expected, next, result);
    TransitionWrites(h.db, id, expected, next, result);
    if db' != h.db {
      JobWriteIsSafe(h, db', id, Moved(h.db.jobs[id], next, result), EventOf(h.db.jobs[id], id, next));
    } else {
      assert h.(db := db') == h;
    }
  }

  lemma CancelIsSafe(h: Hub, id: JobId, expected: nat, reason: string)
    requires Safe(h)
    ensures Safe(h.(db := AfterCancel(h.db, id, expected, reason)))
  {
    var db' := AfterCancel(h.db, id, expected, reason);
    CancelWrites(h.db, id, expected, reason);
    if db' != h.db {
      var job := h.db.jobs[id];
      JobWriteIsSafe(h, db', id, CancelMarked(job), JobEvent(id, CancelRequested, job.state));
    } else {
      assert h.(db := db') == h;
    }
  }

  lemma FinishIsSafe(h: Hub, w: JobId, expected: nat, goal: JobState, seen: ChangeRecord)
    requires Safe(h) && MayFinish(h, w, goal, seen)
    ensures Safe(MoveNext(h, w, expected, FinishStep(h.db.jobs[w].state, goal), None))
  {
    if goal == Succeeded {
      assert CopySafe(seen, h.db.changes, h.links, h.visited);
    }
    MoveIsSafe(h, w, expected, FinishStep(h.db.jobs[w].state, goal), None);
  }

  lemma SettleIsSafe(h: Hub, t: Reconciliation)
    requires Safe(h) && Settles(h, t)
    ensures Safe(MoveNext(h, t.workflow, t.revision, VerdictOf(h, t), None))
  {
    assert TaskSafe(t, h.db.jobs, h.db.changes, h.visited);
    if t.revision == h.db.jobs[t.workflow].revision {
      MoveIsSafe(h, t.workflow, t.revision, VerdictOf(h, t), None);
    }
  }

  /** A worker or a reconciliation makes a workflow succeed only on evidence it read. */
  lemma JobStepIsSafe(h: Hub, step: Step)
    requires Safe(h) && IsJobStep(step)
    ensures Safe(JobNext(h, step))
  {
    if JobNext(h, step) != h {
      match step
      case EnterWorkflow(w, expected) =>
        MoveIsSafe(h, w, expected, if h.db.jobs[w].state == Queued then Dispatching else Running, None);
      case FinishWorkflow(w, expected, goal, seen) => FinishIsSafe(h, w, expected, goal, seen);
      case MoveJob(id, expected, next, result) => MoveIsSafe(h, id, expected, next, result);
      case SettleWorkflow(t) => SettleIsSafe(h, t);
      case CancelJob(id, expected, reason) => CancelIsSafe(h, id, expected, reason);
    }
  }

  // ---------------------------------------------------------------- a job appears

  /** The tables with one more job and everything else as it was. */
  lemma AddKeepsLinked(db: Db, db': Db, id: JobId, request: NewJob, k: SubmissionKey)
    requires Linked(db) && AddsJob(db, db', id, request) && k.principal == request.principal
    requires db'.receipts == db.receipts[k := Receipt(HashOf(request), id)] && OwnersLinked(db'.changes, db'.jobs)
    ensures Linked(db')
  {
    AddKeepsReceipts(db, db', id, request, k);
  }

  lemma OwnersStay(changes: map<ChangeId, ChangeRow>, jobs: map<JobId, Job>, jobs': map<JobId, Job>)
    requires OwnersLinked(changes, jobs) && jobs.Keys <= jobs'.Keys
    ensures OwnersLinked(changes, jobs')
  {
  }

  lemma SubmitIsSafe(h: Hub, key: string, id: JobId, request: NewJob)
    requires Safe(h) && request.operation != DeployRun && !request.spec.Workflow?
    requires request.spec.Stage? ==> request.spec.action == Prepare
    ensures Safe(h.(db := AfterSubmit(h.db, key, id, request, None)))
  {
    var r := SubmitLinkedJob(h.db, key, id, request, None);
    if r.Ok? {
      SubmitEffect(h.db, key, id, request, None);
      if r.value.created {
        AddedJobIsSafe(h, r.value.db, id, request, SubmissionKey(request.principal, key));
      }
    }
  }

  lemma AddedJobIsSafe(h: Hub, db': Db, id: JobId, request: NewJob, k: SubmissionKey)
    requires Safe(h) && AddsJob(h.db, db', id, request) && db'.changes == h.db.changes
    requires k.principal == request.principal && db'.receipts == h.db.receipts[k := Receipt(HashOf(request), id)]
    requires request.operation != DeployRun && !request.spec.Workflow?
    requires request.spec.Stage? ==> request.spec.action == Prepare
    ensures Safe(h.(db := db'))
  {
    OwnersStay(h.db.changes, h.db.jobs, db'.jobs);
    AddKeepsLinked(h.db, db', id, request, k);
    AddExtends(h.db, db', id, request);
    MoveKeepsFence(h.db, db', h.claims);
    FollowersStaySafe(h, db'.jobs);
    OtherJobIsSafe(id, request, h);
  }

  lemma OtherJobIsSafe(id: JobId, request: NewJob, h: Hub)
    requires request.operation != DeployRun && !request.spec.Workflow?
    requires request.spec.Stage? ==> request.spec.action == Prepare
    ensures JobSafe(id, FreshJob(request), h.db.changes, h.claims, h.links, h.visited)
  {
  }

  // ---------------------------------------------------------------- a change row moves

  /** Every write to a change moves it along the graph and keeps its artifact tied to its plan. */
  predicate RecordMoves(a: ChangeRecord, b: ChangeRecord) {
    && b.plan.changeId == a.plan.changeId && b.creator == a.creator && b.revision == a.revision + 1
    && (b.state == a.state || CanAdvance(a.state, b.state))
    && (Proven(a) ==> Proven(b))
  }

  predicate WritesChange(changes: map<ChangeId, ChangeRow>, changes': map<ChangeId, ChangeRow>, c: ChangeId) {
    && c in changes && c in changes' && changes' == changes[c := changes'[c]]
    && RecordMoves(changes[c].record, changes'[c].record)
  }

  /** Links only grow, by jobs that had none. */
  predicate LinksGrow(links: map<JobId, StageLink>, links': map<JobId, StageLink>) {
    forall j :: j in links ==> j in links' && links'[j] == links[j]
  }

  lemma NamedGrows(links: map<JobId, StageLink>, links': map<JobId, StageLink>, c: ChangeId, jobs: ChangeJobs)
    requires Named(links, c, jobs) && LinksGrow(links, links')
    ensures Named(links', c, jobs)
  {
  }

  lemma RankGrows(a: ChangeState, b: ChangeState)
    requires a == b || CanAdvance(a, b)
    ensures Rank(a) <= Rank(b)
  {
    if a != b {
      AdvanceRaisesRank(a, b);
    }
  }

  lemma CopyStays(copy: ChangeRecord, changes: map<ChangeId, ChangeRow>, changes': map<ChangeId, ChangeRow>,
                  links: map<JobId, StageLink>, links': map<JobId, StageLink>, visited: set<Visit>, visited': set<Visit>)
    requires CopySafe(copy, changes, links, visited) && LinksGrow(links, links') && visited <= visited'
    requires copy.plan.changeId in changes' && RowAdvances(changes[copy.plan.changeId], changes'[copy.plan.changeId])
    ensures CopySafe(copy, changes', links', visited')
  {
    NamedGrows(links, links', copy.plan.changeId, copy.jobs);
  }

  lemma CopiesStay(copies: set<ChangeRecord>, changes: map<ChangeId, ChangeRow>, changes': map<ChangeId, ChangeRow>,
                   links: map<JobId, StageLink>, links': map<JobId, StageLink>, visited: set<Visit>, visited': set<Visit>)
    requires CopiesSafe(copies, changes, links, visited) && LinksGrow(links, links') && visited <= visited'
    requires ChangesExtend(changes, changes')
    ensures CopiesSafe(copies, changes', links', visited')
  {
    forall copy | copy in copies ensures CopySafe(copy, changes', links', visited') {
      CopyStays(copy, changes, changes', links, links', visited, visited');
    }
  }

  lemma WriteExtendsChanges(changes: map<ChangeId, ChangeRow>, changes': map<ChangeId, ChangeRow>, c: ChangeId)
    requires WritesChange(changes, changes', c)
    ensures ChangesExtend(changes, changes')
  {
  }

  lemma RowsStay(changes: map<ChangeId, ChangeRow>, changes': map<ChangeId, ChangeRow>, c: ChangeId,
                 links: map<JobId, StageLink>, links': map<JobId, StageLink>, visited: set<Visit>, visited': set<Visit>)
    requires RowsSafe(changes, links, visited) && WritesChange(changes, changes', c)
    requires LinksGrow(links, links') && visited <= visited'
    requires Visit(c, changes'[c].record.state) in visited' && Named(links', c, changes'[c].record.jobs)
    ensures RowsSafe(changes', links', visited')
  {
    forall d | d in changes' ensures RowSafe(d, changes'[d].record, links', visited') {
      if d != c {
        NamedGrows(links, links', d, changes[d].record.jobs);
      }
    }
  }

  /** A job that a row write leaves alone: its workflow, if any, stays before activation. */
  lemma JobStays(j: JobId, job: Job, changes: map<ChangeId, ChangeRow>, changes': map<ChangeId, ChangeRow>,
                 claims: map<ChangeId, set<JobId>>, claims': map<ChangeId, set<JobId>>,
                 links: map<JobId, StageLink>, links': map<JobId, StageLink>, visited: set<Visit>, visited': set<Visit>)
    requires JobSafe(j, job, changes, claims, links, visited) && LinksGrow(links, links') && visited <= visited'
    requires IsWorkflow(job) ==>
      var c := job.spec.change;
      && c in changes' && c in claims' && j in claims'[c]
      && (job.spec.until == Built && !IsSettled(job.state) ==> BeforeActivation(changes'[c].record.state))
    ensures JobSafe(j, job, changes', claims', links', visited')
  {
  }

  lemma LinkStays(j: JobId, link: StageLink, jobs: map<JobId, Job>, jobs': map<JobId, Job>,
                  changes: map<ChangeId, ChangeRow>, changes': map<ChangeId, ChangeRow>)
    requires LinkSafe(j, link, jobs, changes) && j in jobs' && jobs'[j] == jobs[j]
    requires link.change in changes' && Rank(changes[link.change].record.state) <= Rank(changes'[link.change].record.state)
    requires link.workflow.Some? ==> OwnedSafe(j, link, link.workflow.value, jobs', changes'[link.change].record)
    ensures LinkSafe(j, link, jobs', changes')
  {
  }

  lemma TaskStays(t: Reconciliation, jobs: map<JobId, Job>, jobs': map<JobId, Job>, changes: map<ChangeId, ChangeRow>,
                  changes': map<ChangeId, ChangeRow>, visited: set<Visit>, visited': set<Visit>)
    requires TaskSafe(t, jobs, changes, visited) && visited <= visited'
    requires forall j :: j in jobs ==> j in jobs' && jobs'[j] == jobs[j]
    requires
      var w := jobs[t.workflow];
      t.revision == w.revision && w.spec.change in changes' ==>
        w.spec.change in changes && changes'[w.spec.change].record.jobs == changes[w.spec.change].record.jobs
    ensures TaskSafe(t, jobs', changes', visited')
  {
  }

  // ---------------------------------------------------------------- milestones are earned

  lemma MilestonesStep(a: ChangeState, b: ChangeState)
    requires CanAdvance(a, b)
    ensures Milestones(b) <= Milestones(a) + {b}
    ensures b in Milestones(b) ==> IsMilestone(b)
  {
  }

  lemma CausedGrows(accepted: set<Acceptance>, accepted': set<Acceptance>, c: ChangeId, m: ChangeState)
    requires Caused(accepted, c, m) && accepted <= accepted'
    ensures Caused(accepted', c, m)
  {
    var e :| e in accepted && Causes(e, c, m);
    assert e in accepted';
  }

  lemma EarnedGrows(visited: set<Visit>, accepted: set<Acceptance>, accepted': set<Acceptance>)
    requires Earned(visited, accepted) && accepted <= accepted'
    ensures Earned(visited, accepted')
  {
    forall v | v in visited ensures VisitEarned(v, accepted') {
      forall m | m in Milestones(v.state) ensures Caused(accepted', v.change, m) {
        CausedGrows(accepted, accepted', v.change, m);
      }
    }
  }

  /** A step to a new state is earned when a milestone it enters has its report. */
  lemma StepIsEarned(c: ChangeId, a: ChangeState, b: ChangeState, accepted: set<Acceptance>)
    requires VisitEarned(Visit(c, a), accepted) && (a == b || CanAdvance(a, b))
    requires a != b && IsMilestone(b) ==> Caused(accepted, c, b)
    ensures VisitEarned(Visit(c, b), accepted)
  {
    if a != b {
      MilestonesStep(a, b);
    }
  }

  lemma OneMoreVisit(visited: set<Visit>, v: Visit, accepted: set<Acceptance>)
    requires Earned(visited, accepted) && VisitEarned(v, accepted)
    ensures Earned(visited + {v}, accepted)
  {
  }

  // ---------------------------------------------------------------- the frame of a row write

  /** No job row is lost or changed. */
  ghost predicate SameJobs(jobs: map<JobId, Job>, jobs': map<JobId, Job>) {
    forall j :: j in jobs ==> j in jobs' && jobs'[j] == jobs[j]
  }

  ghost predicate ClaimsGrow(claims: map<ChangeId, set<JobId>>, claims': map<ChangeId, set<JobId>>) {
    forall c :: c in claims ==> c in claims' && claims[c] <= claims'[c]
  }

  /** A workflow that runs until built keeps its change before activation. */
  predicate WorkflowSpared(job: Job, c: ChangeId, record: ChangeRecord) {
    IsWorkflow(job) && job.spec.change == c && job.spec.until == Built && !IsSettled(job.state) ==> BeforeActivation(record.state)
  }

  /** The change keeps naming the children of its unsettled workflow. */
  predicate LinkSpared(j: JobId, link: StageLink, jobs: map<JobId, Job>, c: ChangeId, record: ChangeRecord) {
    link.change == c && link.workflow.Some? && link.workflow.value in jobs && !IsSettled(jobs[link.workflow.value].state) ==>
      StageJob(record.jobs, link.action) == Some(j)
  }

  /** A reconciliation of the change's workflow still sees the jobs the change names. */
  predicate TaskSpared(t: Reconciliation, jobs: map<JobId, Job>, c: ChangeId, before: ChangeRecord, after: ChangeRecord) {
    && t.workflow in jobs && IsWorkflow(jobs[t.workflow]) && jobs[t.workflow].spec.change == c
    && t.revision == jobs[t.workflow].revision
    ==> after.jobs == before.jobs
  }

  ghost predicate Spared(h: Hub, c: ChangeId, before: ChangeRecord, after: ChangeRecord) {
    && (forall j :: j in h.db.jobs ==> WorkflowSpared(h.db.jobs[j], c, after))
    && (forall j :: j in h.links ==> LinkSpared(j, h.links[j], h.db.jobs, c, after))
    && (forall t :: t in h.tasks ==> TaskSpared(t, h.db.jobs, c, before, after))
  }

  lemma SparedJob(h: Hub, h': Hub, c: ChangeId, j: JobId)
    requires j in h.db.jobs && JobSafe(j, h.db.jobs[j], h.db.changes, h.claims, h.links, h.visited)
    requires WritesChange(h.db.changes, h'.db.changes, c) && WorkflowSpared(h.db.jobs[j], c, h'.db.changes[c].record)
    requires LinksGrow(h.links, h'.links) && h.visited <= h'.visited && ClaimsGrow(h.claims, h'.claims)
    ensures JobSafe(j, h.db.jobs[j], h'.db.changes, h'.claims, h'.links, h'.visited)
  {
    JobStays(j, h.db.jobs[j], h.db.changes, h'.db.changes, h.claims, h'.claims, h.links, h'.links, h.visited, h'.visited);
  }

  lemma SparedLink(h: Hub, h': Hub, c: ChangeId, j: JobId)
    requires j in h.links && LinkSafe(j, h.links[j], h.db.jobs, h.db.changes) && SameJobs(h.db.jobs, h'.db.jobs)
    requires WritesChange(h.db.changes, h'.db.changes, c)
    requires LinkSpared(j, h.links[j], h.db.jobs, c, h'.db.changes[c].record)
    ensures LinkSafe(j, h.links[j], h'.db.jobs, h'.db.changes)
  {
    RankGrows(h.db.changes[c].record.state, h'.db.changes[c].record.state);
    LinkStays(j, h.links[j], h.db.jobs, h'.db.jobs, h.db.changes, h'.db.changes);
  }

  lemma SparedTask(h: Hub, h': Hub, c: ChangeId, t: Reconciliation)
    requires TaskSafe(t, h.db.jobs, h.db.changes, h.visited) && SameJobs(h.db.jobs, h'.db.jobs)
    requires WritesChange(h.db.changes, h'.db.changes, c) && h.visited <= h'.visited
    requires TaskSpared(t, h.db.jobs, c, h.db.changes[c].record, h'.db.changes[c].record)
    ensures TaskSafe(t, h'.db.jobs, h'.db.changes, h'.visited)
  {
    TaskStays(t, h.db.jobs, h'.db.jobs, h.db.changes, h'.db.changes, h.visited, h'.visited);
  }

  /** What a row write brings with it beyond the row. */
  ghost predicate Grows(h: Hub, h': Hub) {
    && SameJobs(h.db.jobs, h'.db.jobs) && LinksGrow(h.links, h'.links) && ClaimsGrow(h.claims, h'.claims)
    && h.visited <= h'.visited && h'.copies == h.copies && h'.records == h.records && h'.tasks == h.tasks
    && (forall j :: j in h'.db.jobs && j !in h.db.jobs ==>
          JobSafe(j, h'.db.jobs[j], h'.db.changes, h'.claims, h'.links, h'.visited))
    && (forall j :: j in h'.links && j !in h.links ==> LinkSafe(j, h'.links[j], h'.db.jobs, h'.db.changes))
  }

  lemma SparedAll(h: Hub, h': Hub, c: ChangeId)
    requires JobsSafe(h.db.jobs, h.db.changes, h.claims, h.links, h.visited)
    requires LinksSafe(h.links, h.db.jobs, h.db.changes) && TasksSafe(h.tasks, h.db.jobs, h.db.changes, h.visited)
    requires WritesChange(h.db.changes, h'.db.changes, c) && Grows(h, h')
    requires Spared(h, c, h.db.changes[c].record, h'.db.changes[c].record)
    ensures JobsSafe(h'.db.jobs, h'.db.changes, h'.claims, h'.links, h'.visited)
    ensures LinksSafe(h'.links, h'.db.jobs, h'.db.changes) && TasksSafe(h'.tasks, h'.db.jobs, h'.db.changes, h'.visited)
  {
    forall j | j in h'.db.jobs ensures JobSafe(j, h'.db.jobs[j], h'.db.changes, h'.claims, h'.links, h'.visited) {
      if j in h.db.jobs {
        SparedJob(h, h', c, j);
      }
    }
    forall j | j in h'.links ensures LinkSafe(j, h'.links[j], h'.db.jobs, h'.db.changes) {
      if j in h.links {
        SparedLink(h, h', c, j);
      }
    }
    forall t | t in h'.tasks ensures TaskSafe(t, h'.db.jobs, h'.db.changes, h'.visited) {
      SparedTask(h, h', c, t);
    }
  }

  lemma SameRecords(records: set<JobCopy>, jobs: map<JobId, Job>, jobs': map<JobId, Job>)
    requires RecordsSafe(records, jobs) && SameJobs(jobs, jobs')
    ensures RecordsSafe(records, jobs')
  {
    forall r | r in records ensures RecordSafe(r, jobs') {
      assert RecordSafe(r, jobs);
    }
  }

  lemma SameAccepted(accepted: set<Acceptance>, jobs: map<JobId, Job>, jobs': map<JobId, Job>,
                     links: map<JobId, StageLink>, links': map<JobId, StageLink>)
    requires AcceptedSafe(accepted, jobs, links) && SameJobs(jobs, jobs') && LinksGrow(links, links')
    ensures AcceptedSafe(accepted, jobs', links')
  {
    forall e | e in accepted ensures RecordSafe(e.stage, jobs') && Accounted(e, links') {
      assert RecordSafe(e.stage, jobs) && Accounted(e, links);
    }
  }

  /** A change that keeps plan and artifact keeps the build behind them. */
  lemma BuildStays(a: ChangeRecord, b: ChangeRecord, accepted: set<Acceptance>, accepted': set<Acceptance>)
    requires WasBuilt(a, accepted) && accepted <= accepted' && b.plan == a.plan && b.artifact == a.artifact
    requires NeedsArtifact(b.state) ==> NeedsArtifact(a.state)
    ensures WasBuilt(b, accepted')
  {
    if NeedsArtifact(b.state) {
      var e :| e in accepted && BuildOf(e, a);
      assert e in accepted' && BuildOf(e, b);
    }
  }

  lemma BuildsStay(changes: map<ChangeId, ChangeRow>, changes': map<ChangeId, ChangeRow>, c: ChangeId,
                   accepted: set<Acceptance>, accepted': set<Acceptance>)
    requires RowsBuilt(changes, accepted) && accepted <= accepted' && c in changes'
    requires changes' == changes[c := changes'[c]] && WasBuilt(changes'[c].record, accepted')
    ensures RowsBuilt(changes', accepted')
  {
    forall d | d in changes' ensures WasBuilt(changes'[d].record, accepted') {
      if d != c {
        BuildStays(changes[d].record, changes[d].record, accepted, accepted');
      }
    }
  }

  /** A write to one row that spares everybody else's claims on it. */
  lemma RowWriteIsSafe(h: Hub, h': Hub, c: ChangeId)
    requires Safe(h) && WritesChange(h.db.changes, h'.db.changes, c) && Grows(h, h')
    requires Spared(h, c, h.db.changes[c].record, h'.db.changes[c].record)
    requires Linked(h'.db) && Fenced(Ledger(h'.db, h'.claims))
    requires Visit(c, h'.db.changes[c].record.state) in h'.visited && Named(h'.links, c, h'.db.changes[c].record.jobs)
    requires AcceptedSafe(h'.accepted, h'.db.jobs, h'.links) && Earned(h'.visited, h'.accepted) && Single(h'.links)
    requires h.accepted <= h'.accepted && WasBuilt(h'.db.changes[c].record, h'.accepted)
    ensures Safe(h')
  {
    RowsStay(h.db.changes, h'.db.changes, c, h.links, h'.links, h.visited, h'.visited);
    WriteExtendsChanges(h.db.changes, h'.db.changes, c);
    CopiesStay(h.copies, h.db.changes, h'.db.changes, h.links, h'.links, h.visited, h'.visited);
    SparedAll(h, h', c);
    BuildsStay(h.db.changes, h'.db.changes, c, h.accepted, h'.accepted);
    SameRecords(h.records, h.db.jobs, h'.db.jobs);
  }

  // ---------------------------------------------------------------- refresh and expiry

  function RefreshedRecord(copy: ChangeRecord, r: Refreshed): (record: ChangeRecord) {
    copy.(state := r.next, revision := copy.revision + 1, plan := r.plan, artifact := r.artifact)
  }

  /** The history entry of an update, none for an expiry. */
  function Why(copy: ChangeRecord, r: Refreshed, stage: Option<JobCopy>): (why: set<Acceptance>) {
    if stage.None? then {} else {Acceptance(copy, RefreshedRecord(copy, r), stage.value)}
  }

  /** What the code guarantees about an update computed from a current copy. */
  predicate UpdateAllowed(h: Hub, copy: ChangeRecord, r: Refreshed, stage: Option<JobCopy>) {
    && copy in h.copies && r.plan.changeId == copy.plan.changeId
    && (copy.state == r.next || CanAdvance(copy.state, r.next) ==>
          && (Proven(copy) ==> Proven(copy.(state := r.next, plan := r.plan, artifact := r.artifact)))
          && (BeforeActivation(copy.state) ==> BeforeActivation(r.next))
          && (forall e :: e in Why(copy, r, stage) ==> Accounted(e, h.links)))
    && (stage.None? ==> r == Refreshed(Stale, copy.plan, copy.artifact) && copy.state == Ready)
    && (stage.Some? ==> stage.value in h.records)
  }

  lemma RefreshIsAllowed(h: Hub, copy: ChangeRecord, stage: JobCopy)
    requires Refreshes(h, copy, stage) && CopySafe(copy, h.db.changes, h.links, h.visited)
    ensures UpdateAllowed(h, copy, RefreshWith(copy, stage.job), Some(stage))
  {
    var r := RefreshWith(copy, stage.job);
    RefreshKeeps(copy, stage.job);
    if copy.state == r.next || CanAdvance(copy.state, r.next) {
      RefreshIsExplained(Acceptance(copy, RefreshedRecord(copy, r), stage));
    }
  }

  /** Every committed refresh is explained by what the stage job left. */
  lemma RefreshIsExplained(e: Acceptance)
    requires ExpectedAction(e.before.state).Some? && e.after == RefreshedRecord(e.before, RefreshWith(e.before, e.stage.job))
    requires e.before.state == e.after.state || CanAdvance(e.before.state, e.after.state)
    ensures Explains(e) && Carries(e)
  {
  }

  lemma RefreshKeeps(copy: ChangeRecord, stage: Job)
    requires ExpectedAction(copy.state).Some?
    ensures
      var r := RefreshWith(copy, stage);
      && r.plan.changeId == copy.plan.changeId
      && (copy.state == r.next || CanAdvance(copy.state, r.next) ==>
            && (Proven(copy) ==> Proven(copy.(state := r.next, plan := r.plan, artifact := r.artifact)))
            && (BeforeActivation(copy.state) ==> BeforeActivation(r.next)))
  {
    if Proven(copy) {
      RefreshKeepsProvenance(copy, stage.host, stage.state == OutcomeUnknown, ReportOf(stage));
    }
  }

  lemma ExpiryIsAllowed(h: Hub, copy: ChangeRecord)
    requires copy in h.copies && copy.state == Ready
    ensures UpdateAllowed(h, copy, Refreshed(Stale, copy.plan, copy.artifact), None)
  {
  }

  /** A committed update: the copy was current, and its row moved as the update says. */
  predicate Updates(h: Hub, h': Hub, copy: ChangeRecord, r: Refreshed, stage: Option<JobCopy>) {
    var c := copy.plan.changeId;
    && WritesChange(h.db.changes, h'.db.changes, c) && h.db.changes[c].record == copy
    && h' == h.(db := h.db.(changes := h'.db.changes), accepted := h.accepted + Why(copy, r, stage),
                visited := h.visited + {Visit(c, r.next)})
    && h'.db.changes[c] == ChangeRow(RefreshedRecord(copy, r), h.db.changes[c].workflow)
  }

  lemma UpdateShape(h: Hub, copy: ChangeRecord, r: Refreshed, stage: Option<JobCopy>)
    requires CopySafe(copy, h.db.changes, h.links, h.visited)
    requires UpdateAllowed(h, copy, r, stage) && Proven(h.db.changes[copy.plan.changeId].record)
    requires TransitionChange(h.db, copy.plan.changeId, copy.creator, RefreshUpdate(copy, r)).Ok?
    ensures Updates(h, UpdateNext(h, copy, r, stage), copy, r, stage)
  {
    UpdateEffect(h.db, copy.plan.changeId, copy.creator, RefreshUpdate(copy, r));
    UpdateMoves(h, copy, r, stage);
    UpdateCommits(h, copy, r, stage);
  }

  /** The hub after an update of a current copy. */
  lemma UpdateCommits(h: Hub, copy: ChangeRecord, r: Refreshed, stage: Option<JobCopy>)
    requires copy.plan.changeId in h.db.changes && h.db.changes[copy.plan.changeId].record == copy
    requires copy.state == r.next || CanAdvance(copy.state, r.next)
    ensures
      var c := copy.plan.changeId;
      var h' := UpdateNext(h, copy, r, stage);
      && h'.db.changes == h.db.changes[c := ChangeRow(RefreshedRecord(copy, r), h.db.changes[c].workflow)]
      && h' == h.(db := h.db.(changes := h'.db.changes), accepted := h.accepted + Why(copy, r, stage),
                  visited := h.visited + {Visit(c, r.next)})
  {
  }

  lemma UpdateMoves(h: Hub, copy: ChangeRecord, r: Refreshed, stage: Option<JobCopy>)
    requires UpdateAllowed(h, copy, r, stage) && Proven(copy) && (copy.state == r.next || CanAdvance(copy.state, r.next))
    ensures RecordMoves(copy, RefreshedRecord(copy, r))
  {
  }

  lemma SameOwnersLinked(db: Db, db': Db, c: ChangeId)
    requires Linked(db) && db' == db.(changes := db'.changes) && c in db.changes && c in db'.changes
    requires db'.changes == db.changes[c := db'.changes[c]] && db'.changes[c].workflow == db.changes[c].workflow
    ensures Linked(db')
  {
  }

  lemma SameOwnersFenced(db: Db, db': Db, claims: map<ChangeId, set<JobId>>, c: ChangeId)
    requires Fenced(Ledger(db, claims)) && SameJobs(db.jobs, db'.jobs) && c in db.changes && c in db'.changes
    requires db'.changes == db.changes[c := db'.changes[c]] && db'.changes[c].workflow == db.changes[c].workflow
    ensures Fenced(Ledger(db', claims))
  {
    forall d, j | d in claims && j in claims[d] ensures FencedAt(db', d, j) {
      assert FencedAt(db, d, j);
    }
  }

  /** A row whose jobs stay and that does not move past activation spares everybody. */
  lemma QuietWriteSpares(h: Hub, c: ChangeId, after: ChangeRecord)
    requires JobsSafe(h.db.jobs, h.db.changes, h.claims, h.links, h.visited)
    requires LinksSafe(h.links, h.db.jobs, h.db.changes) && c in h.db.changes
    requires after.jobs == h.db.changes[c].record.jobs
    requires BeforeActivation(h.db.changes[c].record.state) ==> BeforeActivation(after.state)
    ensures Spared(h, c, h.db.changes[c].record, after)
  {
    forall j | j in h.db.jobs ensures WorkflowSpared(h.db.jobs[j], c, after) {
      assert JobSafe(j, h.db.jobs[j], h.db.changes, h.claims, h.links, h.visited);
    }
    forall j | j in h.links ensures LinkSpared(j, h.links[j], h.db.jobs, c, after) {
      assert LinkSafe(j, h.links[j], h.db.jobs, h.db.changes);
    }
  }

  lemma UpdateIsSafe(h: Hub, copy: ChangeRecord, r: Refreshed, stage: Option<JobCopy>)
    requires Safe(h) && UpdateAllowed(h, copy, r, stage)
    ensures Safe(UpdateNext(h, copy, r, stage))
  {
    var c := copy.plan.changeId;
    assert CopySafe(copy, h.db.changes, h.links, h.visited);
    assert RowSafe(c, h.db.changes[c].record, h.links, h.visited);
    if TransitionChange(h.db, c, copy.creator, RefreshUpdate(copy, r)).Ok? {
      UpdateShape(h, copy, r, stage);
      UpdatedIsSafe(h, UpdateNext(h, copy, r, stage), copy, r, stage);
    }
  }

  lemma UpdatedIsSafe(h: Hub, h': Hub, copy: ChangeRecord, r: Refreshed, stage: Option<JobCopy>)
    requires Safe(h) && UpdateAllowed(h, copy, r, stage) && Updates(h, h', copy, r, stage)
    ensures Safe(h')
  {
    var c := copy.plan.changeId;
    assert RowSafe(c, copy, h.links, h.visited) && WasBuilt(copy, h.accepted);
    UpdateIsEarned(h, copy, r, stage);
    UpdateIsLinked(h, h', c);
    QuietWriteSpares(h, c, h'.db.changes[c].record);
    WhyIsSafe(h, copy, r, stage);
    UpdateIsBuilt(h, copy, r, stage);
    RowWriteIsSafe(h, h', c);
  }

  /** A Ready change has the build just accepted; later states keep the plan and the artifact. */
  lemma UpdateIsBuilt(h: Hub, copy: ChangeRecord, r: Refreshed, stage: Option<JobCopy>)
    requires WasBuilt(copy, h.accepted) && UpdateAllowed(h, copy, r, stage)
    requires copy.state == r.next || CanAdvance(copy.state, r.next)
    ensures WasBuilt(RefreshedRecord(copy, r), h.accepted + Why(copy, r, stage))
  {
    var after := RefreshedRecord(copy, r);
    if NeedsArtifact(r.next) {
      var e := Acceptance(copy, after, stage.value);
      assert e in Why(copy, r, stage) && Explains(e) && Carries(e);
      if r.next == Ready {
        assert BuildOf(e, after);
      } else {
        BuildStays(copy, after, h.accepted, h.accepted + Why(copy, r, stage));
      }
    }
  }

  lemma UpdateIsLinked(h: Hub, h': Hub, c: ChangeId)
    requires Linked(h.db) && Fenced(Ledger(h.db, h.claims)) && WritesChange(h.db.changes, h'.db.changes, c)
    requires h'.db == h.db.(changes := h'.db.changes) && h'.claims == h.claims
    requires h'.db.changes[c].workflow == h.db.changes[c].workflow
    ensures Linked(h'.db) && Fenced(Ledger(h'.db, h'.claims))
  {
    SameOwnersLinked(h.db, h'.db, c);
    SameOwnersFenced(h.db, h'.db, h.claims, c);
  }

  lemma WhyIsSafe(h: Hub, copy: ChangeRecord, r: Refreshed, stage: Option<JobCopy>)
    requires RecordsSafe(h.records, h.db.jobs) && AcceptedSafe(h.accepted, h.db.jobs, h.links)
    requires UpdateAllowed(h, copy, r, stage) && (copy.state == r.next || CanAdvance(copy.state, r.next))
    ensures AcceptedSafe(h.accepted + Why(copy, r, stage), h.db.jobs, h.links)
  {
  }

  lemma UpdateIsEarned(h: Hub, copy: ChangeRecord, r: Refreshed, stage: Option<JobCopy>)
    requires Earned(h.visited, h.accepted) && UpdateAllowed(h, copy, r, stage)
    requires Visit(copy.plan.changeId, copy.state) in h.visited && (copy.state == r.next || CanAdvance(copy.state, r.next))
    ensures Earned(h.visited + {Visit(copy.plan.changeId, r.next)}, h.accepted + Why(copy, r, stage))
  {
    var c := copy.plan.changeId;
    var accepted' := h.accepted + Why(copy, r, stage);
    EarnedGrows(h.visited, h.accepted, accepted');
    if copy.state != r.next && IsMilestone(r.next) {
      var e := Acceptance(copy, RefreshedRecord(copy, r), stage.value);
      assert e in accepted' && Causes(e, c, r.next);
    }
    assert VisitEarned(Visit(c, copy.state), accepted');
    StepIsEarned(c, copy.state, r.next, accepted');
    OneMoreVisit(h.visited, Visit(c, r.next), accepted');
  }

  // ---------------------------------------------------------------- opening a change

  /** The tables with one more change, and its prepare job linked. */
  predicate Opens(h: Hub, h': Hub, plan: Plan, prepare: JobId) {
    var c := plan.changeId;
    && c !in h.db.changes && c in h'.db.changes && h'.db.changes == h.db.changes[c := h'.db.changes[c]]
    && h'.db.changes[c].workflow.None? && h'.db.changes[c].record.plan == plan && h'.db.changes[c].record.state == Checking
    && h'.db.changes[c].record.jobs == ChangeJobs(Some(prepare), None, None, None, None)
    && h' == h.(db := h.db.(changes := h'.db.changes), links := h.links[prepare := StageLink(c, Prepare, None)],
                visited := h.visited + {Visit(c, Checking)})
  }

  predicate IsPrepareJob(h: Hub, plan: Plan, prepare: JobId) {
    && prepare in h.db.jobs && h.db.jobs[prepare].operation == DeployPrepare
    && h.db.jobs[prepare].spec == Stage(Prepare, plan, None)
  }

  lemma OpenShape(h: Hub, plan: Plan, creator: string, prepare: JobId)
    requires CreateChange(h.db, plan, creator, prepare).Ok?
    ensures Opens(h, OpenNext(h, plan, creator, prepare), plan, prepare)
  {
  }

  /** A change is opened once, so its prepare job was not linked before. */
  lemma PrepareIsNew(h: Hub, plan: Plan, prepare: JobId)
    requires LinksSafe(h.links, h.db.jobs, h.db.changes) && plan.changeId !in h.db.changes && IsPrepareJob(h, plan, prepare)
    ensures prepare !in h.links && forall j :: j in h.links ==> h.links[j].change != plan.changeId
  {
    assert prepare in h.links ==> LinkSafe(prepare, h.links[prepare], h.db.jobs, h.db.changes);
    forall j | j in h.links ensures h.links[j].change != plan.changeId {
      assert LinkSafe(j, h.links[j], h.db.jobs, h.db.changes);
    }
  }

  lemma OpenKeepsJobs(h: Hub, h': Hub, plan: Plan, prepare: JobId)
    requires JobsSafe(h.db.jobs, h.db.changes, h.claims, h.links, h.visited) && Opens(h, h', plan, prepare)
    requires LinksGrow(h.links, h'.links)
    ensures JobsSafe(h'.db.jobs, h'.db.changes, h'.claims, h'.links, h'.visited)
  {
    forall j | j in h.db.jobs ensures JobSafe(j, h.db.jobs[j], h'.db.changes, h.claims, h'.links, h'.visited) {
      JobStays(j, h.db.jobs[j], h.db.changes, h'.db.changes, h.claims, h.claims, h.links, h'.links, h.visited, h'.visited);
    }
  }

  lemma OpenKeepsTasks(h: Hub, h': Hub, plan: Plan, prepare: JobId)
    requires JobsSafe(h.db.jobs, h.db.changes, h.claims, h.links, h.visited) && Opens(h, h', plan, prepare)
    requires TasksSafe(h.tasks, h.db.jobs, h.db.changes, h.visited)
    ensures TasksSafe(h'.tasks, h'.db.jobs, h'.db.changes, h'.visited)
  {
    forall t | t in h.tasks ensures TaskSafe(t, h.db.jobs, h'.db.changes, h'.visited) {
      assert JobSafe(t.workflow, h.db.jobs[t.workflow], h.db.changes, h.claims, h.links, h.visited);
      TaskStays(t, h.db.jobs, h.db.jobs, h.db.changes, h'.db.changes, h.visited, h'.visited);
    }
  }

  lemma OpenKeepsLinks(h: Hub, h': Hub, plan: Plan, prepare: JobId)
    requires LinksSafe(h.links, h.db.jobs, h.db.changes) && Opens(h, h', plan, prepare)
    requires IsPrepareJob(h, plan, prepare) && prepare !in h.links
    ensures LinksSafe(h'.links, h'.db.jobs, h'.db.changes)
  {
    forall j | j in h'.links ensures LinkSafe(j, h'.links[j], h'.db.jobs, h'.db.changes) {
      if j != prepare {
        assert LinkSafe(j, h.links[j], h.db.jobs, h.db.changes);
      }
    }
  }

  lemma OpenKeepsTables(h: Hub, h': Hub, plan: Plan, prepare: JobId)
    requires Linked(h.db) && Fenced(Ledger(h.db, h.claims)) && Opens(h, h', plan, prepare)
    ensures Linked(h'.db) && Fenced(Ledger(h'.db, h'.claims)) && ChangesExtend(h.db.changes, h'.db.changes)
  {
    forall d, j | d in h.claims && j in h.claims[d] ensures FencedAt(h'.db, d, j) {
      assert FencedAt(h.db, d, j);
    }
  }

  lemma OpenKeepsRows(h: Hub, h': Hub, plan: Plan, prepare: JobId)
    requires RowsSafe(h.db.changes, h.links, h.visited) && Opens(h, h', plan, prepare) && LinksGrow(h.links, h'.links)
    ensures RowsSafe(h'.db.changes, h'.links, h'.visited)
  {
    forall d | d in h'.db.changes ensures RowSafe(d, h'.db.changes[d].record, h'.links, h'.visited) {
      if d != plan.changeId {
        NamedGrows(h.links, h'.links, d, h.db.changes[d].record.jobs);
      }
    }
  }

  lemma OpenIsSafe(h: Hub, plan: Plan, creator: string, prepare: JobId)
    requires Safe(h) && IsPrepareJob(h, plan, prepare)
    ensures Safe(OpenNext(h, plan, creator, prepare))
  {
    if CreateChange(h.db, plan, creator, prepare).Ok? {
      OpenShape(h, plan, creator, prepare);
      PrepareIsNew(h, plan, prepare);
      OpenedIsSafe(h, OpenNext(h, plan, creator, prepare), plan, prepare);
    }
  }

  lemma OpenedIsSafe(h: Hub, h': Hub, plan: Plan, prepare: JobId)
    requires Safe(h) && Opens(h, h', plan, prepare) && IsPrepareJob(h, plan, prepare) && prepare !in h.links
    requires forall j :: j in h.links ==> h.links[j].change != plan.changeId
    ensures Safe(h')
  {
    assert LinksGrow(h.links, h'.links);
    OpenKeepsTables(h, h', plan, prepare);
    OpenKeepsRows(h, h', plan, prepare);
    OpenKeepsJobs(h, h', plan, prepare);
    OpenKeepsLinks(h, h', plan, prepare);
    OpenKeepsTasks(h, h', plan, prepare);
    OpenKeepsHistory(h, h', plan, prepare);
    OpenKeepsReports(h, h', plan, prepare);
  }

  lemma OpenKeepsReports(h: Hub, h': Hub, plan: Plan, prepare: JobId)
    requires AcceptedSafe(h.accepted, h.db.jobs, h.links) && RowsBuilt(h.db.changes, h.accepted)
    requires Opens(h, h', plan, prepare) && LinksGrow(h.links, h'.links)
    ensures AcceptedSafe(h'.accepted, h'.db.jobs, h'.links) && RowsBuilt(h'.db.changes, h'.accepted)
  {
    SameAccepted(h.accepted, h.db.jobs, h'.db.jobs, h.links, h'.links);
    BuildsStay(h.db.changes, h'.db.changes, plan.changeId, h.accepted, h'.accepted);
  }

  lemma OpenKeepsHistory(h: Hub, h': Hub, plan: Plan, prepare: JobId)
    requires CopiesSafe(h.copies, h.db.changes, h.links, h.visited) && Earned(h.visited, h.accepted)
    requires Single(h.links) && Opens(h, h', plan, prepare) && prepare !in h.links && ChangesExtend(h.db.changes, h'.db.changes)
    requires forall j :: j in h.links ==> h.links[j].change != plan.changeId
    ensures CopiesSafe(h'.copies, h'.db.changes, h'.links, h'.visited) && Earned(h'.visited, h'.accepted)
    ensures Single(h'.links)
  {
    CopiesStay(h.copies, h.db.changes, h'.db.changes, h.links, h'.links, h.visited, h'.visited);
    OneMoreVisit(h.visited, Visit(plan.changeId, Checking), h.accepted);
    NewLinkIsSingle(h.links, prepare, StageLink(plan.changeId, Prepare, None));
  }

  lemma NewLinkIsSingle(links: map<JobId, StageLink>, id: JobId, link: StageLink)
    requires Single(links) && id !in links && forall j :: j in links ==> !SameStage(links[j], link)
    ensures Single(links[id := link])
  {
  }

  // ---------------------------------------------------------------- linking a stage

  /** What the code guarantees about a stage it submits from a copy. */
  predicate StageAllowed(h: Hub, copy: ChangeRecord, action: DeploymentAction, id: JobId, request: NewJob,
                         workflow: Option<JobId>)
  {
    && copy in h.copies && Startable(action, copy.state) && StageRequest(request, action, copy)
    && match workflow
       case None => id.Uuid?
       case Some(w) =>
         && id == Child(w, OperationFor(action)) && w in h.db.jobs && IsWorkflow(h.db.jobs[w])
         && h.db.jobs[w].spec.change == copy.plan.changeId
         && exists seen :: seen in h.copies && seen.revision == copy.revision && seen.plan.changeId == copy.plan.changeId
                           && WorkflowAction(h.db.jobs[w].spec.until, seen) == Some(action)
  }

  lemma WorkflowStageIsAllowed(h: Hub, w: JobId, seen: ChangeRecord, copy: ChangeRecord, request: NewJob)
    requires NextStage(h, w, seen, copy).Some? && StageRequest(request, NextStage(h, w, seen, copy).value, copy)
    ensures
      var action := NextStage(h, w, seen, copy).value;
      StageAllowed(h, copy, action, Child(w, OperationFor(action)), request, Some(w))
  {
  }

  function StageRecord(copy: ChangeRecord, action: DeploymentAction, id: JobId): (r: ChangeRecord) {
    copy.(revision := copy.revision + 1, state := StageState(action), jobs := LinkJob(copy.jobs, action, id))
  }

  /** A linked stage: made from the current row, by someone the owner rule admits. */
  predicate StageCommits(h: Hub, db': Db, copy: ChangeRecord, action: DeploymentAction, id: JobId, request: NewJob,
                         workflow: Option<JobId>)
  {
    var c := copy.plan.changeId;
    && AddsJob(h.db, db', id, request)
    && c in h.db.changes && c in db'.changes && db'.changes == h.db.changes[c := db'.changes[c]]
    && h.db.changes[c].record == copy && CheckOwner(db'.jobs, h.db.changes[c].workflow, workflow).None?
    && db'.changes[c] == ChangeRow(StageRecord(copy, action, id), h.db.changes[c].workflow)
  }

  lemma StageShape(h: Hub, copy: ChangeRecord, action: DeploymentAction, key: string, id: JobId, request: NewJob,
                   workflow: Option<JobId>)
    requires CopySafe(copy, h.db.changes, h.links, h.visited)
    requires
      var s := SubmitLinkedJob(h.db, key, id, request, Some(ChangeLink(copy, StageState(action), Some(action), workflow)));
      s.Ok? && s.value.created
    ensures
      var h' := StageNext(h, copy, action, key, id, request, workflow);
      var k := SubmissionKey(request.principal, key);
      && StageCommits(h, h'.db, copy, action, id, request, workflow)
      && h'.db.receipts == h.db.receipts[k := Receipt(HashOf(request), id)]
      && h' == h.(db := h'.db, links := h.links[id := StageLink(copy.plan.changeId, action, workflow)],
                  visited := h.visited + {Visit(copy.plan.changeId, StageState(action))})
  {
    var link := ChangeLink(copy, StageState(action), Some(action), workflow);
    SubmitEffect(h.db, key, id, request, Some(link));
    var db' := SubmitLinkedJob(h.db, key, id, request, Some(link)).value.db;
    LinkChangeEffect(db'.jobs, h.db.changes, request.principal, id, link);
  }

  lemma StageMovesRow(copy: ChangeRecord, action: DeploymentAction, id: JobId)
    requires Startable(action, copy.state)
    ensures RecordMoves(copy, StageRecord(copy, action, id))
  {
    StartIsLegal(action, copy.state);
  }

  /** An unsettled workflow of the change is its owner, and only it can have linked the stage. */
  lemma OwnerLinked(h: Hub, db': Db, copy: ChangeRecord, action: DeploymentAction, id: JobId, request: NewJob,
                    workflow: Option<JobId>, w: JobId)
    requires StageCommits(h, db', copy, action, id, request, workflow)
    requires w in h.db.jobs && !IsSettled(h.db.jobs[w].state) && FencedAt(h.db, copy.plan.changeId, w)
    ensures workflow == Some(w) && h.db.jobs[w].state == Running && !h.db.jobs[w].cancelRequested
  {
    assert db'.jobs[w] == h.db.jobs[w];
  }

  /** A workflow that stops at a build reads a Ready change as its goal, never as its next stage. */
  lemma BuiltLinksOnlyBuild(h: Hub, copy: ChangeRecord, action: DeploymentAction, id: JobId, request: NewJob, w: JobId)
    requires CopiesSafe(h.copies, h.db.changes, h.links, h.visited)
    requires StageAllowed(h, copy, action, id, request, Some(w)) && h.db.jobs[w].spec.until == Built
    requires copy.plan.changeId in h.db.changes && h.db.changes[copy.plan.changeId].record == copy
    requires BeforeActivation(copy.state)
    ensures action == Build
  {
    var seen :| seen in h.copies && seen.revision == copy.revision && seen.plan.changeId == copy.plan.changeId
                && WorkflowAction(h.db.jobs[w].spec.until, seen) == Some(action);
    assert CopySafe(seen, h.db.changes, h.links, h.visited);
  }

  lemma StageSparesWorkflow(h: Hub, db': Db, copy: ChangeRecord, action: DeploymentAction, id: JobId, request: NewJob,
                            workflow: Option<JobId>, w: JobId)
    requires CopiesSafe(h.copies, h.db.changes, h.links, h.visited) && Fenced(Ledger(h.db, h.claims))
    requires StageAllowed(h, copy, action, id, request, workflow) && StageCommits(h, db', copy, action, id, request, workflow)
    requires w in h.db.jobs && JobSafe(w, h.db.jobs[w], h.db.changes, h.claims, h.links, h.visited)
    ensures WorkflowSpared(h.db.jobs[w], copy.plan.changeId, StageRecord(copy, action, id))
  {
    var job := h.db.jobs[w];
    if IsWorkflow(job) && job.spec.change == copy.plan.changeId && job.spec.until == Built && !IsSettled(job.state) {
      assert FencedAt(h.db, copy.plan.changeId, w);
      OwnerLinked(h, db', copy, action, id, request, workflow, w);
      BuiltLinksOnlyBuild(h, copy, action, id, request, w);
    }
  }

  lemma StageSparesLink(h: Hub, db': Db, copy: ChangeRecord, action: DeploymentAction, id: JobId, request: NewJob,
                        workflow: Option<JobId>, j: JobId)
    requires StageAllowed(h, copy, action, id, request, workflow) && StageCommits(h, db', copy, action, id, request, workflow)
    requires j in h.links && LinkSafe(j, h.links[j], h.db.jobs, h.db.changes)
    requires h.links[j].workflow.Some? ==>
      var w := h.links[j].workflow.value;
      JobSafe(w, h.db.jobs[w], h.db.changes, h.claims, h.links, h.visited) && FencedAt(h.db, h.links[j].change, w)
    ensures LinkSpared(j, h.links[j], h.db.jobs, copy.plan.changeId, StageRecord(copy, action, id))
  {
    var link := h.links[j];
    if link.change == copy.plan.changeId && link.workflow.Some? && !IsSettled(h.db.jobs[link.workflow.value].state) {
      var w := link.workflow.value;
      OwnerLinked(h, db', copy, action, id, request, workflow, w);
    }
  }

  lemma OwnedLinkIsFenced(h: Hub, j: JobId)
    requires JobsSafe(h.db.jobs, h.db.changes, h.claims, h.links, h.visited) && Fenced(Ledger(h.db, h.claims))
    requires j in h.links && LinkSafe(j, h.links[j], h.db.jobs, h.db.changes)
    ensures h.links[j].workflow.Some? ==>
      var w := h.links[j].workflow.value;
      JobSafe(w, h.db.jobs[w], h.db.changes, h.claims, h.links, h.visited) && FencedAt(h.db, h.links[j].change, w)
  {
    if h.links[j].workflow.Some? {
      assert JobSafe(h.links[j].workflow.value, h.db.jobs[h.links[j].workflow.value], h.db.changes, h.claims, h.links, h.visited);
    }
  }

  lemma StageSparesTask(h: Hub, db': Db, copy: ChangeRecord, action: DeploymentAction, id: JobId, request: NewJob,
                        workflow: Option<JobId>, t: Reconciliation)
    requires JobsSafe(h.db.jobs, h.db.changes, h.claims, h.links, h.visited) && Fenced(Ledger(h.db, h.claims))
    requires StageCommits(h, db', copy, action, id, request, workflow)
    requires TaskSafe(t, h.db.jobs, h.db.changes, h.visited)
    ensures TaskSpared(t, h.db.jobs, copy.plan.changeId, copy, StageRecord(copy, action, id))
  {
    var w := t.workflow;
    if h.db.jobs[w].spec.change == copy.plan.changeId && t.revision == h.db.jobs[w].revision {
      assert JobSafe(w, h.db.jobs[w], h.db.changes, h.claims, h.links, h.visited);
      assert FencedAt(h.db, copy.plan.changeId, w);
      OwnerLinked(h, db', copy, action, id, request, workflow, w);
    }
  }

  lemma StageSpares(h: Hub, db': Db, copy: ChangeRecord, action: DeploymentAction, id: JobId, request: NewJob,
                    workflow: Option<JobId>)
    requires Safe(h)
    requires StageAllowed(h, copy, action, id, request, workflow) && StageCommits(h, db', copy, action, id, request, workflow)
    ensures Spared(h, copy.plan.changeId, copy, StageRecord(copy, action, id))
  {
    var after := StageRecord(copy, action, id);
    forall w | w in h.db.jobs ensures WorkflowSpared(h.db.jobs[w], copy.plan.changeId, after) {
      StageSparesWorkflow(h, db', copy, action, id, request, workflow, w);
    }
    forall j | j in h.links ensures LinkSpared(j, h.links[j], h.db.jobs, copy.plan.changeId, after) {
      OwnedLinkIsFenced(h, j);
      StageSparesLink(h, db', copy, action, id, request, workflow, j);
    }
    forall t | t in h.tasks ensures TaskSpared(t, h.db.jobs, copy.plan.changeId, copy, after) {
      StageSparesTask(h, db', copy, action, id, request, workflow, t);
    }
  }

  lemma NewLinkIsSafe(h: Hub, db': Db, copy: ChangeRecord, action: DeploymentAction, id: JobId, request: NewJob,
                      workflow: Option<JobId>)
    requires CopiesSafe(h.copies, h.db.changes, h.links, h.visited) && Proven(copy)
    requires workflow.Some? && workflow.value in h.db.jobs ==>
      JobSafe(workflow.value, h.db.jobs[workflow.value], h.db.changes, h.claims, h.links, h.visited)
    requires StageAllowed(h, copy, action, id, request, workflow) && StageCommits(h, db', copy, action, id, request, workflow)
    ensures LinkSafe(id, StageLink(copy.plan.changeId, action, workflow), db'.jobs, db'.changes)
  {
    StageJobIsLinked(copy, action, request);
    if workflow.Some? {
      var w := workflow.value;
      assert db'.jobs[w] == h.db.jobs[w];
      if h.db.jobs[w].spec.until == Built {
        assert h.db.jobs[w].state == Running;
        BuiltLinksOnlyBuild(h, copy, action, id, request, w);
      }
    }
  }

  lemma StageJobIsLinked(copy: ChangeRecord, action: DeploymentAction, request: NewJob)
    requires Proven(copy) && Startable(action, copy.state) && StageRequest(request, action, copy)
    ensures LinkedJob(StageLink(copy.plan.changeId, action, None), FreshJob(request))
  {
  }

  lemma LinkedNames(links: map<JobId, StageLink>, c: ChangeId, jobs: ChangeJobs, action: DeploymentAction, id: JobId,
                    workflow: Option<JobId>)
    requires Named(links, c, jobs) && id !in links
    ensures Named(links[id := StageLink(c, action, workflow)], c, LinkJob(jobs, action, id))
  {
  }

  /** A single-use stage starts strictly below the rank that any earlier link of it left behind. */
  lemma StageIsFirst(h: Hub, copy: ChangeRecord, action: DeploymentAction, j: JobId, workflow: Option<JobId>)
    requires j in h.links && LinkSafe(j, h.links[j], h.db.jobs, h.db.changes) && Startable(action, copy.state)
    requires copy.plan.changeId in h.db.changes && h.db.changes[copy.plan.changeId].record == copy
    ensures !SameStage(h.links[j], StageLink(copy.plan.changeId, action, workflow))
  {
    StartIsLegal(action, copy.state);
  }

  lemma StageIsSingle(h: Hub, copy: ChangeRecord, action: DeploymentAction, id: JobId, workflow: Option<JobId>)
    requires LinksSafe(h.links, h.db.jobs, h.db.changes) && Single(h.links) && id !in h.db.jobs
    requires Startable(action, copy.state)
    requires copy.plan.changeId in h.db.changes && h.db.changes[copy.plan.changeId].record == copy
    ensures id !in h.links && Single(h.links[id := StageLink(copy.plan.changeId, action, workflow)])
  {
    assert id in h.links ==> LinkSafe(id, h.links[id], h.db.jobs, h.db.changes);
    forall j | j in h.links ensures !SameStage(h.links[j], StageLink(copy.plan.changeId, action, workflow)) {
      StageIsFirst(h, copy, action, j, workflow);
    }
    NewLinkIsSingle(h.links, id, StageLink(copy.plan.changeId, action, workflow));
  }

  lemma StageKeepsTables(h: Hub, db': Db, copy: ChangeRecord, action: DeploymentAction, id: JobId, request: NewJob,
                         workflow: Option<JobId>, k: SubmissionKey)
    requires Linked(h.db) && Fenced(Ledger(h.db, h.claims)) && StageCommits(h, db', copy, action, id, request, workflow)
    requires k.principal == request.principal && db'.receipts == h.db.receipts[k := Receipt(HashOf(request), id)]
    ensures Linked(db') && Fenced(Ledger(db', h.claims))
  {
    OwnersStay(h.db.changes, h.db.jobs, db'.jobs);
    AddKeepsLinked(h.db, db', id, request, k);
    SameOwnersFenced(h.db, db', h.claims, copy.plan.changeId);
  }

  lemma StageIsEarned(h: Hub, copy: ChangeRecord, action: DeploymentAction)
    requires Earned(h.visited, h.accepted) && Startable(action, copy.state)
    requires Visit(copy.plan.changeId, copy.state) in h.visited
    ensures Earned(h.visited + {Visit(copy.plan.changeId, StageState(action))}, h.accepted)
  {
    var c := copy.plan.changeId;
    StartIsLegal(action, copy.state);
    assert VisitEarned(Visit(c, copy.state), h.accepted);
    StepIsEarned(c, copy.state, StageState(action), h.accepted);
    OneMoreVisit(h.visited, Visit(c, StageState(action)), h.accepted);
  }

  lemma StageIsSafe(h: Hub, copy: ChangeRecord, action: DeploymentAction, key: string, id: JobId, request: NewJob,
                    workflow: Option<JobId>)
    requires Safe(h) && StageAllowed(h, copy, action, id, request, workflow)
    ensures Safe(StageNext(h, copy, action, key, id, request, workflow))
  {
    var s := SubmitLinkedJob(h.db, key, id, request, Some(ChangeLink(copy, StageState(action), Some(action), workflow)));
    if s.Ok? && s.value.created {
      assert CopySafe(copy, h.db.changes, h.links, h.visited);
      StageShape(h, copy, action, key, id, request, workflow);
      LinkedStageIsSafe(h, StageNext(h, copy, action, key, id, request, workflow), copy, action, id, request, workflow,
                        SubmissionKey(request.principal, key));
    }
  }

  lemma LinkedStageIsSafe(h: Hub, h': Hub, copy: ChangeRecord, action: DeploymentAction, id: JobId, request: NewJob,
                          workflow: Option<JobId>, k: SubmissionKey)
    requires Safe(h) && StageAllowed(h, copy, action, id, request, workflow)
    requires StageCommits(h, h'.db, copy, action, id, request, workflow)
    requires k.principal == request.principal && h'.db.receipts == h.db.receipts[k := Receipt(HashOf(request), id)]
    requires h' == h.(db := h'.db, links := h.links[id := StageLink(copy.plan.changeId, action, workflow)],
                      visited := h.visited + {Visit(copy.plan.changeId, StageState(action))})
    ensures Safe(h')
  {
    var c := copy.plan.changeId;
    assert RowSafe(c, copy, h.links, h.visited);
    StageIsSingle(h, copy, action, id, workflow);
    StageKeepsTables(h, h'.db, copy, action, id, request, workflow, k);
    StageSpares(h, h'.db, copy, action, id, request, workflow);
    StageGrows(h, h', copy, action, id, request, workflow);
    StageKeepsHistory(h, h', copy, action, id, request, workflow);
    StageIsBuilt(h, copy, action, id);
    RowWriteIsSafe(h, h', c);
  }

  lemma StageIsBuilt(h: Hub, copy: ChangeRecord, action: DeploymentAction, id: JobId)
    requires RowsBuilt(h.db.changes, h.accepted) && Startable(action, copy.state)
    requires copy.plan.changeId in h.db.changes && h.db.changes[copy.plan.changeId].record == copy
    ensures WasBuilt(StageRecord(copy, action, id), h.accepted)
  {
    assert WasBuilt(copy, h.accepted);
    BuildStays(copy, StageRecord(copy, action, id), h.accepted, h.accepted);
  }

  lemma StageGrows(h: Hub, h': Hub, copy: ChangeRecord, action: DeploymentAction, id: JobId, request: NewJob,
                   workflow: Option<JobId>)
    requires CopiesSafe(h.copies, h.db.changes, h.links, h.visited) && Proven(copy) && id !in h.links
    requires JobsSafe(h.db.jobs, h.db.changes, h.claims, h.links, h.visited)
    requires StageAllowed(h, copy, action, id, request, workflow)
    requires StageCommits(h, h'.db, copy, action, id, request, workflow)
    requires h' == h.(db := h'.db, links := h.links[id := StageLink(copy.plan.changeId, action, workflow)],
                      visited := h.visited + {Visit(copy.plan.changeId, StageState(action))})
    ensures Grows(h, h') && WritesChange(h.db.changes, h'.db.changes, copy.plan.changeId)
  {
    assert workflow.Some? ==>
      JobSafe(workflow.value, h.db.jobs[workflow.value], h.db.changes, h.claims, h.links, h.visited);
    StageMovesRow(copy, action, id);
    NewLinkIsSafe(h, h'.db, copy, action, id, request, workflow);
    StageJobIsSafe(h', copy, action, id, request);
  }

  lemma StageJobIsSafe(h': Hub, copy: ChangeRecord, action: DeploymentAction, id: JobId, request: NewJob)
    requires StageRequest(request, action, copy) && id in h'.links
    ensures JobSafe(id, FreshJob(request), h'.db.changes, h'.claims, h'.links, h'.visited)
  {
  }

  lemma StageKeepsHistory(h: Hub, h': Hub, copy: ChangeRecord, action: DeploymentAction, id: JobId, request: NewJob,
                          workflow: Option<JobId>)
    requires AcceptedSafe(h.accepted, h.db.jobs, h.links) && Earned(h.visited, h.accepted) && id !in h.links
    requires RowSafe(copy.plan.changeId, copy, h.links, h.visited) && Startable(action, copy.state)
    requires StageCommits(h, h'.db, copy, action, id, request, workflow)
    requires h' == h.(db := h'.db, links := h.links[id := StageLink(copy.plan.changeId, action, workflow)],
                      visited := h.visited + {Visit(copy.plan.changeId, StageState(action))})
    ensures AcceptedSafe(h'.accepted, h'.db.jobs, h'.links) && Earned(h'.visited, h'.accepted)
    ensures Named(h'.links, copy.plan.changeId, h'.db.changes[copy.plan.changeId].record.jobs)
  {
    LinkedNames(h.links, copy.plan.changeId, copy.jobs, action, id, workflow);
    StageIsEarned(h, copy, action);
    SameAccepted(h.accepted, h.db.jobs, h'.db.jobs, h.links, h'.links);
  }

  // ---------------------------------------------------------------- claiming a change

  predicate ClaimAllowed(h: Hub, copy: ChangeRecord, request: NewJob) {
    && copy in h.copies && (copy.state == Prepared || copy.state == Ready)
    && request.operation == DeployRun && request.spec.Workflow? && request.spec.change == copy.plan.changeId
  }

  /** A claimed change: only its revision and its owner move, away from a settled one. */
  predicate ClaimCommits(h: Hub, db': Db, copy: ChangeRecord, id: JobId, request: NewJob) {
    var c := copy.plan.changeId;
    && AddsJob(h.db, db', id, request)
    && c in h.db.changes && c in db'.changes && db'.changes == h.db.changes[c := db'.changes[c]]
    && h.db.changes[c].record == copy && CheckOwner(db'.jobs, h.db.changes[c].workflow, None).None?
    && db'.changes[c] == ChangeRow(copy.(revision := copy.revision + 1), Some(id))
  }

  function ClaimsWith(claims: map<ChangeId, set<JobId>>, c: ChangeId, id: JobId): (r: map<ChangeId, set<JobId>>) {
    claims[c := (if c in claims then claims[c] else {}) + {id}]
  }

  lemma ClaimShape(h: Hub, copy: ChangeRecord, key: string, id: JobId, request: NewJob)
    requires CopySafe(copy, h.db.changes, h.links, h.visited)
    requires
      var s := SubmitLinkedJob(h.db, key, id, request, Some(ChangeLink(copy, copy.state, None, None)));
      s.Ok? && s.value.created
    ensures
      var h' := ClaimNext(h, copy, key, id, request);
      var k := SubmissionKey(request.principal, key);
      && ClaimCommits(h, h'.db, copy, id, request)
      && h'.db.receipts == h.db.receipts[k := Receipt(HashOf(request), id)]
      && h' == h.(db := h'.db, claims := ClaimsWith(h.claims, copy.plan.changeId, id))
  {
    var link := ChangeLink(copy, copy.state, None, None);
    SubmitEffect(h.db, key, id, request, Some(link));
    var db' := SubmitLinkedJob(h.db, key, id, request, Some(link)).value.db;
    LinkChangeEffect(db'.jobs, h.db.changes, request.principal, id, link);
  }

  /** Every earlier workflow of the change is settled, so the new one is the only live owner. */
  lemma ClaimKeepsFence(h: Hub, db': Db, copy: ChangeRecord, id: JobId, request: NewJob)
    requires Linked(h.db) && Fenced(Ledger(h.db, h.claims)) && ClaimCommits(h, db', copy, id, request)
    ensures Fenced(Ledger(db', ClaimsWith(h.claims, copy.plan.changeId, id)))
  {
    var claims' := ClaimsWith(h.claims, copy.plan.changeId, id);
    forall c, j | c in claims' && j in claims'[c] ensures FencedAt(db', c, j) {
      if c != copy.plan.changeId || j != id {
        assert FencedAt(h.db, c, j);
        assert db'.jobs[j] == h.db.jobs[j];
      }
    }
  }

  lemma ClaimKeepsTables(h: Hub, db': Db, copy: ChangeRecord, id: JobId, request: NewJob, k: SubmissionKey)
    requires Linked(h.db) && ClaimCommits(h, db', copy, id, request)
    requires k.principal == request.principal && db'.receipts == h.db.receipts[k := Receipt(HashOf(request), id)]
    ensures Linked(db')
  {
    OwnersStay(h.db.changes, h.db.jobs, db'.jobs);
    AddKeepsLinked(h.db, db', id, request, k);
  }

  lemma ClaimGrows(h: Hub, h': Hub, copy: ChangeRecord, id: JobId, request: NewJob)
    requires ClaimAllowed(h, copy, request) && ClaimCommits(h, h'.db, copy, id, request)
    requires h' == h.(db := h'.db, claims := ClaimsWith(h.claims, copy.plan.changeId, id))
    ensures Grows(h, h') && WritesChange(h.db.changes, h'.db.changes, copy.plan.changeId)
  {
    ClaimingJobIsSafe(h', copy, id, request);
  }

  lemma ClaimingJobIsSafe(h': Hub, copy: ChangeRecord, id: JobId, request: NewJob)
    requires copy.plan.changeId in h'.claims && id in h'.claims[copy.plan.changeId] && copy.plan.changeId in h'.db.changes
    requires h'.db.changes[copy.plan.changeId].record.state == copy.state && (copy.state == Prepared || copy.state == Ready)
    requires request.operation == DeployRun && request.spec.Workflow? && request.spec.change == copy.plan.changeId
    ensures JobSafe(id, FreshJob(request), h'.db.changes, h'.claims, h'.links, h'.visited)
  {
  }

  lemma ClaimIsSafe(h: Hub, copy: ChangeRecord, key: string, id: JobId, request: NewJob)
    requires Safe(h) && ClaimAllowed(h, copy, request)
    ensures Safe(ClaimNext(h, copy, key, id, request))
  {
    var s := SubmitLinkedJob(h.db, key, id, request, Some(ChangeLink(copy, copy.state, None, None)));
    if s.Ok? && s.value.created {
      assert CopySafe(copy, h.db.changes, h.links, h.visited);
      ClaimShape(h, copy, key, id, request);
      ClaimedIsSafe(h, ClaimNext(h, copy, key, id, request), copy, id, request, SubmissionKey(request.principal, key));
    }
  }

  lemma ClaimedIsSafe(h: Hub, h': Hub, copy: ChangeRecord, id: JobId, request: NewJob, k: SubmissionKey)
    requires Safe(h) && ClaimAllowed(h, copy, request) && ClaimCommits(h, h'.db, copy, id, request)
    requires k.principal == request.principal && h'.db.receipts == h.db.receipts[k := Receipt(HashOf(request), id)]
    requires h' == h.(db := h'.db, claims := ClaimsWith(h.claims, copy.plan.changeId, id))
    ensures Safe(h')
  {
    var c := copy.plan.changeId;
    assert RowSafe(c, copy, h.links, h.visited);
    ClaimKeepsFence(h, h'.db, copy, id, request);
    ClaimKeepsTables(h, h'.db, copy, id, request, k);
    ClaimGrows(h, h', copy, id, request);
    QuietWriteSpares(h, c, h'.db.changes[c].record);
    SameAccepted(h.accepted, h.db.jobs, h'.db.jobs, h.links, h'.links);
    assert WasBuilt(copy, h.accepted);
    BuildStays(copy, h'.db.changes[c].record, h.accepted, h'.accepted);
    RowWriteIsSafe(h, h', c);
  }

  // ---------------------------------------------------------------- reading and forgetting

  lemma OneMoreCopy(h: Hub, copy: ChangeRecord)
    requires Safe(h) && CopySafe(copy, h.db.changes, h.links, h.visited)
    ensures Safe(h.(copies := h.copies + {copy}))
  {
  }

  lemma OneMoreRecord(h: Hub, id: JobId)
    requires Safe(h) && id in h.db.jobs
    ensures Safe(h.(records := h.records + {JobCopy(id, h.db.jobs[id])}))
  {
    JobAdvancesSelf(h.db.jobs[id]);
  }

  lemma OneMoreTask(h: Hub, t: Reconciliation)
    requires Safe(h) && TaskSafe(t, h.db.jobs, h.db.changes, h.visited)
    ensures Safe(h.(tasks := h.tasks + {t}))
  {
  }

  lemma CrashIsSafe(h: Hub, copies: set<ChangeRecord>, records: set<JobCopy>, tasks: set<Reconciliation>)
    requires Safe(h)
    ensures Safe(h.(copies := h.copies * copies, records := h.records * records, tasks := h.tasks * tasks))
  {
  }

  lemma ReadChangeIsSafe(h: Hub, c: ChangeId)
    requires Safe(h) && c in h.db.changes
    ensures Safe(h.(copies := h.copies + {h.db.changes[c].record}))
  {
    assert RowSafe(c, h.db.changes[c].record, h.links, h.visited);
    OneMoreCopy(h, h.db.changes[c].record);
  }

  /** An edited copy of a lost race is older than its row. */
  lemma LostRaceIsSafe(h: Hub, copy: ChangeRecord, stage: JobCopy)
    requires Safe(h) && Refreshes(h, copy, stage) && copy.plan.changeId in h.db.changes
    requires h.db.changes[copy.plan.changeId].record.revision != copy.revision
    ensures
      var r := RefreshWith(copy, stage.job);
      Safe(h.(copies := h.copies + {copy.(plan := r.plan, artifact := r.artifact)}))
  {
    var r := RefreshWith(copy, stage.job);
    assert CopySafe(copy, h.db.changes, h.links, h.visited);
    RefreshKeeps(copy, stage.job);
    OneMoreCopy(h, copy.(plan := r.plan, artifact := r.artifact));
  }

  lemma SeenTaskIsSafe(h: Hub, u: Reconciliation)
    requires Safe(h) && u in h.tasks && u.workflow in h.db.jobs && IsWorkflow(h.db.jobs[u.workflow])
    requires h.db.jobs[u.workflow].spec.change in h.db.changes
    ensures
      var record := h.db.changes[h.db.jobs[u.workflow].spec.change].record;
      Safe(h.(tasks := h.tasks + {u.(seen := Some(Seen(record.state, record.jobs)))}))
  {
    var c := h.db.jobs[u.workflow].spec.change;
    var record := h.db.changes[c].record;
    assert RowSafe(c, record, h.links, h.visited) && TaskSafe(u, h.db.jobs, h.db.changes, h.visited);
    OneMoreTask(h, u.(seen := Some(Seen(record.state, record.jobs))));
  }

  lemma CheckedTaskIsSafe(h: Hub, u: Reconciliation, child: JobId)
    requires Safe(h) && u in h.tasks && child in h.db.jobs && IsSettled(h.db.jobs[child].state)
    ensures Safe(h.(tasks := h.tasks + {u.(checked := u.checked + {child})}))
  {
    assert TaskSafe(u, h.db.jobs, h.db.changes, h.visited);
    OneMoreTask(h, u.(checked := u.checked + {child}));
  }

  // ---------------------------------------------------------------- every step

  lemma LocalStepIsSafe(h: Hub, step: Step)
    requires Safe(h) && IsLocalStep(step)
    ensures Safe(LocalNext(h, step))
  {
    if LocalNext(h, step) != h {
      match step
      case ReadChange(c) => ReadChangeIsSafe(h, c);
      case ReadJob(id) => OneMoreRecord(h, id);
      case Crash(copies, records, tasks) => CrashIsSafe(h, copies, records, tasks);
      case LoseRace(copy, stage) => LostRaceIsSafe(h, copy, stage);
      case BeginReconcile(w) =>
        OneMoreTask(h, Reconciliation(w, h.db.jobs[w].revision, h.db.jobs[w].cancelRequested, None, {}));
      case ReadForReconcile(t) => SeenTaskIsSafe(h, t);
      case CheckChild(t, child) => CheckedTaskIsSafe(h, t, child);
    }
  }

  lemma RefreshIsSafe(h: Hub, copy: ChangeRecord, stage: JobCopy)
    requires Safe(h) && Refreshes(h, copy, stage)
    ensures Safe(UpdateNext(h, copy, RefreshWith(copy, stage.job), Some(stage)))
  {
    assert CopySafe(copy, h.db.changes, h.links, h.visited);
    RefreshIsAllowed(h, copy, stage);
    UpdateIsSafe(h, copy, RefreshWith(copy, stage.job), Some(stage));
  }

  lemma ExpiryIsSafe(h: Hub, copy: ChangeRecord)
    requires Safe(h) && copy in h.copies && copy.state == Ready
    ensures Safe(UpdateNext(h, copy, Refreshed(Stale, copy.plan, copy.artifact), None))
  {
    ExpiryIsAllowed(h, copy);
    UpdateIsSafe(h, copy, Refreshed(Stale, copy.plan, copy.artifact), None);
  }

  lemma RefreshStepIsSafe(h: Hub, copy: ChangeRecord, stage: JobCopy)
    requires Safe(h)
    ensures Safe(ChangeNext(h, RefreshCopy(copy, stage)))
  {
    if Refreshes(h, copy, stage) {
      RefreshIsSafe(h, copy, stage);
    }
  }

  lemma ExpiryStepIsSafe(h: Hub, copy: ChangeRecord)
    requires Safe(h)
    ensures Safe(ChangeNext(h, ExpireCopy(copy)))
  {
    if copy in h.copies && copy.state == Ready {
      ExpiryIsSafe(h, copy);
    }
  }

  lemma StageStepIsSafe(h: Hub, step: Step)
    requires Safe(h) && (step.StartStage? || step.WorkflowStage?)
    ensures Safe(ChangeNext(h, step))
  {
    if ChangeNext(h, step) != h {
      match step
      case StartStage(copy, action, key, n, request) => StageIsSafe(h, copy, action, key, Uuid(n), request, None);
      case WorkflowStage(w, seen, copy, key, request) =>
        var action := NextStage(h, w, seen, copy).value;
        WorkflowStageIsAllowed(h, w, seen, copy, request);
        StageIsSafe(h, copy, action, key, Child(w, OperationFor(action)), request, Some(w));
    }
  }

  lemma ChangeStepIsSafe(h: Hub, step: Step)
    requires Safe(h) && !IsLocalStep(step) && !IsJobStep(step)
    ensures Safe(ChangeNext(h, step))
  {
    if step.StartStage? || step.WorkflowStage? {
      StageStepIsSafe(h, step);
    } else if step.RefreshCopy? {
      RefreshStepIsSafe(h, step.copy, step.stage);
    } else if step.ExpireCopy? {
      ExpiryStepIsSafe(h, step.copy);
    } else if ChangeNext(h, step) != h {
      match step
      case SubmitOther(key, id, request) => SubmitIsSafe(h, key, id, request);
      case OpenChange(plan, creator, prepare) => OpenIsSafe(h, plan, creator, prepare);
      case ClaimChange(copy, key, n, request) => ClaimIsSafe(h, copy, key, Uuid(n), request);
    }
  }

  lemma NextIsSafe(h: Hub, step: Step)
    requires Safe(h)
    ensures Safe(Next(h, step))
  {
    if IsLocalStep(step) {
      LocalStepIsSafe(h, step);
    } else if IsJobStep(step) {
      JobStepIsSafe(h, step);
    } else {
      ChangeStepIsSafe(h, step);
    }
  }

  lemma {:induction false} RunIsSafe(h: Hub, steps: seq<Step>)
    requires Safe(h)
    ensures Safe(RunSteps(h, steps))
    decreases |steps|
  {
    if steps != [] {
      NextIsSafe(h, steps[0]);
      RunIsSafe(Next(h, steps[0]), steps[1..]);
    }
  }

  // ---------------------------------------------------------------- results over every run

  /** Every job that carries a build, activation or rollback of a change is the only one. */
  lemma SingleStageJobs(steps: seq<Step>, i: JobId, j: JobId)
    requires
      var jobs := RunSteps(START, steps).db.jobs;
      && i in jobs && j in jobs && IsStage(jobs[i]) && IsStage(jobs[j])
      && jobs[i].spec.action == jobs[j].spec.action && jobs[i].spec.action != Verify
      && jobs[i].spec.plan.changeId == jobs[j].spec.plan.changeId
    ensures i == j
  {
    RunIsSafe(START, steps);
    var h := RunSteps(START, steps);
    StageJobsAreLinked(h, i);
    StageJobsAreLinked(h, j);
    assert SameStage(h.links[i], h.links[j]);
  }

  lemma StageJobsAreLinked(h: Hub, j: JobId)
    requires JobsSafe(h.db.jobs, h.db.changes, h.claims, h.links, h.visited) && LinksSafe(h.links, h.db.jobs, h.db.changes)
    requires j in h.db.jobs && IsStage(h.db.jobs[j])
    ensures j in h.links && LinkedJob(h.links[j], h.db.jobs[j])
    ensures h.links[j].change == h.db.jobs[j].spec.plan.changeId && h.links[j].action == h.db.jobs[j].spec.action
  {
    assert JobSafe(j, h.db.jobs[j], h.db.changes, h.claims, h.links, h.visited);
    assert LinkSafe(j, h.links[j], h.db.jobs, h.db.changes);
  }

  /**
   A workflow links at most one child per stage, only to the change it was
   submitted for, and only a build when it runs until built.
   */
  lemma WorkflowLinks(steps: seq<Step>, i: JobId, w: JobId)
    requires
      var h := RunSteps(START, steps);
      i in h.links && h.links[i].workflow == Some(w)
    ensures
      var h := RunSteps(START, steps);
      && w in h.db.jobs && IsWorkflow(h.db.jobs[w])
      && h.links[i].change == h.db.jobs[w].spec.change
      && (h.db.jobs[w].spec.until == Built ==> h.links[i].action == Build)
      && (forall j :: j in h.links && h.links[j].workflow == Some(w) && h.links[j].action == h.links[i].action ==> j == i)
  {
    RunIsSafe(START, steps);
    ChildrenAreUnique(RunSteps(START, steps), i, w);
  }

  lemma ChildrenAreUnique(h: Hub, i: JobId, w: JobId)
    requires LinksSafe(h.links, h.db.jobs, h.db.changes) && i in h.links && h.links[i].workflow == Some(w)
    ensures LinkSafe(i, h.links[i], h.db.jobs, h.db.changes)
    ensures forall j :: j in h.links && h.links[j].workflow == Some(w) && h.links[j].action == h.links[i].action ==> j == i
  {
    forall j | j in h.links && h.links[j].workflow == Some(w) && h.links[j].action == h.links[i].action ensures j == i {
      assert LinkSafe(i, h.links[i], h.db.jobs, h.db.changes) && LinkSafe(j, h.links[j], h.db.jobs, h.db.changes);
    }
  }

  /** A succeeded workflow's change was Ready (until built) or Succeeded at some time. */
  lemma SuccessMeansReached(steps: seq<Step>, w: JobId)
    requires
      var jobs := RunSteps(START, steps).db.jobs;
      w in jobs && jobs[w].operation == DeployRun && jobs[w].state == Succeeded
    ensures
      var h := RunSteps(START, steps);
      h.db.jobs[w].spec.Workflow? && Reached(h.visited, h.db.jobs[w].spec.change, h.db.jobs[w].spec.until)
  {
    RunIsSafe(START, steps);
    var h := RunSteps(START, steps);
    assert JobSafe(w, h.db.jobs[w], h.db.changes, h.claims, h.links, h.visited);
  }

  /** The stage job behind a committed refresh: a terminal job of this change, for the stage it waited for. */
  predicate StageBehind(h: Hub, e: Acceptance) {
    && e.stage.id in h.db.jobs && JobAdvances(e.stage.job, h.db.jobs[e.stage.id]) && IsTerminal(e.stage.job.state)
    && h.db.jobs[e.stage.id].spec.Stage? && h.db.jobs[e.stage.id].spec.plan.changeId == e.before.plan.changeId
    && Some(h.db.jobs[e.stage.id].spec.action) == ExpectedAction(e.before.state)
  }

  /**
   Over every run, each committed refresh moved its change to the state that the
   terminal stage job calls for, and took over exactly what its report brought.
   */
  lemma RefreshesAreExplained(steps: seq<Step>, e: Acceptance)
    requires e in RunSteps(START, steps).accepted
    ensures Explains(e) && Carries(e) && StageBehind(RunSteps(START, steps), e)
  {
    RunIsSafe(START, steps);
    var h := RunSteps(START, steps);
    assert RecordSafe(e.stage, h.db.jobs) && Accounted(e, h.links);
    assert LinkSafe(e.stage.id, h.links[e.stage.id], h.db.jobs, h.db.changes);
  }

  /**
   Whatever state a change was ever in, each milestone behind it, good or bad, was
   brought by a committed refresh of this change.
   */
  lemma MilestonesAreReported(steps: seq<Step>, c: ChangeId, s: ChangeState, m: ChangeState)
    requires Visit(c, s) in RunSteps(START, steps).visited && m in Milestones(s)
    ensures exists e :: e in RunSteps(START, steps).accepted && Causes(e, c, m) && Explains(e)
  {
    RunIsSafe(START, steps);
    var h := RunSteps(START, steps);
    assert VisitEarned(Visit(c, s), h.accepted);
    var e :| e in h.accepted && Causes(e, c, m);
    RefreshesAreExplained(steps, e);
  }

  /** The artifact of a change past its build is the one that an accepted Build report of its stage job named. */
  lemma ArtifactWasBuilt(steps: seq<Step>, c: ChangeId)
    requires
      var changes := RunSteps(START, steps).db.changes;
      c in changes && NeedsArtifact(changes[c].record.state)
    ensures
      var h := RunSteps(START, steps);
      exists e :: e in h.accepted && BuiltAs(h, e, h.db.changes[c].record)
  {
    RunIsSafe(START, steps);
    var h := RunSteps(START, steps);
    assert RowSafe(c, h.db.changes[c].record, h.links, h.visited) && WasBuilt(h.db.changes[c].record, h.accepted);
    var e :| e in h.accepted && BuildOf(e, h.db.changes[c].record);
    RefreshesAreExplained(steps, e);
    assert BuiltAs(h, e, h.db.changes[c].record);
  }

  predicate BuiltAs(h: Hub, e: Acceptance, record: ChangeRecord) {
    && e.before.plan.changeId == record.plan.changeId && Says(e, ReportBuilt) && StageBehind(h, e)
    && ArtifactMatches(record.plan, record.artifact) && record.artifact.value.builderHost == e.stage.job.host
    && Some(record.artifact.value.outPath) == ReportOf(e.stage.job).value.outPath
  }

  /** The milestones of a success, and the stage that reports each. */
  const SUCCESS: set<ChangeState> := {Prepared, Ready, Verifying, ChangeSucceeded}

  function StageFor(m: ChangeState): (a: DeploymentAction) {
    match m
    case Prepared => Prepare
    case Ready => Build
    case Verifying => Activate
    case _ => Verify
  }

  function StatusFor(m: ChangeState): (r: ReportStatus) {
    match m
    case Prepared => ReportPrepared
    case Ready => ReportBuilt
    case Verifying => ReportActivated
    case _ => ReportVerified
  }

  predicate HasReport(h: Hub, c: ChangeId, action: DeploymentAction, status: ReportStatus) {
    exists e :: e in h.accepted && ReportedBy(h, e, c, action, status)
  }

  predicate ReportedBy(h: Hub, e: Acceptance, c: ChangeId, action: DeploymentAction, status: ReportStatus) {
    e.before.plan.changeId == c && StageBehind(h, e) && h.db.jobs[e.stage.id].spec.action == action && Says(e, status)
  }

  /**
   A change that ever succeeded was prepared, built, activated and verified, each
   by the accepted report of a stage job of this change.
   */
  lemma SuccessIsEarned(steps: seq<Step>, c: ChangeId)
    requires Visit(c, ChangeSucceeded) in RunSteps(START, steps).visited
    ensures
      var h := RunSteps(START, steps);
      forall m :: m in SUCCESS ==> HasReport(h, c, StageFor(m), StatusFor(m))
  {
    var h := RunSteps(START, steps);
    forall m | m in SUCCESS ensures HasReport(h, c, StageFor(m), StatusFor(m)) {
      MilestonesAreReported(steps, c, ChangeSucceeded, m);
      var e :| e in h.accepted && Causes(e, c, m) && Explains(e);
      RefreshesAreExplained(steps, e);
      ReportNamesStage(h, e, c, m);
    }
  }

  /** The stage and status behind each milestone of a success. */
  lemma ReportNamesStage(h: Hub, e: Acceptance, c: ChangeId, m: ChangeState)
    requires m in SUCCESS && Causes(e, c, m) && Explains(e) && StageBehind(h, e)
    ensures ReportedBy(h, e, c, StageFor(m), StatusFor(m))
  {
  }

  /**
   A step that settles an unknown workflow leaves no unsettled child: neither one
   the change names nor one this workflow ever linked.
   */
  lemma UnknownWorkflowSettlesLast(steps: seq<Step>, step: Step, w: JobId)
    requires
      var h := RunSteps(START, steps);
      && w in h.db.jobs && IsWorkflow(h.db.jobs[w]) && h.db.jobs[w].state == OutcomeUnknown
      && w in Next(h, step).db.jobs && IsSettled(Next(h, step).db.jobs[w].state)
    ensures
      var h := RunSteps(START, steps);
      var c := h.db.jobs[w].spec.change;
      && c in h.db.changes
      && (forall j :: j in Children(h.db.changes[c].record.jobs) ==> j in h.db.jobs && IsSettled(h.db.jobs[j].state))
      && (forall j :: j in h.links && h.links[j].workflow == Some(w) ==> j in h.db.jobs && IsSettled(h.db.jobs[j].state))
    ensures
      var h := RunSteps(START, steps);
      var job, job' := h.db.jobs[w], Next(h, step).db.jobs[w];
      && step.SettleWorkflow? && step.task in h.tasks && step.task.workflow == w && step.task.seen.Some?
      && SettledAs(job, step.task.seen.value.state, job'.state) && Visit(job.spec.change, step.task.seen.value.state) in h.visited
  {
    RunIsSafe(START, steps);
    var h := RunSteps(START, steps);
    UnknownIsSettledByReconcile(h, step, w);
    assert TaskSafe(step.task, h.db.jobs, h.db.changes, h.visited);
    ReconciledChildren(h, step.task);
    ReconciledVerdict(h, step.task);
  }

  lemma ReconciledVerdict(h: Hub, t: Reconciliation)
    requires Settles(h, t) && TaskSafe(t, h.db.jobs, h.db.changes, h.visited)
    requires t.revision == h.db.jobs[t.workflow].revision && t.workflow in Next(h, SettleWorkflow(t)).db.jobs
    requires IsSettled(Next(h, SettleWorkflow(t)).db.jobs[t.workflow].state)
    ensures SettledAs(h.db.jobs[t.workflow], t.seen.value.state, Next(h, SettleWorkflow(t)).db.jobs[t.workflow].state)
  {
    var next := VerdictOf(h, t);
    assert TransitionJob(h.db, t.workflow, t.revision, next, None).Ok?;
    TransitionEffect(h.db, t.workflow, t.revision, next, None);
  }

  /**
   How an unknown workflow settles on a change in state `s`: as succeeded if and
   only if the change is where the workflow was to take it, otherwise as cancelled
   if and only if that was asked for, otherwise as failed.
   */
  predicate SettledAs(job: Job, s: ChangeState, settled: JobState) {
    var attained := s == ChangeSucceeded || (job.spec.Workflow? && job.spec.until == Built && s == Ready);
    && (settled == Succeeded <==> attained)
    && (settled == Cancelled <==> !attained && job.cancelRequested)
    && (settled == Failed <==> !attained && !job.cancelRequested)
  }

  /** A workflow that ended as cancelled was asked to cancel. */
  lemma CancelledOnRequest(steps: seq<Step>, w: JobId)
    requires
      var jobs := RunSteps(START, steps).db.jobs;
      w in jobs && jobs[w].operation == DeployRun && jobs[w].state == Cancelled
    ensures RunSteps(START, steps).db.jobs[w].cancelRequested
  {
    RunIsSafe(START, steps);
    var h := RunSteps(START, steps);
    assert JobSafe(w, h.db.jobs[w], h.db.changes, h.claims, h.links, h.visited);
  }

  lemma ReconciledChildren(h: Hub, t: Reconciliation)
    requires Safe(h) && Settles(h, t) && t.revision == h.db.jobs[t.workflow].revision
    ensures
      var c := h.db.jobs[t.workflow].spec.change;
      && c in h.db.changes
      && (forall j :: j in Children(h.db.changes[c].record.jobs) ==> j in h.db.jobs && IsSettled(h.db.jobs[j].state))
      && (forall j :: j in h.links && h.links[j].workflow == Some(t.workflow) ==> j in h.db.jobs && IsSettled(h.db.jobs[j].state))
  {
    var c := h.db.jobs[t.workflow].spec.change;
    assert JobSafe(t.workflow, h.db.jobs[t.workflow], h.db.changes, h.claims, h.links, h.visited);
    assert TaskSafe(t, h.db.jobs, h.db.changes, h.visited);
    forall j | j in h.links && h.links[j].workflow == Some(t.workflow) ensures j in Children(h.db.changes[c].record.jobs) {
      LinkedChildIsNamed(h, j, t.workflow);
    }
  }

  lemma LinkedChildIsNamed(h: Hub, j: JobId, w: JobId)
    requires j in h.links && h.links[j].workflow == Some(w) && LinkSafe(j, h.links[j], h.db.jobs, h.db.changes)
    requires w in h.db.jobs && !IsSettled(h.db.jobs[w].state)
    ensures
      var c := h.links[j].change;
      IsWorkflow(h.db.jobs[w]) && h.db.jobs[w].spec.change == c && j in Children(h.db.changes[c].record.jobs)
  {
    OwnedChildIsNamed(j, h.links[j], w, h.db.jobs, h.db.changes[h.links[j].change].record);
  }

  lemma OwnedChildIsNamed(j: JobId, link: StageLink, w: JobId, jobs: map<JobId, Job>, record: ChangeRecord)
    requires OwnedSafe(j, link, w, jobs, record) && !IsSettled(jobs[w].state)
    ensures j in Children(record.jobs)
  {
    assert Some(j) in {record.jobs.build, record.jobs.activate, record.jobs.verify, record.jobs.rollback};
  }

  lemma UnknownIsSettledByReconcile(h: Hub, step: Step, w: JobId)
    requires w in h.db.jobs && IsWorkflow(h.db.jobs[w]) && h.db.jobs[w].state == OutcomeUnknown
    requires w in Next(h, step).db.jobs && IsSettled(Next(h, step).db.jobs[w].state)
    ensures step.SettleWorkflow? && step.task.workflow == w && Settles(h, step.task)
    ensures step.task.revision == h.db.jobs[w].revision
  {
    if IsJobStep(step) {
      JobStepMoves(h, step, w);
    } else if !IsLocalStep(step) {
      ChangeStepKeepsJob(h, step, w);
    }
  }

  lemma JobStepMoves(h: Hub, step: Step, w: JobId)
    requires IsJobStep(step) && w in h.db.jobs && IsWorkflow(h.db.jobs[w]) && h.db.jobs[w].state == OutcomeUnknown
    requires w in JobNext(h, step).db.jobs && IsSettled(JobNext(h, step).db.jobs[w].state)
    ensures step.SettleWorkflow? && step.task.workflow == w && Settles(h, step.task)
    ensures step.task.revision == h.db.jobs[w].revision
  {
    if step.CancelJob? {
      CancelKeepsState(h.db, step.id, step.expected, step.reason, w);
    } else if step.SettleWorkflow? && Settles(h, step.task) {
      MoveKeepsOthers(h, step.task.workflow, step.task.revision, VerdictOf(h, step.task), None, w);
    } else if step.MoveJob? {
      MoveKeepsOthers(h, step.id, step.expected, step.next, step.result, w);
    } else if step.EnterWorkflow? && JobNext(h, step) != h {
      MoveKeepsOthers(h, step.workflow, step.expected,
                      if h.db.jobs[step.workflow].state == Queued then Dispatching else Running, None, w);
    } else if step.FinishWorkflow? && JobNext(h, step) != h {
      MoveKeepsOthers(h, step.workflow, step.expected, FinishStep(h.db.jobs[step.workflow].state, step.goal), None, w);
    }
  }

  lemma MoveKeepsOthers(h: Hub, id: JobId, expected: nat, next: JobState, result: Option<Evidence>, w: JobId)
    requires w in h.db.jobs
    ensures
      var jobs' := MoveNext(h, id, expected, next, result).db.jobs;
      w in jobs' && (jobs'[w] == h.db.jobs[w] || (id == w && expected == h.db.jobs[w].revision))
  {
    if TransitionJob(h.db, id, expected, next, result).Ok? {
      TransitionEffect(h.db, id, expected, next, result);
    }
  }

  lemma CancelKeepsState(db: Db, id: JobId, expected: nat, reason: string, w: JobId)
    requires w in db.jobs
    ensures
      var jobs' := AfterCancel(db, id, expected, reason).jobs;
      w in jobs' && jobs'[w].state == db.jobs[w].state
  {
    if RequestCancel(db, id, expected, reason).Ok? {
      CancelEffect(db, id, expected, reason);
    }
  }

  lemma SubmitKeepsJob(db: Db, key: string, id: JobId, request: NewJob, link: Option<ChangeLink>, w: JobId)
    requires w in db.jobs
    ensures
      var s := SubmitLinkedJob(db, key, id, request, link);
      s.Ok? ==> w in s.value.db.jobs && s.value.db.jobs[w] == db.jobs[w]
  {
    if SubmitLinkedJob(db, key, id, request, link).Ok? {
      SubmitEffect(db, key, id, request, link);
    }
  }

  lemma StageKeepsJob(h: Hub, copy: ChangeRecord, action: DeploymentAction, key: string, id: JobId, request: NewJob,
                      workflow: Option<JobId>, w: JobId)
    requires w in h.db.jobs
    ensures
      var jobs' := StageNext(h, copy, action, key, id, request, workflow).db.jobs;
      w in jobs' && jobs'[w] == h.db.jobs[w]
  {
    SubmitKeepsJob(h.db, key, id, request, Some(ChangeLink(copy, StageState(action), Some(action), workflow)), w);
  }

  lemma ChangeStepKeepsJob(h: Hub, step: Step, w: JobId)
    requires !IsLocalStep(step) && !IsJobStep(step) && w in h.db.jobs
    ensures w in ChangeNext(h, step).db.jobs && ChangeNext(h, step).db.jobs[w] == h.db.jobs[w]
  {
    match step
    case SubmitOther(key, id, request) => SubmitKeepsJob(h.db, key, id, request, None, w);
    case StartStage(copy, action, key, n, request) => StageKeepsJob(h, copy, action, key, Uuid(n), request, None, w);
    case WorkflowStage(p, seen, copy, key, request) =>
      var action := NextStage(h, p, seen, copy);
      if action.Some? {
        StageKeepsJob(h, copy, action.value, key, Child(p, OperationFor(action.value)), request, Some(p), w);
      }
    case ClaimChange(copy, key, n, request) =>
      SubmitKeepsJob(h.db, key, Uuid(n), request, Some(ChangeLink(copy, copy.state, None, None)), w);
    case _ => PlainChangeKeepsJob(h, step, w);
  }

  lemma PlainChangeKeepsJob(h: Hub, step: Step, w: JobId)
    requires (step.OpenChange? || step.RefreshCopy? || step.ExpireCopy?) && w in h.db.jobs
    ensures w in ChangeNext(h, step).db.jobs && ChangeNext(h, step).db.jobs[w] == h.db.jobs[w]
  {
  }

  /** Artifact and plan agree on every reachable change past its build, and in every later stage job. */
  lemma ProvenanceHolds(steps: seq<Step>)
    ensures
      var db := RunSteps(START, steps).db;
      && (forall c :: c in db.changes && NeedsArtifact(db.changes[c].record.state) ==>
            ArtifactMatches(db.changes[c].record.plan, db.changes[c].record.artifact))
      && (forall j :: j in db.jobs && IsStage(db.jobs[j]) && db.jobs[j].spec.action != Build ==>
            ArtifactMatches(db.jobs[j].spec.plan, db.jobs[j].spec.artifact))
  {
    RunIsSafe(START, steps);
    var h := RunSteps(START, steps);
    forall c | c in h.db.changes && NeedsArtifact(h.db.changes[c].record.state)
      ensures ArtifactMatches(h.db.changes[c].record.plan, h.db.changes[c].record.artifact)
    {
      assert RowSafe(c, h.db.changes[c].record, h.links, h.visited);
    }
    forall j | j in h.db.jobs && IsStage(h.db.jobs[j]) && h.db.jobs[j].spec.action != Build
      ensures ArtifactMatches(h.db.jobs[j].spec.plan, h.db.jobs[j].spec.artifact)
    {
      StageJobsAreLinked(h, j);
    }
  }
}
