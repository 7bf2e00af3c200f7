/**
 Nothing but the named conditions holds a change up: from every reachable state,
 a stage, a claim, a refresh and the settling of an unknown workflow go through
 whenever what they need is there.
 */
module WorkflowProgress {
  import opened Wrappers
  import opened Jobs
  import opened Changes
  import opened StoreModel
  import opened StoreProofs
  import opened StoreAnswers
  import opened Pipeline
  import opened Workflow
  import opened Utf8

  /** The reader holds the change as it is now. */
  predicate Current(h: Hub, copy: ChangeRecord) {
    copy in h.copies && copy.plan.changeId in h.db.changes && h.db.changes[copy.plan.changeId].record == copy
  }

  predicate NewRequest(db: Db, key: string, id: JobId, request: NewJob, creator: string) {
    && ValidNewJob(key, request) && request.principal == creator
    && SubmissionKey(request.principal, key) !in db.receipts && id !in db.jobs
  }

  /** The change went one revision on into a stage that waits for this new job. */
  predicate WaitsFor(h: Hub, h': Hub, copy: ChangeRecord, state: ChangeState, action: DeploymentAction, id: JobId,
                     workflow: Option<JobId>)
  {
    var c := copy.plan.changeId;
    && c in h'.db.changes && id in h'.db.jobs && h'.db.jobs[id].state == Queued
    && h'.db.changes[c].record == copy.(revision := copy.revision + 1, state := state, jobs := h'.db.changes[c].record.jobs)
    && Filed(copy.jobs, h'.db.changes[c].record.jobs, action, id)
    && h'.links == h.links[id := StageLink(c, action, workflow)]
  }

  lemma StageCommits(h: Hub, copy: ChangeRecord, action: DeploymentAction, key: string, id: JobId, request: NewJob,
                     workflow: Option<JobId>)
    requires Linked(h.db) && Current(h, copy) && Startable(action, copy.state)
    requires NewRequest(h.db, key, id, request, copy.creator)
    ensures
      var link := ChangeLink(copy, StageState(action), Some(action), workflow);
      var h' := StageNext(h, copy, action, key, id, request, workflow);
      if OwnerAdmits(h.db, link) then WaitsFor(h, h', copy, StageState(action), action, id, workflow) else h' == h
  {
    var link := ChangeLink(copy, StageState(action), Some(action), workflow);
    StartIsLegal(action, copy.state);
    FreshHolds(request);
    LinkExactly(h.db, id, request, link);
  }

  // ---------------------------------------------------------------- the next stage of a workflow

  /** A workflow that runs, was not cancelled, and owns its change. */
  predicate Drives(db: Db, w: JobId, c: ChangeId) {
    && w in db.jobs && IsWorkflow(db.jobs[w]) && db.jobs[w].spec.change == c
    && db.jobs[w].state == Running && !db.jobs[w].cancelRequested
    && c in db.changes && db.changes[c].workflow == Some(w)
  }

  /** What `run` does with a change it sees: the stage to submit and the state that follows. */
  predicate Due(until: Until, change: ChangeRecord, action: DeploymentAction, next: ChangeState) {
    || (change.state == Prepared && action == Build && next == Building)
    || (change.state == Ready && until == Verified && action == Activate && next == Activating)
    || (change.state == Verifying && change.jobs.verify.None? && action == Verify && next == Verifying)
  }

  /**
   After any run, a running, uncancelled owner that sees its change as it is links
   the stage that is due and nothing else: a build of a prepared change, an
   activation of a ready one unless it stops there, one verification.
   */
  lemma WorkflowMovesOn(steps: seq<Step>, w: JobId, copy: ChangeRecord, key: string, request: NewJob,
                        action: DeploymentAction, next: ChangeState)
    requires
      var h := RunSteps(START, steps);
      && Current(h, copy) && Drives(h.db, w, copy.plan.changeId)
      && StageRequest(request, action, copy)
      && NewRequest(h.db, key, Child(w, OperationFor(action)), request, copy.creator)
    ensures
      var h := RunSteps(START, steps);
      var h' := Next(h, WorkflowStage(w, copy, copy, key, request));
      var id := Child(w, OperationFor(action));
      && (Due(h.db.jobs[w].spec.until, copy, action, next) ==> WaitsFor(h, h', copy, next, action, id, Some(w)))
      && ((forall s :: !Due(h.db.jobs[w].spec.until, copy, action, s)) ==> h' == h)
  {
    TablesAreLinked(steps);
    DrivenStage(RunSteps(START, steps), w, copy, key, request, action, next);
  }

  lemma TablesAreLinked(steps: seq<Step>)
    ensures Linked(RunSteps(START, steps).db)
  {
    RunIsSafe(START, steps);
  }

  lemma DrivenStage(h: Hub, w: JobId, copy: ChangeRecord, key: string, request: NewJob, action: DeploymentAction,
                    next: ChangeState)
    requires Linked(h.db) && Current(h, copy) && Drives(h.db, w, copy.plan.changeId)
    requires StageRequest(request, action, copy)
    requires NewRequest(h.db, key, Child(w, OperationFor(action)), request, copy.creator)
    ensures
      var h' := Next(h, WorkflowStage(w, copy, copy, key, request));
      var id := Child(w, OperationFor(action));
      && (Due(h.db.jobs[w].spec.until, copy, action, next) ==> WaitsFor(h, h', copy, next, action, id, Some(w)))
      && ((forall s :: !Due(h.db.jobs[w].spec.until, copy, action, s)) ==> h' == h)
  {
    NextStageExactly(h, w, copy, action);
    var id := Child(w, OperationFor(action));
    WorkflowStageNext(h, w, copy, key, request, action);
    if NextStage(h, w, copy, copy) == Some(action) {
      StageCommits(h, copy, action, key, id, request, Some(w));
    }
  }

  /** The step submits the stage that `NextStage` chose, if the request is for it. */
  lemma WorkflowStageNext(h: Hub, w: JobId, copy: ChangeRecord, key: string, request: NewJob, action: DeploymentAction)
    requires StageRequest(request, action, copy)
    ensures
      Next(h, WorkflowStage(w, copy, copy, key, request)) ==
        if NextStage(h, w, copy, copy) == Some(action)
        then StageNext(h, copy, action, key, Child(w, OperationFor(action)), request, Some(w)) else h
  {
  }

  lemma NextStageExactly(h: Hub, w: JobId, copy: ChangeRecord, action: DeploymentAction)
    requires Current(h, copy) && Drives(h.db, w, copy.plan.changeId)
    ensures NextStage(h, w, copy, copy) == Some(action) ==>
      Startable(action, copy.state) && Due(h.db.jobs[w].spec.until, copy, action, StageState(action))
    ensures forall s :: Due(h.db.jobs[w].spec.until, copy, action, s) ==>
      s == StageState(action) && NextStage(h, w, copy, copy) == Some(action)
  {
  }

  // ---------------------------------------------------------------- clients

  /** Every workflow that ever claimed the change is settled. */
  predicate Unclaimed(h: Hub, c: ChangeId) {
    forall j :: j in ClaimsOf(Ledger(h.db, h.claims), c) ==> j in h.db.jobs && IsSettled(h.db.jobs[j].state)
  }

  lemma UnclaimedHasNoOwner(h: Hub, copy: ChangeRecord, next: ChangeState, action: Option<DeploymentAction>)
    requires Linked(h.db) && Fenced(Ledger(h.db, h.claims)) && OwnerClaimed(Ledger(h.db, h.claims))
    requires copy.plan.changeId in h.db.changes
    ensures Unclaimed(h, copy.plan.changeId) <==> OwnerAdmits(h.db, ChangeLink(copy, next, action, None))
  {
    ClaimsDecide(Ledger(h.db, h.claims), ChangeLink(copy, next, action, None));
  }

  /**
   After any run, a client that holds the change as it is starts a stage the graph
   leads into exactly when no workflow that ever claimed the change is unsettled.
   */
  lemma ClientMovesOn(steps: seq<Step>, copy: ChangeRecord, action: DeploymentAction, key: string, n: nat, request: NewJob)
    requires
      var h := RunSteps(START, steps);
      && Current(h, copy) && Startable(action, copy.state) && StageRequest(request, action, copy)
      && NewRequest(h.db, key, Uuid(n), request, copy.creator)
    ensures
      var h := RunSteps(START, steps);
      var h' := Next(h, StartStage(copy, action, key, n, request));
      if Unclaimed(h, copy.plan.changeId)
      then WaitsFor(h, h', copy, StageState(action), action, Uuid(n), None)
      else h' == h
  {
    TablesAreLinked(steps);
    OwnerRule(steps, copy, StageState(action), Some(action));
    ClientStage(RunSteps(START, steps), copy, action, key, n, request);
  }

  lemma ClientStage(h: Hub, copy: ChangeRecord, action: DeploymentAction, key: string, n: nat, request: NewJob)
    requires Linked(h.db) && Current(h, copy) && Startable(action, copy.state) && StageRequest(request, action, copy)
    requires NewRequest(h.db, key, Uuid(n), request, copy.creator)
    ensures
      var h' := Next(h, StartStage(copy, action, key, n, request));
      if OwnerAdmits(h.db, ChangeLink(copy, StageState(action), Some(action), None))
      then WaitsFor(h, h', copy, StageState(action), action, Uuid(n), None)
      else h' == h
  {
    StageCommits(h, copy, action, key, Uuid(n), request, None);
    StartStageNext(h, copy, action, key, n, request);
  }

  lemma StartStageNext(h: Hub, copy: ChangeRecord, action: DeploymentAction, key: string, n: nat, request: NewJob)
    requires copy in h.copies && Startable(action, copy.state) && StageRequest(request, action, copy)
    ensures
      Next(h, StartStage(copy, action, key, n, request)) == StageNext(h, copy, action, key, Uuid(n), request, None)
  {
  }

  lemma OwnerRule(steps: seq<Step>, copy: ChangeRecord, next: ChangeState, action: Option<DeploymentAction>)
    requires copy.plan.changeId in RunSteps(START, steps).db.changes
    ensures
      var h := RunSteps(START, steps);
      Unclaimed(h, copy.plan.changeId) <==> OwnerAdmits(h.db, ChangeLink(copy, next, action, None))
  {
    RunIsSafe(START, steps);
    RunKeepsClaimed(START, steps);
    UnclaimedHasNoOwner(RunSteps(START, steps), copy, next, action);
  }

  /** After any run, a workflow claims a change that is prepared or ready exactly when no claim on it is unsettled. */
  lemma ClaimMovesOn(steps: seq<Step>, copy: ChangeRecord, key: string, n: nat, request: NewJob)
    requires
      var h := RunSteps(START, steps);
      && Current(h, copy) && (copy.state == Prepared || copy.state == Ready)
      && request.operation == DeployRun && request.spec.Workflow? && request.spec.change == copy.plan.changeId
      && NewRequest(h.db, key, Uuid(n), request, copy.creator)
    ensures
      var h := RunSteps(START, steps);
      var h' := Next(h, ClaimChange(copy, key, n, request));
      var c := copy.plan.changeId;
      if Unclaimed(h, c) then
        && c in h'.db.changes && h'.db.changes[c].workflow == Some(Uuid(n)) && Uuid(n) in h'.db.jobs
        && h'.db.changes[c].record == copy.(revision := copy.revision + 1)
        && ClaimsOf(Ledger(h'.db, h'.claims), c) == ClaimsOf(Ledger(h.db, h.claims), c) + {Uuid(n)}
      else h' == h
  {
    TablesAreLinked(steps);
    OwnerRule(steps, copy, copy.state, None);
    ClaimCommits(RunSteps(START, steps), copy, key, Uuid(n), request);
    ClaimStepNext(RunSteps(START, steps), copy, key, n, request);
  }

  lemma ClaimStepNext(h: Hub, copy: ChangeRecord, key: string, n: nat, request: NewJob)
    requires copy in h.copies && (copy.state == Prepared || copy.state == Ready)
    requires request.operation == DeployRun && request.spec.Workflow? && request.spec.change == copy.plan.changeId
    ensures Next(h, ClaimChange(copy, key, n, request)) == ClaimNext(h, copy, key, Uuid(n), request)
  {
  }

  lemma ClaimCommits(h: Hub, copy: ChangeRecord, key: string, id: JobId, request: NewJob)
    requires Linked(h.db) && Current(h, copy) && NewRequest(h.db, key, id, request, copy.creator)
    ensures
      var h' := ClaimNext(h, copy, key, id, request);
      var c := copy.plan.changeId;
      if OwnerAdmits(h.db, ChangeLink(copy, copy.state, None, None)) then
        && c in h'.db.changes && h'.db.changes[c].workflow == Some(id) && id in h'.db.jobs
        && h'.db.changes[c].record == copy.(revision := copy.revision + 1)
        && ClaimsOf(Ledger(h'.db, h'.claims), c) == ClaimsOf(Ledger(h.db, h.claims), c) + {id}
      else h' == h
  {
    LinkExactly(h.db, id, request, ChangeLink(copy, copy.state, None, None));
  }

  /** Steps keep the recorded owner of a change among its claims. */
  lemma NextKeepsClaimed(h: Hub, step: Step)
    requires Safe(h) && OwnerClaimed(Ledger(h.db, h.claims))
    ensures OwnerClaimed(Ledger(Next(h, step).db, Next(h, step).claims))
  {
    if IsLocalStep(step) {
      LocalKeepsTables(h, step);
    } else if IsJobStep(step) {
      JobStepKeepsChanges(h, step);
    } else {
      ChangeStepKeepsClaimed(h, step);
    }
  }

  lemma LocalKeepsTables(h: Hub, step: Step)
    requires IsLocalStep(step)
    ensures Next(h, step).db == h.db && Next(h, step).claims == h.claims
  {
  }

  lemma JobStepKeepsChanges(h: Hub, step: Step)
    requires IsJobStep(step)
    ensures Next(h, step).db.changes == h.db.changes && Next(h, step).claims == h.claims
  {
  }

  /** No change but `c` got another owner, and `c` at most one that claimed it. */
  lemma SubmitOwners(h: Hub, key: string, id: JobId, request: NewJob, link: ChangeLink)
    requires Linked(h.db) && SubmitLinkedJob(h.db, key, id, request, Some(link)).Ok?
    ensures
      var s := SubmitLinkedJob(h.db, key, id, request, Some(link)).value;
      s.created ==> LinkRecorded(h.db, s.db, id, link)
  {
    var s := SubmitLinkedJob(h.db, key, id, request, Some(link)).value;
    SubmitEffect(h.db, key, id, request, Some(link));
    if s.created {
      LinkExactly(h.db, id, request, link);
    }
  }

  lemma ChangeStepKeepsClaimed(h: Hub, step: Step)
    requires Linked(h.db) && OwnerClaimed(Ledger(h.db, h.claims)) && !IsLocalStep(step) && !IsJobStep(step)
    ensures OwnerClaimed(Ledger(Next(h, step).db, Next(h, step).claims))
  {
    match step
    case SubmitOther(key, id, request) => PlainSubmitKeepsChanges(h.db, key, id, request);
    case StartStage(copy, action, key, n, request) => StageKeepsClaimed(h, copy, action, key, Uuid(n), request, None);
    case WorkflowStage(w, seen, copy, key, request) =>
      var action := NextStage(h, w, seen, copy);
      if action.Some? {
        StageKeepsClaimed(h, copy, action.value, key, Child(w, OperationFor(action.value)), request, Some(w));
      }
    case ClaimChange(copy, key, n, request) => ClaimKeepsClaimed(h, copy, key, Uuid(n), request);
    case RefreshCopy(copy, stage) => UpdateKeepsClaimed(h, copy, RefreshWith(copy, stage.job), Some(stage));
    case ExpireCopy(copy) => UpdateKeepsClaimed(h, copy, Refreshed(Stale, copy.plan, copy.artifact), None);
    case _ =>
  }

  lemma PlainSubmitKeepsChanges(db: Db, key: string, id: JobId, request: NewJob)
    ensures AfterSubmit(db, key, id, request, None).changes == db.changes
  {
    if SubmitLinkedJob(db, key, id, request, None).Ok? {
      SubmitEffect(db, key, id, request, None);
    }
  }

  lemma ClaimKeepsClaimed(h: Hub, copy: ChangeRecord, key: string, id: JobId, request: NewJob)
    requires Linked(h.db) && OwnerClaimed(Ledger(h.db, h.claims))
    ensures
      var h' := ClaimNext(h, copy, key, id, request);
      OwnerClaimed(Ledger(h'.db, h'.claims))
  {
    var link := ChangeLink(copy, copy.state, None, None);
    if SubmitLinkedJob(h.db, key, id, request, Some(link)).Ok? {
      SubmitOwners(h, key, id, request, link);
    }
  }

  lemma StageKeepsClaimed(h: Hub, copy: ChangeRecord, action: DeploymentAction, key: string, id: JobId, request: NewJob,
                          workflow: Option<JobId>)
    requires Linked(h.db) && OwnerClaimed(Ledger(h.db, h.claims))
    ensures
      var h' := StageNext(h, copy, action, key, id, request, workflow);
      OwnerClaimed(Ledger(h'.db, h'.claims))
  {
    var link := ChangeLink(copy, StageState(action), Some(action), workflow);
    if SubmitLinkedJob(h.db, key, id, request, Some(link)).Ok? {
      SubmitOwners(h, key, id, request, link);
      SubmitEffect(h.db, key, id, request, Some(link));
    }
  }

  lemma UpdateKeepsClaimed(h: Hub, copy: ChangeRecord, r: Refreshed, stage: Option<JobCopy>)
    requires OwnerClaimed(Ledger(h.db, h.claims))
    ensures OwnerClaimed(Ledger(UpdateNext(h, copy, r, stage).db, UpdateNext(h, copy, r, stage).claims))
  {
    UpdateExactly(h.db, copy.plan.changeId, copy.creator, RefreshUpdate(copy, r));
  }

  lemma {:induction false} RunKeepsClaimed(h: Hub, steps: seq<Step>)
    requires Safe(h) && OwnerClaimed(Ledger(h.db, h.claims))
    ensures OwnerClaimed(Ledger(RunSteps(h, steps).db, RunSteps(h, steps).claims))
    decreases |steps|
  {
    if steps != [] {
      NextIsSafe(h, steps[0]);
      NextKeepsClaimed(h, steps[0]);
      RunKeepsClaimed(Next(h, steps[0]), steps[1..]);
    }
  }

  // ---------------------------------------------------------------- refreshing

  /**
   After any run, a refresh of a change as it is, by the terminal job of the stage
   it waits for, moves it out of that stage, whatever the runner printed and also
   when it printed nothing.
   */
  lemma RefreshMovesOn(steps: seq<Step>, copy: ChangeRecord, stage: JobCopy)
    requires
      var h := RunSteps(START, steps);
      && Current(h, copy) && stage in h.records && IsTerminal(stage.job.state)
      && ExpectedAction(copy.state).Some? && StageJob(copy.jobs, ExpectedAction(copy.state).value) == Some(stage.id)
      && (ReportOf(stage.job).Some? ==> Emitted(ReportOf(stage.job).value))
    ensures
      var h := RunSteps(START, steps);
      var h' := Next(h, RefreshCopy(copy, stage));
      var c := copy.plan.changeId;
      && c in h'.db.changes && CanAdvance(copy.state, h'.db.changes[c].record.state)
      && h'.accepted == h.accepted + {Acceptance(copy, h'.db.changes[c].record, stage)}
      && Explains(Acceptance(copy, h'.db.changes[c].record, stage))
  {
    var h := RunSteps(START, steps);
    var r := RefreshWith(copy, stage.job);
    StageTotality(copy, stage.job.host, stage.job.state == OutcomeUnknown, ReportOf(stage.job));
    UpdateExactly(h.db, copy.plan.changeId, copy.creator, RefreshUpdate(copy, r));
    var step := RefreshCopy(copy, stage);
    assert Next(h, step) == UpdateNext(h, copy, r, Some(stage));
    RunAppend(START, steps, step);
    var e := Acceptance(copy, Next(h, step).db.changes[copy.plan.changeId].record, stage);
    RefreshesAreExplained(steps + [step], e);
  }

  /** A refresh that lost its race leaves its caller the edited copy, and the row as it is. */
  lemma LostRaceKeepsEdit(h: Hub, copy: ChangeRecord, stage: JobCopy)
    requires Refreshes(h, copy, stage) && copy.plan.changeId in h.db.changes
    requires h.db.changes[copy.plan.changeId].record.revision != copy.revision
    ensures
      var r := RefreshWith(copy, stage.job);
      && Next(h, RefreshCopy(copy, stage)) == h
      && Next(h, LoseRace(copy, stage)) == h.(copies := h.copies + {copy.(plan := r.plan, artifact := r.artifact)})
  {
    UpdateExactly(h.db, copy.plan.changeId, copy.creator, RefreshUpdate(copy, RefreshWith(copy, stage.job)));
  }

  /** A ready change found expired, or overtaken by its source or host, becomes stale and keeps everything else. */
  lemma ExpiryMovesOn(h: Hub, copy: ChangeRecord)
    requires Current(h, copy) && copy.state == Ready
    ensures
      var h' := Next(h, ExpireCopy(copy));
      var c := copy.plan.changeId;
      && c in h'.db.changes && h'.db.changes[c].record == copy.(state := Stale, revision := copy.revision + 1)
      && h'.accepted == h.accepted && h'.db.jobs == h.db.jobs
  {
    UpdateExactly(h.db, copy.plan.changeId, copy.creator, RefreshUpdate(copy, Refreshed(Stale, copy.plan, copy.artifact)));
  }

  /** A preparation job opens its change, which then waits for that job's report. */
  lemma ChangeOpens(h: Hub, plan: Plan, creator: string, prepare: JobId)
    requires plan.changeId !in h.db.changes && Bounded(creator, 128) && IsPrepareJob(h, plan, prepare)
    requires plan.drvPath.None? && plan.lockDigest.None?
    ensures
      var h' := Next(h, OpenChange(plan, creator, prepare));
      && plan.changeId in h'.db.changes
      && (var record := h'.db.changes[plan.changeId].record;
          && record.state == Checking && record.creator == creator && record.plan == plan
          && StageJob(record.jobs, ExpectedAction(record.state).value) == Some(prepare))
  {
    CreateExactly(h.db, plan, creator, prepare);
  }

  // ---------------------------------------------------------------- the job of a workflow

  function StateOf(h: Hub, w: JobId): (s: Option<JobState>) { if w in h.db.jobs then Some(h.db.jobs[w].state) else None }

  lemma MoveGoesThrough(h: Hub, w: JobId, next: JobState)
    requires w in h.db.jobs && CanStep(h.db.jobs[w].state, next)
    ensures
      var h' := MoveNext(h, w, h.db.jobs[w].revision, next, None);
      && StateOf(h', w) == Some(next) && h' == h.(db := h'.db) && h'.db.changes == h.db.changes
      && h'.db.jobs[w] == h.db.jobs[w].(state := next, revision := h.db.jobs[w].revision + 1, result := None)
  {
    TransitionExactly(h.db, w, h.db.jobs[w].revision, next, None);
  }

  /** A queued workflow that nobody touches runs after two steps of its worker. */
  lemma WorkflowEnters(h: Hub, w: JobId)
    requires w in h.db.jobs && IsWorkflow(h.db.jobs[w]) && h.db.jobs[w].state == Queued
    ensures
      var r := h.db.jobs[w].revision;
      StateOf(Next(Next(h, EnterWorkflow(w, r)), EnterWorkflow(w, r + 1)), w) == Some(Running)
  {
    var mid := Next(h, EnterWorkflow(w, h.db.jobs[w].revision));
    MoveGoesThrough(h, w, Dispatching);
    MoveGoesThrough(mid, w, Running);
  }

  /** A cancel of a job that has not ended is recorded on it, and on nothing else. */
  lemma CancelIsMarked(h: Hub, w: JobId, reason: string)
    requires w in h.db.jobs && Bounded(reason, 1024)
    ensures
      var h' := Next(h, CancelJob(w, h.db.jobs[w].revision, reason));
      && w in h'.db.jobs && h' == h.(db := h'.db) && h'.db.changes == h.db.changes
      && (if IsTerminal(h.db.jobs[w].state) then h' == h
          else h'.db.jobs[w] == h.db.jobs[w].(cancelRequested := true, revision := h.db.jobs[w].revision + 1))
  {
    CancelExactly(h.db, w, h.db.jobs[w].revision, reason);
  }

  /** What a running workflow ends with when it sees its change in a state. */
  predicate EndsOn(job: Job, seen: ChangeState, goal: JobState) {
    && (goal == Succeeded ==> seen == ChangeSucceeded || (job.spec.Workflow? && job.spec.until == Built && seen == Ready))
    && (goal == Failed ==> seen in {RolledBack, RecoveryFailed, ChangeFailed, Stale, Superseded})
    && (goal == Cancelled ==> job.cancelRequested)
    && IsTerminal(goal)
  }

  /**
   A running workflow ends as succeeded, failed or cancelled exactly on what it sees
   of its change and its own record, and an unknown outcome goes through Reconciling.
   */
  lemma WorkflowFinishes(h: Hub, w: JobId, goal: JobState, seen: ChangeRecord)
    requires w in h.db.jobs && IsWorkflow(h.db.jobs[w]) && h.db.jobs[w].state == Running && IsTerminal(goal)
    requires seen in h.copies && seen.plan.changeId == h.db.jobs[w].spec.change
    ensures
      var r := h.db.jobs[w].revision;
      var once := Next(h, FinishWorkflow(w, r, goal, seen));
      var twice := Next(once, FinishWorkflow(w, r + 1, goal, seen));
      && (StateOf(once, w) == Some(goal) <==> goal != OutcomeUnknown && EndsOn(h.db.jobs[w], seen.state, goal))
      && (goal == OutcomeUnknown ==> StateOf(once, w) == Some(Reconciling) && StateOf(twice, w) == Some(OutcomeUnknown))
  {
    FinishStepsOn(h, w, goal, seen);
    if goal == OutcomeUnknown {
      MoveGoesThrough(h, w, Reconciling);
      FinishStepsOn(MoveNext(h, w, h.db.jobs[w].revision, Reconciling, None), w, goal, seen);
      MoveGoesThrough(MoveNext(h, w, h.db.jobs[w].revision, Reconciling, None), w, OutcomeUnknown);
    } else if EndsOn(h.db.jobs[w], seen.state, goal) {
      MoveGoesThrough(h, w, goal);
    }
  }

  /** One commit towards the goal, if the change that was seen allows it. */
  lemma FinishStepsOn(h: Hub, w: JobId, goal: JobState, seen: ChangeRecord)
    requires w in h.db.jobs && IsWorkflow(h.db.jobs[w]) && (h.db.jobs[w].state == Running || h.db.jobs[w].state == Reconciling)
    requires seen in h.copies && seen.plan.changeId == h.db.jobs[w].spec.change
    ensures
      var job := h.db.jobs[w];
      Next(h, FinishWorkflow(w, job.revision, goal, seen)) ==
        if EndsOn(job, seen.state, goal)
        then MoveNext(h, w, job.revision, if goal == OutcomeUnknown && job.state == Running then Reconciling else goal, None)
        else h
  {
    assert MayFinish(h, w, goal, seen) <==> EndsOn(h.db.jobs[w], seen.state, goal);
  }

  lemma {:induction false} RunAppend(h: Hub, steps: seq<Step>, step: Step)
    ensures RunSteps(h, steps + [step]) == Next(RunSteps(h, steps), step)
    decreases |steps|
  {
    if steps == [] {
      assert steps + [step] == [step];
      assert RunSteps(Next(h, step), [step][1..]) == Next(h, step);
    } else {
      assert (steps + [step])[1..] == steps[1..] + [step];
      RunAppend(Next(h, steps[0]), steps[1..], step);
    }
  }

  // ---------------------------------------------------------------- settling an unknown workflow

  /** The reconciliation after its first `n` children were found settled. */
  function CheckedUpTo(t: Reconciliation, children: seq<JobId>): (r: Reconciliation)
    decreases |children|
  {
    if children == [] then t
    else CheckedUpTo(t, children[..|children| - 1]).(checked := CheckedUpTo(t, children[..|children| - 1]).checked + {children[|children| - 1]})
  }

  lemma {:induction false} CheckedChildren(t: Reconciliation, children: seq<JobId>)
    ensures CheckedUpTo(t, children) == t.(checked := t.checked + set i | 0 <= i < |children| :: children[i])
    decreases |children|
  {
    if children != [] {
      var before := children[..|children| - 1];
      CheckedChildren(t, before);
      assert (set i | 0 <= i < |children| :: children[i]) == (set i | 0 <= i < |before| :: before[i]) + {children[|before|]};
    }
  }

  /** One check after the other. */
  function CheckSteps(t: Reconciliation, children: seq<JobId>): (steps: seq<Step>)
    decreases |children|
  {
    if children == [] then []
    else
      var before := children[..|children| - 1];
      CheckSteps(t, before) + [CheckChild(CheckedUpTo(t, before), children[|children| - 1])]
  }

  lemma {:induction false} ChecksGoThrough(h: Hub, t: Reconciliation, children: seq<JobId>)
    requires t in h.tasks
    requires forall i :: 0 <= i < |children| ==> children[i] in h.db.jobs && IsSettled(h.db.jobs[children[i]].state)
    ensures
      var h' := RunSteps(h, CheckSteps(t, children));
      h' == h.(tasks := h'.tasks) && CheckedUpTo(t, children) in h'.tasks
    decreases |children|
  {
    if children != [] {
      var before := children[..|children| - 1];
      ChecksGoThrough(h, t, before);
      RunAppend(h, CheckSteps(t, before), CheckChild(CheckedUpTo(t, before), children[|children| - 1]));
    }
  }

  function Named(jobs: ChangeJobs): (s: seq<JobId>) {
    Listed(jobs.build) + Listed(jobs.activate) + Listed(jobs.verify) + Listed(jobs.rollback)
  }

  function Listed(o: Option<JobId>): (s: seq<JobId>) { if o.Some? then [o.value] else [] }

  lemma NamedAreChildren(jobs: ChangeJobs)
    ensures (set i | 0 <= i < |Named(jobs)| :: Named(jobs)[i]) == Children(jobs)
  {
    var s := Named(jobs);
    forall j | j in Children(jobs) ensures j in s {
      assert Some(j) in {jobs.build, jobs.activate, jobs.verify, jobs.rollback};
    }
    forall i | 0 <= i < |s| ensures s[i] in Children(jobs) {
      assert Some(s[i]) in {jobs.build, jobs.activate, jobs.verify, jobs.rollback};
    }
  }

  /** The reconciliation of an unknown workflow on the tables as they are. */
  function ReconcileSteps(h: Hub, w: JobId): (steps: seq<Step>)
    requires w in h.db.jobs && IsWorkflow(h.db.jobs[w]) && h.db.jobs[w].spec.change in h.db.changes
  {
    var job := h.db.jobs[w];
    var record := h.db.changes[job.spec.change].record;
    var begun := Reconciliation(w, job.revision, job.cancelRequested, None, {});
    var read := begun.(seen := Some(Seen(record.state, record.jobs)));
    [BeginReconcile(w), ReadForReconcile(begun)] + CheckSteps(read, Named(record.jobs))
      + [SettleWorkflow(CheckedUpTo(read, Named(record.jobs)))]
  }

  lemma {:induction false} RunTogether(h: Hub, a: seq<Step>, b: seq<Step>)
    ensures RunSteps(h, a + b) == RunSteps(RunSteps(h, a), b)
    decreases |a|
  {
    if a == [] {
      assert a + b == b;
    } else {
      assert (a + b)[1..] == a[1..] + b;
      RunTogether(Next(h, a[0]), a[1..], b);
    }
  }

  lemma ReadingGoesThrough(h: Hub, w: JobId)
    requires w in h.db.jobs && IsWorkflow(h.db.jobs[w]) && h.db.jobs[w].state == OutcomeUnknown
    requires h.db.jobs[w].spec.change in h.db.changes
    ensures
      var job := h.db.jobs[w];
      var record := h.db.changes[job.spec.change].record;
      var begun := Reconciliation(w, job.revision, job.cancelRequested, None, {});
      var h' := RunSteps(h, [BeginReconcile(w), ReadForReconcile(begun)]);
      h' == h.(tasks := h'.tasks) && begun.(seen := Some(Seen(record.state, record.jobs))) in h'.tasks
  {
    var begun := Reconciliation(w, h.db.jobs[w].revision, h.db.jobs[w].cancelRequested, None, {});
    BeginGoesThrough(h, w);
    ReadGoesThrough(Next(h, BeginReconcile(w)), begun);
    assert [BeginReconcile(w), ReadForReconcile(begun)][1..] == [ReadForReconcile(begun)];
    RunOne(Next(h, BeginReconcile(w)), ReadForReconcile(begun));
  }

  lemma RunOne(h: Hub, step: Step)
    ensures RunSteps(h, [step]) == Next(h, step)
  {
    assert [step][1..] == [];
  }

  lemma BeginGoesThrough(h: Hub, w: JobId)
    requires w in h.db.jobs && IsWorkflow(h.db.jobs[w]) && h.db.jobs[w].state == OutcomeUnknown
    ensures
      var job := h.db.jobs[w];
      Next(h, BeginReconcile(w)) ==
        h.(tasks := h.tasks + {Reconciliation(w, job.revision, job.cancelRequested, None, {})})
  {
  }

  lemma ReadGoesThrough(h: Hub, t: Reconciliation)
    requires t in h.tasks && t.workflow in h.db.jobs && IsWorkflow(h.db.jobs[t.workflow])
    requires h.db.jobs[t.workflow].spec.change in h.db.changes
    ensures
      var record := h.db.changes[h.db.jobs[t.workflow].spec.change].record;
      Next(h, ReadForReconcile(t)) == h.(tasks := h.tasks + {t.(seen := Some(Seen(record.state, record.jobs)))})
  {
  }

  /**
   After any run, an unknown workflow whose children are all settled is settled by
   one undisturbed reconciliation, to what its change shows.
   */
  lemma UnknownWorkflowSettles(steps: seq<Step>, w: JobId)
    requires
      var h := RunSteps(START, steps);
      && w in h.db.jobs && IsWorkflow(h.db.jobs[w]) && h.db.jobs[w].state == OutcomeUnknown
      && h.db.jobs[w].spec.change in h.db.changes
      && forall j :: j in Children(h.db.changes[h.db.jobs[w].spec.change].record.jobs) ==>
           j in h.db.jobs && IsSettled(h.db.jobs[j].state)
    ensures
      var h := RunSteps(START, steps);
      var job := h.db.jobs[w];
      var h' := RunSteps(h, ReconcileSteps(h, w));
      && w in h'.db.jobs && IsSettled(h'.db.jobs[w].state)
      && SettledAs(job, h.db.changes[job.spec.change].record.state, h'.db.jobs[w].state)
  {
    var h := RunSteps(START, steps);
    var job := h.db.jobs[w];
    var record := h.db.changes[job.spec.change].record;
    var begun := Reconciliation(w, job.revision, job.cancelRequested, None, {});
    var read := begun.(seen := Some(Seen(record.state, record.jobs)));
    var reading := [BeginReconcile(w), ReadForReconcile(begun)];
    var h2 := RunSteps(h, reading);
    ReadingGoesThrough(h, w);
    NamedAreChildren(record.jobs);
    var children := Named(record.jobs);
    forall i | 0 <= i < |children| ensures children[i] in h.db.jobs && IsSettled(h.db.jobs[children[i]].state) {
      assert children[i] in Children(record.jobs);
    }
    ChecksGoThrough(h2, read, children);
    CheckedChildren(read, children);
    RunTogether(h, reading, CheckSteps(read, children));
    RunAppend(h, reading + CheckSteps(read, children), SettleWorkflow(CheckedUpTo(read, children)));
    SettlesAsShown(RunSteps(h2, CheckSteps(read, children)), CheckedUpTo(read, children));
  }

  lemma SettlesAsShown(h: Hub, t: Reconciliation)
    requires t in h.tasks && t.seen.Some? && Children(t.seen.value.jobs) <= t.checked
    requires t.workflow in h.db.jobs && IsWorkflow(h.db.jobs[t.workflow]) && h.db.jobs[t.workflow].state == OutcomeUnknown
    requires t.revision == h.db.jobs[t.workflow].revision && t.cancelRequested == h.db.jobs[t.workflow].cancelRequested
    ensures
      var h' := Next(h, SettleWorkflow(t));
      && t.workflow in h'.db.jobs && IsSettled(h'.db.jobs[t.workflow].state)
      && SettledAs(h.db.jobs[t.workflow], t.seen.value.state, h'.db.jobs[t.workflow].state)
  {
    TransitionExactly(h.db, t.workflow, t.revision, VerdictOf(h, t), None);
  }
}
