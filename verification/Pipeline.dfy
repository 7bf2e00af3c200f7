/**
 The decisions of the change pipeline: which stage a change may enter, how a
 stage report moves it, and what a deploy.run workflow does next.
 */
module Pipeline {
  import opened Wrappers
  import opened Jobs
  import opened Changes
  import opened StoreModel
  import DurableStore

  // ---------------------------------------------------------------- stages

  /** The stage whose report a change in this state waits for. */
  function ExpectedAction(s: ChangeState): (a: Option<DeploymentAction>) {
    match s
    case Checking => Some(Prepare)
    case Building => Some(Build)
    case Publishing => Some(Build)
    case Activating => Some(Activate)
    case Verifying => Some(Verify)
    case Recovering => Some(Rollback)
    case _ => None
  }

  /** The states from which `submit_change_stage_owned` starts a stage. */
  predicate Startable(action: DeploymentAction, s: ChangeState) {
    match action
    case Build => s == Prepared
    case Activate => s == Ready
    case Verify => s == Verifying
    case Rollback => s == Verifying || s == ChangeSucceeded
    case Prepare => false
  }

  function StageState(action: DeploymentAction): (s: ChangeState) {
    match action
    case Prepare => Checking
    case Build => Building
    case Activate => Activating
    case Verify => Verifying
    case Rollback => Recovering
  }

  /** Every step of the graph other than staying put moves the change forward. */
  lemma AdvanceRaisesRank(s: ChangeState, next: ChangeState)
    requires CanAdvance(s, next)
    ensures Rank(s) < Rank(next) && s != next
  {
  }

  /**
   A stage other than preparation starts exactly where the graph leads into its
   state, verification exactly where the change already is; it then waits for the
   report of that stage.
   */
  lemma StartIsLegal(action: DeploymentAction, s: ChangeState)
    ensures Startable(action, s) <==>
      if action == Verify then s == StageState(Verify) else action != Prepare && CanAdvance(s, StageState(action))
    ensures Startable(action, s) && action != Verify ==> Rank(s) < Rank(StageState(action))
    ensures ExpectedAction(StageState(action)) == Some(action)
    ensures ExpectedAction(s).Some? && s != Publishing ==> s == StageState(ExpectedAction(s).value)
    ensures ExpectedAction(s).Some? <==> !IsTerminalChange(s) && s != Prepared && s != Ready
  {
  }

  // ---------------------------------------------------------------- reports

  datatype Refreshed = Refreshed(next: ChangeState, plan: Plan, artifact: Option<Artifact>)

  /** `refresh_change` once the stage job is terminal; `unknown` when it ended as outcome unknown. */
  function Refresh(change: ChangeRecord, builder: string, unknown: bool, report: Option<DeploymentReport>): (r: Refreshed) {
    if report.None? || Some(report.value.action) != ExpectedAction(change.state) then
      Refreshed(
        if unknown then ChangeUnknown else if change.state == Recovering then RecoveryFailed else ChangeFailed,
        change.plan, change.artifact)
    else
      var same := (next: ChangeState) => Refreshed(next, change.plan, change.artifact);
      match report.value.status
      case ReportPrepared =>
        var plan := change.plan.(drvPath := report.value.drvPath, lockDigest := report.value.lockDigest);
        Refreshed(if plan.drvPath.None? || plan.lockDigest.None? then ChangeFailed else Prepared, plan, change.artifact)
      case ReportBuilt =>
        if report.value.outPath.Some? && change.plan.drvPath.Some? && change.plan.lockDigest.Some? then
          var artifact := Artifact(builder, change.plan.sourceCommit, change.plan.treeHash,
                                   change.plan.lockDigest.value, change.plan.drvPath.value, report.value.outPath.value);
          Refreshed(Ready, change.plan, Some(artifact))
        else same(ChangeFailed)
      case ReportActivated => same(Verifying)
      case ReportVerified => same(ChangeSucceeded)
      case ReportRolledBack => same(RolledBack)
      case ReportStale => same(Stale)
      case ReportSuperseded => same(Superseded)
      case ReportRecoveryFailed => same(RecoveryFailed)
      case ReportOutcomeUnknown => same(ChangeUnknown)
      case ReportFailed => same(if change.state == Recovering then RecoveryFailed else ChangeFailed)
  }

  function RefreshUpdate(change: ChangeRecord, r: Refreshed): (u: ChangeUpdate) {
    ChangeUpdate(change.revision, r.next, r.plan, r.artifact, change.jobs)
  }

  /** A lost revision race returns the locally edited copy instead of an error. */
  method RefreshChange(store: DurableStore.Store, copy: ChangeRecord, builder: string, unknown: bool,
                       report: Option<DeploymentReport>)
    returns (r: Result<ChangeRecord, StoreError>)
    requires store.Valid()
    modifies store`changes
    ensures store.Valid()
    ensures
      var update := RefreshUpdate(copy, Refresh(copy, builder, unknown, report));
      var outcome := TransitionChange(old(store.Tables()), copy.plan.changeId, copy.creator, update);
      var reported := report.Some? && Some(report.value.action) == ExpectedAction(copy.state);
      match outcome
      case Ok(db) => store.Tables() == db && r == Ok(db.changes[copy.plan.changeId].record)
      case Err(e) =>
        && store.Tables() == old(store.Tables())
        && r == (if reported && e == RevisionChanged
                 then Ok(copy.(plan := update.plan, artifact := update.artifact)) else Err(e))
  {
    var change := copy;
    if report.None? || Some(report.value.action) != ExpectedAction(change.state) {
      var next := ChangeFailed;
      if unknown {
        next := ChangeUnknown;
      } else if change.state == Recovering {
        next := RecoveryFailed;
      }
      r := store.TransitionChange(change.plan.changeId, change.creator,
                                  ChangeUpdate(change.revision, next, change.plan, change.artifact, change.jobs));
      return;
    }
    var next := ChangeFailed;
    match report.value.status {
      case ReportPrepared =>
        change := change.(plan := change.plan.(drvPath := report.value.drvPath, lockDigest := report.value.lockDigest));
        if change.plan.drvPath.Some? && change.plan.lockDigest.Some? {
          next := Prepared;
        }
      case ReportBuilt =>
        if report.value.outPath.Some? && change.plan.drvPath.Some? && change.plan.lockDigest.Some? {
          change := change.(artifact := Some(Artifact(builder, change.plan.sourceCommit, change.plan.treeHash,
            change.plan.lockDigest.value, change.plan.drvPath.value, report.value.outPath.value)));
          next := Ready;
        }
      case ReportActivated => next := Verifying;
      case ReportVerified => next := ChangeSucceeded;
      case ReportRolledBack => next := RolledBack;
      case ReportStale => next := Stale;
      case ReportSuperseded => next := Superseded;
      case ReportRecoveryFailed => next := RecoveryFailed;
      case ReportOutcomeUnknown => next := ChangeUnknown;
      case ReportFailed =>
        if change.state == Recovering {
          next := RecoveryFailed;
        }
    }
    r := store.TransitionChange(change.plan.changeId, copy.creator,
                                ChangeUpdate(change.revision, next, change.plan, change.artifact, change.jobs));
    if r == Err(RevisionChanged) {
      r := Ok(change);
    }
  }

  // ---------------------------------------------------------------- stage totality

  /** The reports the target runner can print for each action. */
  predicate Emitted(report: DeploymentReport) {
    match report.action
    case Prepare => report.status == ReportPrepared && report.drvPath.Some? && report.lockDigest.Some?
    case Build => report.status == ReportBuilt && report.outPath.Some?
    case Activate =>
      report.status.ReportActivated? || report.status.ReportStale? || report.status.ReportSuperseded?
      || report.status.ReportFailed? || report.status.ReportRecoveryFailed? || report.status.ReportRolledBack?
    case Verify =>
      report.status.ReportVerified? || report.status.ReportSuperseded? || report.status.ReportFailed?
      || report.status.ReportRecoveryFailed? || report.status.ReportRolledBack?
    case Rollback =>
      report.status.ReportSuperseded? || report.status.ReportRecoveryFailed? || report.status.ReportRolledBack?
  }

  /**
   Every report the runner can print, and every stage that ends without one,
   moves a waiting change out of its stage by a legal step.
   */
  lemma StageTotality(change: ChangeRecord, builder: string, unknown: bool, report: Option<DeploymentReport>)
    requires ExpectedAction(change.state).Some?
    requires report.Some? ==> Emitted(report.value)
    ensures CanAdvance(change.state, Refresh(change, builder, unknown, report).next)
  {
  }

  /** For arbitrary reports, exactly the ones the store refuses; the change then stays in its stage. */
  lemma RefreshRejects(change: ChangeRecord, builder: string, unknown: bool, report: DeploymentReport)
    requires ExpectedAction(change.state) == Some(report.action)
    ensures
      var next := Refresh(change, builder, unknown, Some(report)).next;
      var complete := report.drvPath.Some? && report.lockDigest.Some?;
      var buildable := report.outPath.Some? && change.plan.drvPath.Some? && change.plan.lockDigest.Some?;
      !(change.state == next || CanAdvance(change.state, next)) <==>
        match report.status
        case ReportPrepared => if complete then change.state != Checking else change.state == Recovering
        case ReportBuilt =>
          if buildable then change.state != Building && change.state != Publishing else change.state == Recovering
        case ReportActivated => change.state != Activating && change.state != Verifying
        case ReportVerified => change.state != Verifying
        case ReportRolledBack => Rank(change.state) < Rank(Activating)
        case ReportStale => change.state == Verifying || change.state == Recovering
        case ReportSuperseded => Rank(change.state) < Rank(Activating)
        case ReportRecoveryFailed => Rank(change.state) < Rank(Activating)
        case ReportOutcomeUnknown => false
        case ReportFailed => false
  {
  }

  /** A refused report: the runner's Verify status on an Activate report, while Activating. */
  lemma MisfitReportIsRefused(change: ChangeRecord, builder: string, report: DeploymentReport)
    requires change.state == Activating && report.action == Activate && report.status == ReportVerified
    ensures
      var next := Refresh(change, builder, false, Some(report)).next;
      next == ChangeSucceeded && next != change.state && !CanAdvance(change.state, next)
  {
    RefreshRejects(change, builder, false, report);
  }

  // ---------------------------------------------------------------- provenance

  /** The executor's checks of the artifact against the plan of a later stage. */
  predicate ArtifactMatches(plan: Plan, artifact: Option<Artifact>) {
    && artifact.Some?
    && artifact.value.sourceCommit == plan.sourceCommit
    && artifact.value.treeHash == plan.treeHash
    && plan.lockDigest == Some(artifact.value.lockDigest)
    && plan.drvPath == Some(artifact.value.drvPath)
  }

  predicate NeedsArtifact(s: ChangeState) {
    s == Ready || s == Activating || s == Verifying || s == ChangeSucceeded || s == Recovering
  }

  predicate Proven(change: ChangeRecord) {
    NeedsArtifact(change.state) ==> ArtifactMatches(change.plan, change.artifact)
  }

  /** Whatever the report says, an accepted refresh keeps the artifact tied to the plan. */
  lemma RefreshKeepsProvenance(change: ChangeRecord, builder: string, unknown: bool, report: Option<DeploymentReport>)
    requires Proven(change) && ExpectedAction(change.state).Some?
    ensures
      var r := Refresh(change, builder, unknown, report);
      change.state == r.next || CanAdvance(change.state, r.next) ==>
        Proven(change.(state := r.next, plan := r.plan, artifact := r.artifact))
  {
  }

  // ---------------------------------------------------------------- the workflow loop

  /** The change state with which a workflow ends as succeeded. */
  predicate Attained(until: Until, s: ChangeState) {
    (until == Built && s == Ready) || s == ChangeSucceeded
  }

  /** The stage the loop of `run` submits next, after its finishing checks. */
  function WorkflowAction(until: Until, change: ChangeRecord): (a: Option<DeploymentAction>) {
    if Attained(until, change.state) || IsTerminalChange(change.state) then None
    else
      match change.state
      case Prepared => Some(Build)
      case Ready => Some(Activate)
      case Verifying => if change.jobs.verify.None? then Some(Verify) else None
      case _ => None
  }

  /**
   The loop never asks for a stage the change cannot start, and stops asking only
   when the change is finished for it or a stage is still outstanding.
   */
  lemma WorkflowNeverStuck(until: Until, change: ChangeRecord)
    ensures
      var action := WorkflowAction(until, change);
      && (action.Some? ==> Startable(action.value, change.state) && !Attained(until, change.state))
      && (action.None? ==>
            || Attained(until, change.state) || IsTerminalChange(change.state)
            || (ExpectedAction(change.state).Some? && (change.state == Verifying ==> change.jobs.verify.Some?)))
      && (action == Some(Verify) ==> change.jobs.verify.None?)
      && action != Some(Rollback)
  {
  }

  /** The verdict of a reconciliation on a change whose children are all settled. */
  function Verdict(until: Until, cancelRequested: bool, s: ChangeState): (next: JobState) {
    if Attained(until, s) then Succeeded else if cancelRequested then Cancelled else Failed
  }

  /** The commit `finish` makes towards `goal` from the state it just read. */
  function FinishStep(s: JobState, goal: JobState): (next: JobState) {
    var goal := if goal == OutcomeUnknown && s == Queued then Failed else goal;
    if goal == OutcomeUnknown && s != Reconciling then Reconciling else goal
  }
}
