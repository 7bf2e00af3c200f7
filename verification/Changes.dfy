/**
 The change state graph of maxops-proto, and the plans, artifacts and reports
 that a deployment stage carries.
 */
module Changes {
  import opened Wrappers
  import opened Jobs

  datatype ChangeId = ChangeId(n: nat)

  datatype ChangeState =
    | Prepared | Checking | Building | Publishing | Ready | Activating | Verifying | Recovering
    | ChangeSucceeded | RolledBack | RecoveryFailed | ChangeFailed | Stale | Superseded | ChangeUnknown

  datatype DeploymentAction = Prepare | Build | Activate | Verify | Rollback

  datatype Until = Built | Verified

  /** The actual host state frozen while a change was prepared. */
  datatype RuntimeBaseline = RuntimeBaseline(
    runningClosure: Option<string>,
    persistentProfile: Option<string>,
    generation: Option<nat>,
    bootId: Option<string>)

  datatype Plan = Plan(
    changeId: ChangeId,
    sourceCommit: string,
    treeHash: string,
    drvPath: Option<string>,
    lockDigest: Option<string>,
    baseline: RuntimeBaseline)

  datatype Artifact = Artifact(
    builderHost: string,
    sourceCommit: string,
    treeHash: string,
    lockDigest: string,
    drvPath: string,
    outPath: string)

  datatype ChangeJobs = ChangeJobs(
    prepare: Option<JobId>,
    build: Option<JobId>,
    activate: Option<JobId>,
    verify: Option<JobId>,
    rollback: Option<JobId>)

  datatype ChangeRecord = ChangeRecord(
    plan: Plan,
    creator: string,
    revision: nat,
    state: ChangeState,
    artifact: Option<Artifact>,
    jobs: ChangeJobs)

  datatype ReportStatus =
    | ReportPrepared | ReportBuilt | ReportActivated | ReportVerified | ReportRolledBack
    | ReportStale | ReportSuperseded | ReportRecoveryFailed | ReportOutcomeUnknown | ReportFailed

  datatype DeploymentReport = DeploymentReport(
    action: DeploymentAction,
    status: ReportStatus,
    drvPath: Option<string>,
    outPath: Option<string>,
    lockDigest: Option<string>,
    observedRunning: Option<string>,
    observedProfile: Option<string>)

  predicate IsTerminalChange(s: ChangeState) {
    || s.ChangeSucceeded? || s.RolledBack? || s.RecoveryFailed? || s.ChangeFailed?
    || s.Stale? || s.Superseded? || s.ChangeUnknown?
  }

  predicate CanAdvance(s: ChangeState, next: ChangeState) {
    match s
    case Checking => next.Prepared? || next.ChangeFailed? || next.Stale? || next.ChangeUnknown?
    case Prepared => next.Building? || next.Stale? || next.ChangeFailed?
    case Building => next.Publishing? || next.Ready? || next.ChangeFailed? || next.Stale? || next.ChangeUnknown?
    case Publishing => next.Ready? || next.ChangeFailed? || next.Stale? || next.ChangeUnknown?
    case Ready => next.Activating? || next.Stale? || next.ChangeFailed?
    case Activating =>
      || next.Verifying? || next.RolledBack? || next.RecoveryFailed? || next.ChangeFailed?
      || next.Stale? || next.Superseded? || next.ChangeUnknown?
    case Verifying =>
      || next.ChangeSucceeded? || next.Recovering? || next.RolledBack? || next.RecoveryFailed?
      || next.ChangeFailed? || next.Superseded? || next.ChangeUnknown?
    case ChangeSucceeded => next.Recovering?
    case Recovering => next.RolledBack? || next.RecoveryFailed? || next.Superseded? || next.ChangeUnknown?
    case _ => false
  }

  /** Progress of a change through its pipeline. */
  function Rank(s: ChangeState): (r: nat) {
    match s
    case Checking => 0
    case Prepared => 1
    case Building => 2
    case Publishing => 3
    case Ready => 4
    case Activating => 5
    case Verifying => 6
    case ChangeSucceeded => 7
    case Recovering => 8
    case _ => 9
  }

  /** The same graph read by target: from where each state is entered. */
  lemma EnteredFrom(s: ChangeState, next: ChangeState)
    ensures next.Stale? ==> (CanAdvance(s, next) <==> Rank(s) <= Rank(Activating))
    ensures next.ChangeFailed? ==> (CanAdvance(s, next) <==> Rank(s) <= Rank(Verifying))
    ensures next.ChangeUnknown? ==>
      (CanAdvance(s, next) <==> Rank(s) <= Rank(Recovering) && s != Prepared && s != Ready && s != ChangeSucceeded)
    ensures next.Superseded? || next.RolledBack? || next.RecoveryFailed? ==>
      (CanAdvance(s, next) <==> s == Activating || s == Verifying || s == Recovering)
    ensures next.Recovering? ==> (CanAdvance(s, next) <==> s == Verifying || s == ChangeSucceeded)
    ensures next.Ready? ==> (CanAdvance(s, next) <==> s == Building || s == Publishing)
    ensures (!IsTerminalChange(next) && !next.Recovering? && !next.Ready?) || next.ChangeSucceeded? ==>
      (CanAdvance(s, next) <==> Rank(next) == Rank(s) + 1)
  {
  }

  function OperationFor(action: DeploymentAction): (op: Operation) {
    match action
    case Prepare => DeployPrepare
    case Build => DeployBuild
    case Activate => DeployActivate
    case Verify => DeployVerify
    case Rollback => DeployRollback
  }
}
