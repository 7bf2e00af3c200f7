/**
 The job state graph of maxops-proto and the identities of jobs.

 A job identifier is either a version 7 UUID or the identifier derived from a
 parent job and an operation name.  Fresh UUIDs and the collision-free digest of
 the parent are modelled by the two injective constructors.
 */
module Jobs {
  datatype JobId = Uuid(n: nat) | Child(parent: JobId, operation: Operation)

  datatype Operation =
    | ExecRun
    | UnitStart | UnitStop | UnitRestart | UnitReload
    | DeployPrepare | DeployBuild | DeployActivate | DeployVerify | DeployRollback
    | DeployRun
    | OtherOperation(name: string)

  datatype JobState =
    | Queued | Dispatching | Running | Reconciling
    | Succeeded | Failed | Cancelled | TimedOut | OutcomeUnknown

  predicate IsTerminal(s: JobState) {
    s == Succeeded || s == Failed || s == Cancelled || s == TimedOut || s == OutcomeUnknown
  }

  /** Settled states are final; `OutcomeUnknown` is terminal but may still be resolved. */
  predicate IsSettled(s: JobState) {
    IsTerminal(s) && s != OutcomeUnknown
  }

  /** The states in which a job may be acting on its host. */
  predicate IsActive(s: JobState) {
    s == Dispatching || s == Running || s == Reconciling
  }

  predicate CanStep(s: JobState, next: JobState) {
    match s
    case Queued => next.Dispatching? || next.Failed? || next.Cancelled? || next.TimedOut?
    case Dispatching =>
      next.Running? || next.Reconciling? || next.Succeeded? || next.Failed? || next.Cancelled? || next.TimedOut?
    case Running => next.Reconciling? || next.Succeeded? || next.Failed? || next.Cancelled? || next.TimedOut?
    case Reconciling =>
      next.Running? || next.Succeeded? || next.Failed? || next.Cancelled? || next.TimedOut? || next.OutcomeUnknown?
    case OutcomeUnknown => next.Succeeded? || next.Failed? || next.Cancelled? || next.TimedOut?
    case _ => false
  }

  /** The same graph read by target: from where each state is entered. */
  lemma EnteredFrom(s: JobState, next: JobState)
    ensures next.Failed? || next.Cancelled? || next.TimedOut? ==> (CanStep(s, next) <==> !IsSettled(s))
    ensures next.Succeeded? ==> (CanStep(s, next) <==> !IsSettled(s) && s != Queued)
    ensures next.OutcomeUnknown? ==> (CanStep(s, next) <==> s == Reconciling)
    ensures next.Reconciling? ==> (CanStep(s, next) <==> s == Dispatching || s == Running)
    ensures next.Running? ==> (CanStep(s, next) <==> s == Dispatching || s == Reconciling)
    ensures next.Dispatching? ==> (CanStep(s, next) <==> s == Queued)
    ensures next.Queued? ==> !CanStep(s, next)
  {
  }

  /** Operations the Hub executes itself instead of dispatching them to an executor. */
  predicate IsLocal(op: Operation) {
    op == DeployRun || op == OtherOperation("diagnostics.collect") || op == OtherOperation("remediations.begin")
  }

  predicate IsServiceAction(op: Operation) {
    op == UnitStart || op == UnitStop || op == UnitRestart || op == UnitReload
  }

  /** Deployment stages that share the host-level lock with service actions. */
  predicate SerializesHostChanges(op: Operation) {
    op == DeployActivate || op == DeployVerify || op == DeployRollback
  }
}
